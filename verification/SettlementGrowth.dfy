/** What follows one pending, or one applicant, through a run: counters, retries, re-applications. */
module SettlementGrowth {
  import opened Options
  import opened Settlement
  import opened SettlementRuns
  import opened SettlementTheorems

  // ---- Counters only grow ----

  predicate Grown(r: Pending, r': Pending) {
    && r'.key == r.key && r'.nonce == r.nonce
    && r.epoch <= r'.epoch && r.tries <= r'.tries && r.spent <= r'.spent && r.settleFailures <= r'.settleFailures
    && (r.removed ==> r'.removed) && (r.capReached ==> r'.capReached) && (r.passing ==> r'.passing)
  }

  /** What may happen to a pending in one step: a claimed one comes back only as a counted retry. */
  predicate Evolves(r: Pending, r': Pending) {
    && Grown(r, r')
    && (r.done && !r'.done ==> r.settleFailures < r'.settleFailures < MAX_SETTLE_FAILURES)
  }

  ghost predicate Evolve<P>(c: Core<P>, c': Core<P>) {
    forall p | p in c.cells :: p in c'.cells && Evolves(c.cells[p], c'.cells[p])
  }

  lemma ArmEvolves<P>(c: Core<P>, p: P, r: Pending, delay: int, reason: Reason)
    requires p in c.cells ==> Evolves(c.cells[p], r)
    ensures Evolve(c, Arm(c, p, r, delay, reason))
  {
    ArmedStands(r, c.now, delay, reason);
  }

  lemma ArrivalEvolves<P>(c: Core<P>, p: P, r: Pending)
    requires KeysKnown(c) && p !in c.cells
    ensures Evolve(c, StartPending(c, p, r).0)
  {
    if StartPending(c, p, r).1.Started? { StartShape(c, p, r); }
  }

  lemma DeliveryEvolves<P>(c: Core<P>, p: P, g: int, m: int, d: bool, w: int)
    requires p in c.cells
    ensures Evolve(c, FinishChallenge(c, c.cells[p].key, p, g, m, d, w).0)
  {
    DeliverShape(c, c.cells[p].key, p, g, m, d, w);
    var r := Delivered(c.cells[p], g, m, d, c.now + w);
    assert Evolves(c.cells[p], r);
    ArmEvolves(c, p, r, w, ExpiryReason(d));
  }

  lemma MessageEvolves<P>(c: Core<P>, prompt: Prompt<P>, send: Send, question: bool, text: string, reset: bool, w: int)
    requires prompt.owner in c.cells
    ensures Evolve(c, CompleteDM(c, prompt, send, question, text, reset, w).0)
  {
    MessageShape(c, prompt, send, question, text, reset, w);
    var p := prompt.owner;
    forall v, restart: bool ensures Evolve(c, WriteBack(c, p, c.cells[p].(screen := v), restart, w)) {
      var r := c.cells[p].(screen := v);
      WriteBackShape(c, p, r, restart, w);
      if restart { ArmEvolves(c, p, Due(r, c.now + w), w, Timeout); }
    }
  }

  lemma DeferEvolves<P>(c: Core<P>, key: Key, nonce: string, epoch: nat, reason: Reason, window: int)
    requires KeysKnown(c)
    ensures Evolve(c, DeferExpiry(c, key, nonce, epoch, reason, window))
  {
    if key in c.pend {
      var d := Deferred(c.cells[c.pend[key]], c.now, reason, window);
      ArmEvolves(c, c.pend[key], d.0, d.1, d.2);
    }
  }

  lemma FallbackEvolves<P>(c: Core<P>, key: Key, nonce: string, question: string, answers: seq<string>)
    requires KeysKnown(c)
    ensures Evolve(c, BeginFallback(c, key, nonce, question, answers).0)
  {
    FallbackShape(c, key, nonce, question, answers);
    if BeginFallback(c, key, nonce, question, answers).1 {
      ArmEvolves(c, c.pend[key], Switched(c.cells[c.pend[key]], question, answers, c.now + PENDING_DELIVERY_TIMEOUT),
                 PENDING_DELIVERY_TIMEOUT, ChallengePostFailed);
    }
  }

  lemma RecoveredEvolves(r: Pending, now: Time, window: int)
    ensures var r' := RecoveredPending(r, now, window);
      Evolves(r, r') && r'.done == r.done
  {
    RecoveredStands(r, now, window);
  }

  lemma RecoveryEvolves<P>(c: Core<P>, windows: (int, Gate) -> int)
    ensures Evolve(c, Recover(c, windows))
  {
    if !c.shuttingDown {
      forall p | p in c.cells ensures p in Recover(c, windows).cells && Evolves(c.cells[p], Recover(c, windows).cells[p]) {
        RecoveredEvolves(c.cells[p], c.now, windows(c.cells[p].key.gid, c.cells[p].gate));
      }
    }
  }

  lemma RetryEvolves<P>(c: Core<P>, p: P, reason: Reason)
    requires p in c.cells && c.cells[p].done
    ensures Evolve(c, Reopen(c, c.cells[p].key, p, reason).0)
  {
    ReopenShape(c, p, reason);
    if c.cells[p].settleFailures + 1 < MAX_SETTLE_FAILURES {
      RetriedEvolves(c.cells[p], c.now, reason);
      WriteEvolves(c, p, RetriedPending(c.cells[p], c.now, reason));
    }
    WriteEvolves(c, p, c.cells[p].(settleFailures := c.cells[p].settleFailures + 1));
  }

  lemma RetriedEvolves(r: Pending, now: Time, reason: Reason)
    requires r.settleFailures + 1 < MAX_SETTLE_FAILURES
    ensures Evolves(r, RetriedPending(r, now, reason))
  {
    ArmedStands(Retried(r, now).0, now, Retried(r, now).1, reason);
  }

  lemma FlagsEvolve<P>(c: Core<P>, p: P)
    requires p in c.cells
    ensures Evolve(c, MarkPassing(c, c.cells[p].key, p))
    ensures Evolve(c, AdoptAsHeld(c, c.cells[p].key, p))
  {
  }

  lemma RenotifyEvolves<P>(c: Core<P>, p: P, groupMsg: int)
    requires p in c.cells
    ensures Evolve(c, Renotified(c, c.cells[p].key, p, groupMsg))
  {
    var r := c.cells[p];
    WriteEvolves(c, p, r.(screen := r.screen.(groupMsg := groupMsg, delivered := true)));
  }

  lemma EndEvolves<P>(c: Core<P>, p: P)
    requires p in c.cells
    ensures Evolve(c, FinishTerminal(c, c.cells[p].key, p))
    ensures Evolve(c, Discard(c, c.cells[p].key, p))
  {
  }

  lemma GroupEvolves<P>(c: Core<P>, gid: int)
    ensures Evolve(c, CancelGroup(c, gid))
    ensures Evolve(c, RemoveGroup(c, gid))
  {
  }

  lemma WriteEvolves<P>(c: Core<P>, p: P, r: Pending)
    requires p in c.cells && Evolves(c.cells[p], r)
    ensures Evolve(c, c.(cells := c.cells[p := r]))
  {
  }

  lemma ChannelEvolves<P>(c: Core<P>, key: Key, known: bool)
    requires KeysKnown(c)
    ensures Evolve(c, MarkChannel(c, key, known))
  {
    if key in c.pend { WriteEvolves(c, c.pend[key], c.cells[c.pend[key]].(channelUnreadable := !known)); }
  }

  lemma FreeReplyEvolves<P>(c: Core<P>, key: Key, nonce: string, reply: FreeReply)
    requires KeysKnown(c)
    ensures Evolve(c, MarkFree(c, key, nonce, reply).0)
  {
    if key in c.pend { WriteEvolves(c, c.pend[key], c.cells[c.pend[key]].(spent := c.cells[c.pend[key]].spent + {reply})); }
  }

  lemma TryEvolves<P>(c: Core<P>, key: Key, nonce: string)
    requires KeysKnown(c)
    ensures Evolve(c, RecordTry(c, key, nonce).0)
  {
    FailedTryShape(c, key, nonce);
    if key in c.pend { WriteEvolves(c, c.pend[key], c.cells[c.pend[key]].(tries := c.cells[c.pend[key]].tries + 1)); }
  }

  lemma ClaimEvolves<P>(c: Core<P>, key: Key, g: Guard)
    requires KeysKnown(c)
    ensures Evolve(c, Claim(c, key, g).0)
  {
  }

  lemma CapCheckEvolves<P>(c: Core<P>, key: Key, nonce: string, epoch: nat)
    requires KeysKnown(c)
    ensures Evolve(c, DeferralCapState(c, key, nonce, epoch).0)
  {
  }

  lemma ClaimStepEvolves<P>(s: System<P>, step: Step<P>)
    requires Wired(s) && Enabled(s, step)
    requires step.AdminApprove? || step.AdminBan? || step.Answer? || step.Expire?
    ensures Evolve(s.core, Next(s, step).core)
  {
    match step
    case AdminApprove(key) => ClaimEvolves(s.core, key, AnyClaim);
    case AdminBan(key) => ClaimEvolves(s.core, key, AnyClaim);
    case Answer(key, nonce, _) => ClaimEvolves(s.core, key, NonceClaim(nonce));
    case Expire(cb) => ClaimEvolves(s.core, cb.timer.key, ExpiryClaim(cb.timer.nonce, cb.timer.epoch));
  }

  lemma SettleStepEvolves<P>(s: System<P>, step: Step<P>)
    requires FlightsOK(s) && Wired(s) && Enabled(s, step)
    requires step.NotePassing? || step.Retry? || step.Abandon? || step.Weigh? || step.PutStrike? || step.Finish?
    ensures Evolve(s.core, Next(s, step).core)
  {
    match step
    case NotePassing(t) => FlagsEvolve(s.core, s.flights[t].owner);
    case Retry(t, reason) => RetryEvolves(s.core, s.flights[t].owner, reason);
    case Abandon(t) => EndEvolves(s.core, s.flights[t].owner);
    case Finish(t) => EndEvolves(s.core, s.flights[t].owner);
    case Weigh(t, outcome) => WeighingIsJudged(s, t, outcome);
    case PutStrike(t) => StrikeIsJudged(s, t);
  }

  lemma ChallengeStepEvolves<P>(s: System<P>, step: Step<P>)
    requires Wired(s) && Enabled(s, step)
    requires step.Arrive? || step.Load? || step.Deliver? || step.Message? || step.Fallback?
    ensures Evolve(s.core, Next(s, step).core)
  {
    var c := s.core;
    match step
    case Arrive(p, r) => ArrivalEvolves(c, p, r);
    case Load(p, r, delay, reason) => ArmEvolves(c.(pend := c.pend[r.key := p]), p, r, delay, reason);
    case Deliver(p, g, m, d, w) => DeliveryEvolves(c, p, g, m, d, w);
    case Message(prompt, send, q, text, reset, w) => MessageEvolves(c, prompt, send, q, text, reset, w);
    case Fallback(key, nonce, q, a) => FallbackEvolves(c, key, nonce, q, a);
  }

  lemma OtherStepEvolves<P>(s: System<P>, step: Step<P>)
    requires Wired(s) && Enabled(s, step)
    requires !step.AdminApprove? && !step.AdminBan? && !step.Answer? && !step.Expire?
    requires !step.NotePassing? && !step.Retry? && !step.Abandon? && !step.Weigh? && !step.PutStrike? && !step.Finish?
    requires !step.Arrive? && !step.Load? && !step.Deliver? && !step.Message? && !step.Fallback?
    ensures Evolve(s.core, Next(s, step).core)
  {
    var c := s.core;
    match step
    case Fire(t) => CapCheckEvolves(c, t.key, t.nonce, t.epoch);
    case Defer(cb, w) => DeferEvolves(c, cb.timer.key, cb.timer.nonce, cb.timer.epoch, cb.timer.armed.reason, w);
    case RecoverAll(windows) => RecoveryEvolves(c, windows);
    case RecoveryDrop(p) => EndEvolves(c, p);
    case Disable(gid) => GroupEvolves(c, gid);
    case Unregister(gid) => GroupEvolves(c, gid);
    case ReadChannel(key, known) => ChannelEvolves(c, key, known);
    case Adopt(p) => FlagsEvolve(c, p);
    case Renotify(p, g) => RenotifyEvolves(c, p, g);
    case FreeAnswer(key, nonce, reply) => FreeReplyEvolves(c, key, nonce, reply);
    case FailedTry(key, nonce) => TryEvolves(c, key, nonce);
    case _ =>
  }

  /** No step touches the counters of a pending except to raise them. */
  lemma StepEvolves<P>(s: System<P>, step: Step<P>)
    requires Inv(s) && Wired(s) && Enabled(s, step)
    ensures Evolve(s.core, Next(s, step).core)
  {
    if step.AdminApprove? || step.AdminBan? || step.Answer? || step.Expire? { ClaimStepEvolves(s, step); }
    else if step.NotePassing? || step.Retry? || step.Abandon? || step.Weigh? || step.PutStrike? || step.Finish? { SettleStepEvolves(s, step); }
    else if step.Arrive? || step.Load? || step.Deliver? || step.Message? || step.Fallback? { ChallengeStepEvolves(s, step); }
    else { OtherStepEvolves(s, step); }
  }

  lemma {:induction false} RunGrows<P>(s: System<P>, steps: seq<Step<P>>, s': System<P>, p: P)
    requires Inv(s) && Runs(s, steps, s') && p in s.core.cells
    ensures p in s'.core.cells && Grown(s.core.cells[p], s'.core.cells[p])
    decreases |steps|
  {
    if steps != [] {
      StepEvolves(s, steps[0]);
      StepKeepsInv(s, steps[0]);
      RunGrows(Next(s, steps[0]), steps[1..], s', p);
    }
  }

  // ---- Bounded retries ----

  /** A claimed pending that is unclaimed again. */
  ghost predicate Revived<P>(c: Core<P>, c': Core<P>, p: P) {
    p in c.cells && c.cells[p].done && p in c'.cells && !c'.cells[p].done
  }

  ghost function Revivals<P>(s: System<P>, steps: seq<Step<P>>, s': System<P>, p: P): nat
    requires Runs(s, steps, s')
    decreases |steps|
  {
    if steps == [] then 0
    else (if Revived(s.core, Next(s, steps[0]).core, p) then 1 else 0) + Revivals(Next(s, steps[0]), steps[1..], s', p)
  }

  function RetriesLeft<P(==)>(c: Core<P>, p: P): nat {
    if p in c.cells then Max(MAX_SETTLE_FAILURES - 1 - c.cells[p].settleFailures, 0) else MAX_SETTLE_FAILURES - 1
  }

  lemma StepSpendsRetries<P>(c: Core<P>, c': Core<P>, p: P)
    requires Evolve(c, c')
    ensures (if Revived(c, c', p) then 1 else 0) + RetriesLeft(c', p) <= RetriesLeft(c, p)
  {
  }

  lemma {:induction false} RevivalsAreBounded<P>(s: System<P>, steps: seq<Step<P>>, s': System<P>, p: P)
    requires Inv(s) && Runs(s, steps, s')
    ensures Revivals(s, steps, s', p) <= RetriesLeft(s.core, p)
    decreases |steps|
  {
    if steps != [] {
      var s1 := Next(s, steps[0]);
      StepEvolves(s, steps[0]);
      StepSpendsRetries(s.core, s1.core, p);
      assert Inv(s1) by { StepKeepsInv(s, steps[0]); }
      RevivalsAreBounded(s1, steps[1..], s', p);
    }
  }

  /** However often settling it fails, one pending is reopened at most nine times in any run. */
  lemma AtMostNineRetries<P>(now: Time, groups: set<int>, steps: seq<Step<P>>, s: System<P>, p: P)
    requires Runs(Empty<P>(now, groups), steps, s)
    ensures Revivals(Empty(now, groups), steps, s, p) <= 9
  {
    EmptyIsSafe<P>(now, groups);
    RevivalsAreBounded(Empty(now, groups), steps, s, p);
  }

  /** A failed settlement either hands its pending back, unclaimed and counted, or leaves it out of
      the map for good; it comes back exactly when it is still the one in the map and an attempt
      is left. */
  lemma FailedSettlementComesBackOrGoes<P>(s: System<P>, ticket: nat, reason: Reason)
    requires Inv(s) && Wired(s) && Enabled(s, Retry(ticket, reason))
    ensures var p := s.flights[ticket].owner; var c' := Next(s, Retry(ticket, reason)).core;
      && p in c'.cells && (Held(c', p) <==> Live(c', p))
      && (Held(c', p) <==> Held(s.core, p) && s.core.cells[p].settleFailures + 1 < 10)
      && (Held(c', p) ==> c'.cells[p].settleFailures == s.core.cells[p].settleFailures + 1)
  {
    var p := s.flights[ticket].owner;
    ReopenShape(s.core, p, reason);
    if s.core.cells[p].settleFailures + 1 < MAX_SETTLE_FAILURES { RetriedStands(s.core.cells[p], s.core.now, reason); }
  }

  // ---- Re-applications ----

  /** No new entry in the map, and none replaced. */
  ghost predicate PendShrinks<P>(c: Core<P>, c': Core<P>) {
    forall k | k in c'.pend :: k in c.pend && c'.pend[k] == c.pend[k]
  }

  lemma PendingStepsShrink<P>(s: System<P>, step: Step<P>)
    requires Wired(s) && Enabled(s, step) && PendingStep(step)
    ensures PendShrinks(s.core, Next(s, step).core)
  {
  }

  lemma CoreStepsShrink<P>(s: System<P>, step: Step<P>)
    requires Wired(s) && Enabled(s, step) && CoreStep(step) && !PendingStep(step) && !step.Arrive? && !step.Load?
    ensures PendShrinks(s.core, Next(s, step).core)
  {
  }

  lemma ClaimsShrink<P>(s: System<P>, step: Step<P>)
    requires Wired(s) && Enabled(s, step)
    requires step.AdminApprove? || step.AdminBan? || step.Answer? || step.Expire?
    ensures PendShrinks(s.core, Next(s, step).core)
  {
  }

  lemma SettlingShrinks<P>(s: System<P>, step: Step<P>)
    requires Wired(s) && Enabled(s, step)
    requires step.Fire? || step.Register? || step.Retry? || step.Abandon? || step.Weigh? || step.PutStrike? || step.Finish?
    ensures PendShrinks(s.core, Next(s, step).core)
  {
  }

  /** Only an arriving challenge, or one read back from disk, puts a pending in the map. */
  lemma OnlyNewChallengesEnter<P>(s: System<P>, step: Step<P>)
    requires Wired(s) && Enabled(s, step) && !step.Arrive? && !step.Load?
    ensures PendShrinks(s.core, Next(s, step).core)
  {
    if PendingStep(step) { PendingStepsShrink(s, step); }
    else if CoreStep(step) { CoreStepsShrink(s, step); }
    else if step.AdminApprove? || step.AdminBan? || step.Answer? || step.Expire? { ClaimsShrink(s, step); }
    else { SettlingShrinks(s, step); }
  }

  /** What an applicant has used up, read off the map. */
  ghost predicate KeyGrows<P>(c: Core<P>, c': Core<P>, key: Key)
    requires KeysKnown(c) && KeysKnown(c')
  {
    key in c.pend && key in c'.pend ==>
      && c.cells[c.pend[key]].tries <= c'.cells[c'.pend[key]].tries
      && c.cells[c.pend[key]].spent <= c'.cells[c'.pend[key]].spent
  }

  lemma StartingInherits(r: Pending, prev: Pending, now: Time)
    ensures var r' := ArmedPending(Starting(r, Some(prev), now), now, PENDING_DELIVERY_TIMEOUT, ChallengePostFailed);
      r'.tries == prev.tries && r'.spent == prev.spent
  {
  }

  lemma ArrivalInherits<P>(c: Core<P>, p: P, r: Pending, key: Key)
    requires KeysKnown(c) && p !in c.cells
    ensures KeysKnown(StartPending(c, p, r).0) && KeyGrows(c, StartPending(c, p, r).0, key)
  {
    var c' := StartPending(c, p, r).0;
    if StartPending(c, p, r).1.Started? {
      StartShape(c, p, r);
      if key in c.pend {
        if key == r.key { StartingInherits(r, c.cells[c.pend[key]], c.now); }
        else { assert Evolves(c.cells[c.pend[key]], c'.cells[c.pend[key]]) by { ArrivalEvolves(c, p, r); } }
      }
    }
  }

  lemma KeptEntryGrows<P>(c: Core<P>, c': Core<P>, key: Key)
    requires KeysKnown(c) && KeysKnown(c') && Evolve(c, c')
    requires key in c.pend && key in c'.pend ==> c'.pend[key] == c.pend[key]
    ensures KeyGrows(c, c', key)
  {
  }

  lemma EntryReplacedByArrival<P>(s: System<P>, step: Step<P>, key: Key)
    requires Wired(s) && Enabled(s, step) && !step.Arrive?
    ensures var pend' := Next(s, step).core.pend; key in s.core.pend && key in pend' ==> pend'[key] == s.core.pend[key]
  {
    if !step.Load? { OnlyNewChallengesEnter(s, step); }
  }

  lemma StepGrowsKey<P>(s: System<P>, step: Step<P>, key: Key)
    requires Inv(s) && Wired(s) && Enabled(s, step)
    ensures KeysKnown(Next(s, step).core) && KeyGrows(s.core, Next(s, step).core, key)
  {
    if step.Arrive? {
      ArrivalInherits(s.core, step.p, step.pending, key);
    } else {
      assert Evolve(s.core, Next(s, step).core) by { StepEvolves(s, step); }
      assert KeysKnown(Next(s, step).core) by { StepKeepsInv(s, step); }
      EntryReplacedByArrival(s, step, key);
      KeptEntryGrows(s.core, Next(s, step).core, key);
    }
  }

  /** Some challenge for the applicant is in the map throughout: re-applied to, perhaps, but never
      settled, dropped or removed. */
  ghost predicate StaysPending<P>(s: System<P>, steps: seq<Step<P>>, s': System<P>, key: Key)
    requires Runs(s, steps, s')
    decreases |steps|
  {
    key in s.core.pend && (steps == [] || StaysPending(Next(s, steps[0]), steps[1..], s', key))
  }

  /** Re-applying never gives an attempt or a free reply back. */
  lemma {:induction false} ReapplyingKeepsWhatWasSpent<P>(s: System<P>, steps: seq<Step<P>>, s': System<P>, key: Key)
    requires Inv(s) && Runs(s, steps, s') && StaysPending(s, steps, s', key)
    ensures KeysKnown(s'.core) && key in s'.core.pend
    ensures s.core.cells[s.core.pend[key]].tries <= s'.core.cells[s'.core.pend[key]].tries
    ensures s.core.cells[s.core.pend[key]].spent <= s'.core.cells[s'.core.pend[key]].spent
    decreases |steps|
  {
    if steps != [] {
      StepGrowsKey(s, steps[0], key);
      assert Inv(Next(s, steps[0])) by { StepKeepsInv(s, steps[0]); }
      ReapplyingKeepsWhatWasSpent(Next(s, steps[0]), steps[1..], s', key);
    }
  }

  ghost predicate Granted<P>(s: System<P>, step: Step<P>, key: Key, reply: FreeReply)
    requires Wired(s)
  {
    step.FreeAnswer? && step.key == key && step.reply == reply && MarkFree(s.core, key, step.nonce, reply).1
  }

  ghost function Grants<P>(s: System<P>, steps: seq<Step<P>>, s': System<P>, key: Key, reply: FreeReply): nat
    requires Runs(s, steps, s')
    decreases |steps|
  {
    if steps == [] then 0
    else (if Granted(s, steps[0], key, reply) then 1 else 0) + Grants(Next(s, steps[0]), steps[1..], s', key, reply)
  }

  lemma GrantIsSpent<P>(s: System<P>, step: Step<P>, key: Key, reply: FreeReply)
    requires Wired(s) && Enabled(s, step) && Granted(s, step, key, reply)
    ensures key in s.core.pend && reply !in s.core.cells[s.core.pend[key]].spent
    ensures var c' := Next(s, step).core;
      key in c'.pend && c'.pend[key] in c'.cells && reply in c'.cells[c'.pend[key]].spent
  {
  }

  /** Each one-shot free reply is granted at most once, whatever the applicant does, until their
      verification leaves the map; and not at all once it is spent. */
  lemma {:induction false} FreeRepliesAreGrantedOnce<P>(s: System<P>, steps: seq<Step<P>>, s': System<P>, key: Key, reply: FreeReply)
    requires Inv(s) && Runs(s, steps, s') && StaysPending(s, steps, s', key)
    ensures Grants(s, steps, s', key, reply) <= (if reply in s.core.cells[s.core.pend[key]].spent then 0 else 1)
    decreases |steps|
  {
    if steps != [] {
      var s1 := Next(s, steps[0]);
      StepGrowsKey(s, steps[0], key);
      assert Inv(s1) by { StepKeepsInv(s, steps[0]); }
      if Granted(s, steps[0], key, reply) { GrantIsSpent(s, steps[0], key, reply); }
      FreeRepliesAreGrantedOnce(s1, steps[1..], s', key, reply);
    }
  }

  // ---- An administrator's button ----

  /** A challenge for the applicant was put in the map during the run. */
  ghost predicate Restarted<P>(s: System<P>, steps: seq<Step<P>>, s': System<P>, key: Key)
    requires Runs(s, steps, s')
    decreases |steps|
  {
    steps != [] &&
    (Enters(s.core, Next(s, steps[0]).core, key) || Restarted(Next(s, steps[0]), steps[1..], s', key))
  }

  ghost predicate Enters<P>(c: Core<P>, c': Core<P>, key: Key) {
    key in c'.pend && c'.pend[key] !in c.cells
  }

  /** A step may shrink the map, or put one new pending in it. */
  ghost predicate Admits<P>(c: Core<P>, c': Core<P>) {
    exists key :: Enters(c, c', key) && c'.pend == c.pend[key := c'.pend[key]]
  }

  lemma ArrivalAdmits<P>(c: Core<P>, p: P, r: Pending)
    requires KeysKnown(c) && p !in c.cells
    ensures StartPending(c, p, r).0 == c || Admits(c, StartPending(c, p, r).0)
  {
    if StartPending(c, p, r).1.Started? {
      StartShape(c, p, r);
      assert Enters(c, StartPending(c, p, r).0, r.key);
    }
  }

  lemma LoadAdmits<P>(c: Core<P>, p: P, r: Pending, delay: int, reason: Reason)
    requires p !in c.cells
    ensures Restore(c, p, r, delay, reason) == c || Admits(c, Restore(c, p, r, delay, reason))
  {
    if CapacityOK(c.pend, r.key.gid) { assert Enters(c, Restore(c, p, r, delay, reason), r.key); }
  }

  lemma StepAdmits<P>(s: System<P>, step: Step<P>)
    requires Wired(s) && Enabled(s, step)
    ensures PendShrinks(s.core, Next(s, step).core) || Admits(s.core, Next(s, step).core)
  {
    if step.Arrive? { ArrivalAdmits(s.core, step.p, step.pending); }
    else if step.Load? { LoadAdmits(s.core, step.p, step.pending, step.delay, step.reason); }
    else { OnlyNewChallengesEnter(s, step); }
  }

  lemma EntryOrKept<P>(c: Core<P>, c': Core<P>, key: Key)
    requires PendShrinks(c, c') || Admits(c, c')
    ensures key in c'.pend ==> Enters(c, c', key) || (key in c.pend && c'.pend[key] == c.pend[key])
  {
  }

  /** One step for the pending under a key: it stays there, or it is gone. */
  lemma StaysOrGoes<P>(s: System<P>, step: Step<P>, key: Key, p: P)
    requires Inv(s) && Wired(s) && Enabled(s, step) && p in s.core.cells && s.core.cells[p].key == key
    ensures var s1 := Next(s, step);
      && Inv(s1) && p in s1.core.cells && s1.core.cells[p].key == key
      && (Held(s1.core, p) ==> Held(s.core, p) && !Enters(s.core, s1.core, key))
      && (key in s1.core.pend && !Enters(s.core, s1.core, key) ==> key in s.core.pend && s1.core.pend[key] == s.core.pend[key])
  {
    assert Inv(Next(s, step)) by { StepKeepsInv(s, step); }
    assert Evolve(s.core, Next(s, step).core) by { StepEvolves(s, step); }
    StepAdmits(s, step);
    EntryOrKept(s.core, Next(s, step).core, key);
  }

  /** A pending that has left the map, or was never in it, does not come back. */
  lemma {:induction false} NothingComesBack<P>(s: System<P>, steps: seq<Step<P>>, s': System<P>, p: P)
    requires Inv(s) && Runs(s, steps, s') && p in s.core.cells && !Held(s.core, p)
    ensures p in s'.core.cells && !Held(s'.core, p)
    decreases |steps|
  {
    if steps != [] {
      StaysOrGoes(s, steps[0], s.core.cells[p].key, p);
      NothingComesBack(Next(s, steps[0]), steps[1..], s', p);
    }
  }

  lemma {:induction false} AbsentUnlessRestarted<P>(s: System<P>, steps: seq<Step<P>>, s': System<P>, key: Key)
    requires Inv(s) && Runs(s, steps, s') && key !in s.core.pend && key in s'.core.pend
    ensures Restarted(s, steps, s', key)
    decreases |steps|
  {
    if steps != [] {
      var s1 := Next(s, steps[0]);
      assert Inv(s1) by { StepKeepsInv(s, steps[0]); }
      StepAdmits(s, steps[0]);
      EntryOrKept(s.core, s1.core, key);
      if key !in s1.core.pend { AbsentUnlessRestarted(s1, steps[1..], s', key); }
    }
  }

  lemma {:induction false} SameUnlessRestarted<P>(s: System<P>, steps: seq<Step<P>>, s': System<P>, key: Key)
    requires Inv(s) && Runs(s, steps, s') && key in s'.core.pend && key in s.core.pend
    ensures s'.core.pend[key] == s.core.pend[key] <==> !Restarted(s, steps, s', key)
    decreases |steps|
  {
    if steps != [] {
      var s1 := Next(s, steps[0]);
      var p := s.core.pend[key];
      StaysOrGoes(s, steps[0], key, p);
      if key in s1.core.pend && !Enters(s.core, s1.core, key) {
        SameUnlessRestarted(s1, steps[1..], s', key);
      } else {
        assert !Held(s1.core, p);
        NothingComesBack(s1, steps[1..], s', p);
        assert !Held(s'.core, p);
        assert s'.core.pend[key] in s'.core.cells && s'.core.cells[s'.core.pend[key]].key == key by { RunsKeepInv(s1, steps[1..], s'); }
        if key !in s1.core.pend { AbsentUnlessRestarted(s1, steps[1..], s', key); }
      }
    }
  }

  /** An administrator's button carries the nonce of the challenge it was posted with, and that is
      checked when it is pressed; the claim itself comes later, after Telegram has confirmed the
      administrator, and compares nothing. It settles the challenge that was checked exactly when
      no other challenge for the applicant was started in between. */
  lemma ButtonSettlesWhatWasChecked<P>(s: System<P>, nonce: string, steps: seq<Step<P>>, s': System<P>, key: Key)
    requires Inv(s) && Runs(s, steps, s')
    requires key in s.core.pend && !s.core.cells[s.core.pend[key]].done && s.core.cells[s.core.pend[key]].nonce == nonce
    requires KeysKnown(s'.core) && Claim(s'.core, key, AnyClaim).1.Some?
    ensures Claim(s'.core, key, AnyClaim).1 == Some(s.core.pend[key]) <==> !Restarted(s, steps, s', key)
    ensures s'.core.cells[s'.core.pend[key]].nonce == nonce <==> !Restarted(s, steps, s', key)
  {
    var p := s.core.pend[key];
    var q := s'.core.pend[key];
    SameUnlessRestarted(s, steps, s', key);
    assert p in s'.core.cells && Grown(s.core.cells[p], s'.core.cells[p]) by { RunGrows(s, steps, s', p); }
    assert s.core.cells[p].key == key;
    assert NoncesDiffer(s'.core) && s'.core.cells[q].key == key by { RunsKeepInv(s, steps, s'); }
  }

  /** A channel reading carries no nonce either: it is written to whoever waits under the applicant's
      key by then, which is the pending it was made for exactly when no other was started in between. */
  lemma ReadingMarksWhoeverWaits<P>(s: System<P>, steps: seq<Step<P>>, s': System<P>, key: Key, known: bool)
    requires Inv(s) && Runs(s, steps, s') && key in s.core.pend && key in s'.core.pend && KeysKnown(s'.core)
    ensures var (c', q) := (MarkChannel(s'.core, key, known), s'.core.pend[key]);
      && c'.cells == s'.core.cells[q := s'.core.cells[q].(channelUnreadable := !known)]
      && (q == s.core.pend[key] <==> !Restarted(s, steps, s', key))
  {
    SameUnlessRestarted(s, steps, s', key);
  }
}

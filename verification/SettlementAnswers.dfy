/** What an answer, an administrator or an expiry leads to: who is admitted, who is banned, and whom a
    wrong answer is held against. */
module SettlementAnswers {
  import opened Options
  import opened Settlement
  import opened SettlementRuns
  import opened SettlementTheorems
  import opened SettlementGrowth
  import opened SettlementStrikes
  import opened SettlementLaws

  // ---- One claim ----

  /** The pending waits under the key, with this nonce. */
  predicate WaitsWith<P(==)>(c: Core<P>, key: Key, nonce: string, p: P) {
    key in c.pend && c.pend[key] == p && p in c.cells && !c.cells[p].done && c.cells[p].nonce == nonce
  }

  /** A settlement of `p` has begun, with this action, under a new ticket; no other has. */
  ghost predicate Begun<P>(s: System<P>, s': System<P>, key: Key, p: P, action: Action) {
    && s'.flights == s.flights[s.next := Flight(key, p, action, Open)] && s'.next == s.next + 1
    && p in s'.core.cells && s'.core.cells[p].done && key in s'.core.terminal && s'.core.terminal[key] == p
  }

  /** An answer to the challenge that waits starts one settlement: an admission if it was right, a
      rejection for the wrong answer if it was not. To any other challenge it changes nothing. */
  lemma AnswerSettles<P>(s: System<P>, key: Key, nonce: string, correct: bool, s': System<P>)
    requires Stepped(s, Answer(key, nonce, correct), s')
    ensures key in s.core.pend && WaitsWith(s.core, key, nonce, s.core.pend[key]) && !s.core.shuttingDown ==>
      Begun(s, s', key, s.core.pend[key], if correct then Approving else Declining(WrongAnswer))
    ensures !(key in s.core.pend && WaitsWith(s.core, key, nonce, s.core.pend[key]) && !s.core.shuttingDown) ==> s' == s
  {
  }

  /** An administrator's approval admits whoever waits, a ban bans them, whatever the challenge. */
  lemma AdminSettles<P>(s: System<P>, key: Key, ban: bool, s': System<P>)
    requires Stepped(s, if ban then AdminBan(key) else AdminApprove(key), s')
    ensures key in s.core.pend && !s.core.cells[s.core.pend[key]].done ==>
      Begun(s, s', key, s.core.pend[key], if ban then Banning else Approving)
    ensures !(key in s.core.pend && !s.core.cells[s.core.pend[key]].done) ==> s' == s
  {
  }

  /** An expiry rejects for the reason its timer was armed with, or because the deferral cap was reached,
      unless the right answer had been given: then it admits. It does so only for the challenge and the
      arming it was meant for, and never during shutdown. */
  lemma ExpirySettles<P>(s: System<P>, cb: Callback<P>, s': System<P>)
    requires Stepped(s, Expire(cb), s')
    ensures var t := cb.timer;
      var due := t.key in s.core.pend && WaitsWith(s.core, t.key, t.nonce, s.core.pend[t.key])
                 && s.core.cells[s.core.pend[t.key]].epoch == t.epoch && !s.core.shuttingDown;
      && (due ==>
            Begun(s, s', t.key, s.core.pend[t.key],
                  if s.core.cells[s.core.pend[t.key]].passing then Approving
                  else if cb.capped then Declining(DeferralCap) else Declining(t.armed.reason)))
      && (!due ==> s' == s)
  {
  }

  /** Reading a challenge back puts it in the map while there is room, and touches no settlement. */
  lemma LoadPutsBack<P>(s: System<P>, p: P, r: Pending, delay: int, reason: Reason, s': System<P>)
    requires Stepped(s, Load(p, r, delay, reason), s')
    ensures s' == s.(core := s'.core)
    ensures var full := |s.core.pend| >= 2000 || |set k | k in s.core.pend && k.gid == r.key.gid| >= 500;
      if full then s' == s else PutBack(s.core, p, r, delay, reason, s'.core)
  {
    RestoresExactlyWhen(s.core, p, r, delay, reason);
  }

  // ---- One end ----

  function Without<P(==)>(m: map<Key, P>, p: P): map<Key, P> { map k | k in m && m[k] != p :: m[k] }

  lemma WithoutOne<P>(m: map<Key, P>, key: Key, p: P)
    requires forall k | k in m && m[k] == p :: k == key
    ensures Without(m, p) == if key in m && m[key] == p then m - {key} else m
  {
  }

  lemma EndClears<P>(c: Core<P>, p: P)
    requires MapsOK(c) && p in c.cells && c.cells[p].done
    ensures var ended := c.(pend := Without(c.pend, p), terminal := Without(c.terminal, p));
      FinishTerminal(c, c.cells[p].key, p) == ended && Discard(c, c.cells[p].key, p) == ended
  {
    WithoutOne(c.pend, c.cells[p].key, p);
    WithoutOne(c.terminal, c.cells[p].key, p);
    assert c.cells[p := c.cells[p].(done := true)] == c.cells;
  }

  lemma EndShape<P>(s: System<P>, ticket: nat, step: Step<P>, s': System<P>)
    requires Stepped(s, step, s') && (step == Finish(ticket) || step == Abandon(ticket))
    ensures var f := s.flights[ticket];
      s' == s.(core := if step.Finish? then FinishTerminal(s.core, f.key, f.owner) else Discard(s.core, f.key, f.owner),
               flights := s.flights - {ticket})
  {
  }

  /** A settlement that has ended is no longer under way, and its pending is neither in the map nor
      marked as being settled; every other settlement, entry and marker stays. */
  lemma SettlementEnds<P>(s: System<P>, ticket: nat, step: Step<P>, s': System<P>)
    requires Inv(s) && Stepped(s, step, s') && (step == Finish(ticket) || step == Abandon(ticket))
    ensures var p := s.flights[ticket].owner;
      && s' == s.(core := s'.core, flights := s.flights - {ticket})
      && s'.core == s.core.(pend := Without(s.core.pend, p), terminal := Without(s.core.terminal, p))
  {
    EndShape(s, ticket, step, s');
    EndClears(s.core, s.flights[ticket].owner);
  }

  lemma FailureShape<P>(s: System<P>, ticket: nat, reason: Reason, s': System<P>)
    requires Stepped(s, Retry(ticket, reason), s')
    ensures var f := s.flights[ticket];
      s' == s.(core := Reopen(s.core, f.key, f.owner, reason).0, flights := s.flights - {ticket})
  {
  }

  /** One that failed is no longer under way either. */
  lemma FailureEnds<P>(s: System<P>, ticket: nat, reason: Reason, s': System<P>)
    requires Inv(s) && Stepped(s, Retry(ticket, reason), s')
    ensures s' == s.(core := s'.core, flights := s.flights - {ticket})
    ensures s'.core.terminal == Without(s.core.terminal, s.flights[ticket].owner)
  {
    FailureShape(s, ticket, reason, s');
    WithoutOne(s.core.terminal, s.flights[ticket].key, s.flights[ticket].owner);
    ReopenShape(s.core, s.flights[ticket].owner, reason);
  }

  lemma OthersKeepGroups<P>(s: System<P>, step: Step<P>, s': System<P>)
    requires Stepped(s, step, s') && !step.Register?
    ensures s'.groups == s.groups
  {
  }

  lemma RegisterIs<P>(s: System<P>, gid: int, known: bool, s': System<P>, g: int)
    requires Stepped(s, Register(gid, known), s')
    ensures s' == s.(groups := s'.groups) && (g in s'.groups <==> if g == gid then known else g in s.groups)
  {
  }

  /** Which groups are the bot's changes with the settings alone, one group at a time. */
  lemma GroupsFollowTheSettings<P>(s: System<P>, step: Step<P>, s': System<P>, gid: int)
    requires Stepped(s, step, s')
    ensures gid in s'.groups <==> if step.Register? && step.gid == gid then step.known else gid in s.groups
  {
    if step.Register? { RegisterIs(s, step.gid, step.known, s', gid); } else { OthersKeepGroups(s, step, s'); }
  }

  // ---- Over runs ----

  /** Somewhere in the run a step was taken that answers the description. */
  ghost predicate Once<P>(s: System<P>, steps: seq<Step<P>>, s': System<P>, hit: (System<P>, Step<P>) -> bool)
    requires Runs(s, steps, s')
    decreases |steps|
  {
    steps != [] && (hit(s, steps[0]) || Once(Next(s, steps[0]), steps[1..], s', hit))
  }

  /** The step gives the right answer to the challenge of `p`, or an administrator's approval to it, or
      reads back from disk that `p` had passed before. */
  predicate Earns<P(==)>(s: System<P>, step: Step<P>, p: P) {
    match step
    case Answer(key, nonce, correct) => correct && WaitsWith(s.core, key, nonce, p)
    case AdminApprove(key) => key in s.core.pend && s.core.pend[key] == p
    case Load(q, r, _, _) => q == p && r.passing
    case _ => false
  }

  /** The step gives a wrong answer to the challenge of `p`. */
  predicate Fails<P(==)>(s: System<P>, step: Step<P>, p: P) {
    step.Answer? && !step.correct && WaitsWith(s.core, step.key, step.nonce, p)
  }

  predicate AsksToBan<P(==)>(s: System<P>, step: Step<P>, p: P) {
    step.AdminBan? && step.key in s.core.pend && s.core.pend[step.key] == p
  }

  /** An admission of `p` is under way, or was. */
  ghost predicate Credited<P>(s: System<P>, p: P) {
    || (exists t :: t in s.flights && s.flights[t].owner == p && s.flights[t].action.Approving?)
    || (p in s.core.cells && s.core.cells[p].passing)
  }

  ghost predicate Blamed<P>(s: System<P>, p: P) {
    || (exists t :: t in s.flights && s.flights[t].owner == p && s.flights[t].action == Declining(WrongAnswer))
    || (exists i :: 0 <= i < |s.core.strikes| && s.core.strikes[i].owner == p && s.core.strikes[i].reason == WrongAnswer)
  }

  ghost predicate BeingBanned<P>(s: System<P>, p: P) {
    exists t :: t in s.flights && s.flights[t].owner == p && s.flights[t].action.Banning?
  }

  // ---- What no step does to a pending or a timer ----

  /** Nobody is marked as having passed, and no timer stands for a wrong answer, unless so before. */
  ghost predicate Modest<P>(c: Core<P>, c': Core<P>) {
    && (forall p | p in c'.cells && c'.cells[p].passing :: p in c.cells && c.cells[p].passing)
    && (forall t | t in c'.timers && t.armed.reason == WrongAnswer :: t in c.timers)
  }

  lemma ArmIsModest<P>(c: Core<P>, p: P, r: Pending, delay: int, reason: Reason)
    requires r.passing ==> p in c.cells && c.cells[p].passing
    requires reason != WrongAnswer
    ensures Modest(c, Arm(c, p, r, delay, reason))
  {
  }

  lemma WriteIsModest<P>(c: Core<P>, p: P, r: Pending)
    requires r.passing ==> p in c.cells && c.cells[p].passing
    ensures Modest(c, c.(cells := c.cells[p := r]))
  {
  }

  lemma ArrivalIsModest<P>(c: Core<P>, p: P, r: Pending)
    requires KeysKnown(c) && !r.passing
    ensures Modest(c, StartPending(c, p, r).0)
  {
    if StartPending(c, p, r).1.Started? {
      StartShape(c, p, r);
      var prev := Lookup(c, r.key);
      var cells := if prev.Some? then c.cells[c.pend[r.key] := prev.value.(done := true)] else c.cells;
      var c1 := c.(cells := cells, pend := c.pend[r.key := p]);
      assert Modest(c, c1);
      ArmIsModest(c1, p, Starting(r, prev, c.now), PENDING_DELIVERY_TIMEOUT, ChallengePostFailed);
    }
  }

  lemma DeliveryIsModest<P>(c: Core<P>, p: P, g: int, m: int, d: bool, w: int)
    requires p in c.cells
    ensures Modest(c, FinishChallenge(c, c.cells[p].key, p, g, m, d, w).0)
  {
    DeliverShape(c, c.cells[p].key, p, g, m, d, w);
    ArmIsModest(c, p, Delivered(c.cells[p], g, m, d, c.now + w), w, ExpiryReason(d));
  }

  lemma MessageIsModest<P>(c: Core<P>, prompt: Prompt<P>, send: Send, question: bool, text: string, reset: bool, w: int)
    requires prompt.owner in c.cells
    ensures Modest(c, CompleteDM(c, prompt, send, question, text, reset, w).0)
  {
    MessageShape(c, prompt, send, question, text, reset, w);
    var p := prompt.owner;
    forall v, restart: bool ensures Modest(c, WriteBack(c, p, c.cells[p].(screen := v), restart, w)) {
      var r := c.cells[p].(screen := v);
      WriteBackShape(c, p, r, restart, w);
      if restart { ArmIsModest(c, p, Due(r, c.now + w), w, Timeout); } else { WriteIsModest(c, p, r); }
    }
  }

  lemma FallbackIsModest<P>(c: Core<P>, key: Key, nonce: string, question: string, answers: seq<string>)
    requires KeysKnown(c)
    ensures Modest(c, BeginFallback(c, key, nonce, question, answers).0)
  {
    FallbackShape(c, key, nonce, question, answers);
    if BeginFallback(c, key, nonce, question, answers).1 {
      ArmIsModest(c, c.pend[key], Switched(c.cells[c.pend[key]], question, answers, c.now + PENDING_DELIVERY_TIMEOUT),
                  PENDING_DELIVERY_TIMEOUT, ChallengePostFailed);
    }
  }

  lemma DeferIsModest<P>(c: Core<P>, key: Key, nonce: string, epoch: nat, reason: Reason, window: int)
    requires KeysKnown(c) && reason != WrongAnswer
    ensures Modest(c, DeferExpiry(c, key, nonce, epoch, reason, window))
  {
    if key in c.pend {
      var d := Deferred(c.cells[c.pend[key]], c.now, reason, window);
      ArmIsModest(c, c.pend[key], d.0, d.1, d.2);
    }
  }

  lemma RecoveryIsModest<P>(c: Core<P>, windows: (int, Gate) -> int)
    ensures Modest(c, Recover(c, windows))
  {
    var c' := Recover(c, windows);
    forall p | p in c'.cells && c'.cells[p].passing ensures p in c.cells && c.cells[p].passing {
      RecoveredPasses(c.cells[p], c.now, windows(c.cells[p].key.gid, c.cells[p].gate));
    }
    forall t | t in c'.timers && t.armed.reason == WrongAnswer ensures t in c.timers {
      if t !in c.timers {
        RecoveredPasses(c.cells[t.owner], c.now, windows(c.cells[t.owner].key.gid, c.cells[t.owner].gate));
      }
    }
  }

  lemma RecoveredPasses(r: Pending, now: Time, window: int)
    ensures var r' := RecoveredPending(r, now, window); r'.passing == r.passing && r'.armed.Some? && r'.armed.value.reason != WrongAnswer
  {
    RecoveryArms(r, now, window);
  }

  lemma UpdateIsModest<P>(c: Core<P>, c': Core<P>, p: P, r: Pending)
    requires p in c.cells && c'.cells == c.cells[p := r] && (r.passing ==> c.cells[p].passing)
    requires c'.timers == c.timers || (r.armed.Some? && r.armed.value.reason != WrongAnswer && c'.timers == c.timers + {TimerOf(p, r)})
    ensures Modest(c, c')
  {
  }

  lemma RetryIsModest<P>(c: Core<P>, p: P, reason: Reason)
    requires p in c.cells && c.cells[p].done && reason != WrongAnswer
    ensures Modest(c, Reopen(c, c.cells[p].key, p, reason).0)
  {
    ReopenShape(c, p, reason);
    RetriedPasses(c.cells[p], c.now, reason);
    var (c', ok) := Reopen(c, c.cells[p].key, p, reason);
    var r := c.cells[p];
    if Held(c, p) {
      UpdateIsModest(c, c', p, if ok then RetriedPending(r, c.now, reason) else r.(settleFailures := r.settleFailures + 1));
    }
  }

  lemma RetriedPasses(r: Pending, now: Time, reason: Reason)
    requires reason != WrongAnswer
    ensures var r' := RetriedPending(r, now, reason); r'.passing == r.passing && r'.armed.Some? && r'.armed.value.reason != WrongAnswer
  {
    ArmedStands(Retried(r, now).0, now, Retried(r, now).1, reason);
  }

  lemma EndIsModest<P>(c: Core<P>, p: P)
    requires p in c.cells
    ensures Modest(c, FinishTerminal(c, c.cells[p].key, p)) && Modest(c, Discard(c, c.cells[p].key, p))
  {
  }

  lemma FlagsAreModest<P>(c: Core<P>, p: P, groupMsg: int)
    requires p in c.cells
    ensures Modest(c, AdoptAsHeld(c, c.cells[p].key, p)) && Modest(c, Renotified(c, c.cells[p].key, p, groupMsg))
  {
  }

  lemma ReadingIsModest<P>(c: Core<P>, key: Key, known: bool)
    requires KeysKnown(c)
    ensures Modest(c, MarkChannel(c, key, known))
  {
  }

  lemma ReplyIsModest<P>(c: Core<P>, key: Key, nonce: string, reply: FreeReply)
    requires KeysKnown(c)
    ensures Modest(c, MarkFree(c, key, nonce, reply).0)
  {
  }

  lemma TryIsModest<P>(c: Core<P>, key: Key, nonce: string)
    requires KeysKnown(c)
    ensures Modest(c, RecordTry(c, key, nonce).0)
  {
    FailedTryShape(c, key, nonce);
  }

  lemma GroupIsModest<P>(c: Core<P>, gid: int)
    ensures Modest(c, CancelGroup(c, gid)) && Modest(c, RemoveGroup(c, gid))
  {
  }

  lemma ClaimIsModest<P>(c: Core<P>, key: Key, g: Guard)
    requires KeysKnown(c)
    ensures Modest(c, Claim(c, key, g).0)
  {
  }

  lemma CapCheckIsModest<P>(c: Core<P>, key: Key, nonce: string, epoch: nat)
    requires KeysKnown(c)
    ensures Modest(c, DeferralCapState(c, key, nonce, epoch).0)
  {
  }

  // ---- Every step ----

  /** No timer stands for a wrong answer. */
  ghost predicate Patient<P>(c: Core<P>) { forall t | t in c.timers :: t.armed.reason != WrongAnswer }

  lemma ChallengeStepIsModest<P>(s: System<P>, step: Step<P>)
    requires Inv(s) && Wired(s) && Enabled(s, step)
    requires step.Arrive? || step.Deliver? || step.Message? || step.Fallback? || step.Adopt? || step.Renotify?
    ensures Modest(s.core, Next(s, step).core)
  {
    var c := s.core;
    match step
    case Arrive(p, r) => ArrivalIsModest(c, p, r);
    case Deliver(p, g, m, d, w) => DeliveryIsModest(c, p, g, m, d, w);
    case Message(prompt, send, q, text, reset, w) => MessageIsModest(c, prompt, send, q, text, reset, w);
    case Fallback(key, nonce, q, a) => FallbackIsModest(c, key, nonce, q, a);
    case Adopt(p) => FlagsAreModest(c, p, 0);
    case Renotify(p, g) => FlagsAreModest(c, p, g);
  }

  lemma TimedStepIsModest<P>(s: System<P>, step: Step<P>)
    requires Inv(s) && Patient(s.core) && Wired(s) && Enabled(s, step)
    requires step.Fire? || step.Defer? || step.RecoverAll? || step.Retry? || step.RecoveryDrop? || step.Abandon? || step.Finish?
    ensures Modest(s.core, Next(s, step).core)
  {
    var c := s.core;
    match step
    case Fire(t) => CapCheckIsModest(c, t.key, t.nonce, t.epoch);
    case Defer(cb, w) => DeferIsModest(c, cb.timer.key, cb.timer.nonce, cb.timer.epoch, cb.timer.armed.reason, w);
    case RecoverAll(windows) => RecoveryIsModest(c, windows);
    case Retry(t, reason) => RetryIsModest(c, s.flights[t].owner, reason);
    case RecoveryDrop(p) => EndIsModest(c, p);
    case Abandon(t) => EndIsModest(c, s.flights[t].owner);
    case Finish(t) => EndIsModest(c, s.flights[t].owner);
  }

  lemma GradingStepIsModest<P>(s: System<P>, step: Step<P>)
    requires Wired(s) && Enabled(s, step) && (step.ReadChannel? || step.FreeAnswer? || step.FailedTry?)
    ensures Modest(s.core, Next(s, step).core)
  {
    match step
    case ReadChannel(key, known) => ReadingIsModest(s.core, key, known);
    case FreeAnswer(key, nonce, reply) => ReplyIsModest(s.core, key, nonce, reply);
    case FailedTry(key, nonce) => TryIsModest(s.core, key, nonce);
  }

  lemma GroupStepIsModest<P>(s: System<P>, step: Step<P>)
    requires Wired(s) && Enabled(s, step) && (step.Disable? || step.Unregister?)
    ensures Modest(s.core, Next(s, step).core)
  {
    match step
    case Disable(gid) => GroupIsModest(s.core, gid);
    case Unregister(gid) => GroupIsModest(s.core, gid);
  }

  lemma OtherStepIsModest<P>(s: System<P>, step: Step<P>)
    requires Wired(s) && Enabled(s, step)
    requires step.Tick? || step.Shutdown? || step.Register? || step.Weigh? || step.PutStrike?
    ensures Modest(s.core, Next(s, step).core)
  {
    match step
    case Weigh(t, outcome) => WeighingIsJudged(s, t, outcome);
    case PutStrike(t) => StrikeIsJudged(s, t);
    case _ =>
  }

  lemma ClaimStepIsModest<P>(s: System<P>, step: Step<P>)
    requires Wired(s) && Enabled(s, step)
    requires step.AdminApprove? || step.AdminBan? || step.Answer? || step.Expire?
    ensures Modest(s.core, Next(s, step).core)
  {
    match step
    case AdminApprove(key) => ClaimIsModest(s.core, key, AnyClaim);
    case AdminBan(key) => ClaimIsModest(s.core, key, AnyClaim);
    case Answer(key, nonce, _) => ClaimIsModest(s.core, key, NonceClaim(nonce));
    case Expire(cb) => ClaimIsModest(s.core, cb.timer.key, ExpiryClaim(cb.timer.nonce, cb.timer.epoch));
  }

  /** Only an admission under way marks its pending as passed, and only a record read back brings one
      that was. */
  lemma StepIsModest<P>(s: System<P>, step: Step<P>)
    requires Inv(s) && Patient(s.core) && Wired(s) && Enabled(s, step) && !step.NotePassing? && !step.Load?
    ensures Modest(s.core, Next(s, step).core)
  {
    if step.AdminApprove? || step.AdminBan? || step.Answer? || step.Expire? { ClaimStepIsModest(s, step); }
    else if step.Arrive? || step.Deliver? || step.Message? || step.Fallback? || step.Adopt? || step.Renotify? { ChallengeStepIsModest(s, step); }
    else if step.Fire? || step.Defer? || step.RecoverAll? || step.Retry? || step.RecoveryDrop? || step.Abandon? || step.Finish? {
      TimedStepIsModest(s, step);
    } else if step.ReadChannel? || step.FreeAnswer? || step.FailedTry? { GradingStepIsModest(s, step); }
    else if step.Disable? || step.Unregister? { GroupStepIsModest(s, step); }
    else { OtherStepIsModest(s, step); }
  }

  lemma LoadShape<P>(s: System<P>, p: P, r: Pending, delay: int, reason: Reason, s': System<P>)
    requires Stepped(s, Load(p, r, delay, reason), s')
    ensures s' == s.(core := s'.core) && s'.core.strikes == s.core.strikes
    ensures forall q | q in s'.core.cells && s'.core.cells[q].passing :: (q in s.core.cells && s.core.cells[q].passing) || (q == p && r.passing)
    ensures forall t | t in s'.core.timers && t.armed.reason == WrongAnswer :: t in s.core.timers
  {
  }

  lemma NoteShape<P>(s: System<P>, ticket: nat, s': System<P>)
    requires Stepped(s, NotePassing(ticket), s')
    ensures s' == s.(core := s'.core) && s'.core.strikes == s.core.strikes && s'.core.timers == s.core.timers
    ensures forall q | q in s'.core.cells && s'.core.cells[q].passing ::
      (q in s.core.cells && s.core.cells[q].passing) || q == s.flights[ticket].owner
  {
  }

  lemma StaysPatient<P>(s: System<P>, step: Step<P>, s': System<P>)
    requires Inv(s) && Patient(s.core) && Stepped(s, step, s')
    ensures Patient(s'.core)
  {
    if step.Load? { LoadShape(s, step.p, step.pending, step.delay, step.reason, s'); }
    else if step.NotePassing? { NoteShape(s, step.ticket, s'); }
    else { StepIsModest(s, step); }
  }

  // ---- Where settlements come from ----

  /** Every settlement under way in `s'` was so in `s`, with the same pending and action, or `begun` is
      the one that has just begun. */
  ghost predicate OneBegun<P>(s: System<P>, s': System<P>, begun: bool, p: P, action: Action) {
    forall t | t in s'.flights ::
      || (t in s.flights && s'.flights[t].owner == s.flights[t].owner && s'.flights[t].action == s.flights[t].action)
      || (begun && s'.flights[t].owner == p && s'.flights[t].action == action)
  }

  predicate ClaimStep(step: Step) { step.AdminApprove? || step.AdminBan? || step.Answer? || step.Expire? }

  lemma OthersBeginNone<P>(s: System<P>, step: Step<P>, s': System<P>, p: P)
    requires Stepped(s, step, s') && !ClaimStep(step)
    ensures OneBegun(s, s', false, p, Approving)
  {
    if CoreStep(step) { CoreStepShape(s, step); }
    else if step.Weigh? { WeighingIsJudged(s, step.ticket, step.outcome); }
    else if step.PutStrike? { StrikeIsJudged(s, step.ticket); }
  }

  lemma AnswerBegins<P>(s: System<P>, step: Step<P>, s': System<P>)
    requires Stepped(s, step, s') && step.Answer?
    ensures s'.core.strikes == s.core.strikes
    ensures s'.flights == s.flights || exists p ::
      WaitsWith(s.core, step.key, step.nonce, p)
      && OneBegun(s, s', true, p, if step.correct then Approving else Declining(WrongAnswer))
  {
    AnswerSettles(s, step.key, step.nonce, step.correct, s');
    if s'.flights != s.flights {
      var p := s.core.pend[step.key];
      assert WaitsWith(s.core, step.key, step.nonce, p);
    }
  }

  lemma AdminBegins<P>(s: System<P>, step: Step<P>, s': System<P>)
    requires Stepped(s, step, s') && (step.AdminApprove? || step.AdminBan?)
    ensures s'.core.strikes == s.core.strikes
    ensures s'.flights == s.flights || (step.key in s.core.pend
      && OneBegun(s, s', true, s.core.pend[step.key], if step.AdminBan? then Banning else Approving))
  {
    AdminSettles(s, step.key, step.AdminBan?, s');
  }

  lemma ExpiryBegins<P>(s: System<P>, step: Step<P>, s': System<P>)
    requires CallbacksKnown(s) && Patient(s.core) && Stepped(s, step, s') && step.Expire?
    ensures s'.core.strikes == s.core.strikes
    ensures s'.flights == s.flights || exists p, action ::
      && OneBegun(s, s', true, p, action) && !action.Banning? && action != Declining(WrongAnswer)
      && (action.Approving? ==> p in s.core.cells && s.core.cells[p].passing)
  {
    var cb := step.callback;
    var claim := Claim(s.core, cb.timer.key, ExpiryClaim(cb.timer.nonce, cb.timer.epoch));
    if claim.1.Some? {
      assert OneBegun(s, s', true, claim.1.value, ExpiryAction(claim, cb));
    }
  }

  // ---- Nobody without cause ----

  lemma CreditIsOld<P>(s: System<P>, s': System<P>, p: P, begun: bool, q: P, action: Action)
    requires Modest(s.core, s'.core) && OneBegun(s, s', begun, q, action) && Credited(s', p)
    ensures Credited(s, p) || (begun && q == p && action.Approving?)
  {
  }

  lemma BlameIsOld<P>(s: System<P>, s': System<P>, p: P, begun: bool, q: P, action: Action)
    requires s'.core.strikes == s.core.strikes && OneBegun(s, s', begun, q, action) && Blamed(s', p)
    ensures Blamed(s, p) || (begun && q == p && action == Declining(WrongAnswer))
  {
  }

  lemma BanIsOld<P>(s: System<P>, s': System<P>, p: P, begun: bool, q: P, action: Action)
    requires OneBegun(s, s', begun, q, action) && BeingBanned(s', p)
    ensures BeingBanned(s, p) || (begun && q == p && action.Banning?)
  {
  }

  /** What the step has begun, if anything, is as its cause. */
  ghost predicate Caused<P>(s: System<P>, step: Step<P>, begun: bool, q: P, action: Action) {
    begun ==>
      && (action.Approving? ==> Earns(s, step, q) || (q in s.core.cells && s.core.cells[q].passing))
      && (action == Declining(WrongAnswer) ==> Fails(s, step, q))
      && (action.Banning? ==> AsksToBan(s, step, q))
  }

  lemma BegunIsCaused<P>(s: System<P>, step: Step<P>, s': System<P>, p: P) returns (begun: bool, q: P, action: Action)
    requires CallbacksKnown(s) && Patient(s.core) && Stepped(s, step, s')
    ensures OneBegun(s, s', begun, q, action) && Caused(s, step, begun, q, action)
  {
    begun, q, action := false, p, Approving;
    if step.Answer? {
      AnswerBegins(s, step, s');
      if s'.flights != s.flights {
        begun, action := true, if step.correct then Approving else Declining(WrongAnswer);
        q :| WaitsWith(s.core, step.key, step.nonce, q) && OneBegun(s, s', true, q, action);
      }
    } else if step.Expire? {
      ExpiryBegins(s, step, s');
      if s'.flights != s.flights {
        begun := true;
        q, action :| OneBegun(s, s', true, q, action) && !action.Banning? && action != Declining(WrongAnswer)
                     && (action.Approving? ==> q in s.core.cells && s.core.cells[q].passing);
      }
    } else if ClaimStep(step) {
      AdminBegins(s, step, s');
      if s'.flights != s.flights { begun, q, action := true, s.core.pend[step.key], if step.AdminBan? then Banning else Approving; }
    } else {
      OthersBeginNone(s, step, s', p);
    }
  }

  lemma CreditStep<P>(s: System<P>, step: Step<P>, s': System<P>, p: P)
    requires Inv(s) && Patient(s.core) && Stepped(s, step, s') && Credited(s', p)
    ensures Credited(s, p) || Earns(s, step, p)
  {
    if step.Load? { LoadShape(s, step.p, step.pending, step.delay, step.reason, s'); }
    else if step.NotePassing? { NoteCredits(s, step.ticket, s', p); }
    else {
      var begun, q, action := BegunIsCaused(s, step, s', p);
      assert Modest(s.core, s'.core) by { StepIsModest(s, step); }
      CreditIsOld(s, s', p, begun, q, action);
    }
  }

  lemma NoteCredits<P>(s: System<P>, ticket: nat, s': System<P>, p: P)
    requires Stepped(s, NotePassing(ticket), s') && Credited(s', p)
    ensures Credited(s, p)
  {
    NoteShape(s, ticket, s');
  }

  lemma BanStep<P>(s: System<P>, step: Step<P>, s': System<P>, p: P)
    requires CallbacksKnown(s) && Patient(s.core) && Stepped(s, step, s') && BeingBanned(s', p)
    ensures BeingBanned(s, p) || AsksToBan(s, step, p)
  {
    var begun, q, action := BegunIsCaused(s, step, s', p);
    BanIsOld(s, s', p, begun, q, action);
  }

  lemma StrikeBlames<P>(s: System<P>, ticket: nat, s': System<P>, p: P)
    requires Stepped(s, PutStrike(ticket), s') && Blamed(s', p)
    ensures Blamed(s, p)
  {
  }

  lemma BlameStep<P>(s: System<P>, step: Step<P>, s': System<P>, p: P)
    requires CallbacksKnown(s) && Patient(s.core) && Stepped(s, step, s') && Blamed(s', p)
    ensures Blamed(s, p) || Fails(s, step, p)
  {
    if step.PutStrike? {
      StrikeBlames(s, step.ticket, s', p);
    } else {
      var begun, q, action := BegunIsCaused(s, step, s', p);
      assert s'.core.strikes == s.core.strikes by { OnlyDeclinesStrike(s, step); }
      BlameIsOld(s, s', p, begun, q, action);
    }
  }

  lemma {:induction false} CreditRuns<P>(s: System<P>, steps: seq<Step<P>>, s': System<P>, p: P)
    requires Inv(s) && Patient(s.core) && Runs(s, steps, s') && Credited(s', p)
    ensures Credited(s, p) || Once(s, steps, s', (q, step) => Earns(q, step, p))
    decreases |steps|
  {
    if steps != [] {
      var s1 := Next(s, steps[0]);
      assert Inv(s1) by { StepKeepsInv(s, steps[0]); }
      assert Patient(s1.core) by { StaysPatient(s, steps[0], s1); }
      CreditRuns(s1, steps[1..], s', p);
      if Credited(s1, p) { CreditStep(s, steps[0], s1, p); }
    }
  }

  lemma {:induction false} BlameRuns<P>(s: System<P>, steps: seq<Step<P>>, s': System<P>, p: P)
    requires Inv(s) && Patient(s.core) && Runs(s, steps, s') && Blamed(s', p)
    ensures Blamed(s, p) || Once(s, steps, s', (q, step) => Fails(q, step, p))
    decreases |steps|
  {
    if steps != [] {
      var s1 := Next(s, steps[0]);
      assert Inv(s1) by { StepKeepsInv(s, steps[0]); }
      assert Patient(s1.core) by { StaysPatient(s, steps[0], s1); }
      BlameRuns(s1, steps[1..], s', p);
      if Blamed(s1, p) { BlameStep(s, steps[0], s1, p); }
    }
  }

  lemma {:induction false} BanRuns<P>(s: System<P>, steps: seq<Step<P>>, s': System<P>, p: P)
    requires Inv(s) && Patient(s.core) && Runs(s, steps, s') && BeingBanned(s', p)
    ensures BeingBanned(s, p) || Once(s, steps, s', (q, step) => AsksToBan(q, step, p))
    decreases |steps|
  {
    if steps != [] {
      var s1 := Next(s, steps[0]);
      assert Inv(s1) by { StepKeepsInv(s, steps[0]); }
      assert Patient(s1.core) by { StaysPatient(s, steps[0], s1); }
      BanRuns(s1, steps[1..], s', p);
      if BeingBanned(s1, p) { BanStep(s, steps[0], s1, p); }
    }
  }

  /** In every run: whoever is being admitted gave the right answer to the challenge they were put, or
      an administrator approved it, or they had passed before a restart. */
  lemma AdmittedForACause<P>(now: Time, groups: set<int>, steps: seq<Step<P>>, s: System<P>, t: nat)
    requires Runs(Empty<P>(now, groups), steps, s) && t in s.flights && s.flights[t].action.Approving?
    ensures Once(Empty<P>(now, groups), steps, s, (q, step) => Earns(q, step, s.flights[t].owner))
  {
    EmptyIsSafe<P>(now, groups);
    CreditRuns(Empty(now, groups), steps, s, s.flights[t].owner);
  }

  /** Nobody is rejected or struck for a wrong answer without having given one to that challenge. */
  lemma BlamedForACause<P>(now: Time, groups: set<int>, steps: seq<Step<P>>, s: System<P>, p: P)
    requires Runs(Empty<P>(now, groups), steps, s) && Blamed(s, p)
    ensures Once(Empty<P>(now, groups), steps, s, (q, step) => Fails(q, step, p))
  {
    EmptyIsSafe<P>(now, groups);
    BlameRuns(Empty(now, groups), steps, s, p);
  }

  /** And nobody is banned unless an administrator asked for it. */
  lemma BannedForACause<P>(now: Time, groups: set<int>, steps: seq<Step<P>>, s: System<P>, t: nat)
    requires Runs(Empty<P>(now, groups), steps, s) && t in s.flights && s.flights[t].action.Banning?
    ensures Once(Empty<P>(now, groups), steps, s, (q, step) => AsksToBan(q, step, s.flights[t].owner))
  {
    EmptyIsSafe<P>(now, groups);
    BanRuns(Empty(now, groups), steps, s, s.flights[t].owner);
  }
}

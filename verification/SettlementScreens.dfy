/** What an applicant has been shown, along a run: a posted message means a delivered challenge. */
module SettlementScreens {
  import opened Options
  import opened Settlement
  import opened SettlementRuns
  import opened SettlementTheorems
  import opened SettlementGrowth

  /** A message on screen was delivered. The stored form of a pending depends on it. */
  predicate Shown(r: Pending) { OnScreen(r) ==> r.screen.delivered }

  ghost predicate AllShown<P>(c: Core<P>) { forall p | p in c.cells :: Shown(c.cells[p]) }

  // ---- Deliveries ----

  datatype DeliveryMode = InGroup | InBoth | InPrivate | Elsewhere

  /** How the private challenge ended; only a delivered one has a message. */
  datatype Private = Arrived(messageID: int) | Rejected | Uncertain | Gone

  datatype Delivery = Delivery(groupMsg: int, privateMsg: int, delivered: bool, active: bool)

  /** `deliverPendingChallenge`; `post` is the message of the group challenge, 0 when it failed. */
  function Deliver(mode: DeliveryMode, post: int, private: Private): Delivery {
    var messageID := if private.Arrived? then private.messageID else 0;
    match mode
    case InGroup => Delivery(post, 0, post != 0, true)
    case InBoth => Delivery(post, messageID, post != 0 || private.Arrived?, !private.Gone?)
    case InPrivate =>
      if private.Rejected? then Delivery(post, 0, post != 0, true)
      else Delivery(0, messageID, private.Arrived?, !private.Gone?)
    case Elsewhere => Delivery(0, 0, false, true)
  }

  /** Whatever was posted counts as delivered. */
  lemma PostedIsDelivered(mode: DeliveryMode, post: int, private: Private)
    ensures var d := Deliver(mode, post, private); d.groupMsg != 0 || d.privateMsg != 0 ==> d.delivered
  {
  }

  /** The switch of `deliverPendingChallenge`, as it goes through its modes. */
  method DeliverPending(mode: DeliveryMode, post: int, private: Private) returns (result: Delivery)
    ensures result == Deliver(mode, post, private)
  {
    result := Delivery(0, 0, false, true);
    match mode
    case InGroup =>
      result := result.(groupMsg := post);
      result := result.(delivered := result.groupMsg != 0);
    case InBoth =>
      result := result.(groupMsg := post);
      result := result.(delivered := result.groupMsg != 0);
      match private {
        case Arrived(messageID) => result := result.(privateMsg := messageID, delivered := true);
        case Gone => result := result.(active := false);
        case _ =>
      }
    case InPrivate =>
      match private {
        case Arrived(messageID) => result := result.(privateMsg := messageID, delivered := true);
        case Rejected =>
          result := result.(groupMsg := post);
          result := result.(delivered := result.groupMsg != 0);
        case Gone => result := result.(active := false);
        case Uncertain =>
      }
    case Elsewhere =>
  }

  /** The group is asked unless the applicant is to be asked in private, or turns private messages down;
      a challenge is delivered when the message of one that was tried is there, and dropped only for an
      applicant who is gone. */
  lemma DeliveredExactlyWhen(mode: DeliveryMode, post: int, private: Private)
    ensures var d := Deliver(mode, post, private);
      var inGroup := mode == InGroup || mode == InBoth || (mode == InPrivate && private == Rejected);
      var inPrivate := mode == InBoth || mode == InPrivate;
      && (d.delivered <==> (inGroup && post != 0) || (inPrivate && private.Arrived?))
      && (d.active <==> !(inPrivate && private == Gone))
      && d.groupMsg == (if inGroup then post else 0)
      && d.privateMsg == (if inPrivate && private.Arrived? then private.messageID else 0)
  {
  }

  /** The report of some delivery that left the challenge active. */
  ghost predicate Reported(groupMsg: int, privateMsg: int, delivered: bool) {
    exists mode, post, private :: Deliver(mode, post, private) == Delivery(groupMsg, privateMsg, delivered, true)
  }

  /** What `load` makes of a stored screen: a message on it implies delivered, whatever was stored. */
  function AsLoaded(v: Screen, stored: bool): Screen { v.(delivered := stored || v.groupMsg != 0 || v.privateMsg != 0) }

  ghost predicate ReadBack(r: Pending) { exists v, stored :: r.screen == AsLoaded(v, stored) }

  /** Where the parameters of a step come from: a new challenge has no message yet, one from disk was
      built by `load`, and a delivery reports what it posted. */
  ghost predicate Sourced<P>(step: Step<P>) {
    match step
    case Arrive(_, r) => !OnScreen(r)
    case Load(_, r, _, _) => ReadBack(r)
    case Deliver(_, g, m, d, _) => Reported(g, m, d)
    case _ => true
  }

  lemma ReportIsHonest(groupMsg: int, privateMsg: int, delivered: bool)
    requires Reported(groupMsg, privateMsg, delivered)
    ensures groupMsg != 0 || privateMsg != 0 ==> delivered
  {
    var mode, post, private :| Deliver(mode, post, private) == Delivery(groupMsg, privateMsg, delivered, true);
    PostedIsDelivered(mode, post, private);
  }

  // ---- What a step does to the screens ----

  /** No pending has a new screen. */
  ghost predicate SameScreens<P>(c: Core<P>, c': Core<P>) {
    forall p | p in c'.cells :: p in c.cells && c'.cells[p].screen == c.cells[p].screen
  }

  lemma WriteShows<P>(c: Core<P>, c': Core<P>, p: P, r: Pending)
    requires AllShown(c) && Shown(r) && c'.cells == c.cells[p := r]
    ensures AllShown(c')
  {
  }

  lemma ArmShows<P>(c: Core<P>, p: P, r: Pending, delay: int, reason: Reason)
    requires AllShown(c) && Shown(r)
    ensures AllShown(Arm(c, p, r, delay, reason))
  {
    ArmedStands(r, c.now, delay, reason);
    WriteShows(c, Arm(c, p, r, delay, reason), p, ArmedPending(r, c.now, delay, reason));
  }

  lemma StartingShows(r: Pending, prev: Option<Pending>, now: Time)
    requires Shown(r)
    ensures Shown(Starting(r, prev, now))
  {
  }

  lemma ArrivalShows<P>(c: Core<P>, p: P, r: Pending)
    requires KeysKnown(c) && AllShown(c) && Shown(r)
    ensures AllShown(StartPending(c, p, r).0)
  {
    if StartPending(c, p, r).1.Started? {
      var prev := Lookup(c, r.key);
      StartingShows(r, prev, c.now);
      var cells := if prev.Some? then c.cells[c.pend[r.key] := prev.value.(done := true)] else c.cells;
      var c1 := c.(cells := cells, pend := c.pend[r.key := p]);
      assert AllShown(c1);
      ArmShows(c1, p, Starting(r, prev, c.now), PENDING_DELIVERY_TIMEOUT, ChallengePostFailed);
    }
  }

  lemma DeliveryShows<P>(c: Core<P>, p: P, g: int, m: int, d: bool, w: int)
    requires p in c.cells && AllShown(c) && (g != 0 || m != 0 ==> d)
    ensures AllShown(FinishChallenge(c, c.cells[p].key, p, g, m, d, w).0)
  {
    DeliverShape(c, c.cells[p].key, p, g, m, d, w);
    ArmShows(c, p, Delivered(c.cells[p], g, m, d, c.now + w), w, ExpiryReason(d));
  }

  lemma MessageShows<P>(c: Core<P>, prompt: Prompt<P>, send: Send, question: bool, text: string, reset: bool, w: int)
    requires prompt.owner in c.cells && AllShown(c)
    ensures AllShown(CompleteDM(c, prompt, send, question, text, reset, w).0)
  {
    var p, r := prompt.owner, c.cells[prompt.owner];
    if Current(c, prompt.key, p) && r.nonce == prompt.nonce {
      var m := Messaged(r.screen, send, question && prompt.fallbackPending && r.screen.fallbackPending, question, text);
      assert Shown(r.(screen := m.0));
      WrittenBackShows(c, p, r.(screen := m.0), m.1 && reset, w);
    }
  }

  lemma WrittenBackShows<P>(c: Core<P>, p: P, r: Pending, restart: bool, w: int)
    requires AllShown(c) && Shown(r)
    ensures AllShown(WriteBack(c, p, r, restart, w))
  {
    WriteBackShape(c, p, r, restart, w);
    if restart {
      assert Shown(Due(r, c.now + w));
      ArmShows(c, p, Due(r, c.now + w), w, Timeout);
    } else {
      WriteShows(c, c.(cells := c.cells[p := r]), p, r);
    }
  }

  lemma FallbackShows<P>(c: Core<P>, key: Key, nonce: string, question: string, answers: seq<string>)
    requires KeysKnown(c) && AllShown(c)
    ensures AllShown(BeginFallback(c, key, nonce, question, answers).0)
  {
    FallbackShape(c, key, nonce, question, answers);
    if BeginFallback(c, key, nonce, question, answers).1 {
      ArmShows(c, c.pend[key], Switched(c.cells[c.pend[key]], question, answers, c.now + PENDING_DELIVERY_TIMEOUT),
               PENDING_DELIVERY_TIMEOUT, ChallengePostFailed);
    }
  }

  lemma DeferShows<P>(c: Core<P>, key: Key, nonce: string, epoch: nat, reason: Reason, window: int)
    requires KeysKnown(c) && AllShown(c)
    ensures AllShown(DeferExpiry(c, key, nonce, epoch, reason, window))
  {
    if key in c.pend {
      var d := Deferred(c.cells[c.pend[key]], c.now, reason, window);
      ArmShows(c, c.pend[key], d.0, d.1, d.2);
    }
  }

  lemma RecoveredScreen(r: Pending, now: Time, window: int)
    ensures RecoveredPending(r, now, window).screen == r.screen
  {
  }

  lemma RecoveryShows<P>(c: Core<P>, windows: (int, Gate) -> int)
    requires AllShown(c)
    ensures AllShown(Recover(c, windows))
  {
    if !c.shuttingDown {
      forall p | p in c.cells ensures Shown(Recover(c, windows).cells[p]) {
        RecoveredScreen(c.cells[p], c.now, windows(c.cells[p].key.gid, c.cells[p].gate));
      }
    }
  }

  lemma RetriedScreen(r: Pending, now: Time, reason: Reason)
    ensures RetriedPending(r, now, reason).screen == r.screen
  {
    ArmedStands(Retried(r, now).0, now, Retried(r, now).1, reason);
  }

  lemma RetryShows<P>(c: Core<P>, p: P, reason: Reason)
    requires p in c.cells && c.cells[p].done && AllShown(c)
    ensures AllShown(Reopen(c, c.cells[p].key, p, reason).0)
  {
    ReopenShape(c, p, reason);
    RetriedScreen(c.cells[p], c.now, reason);
    SameScreensShow(c, Reopen(c, c.cells[p].key, p, reason).0);
  }

  lemma RenotifyShows<P>(c: Core<P>, p: P, groupMsg: int)
    requires p in c.cells && AllShown(c)
    ensures AllShown(Renotified(c, c.cells[p].key, p, groupMsg))
  {
  }

  lemma SameScreensShow<P>(c: Core<P>, c': Core<P>)
    requires AllShown(c) && SameScreens(c, c')
    ensures AllShown(c')
  {
  }

  lemma ClaimKeepsScreens<P>(c: Core<P>, key: Key, g: Guard)
    requires KeysKnown(c)
    ensures SameScreens(c, Claim(c, key, g).0)
  {
  }

  lemma EndKeepsScreens<P>(c: Core<P>, p: P)
    requires p in c.cells
    ensures SameScreens(c, FinishTerminal(c, c.cells[p].key, p)) && SameScreens(c, Discard(c, c.cells[p].key, p))
  {
  }

  lemma FlagsKeepScreens<P>(c: Core<P>, p: P)
    requires p in c.cells
    ensures SameScreens(c, MarkPassing(c, c.cells[p].key, p)) && SameScreens(c, AdoptAsHeld(c, c.cells[p].key, p))
  {
  }

  lemma GroupKeepsScreens<P>(c: Core<P>, gid: int)
    ensures SameScreens(c, CancelGroup(c, gid)) && SameScreens(c, RemoveGroup(c, gid))
  {
  }

  lemma ChannelKeepsScreens<P>(c: Core<P>, key: Key, known: bool)
    requires KeysKnown(c)
    ensures SameScreens(c, MarkChannel(c, key, known))
  {
  }

  lemma FreeReplyKeepsScreens<P>(c: Core<P>, key: Key, nonce: string, reply: FreeReply)
    requires KeysKnown(c)
    ensures SameScreens(c, MarkFree(c, key, nonce, reply).0)
  {
  }

  lemma TryKeepsScreens<P>(c: Core<P>, key: Key, nonce: string)
    requires KeysKnown(c)
    ensures SameScreens(c, RecordTry(c, key, nonce).0)
  {
    FailedTryShape(c, key, nonce);
  }

  lemma CapCheckKeepsScreens<P>(c: Core<P>, key: Key, nonce: string, epoch: nat)
    requires KeysKnown(c)
    ensures SameScreens(c, DeferralCapState(c, key, nonce, epoch).0)
  {
  }

  lemma ClaimStepShows<P>(s: System<P>, step: Step<P>)
    requires Wired(s) && Enabled(s, step)
    requires step.AdminApprove? || step.AdminBan? || step.Answer? || step.Expire?
    ensures SameScreens(s.core, Next(s, step).core)
  {
    match step
    case AdminApprove(key) => ClaimKeepsScreens(s.core, key, AnyClaim);
    case AdminBan(key) => ClaimKeepsScreens(s.core, key, AnyClaim);
    case Answer(key, nonce, _) => ClaimKeepsScreens(s.core, key, NonceClaim(nonce));
    case Expire(cb) => ClaimKeepsScreens(s.core, cb.timer.key, ExpiryClaim(cb.timer.nonce, cb.timer.epoch));
  }

  lemma SettleStepShows<P>(s: System<P>, step: Step<P>)
    requires Wired(s) && Enabled(s, step) && FlightsOK(s)
    requires step.NotePassing? || step.Abandon? || step.Weigh? || step.PutStrike? || step.Finish?
    ensures SameScreens(s.core, Next(s, step).core)
  {
    match step
    case Weigh(t, outcome) => WeighingIsJudged(s, t, outcome);
    case PutStrike(t) => StrikeIsJudged(s, t);
    case NotePassing(t) => FlagsKeepScreens(s.core, s.flights[t].owner);
    case Abandon(t) => EndKeepsScreens(s.core, s.flights[t].owner);
    case Finish(t) => EndKeepsScreens(s.core, s.flights[t].owner);
  }

  lemma ChallengeStepShows<P>(s: System<P>, step: Step<P>)
    requires Wired(s) && Enabled(s, step) && Sourced(step) && AllShown(s.core)
    requires step.Arrive? || step.Load? || step.Deliver? || step.Message? || step.Fallback?
    ensures AllShown(Next(s, step).core)
  {
    var c := s.core;
    match step
    case Arrive(p, r) => ArrivalShows(c, p, r);
    case Load(p, r, delay, reason) => ArmShows(c.(pend := c.pend[r.key := p]), p, r, delay, reason);
    case Deliver(p, g, m, d, w) => ReportIsHonest(g, m, d); DeliveryShows(c, p, g, m, d, w);
    case Message(prompt, send, q, text, reset, w) => MessageShows(c, prompt, send, q, text, reset, w);
    case Fallback(key, nonce, q, a) => FallbackShows(c, key, nonce, q, a);
  }

  lemma TimedStepShows<P>(s: System<P>, step: Step<P>)
    requires Wired(s) && Enabled(s, step) && AllShown(s.core) && FlightsOK(s)
    requires step.Defer? || step.RecoverAll? || step.Retry? || step.Renotify?
    ensures AllShown(Next(s, step).core)
  {
    var c := s.core;
    match step
    case Defer(cb, w) => DeferShows(c, cb.timer.key, cb.timer.nonce, cb.timer.epoch, cb.timer.armed.reason, w);
    case RecoverAll(windows) => RecoveryShows(c, windows);
    case Retry(t, reason) => RetryShows(c, s.flights[t].owner, reason);
    case Renotify(p, g) => RenotifyShows(c, p, g);
  }

  lemma GroupStepShows<P>(s: System<P>, step: Step<P>)
    requires Wired(s) && Enabled(s, step)
    requires step.Disable? || step.Unregister? || step.Tick? || step.Register? || step.Shutdown?
    ensures SameScreens(s.core, Next(s, step).core)
  {
    match step
    case Disable(gid) => GroupKeepsScreens(s.core, gid);
    case Unregister(gid) => GroupKeepsScreens(s.core, gid);
    case _ =>
  }

  lemma OtherStepShows<P>(s: System<P>, step: Step<P>)
    requires Wired(s) && Enabled(s, step)
    requires step.Fire? || step.RecoveryDrop? || step.ReadChannel? || step.Adopt? || step.FreeAnswer? || step.FailedTry?
    ensures SameScreens(s.core, Next(s, step).core)
  {
    var c := s.core;
    match step
    case Fire(t) => CapCheckKeepsScreens(c, t.key, t.nonce, t.epoch);
    case RecoveryDrop(p) => EndKeepsScreens(c, p);
    case Adopt(p) => FlagsKeepScreens(c, p);
    case ReadChannel(key, known) => ChannelKeepsScreens(c, key, known);
    case FreeAnswer(key, nonce, reply) => FreeReplyKeepsScreens(c, key, nonce, reply);
    case FailedTry(key, nonce) => TryKeepsScreens(c, key, nonce);
  }

  lemma StepShows<P>(s: System<P>, step: Step<P>)
    requires Inv(s) && Wired(s) && Enabled(s, step) && Sourced(step) && AllShown(s.core)
    ensures AllShown(Next(s, step).core)
  {
    if step.AdminApprove? || step.AdminBan? || step.Answer? || step.Expire? {
      ClaimStepShows(s, step);
      SameScreensShow(s.core, Next(s, step).core);
    } else if step.NotePassing? || step.Abandon? || step.Weigh? || step.PutStrike? || step.Finish? {
      SettleStepShows(s, step);
      SameScreensShow(s.core, Next(s, step).core);
    } else if step.Arrive? || step.Load? || step.Deliver? || step.Message? || step.Fallback? {
      ChallengeStepShows(s, step);
    } else if step.Defer? || step.RecoverAll? || step.Retry? || step.Renotify? {
      TimedStepShows(s, step);
    } else {
      if step.Disable? || step.Unregister? || step.Tick? || step.Register? || step.Shutdown? { GroupStepShows(s, step); }
      else { OtherStepShows(s, step); }
      SameScreensShow(s.core, Next(s, step).core);
    }
  }

  ghost predicate AllSourced<P>(steps: seq<Step<P>>) { forall i | 0 <= i < |steps| :: Sourced(steps[i]) }

  lemma FirstOfRun<P>(s: System<P>, steps: seq<Step<P>>, s': System<P>)
    requires Inv(s) && Runs(s, steps, s') && AllSourced(steps) && AllShown(s.core) && steps != []
    ensures Inv(Next(s, steps[0])) && AllShown(Next(s, steps[0]).core) && AllSourced(steps[1..])
  {
    StepShows(s, steps[0]);
    StepKeepsInv(s, steps[0]);
  }

  lemma {:induction false} RunShows<P>(s: System<P>, steps: seq<Step<P>>, s': System<P>)
    requires Inv(s) && Runs(s, steps, s') && AllSourced(steps) && AllShown(s.core)
    ensures AllShown(s'.core)
    decreases |steps|
  {
    if steps != [] {
      FirstOfRun(s, steps, s');
      RunShows(Next(s, steps[0]), steps[1..], s');
    }
  }

  /** In every run, a pending with a message on screen is delivered. */
  lemma OnScreenIsDelivered<P>(now: Time, groups: set<int>, steps: seq<Step<P>>, s: System<P>, p: P)
    requires Runs(Empty<P>(now, groups), steps, s) && AllSourced(steps) && p in s.core.cells
    ensures OnScreen(s.core.cells[p]) ==> s.core.cells[p].screen.delivered
  {
    EmptyIsSafe<P>(now, groups);
    RunShows(Empty(now, groups), steps, s);
  }
}

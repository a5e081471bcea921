/** Every interleaving of the verification service: lock sections of the core run one at a time,
    and between them Telegram calls and timer callbacks are in flight. */
module SettlementRuns {
  import opened Options
  import opened Settlement
  import opened Sets

  datatype Action = Approving | Banning | Declining(reason: Reason)

  /** How far a settlement has come: its Telegram calls still out, the failure weighed, or put to the
      strike table. */
  datatype Stage = Open | Weighed(outcome: Outcome, charge: bool) | Recorded

  /** A claimed pending whose settlement has not returned. */
  datatype Flight<P> = Flight(key: Key, owner: P, action: Action, stage: Stage)

  /** A timer callback that passed its first check and is asking whether Telegram is reachable. */
  datatype Callback<P> = Callback(timer: Timer<P>, capped: bool)

  /** Settlements are told apart by a ticket, so that two of them for one pending would show. */
  datatype System<P(==)> = System(
    core: Core<P>, groups: set<int>,
    flights: map<nat, Flight<P>>, next: nat, callbacks: set<Callback<P>>)

  datatype Step<P> =
    | Tick(elapsed: nat)
    | Arrive(p: P, pending: Pending)
    | Load(p: P, pending: Pending, delay: int, reason: Reason)
    | Deliver(p: P, groupMsg: int, privateMsg: int, delivered: bool, window: int)
    | Message(prompt: Prompt<P>, send: Send, question: bool, kernelText: string, resetExpiry: bool, window: int)
    | AdminApprove(key: Key)
    | AdminBan(key: Key)
    | Answer(key: Key, nonce: string, correct: bool)
    | Fire(timer: Timer<P>)
    | Defer(callback: Callback<P>, window: int)
    | Expire(callback: Callback<P>)
    | RecoverAll(windows: (int, Gate) -> int)
    | RecoveryDrop(p: P)
    | NotePassing(ticket: nat)
    | Retry(ticket: nat, reason: Reason)
    | Abandon(ticket: nat)
    | Weigh(ticket: nat, outcome: Outcome)
    | PutStrike(ticket: nat)
    | Finish(ticket: nat)
    | Disable(gid: int)
    | Unregister(gid: int)
    | Register(gid: int, known: bool)
    | ReadChannel(key: Key, known: bool)
    | Adopt(p: P)
    | Renotify(p: P, groupMsg: int)
    | FreeAnswer(key: Key, nonce: string, reply: FreeReply)
    | FailedTry(key: Key, nonce: string)
    | Fallback(key: Key, nonce: string, text: string, answers: seq<string>)
    | Shutdown

  predicate Unused(r: Pending) {
    !r.done && !r.removed && r.epoch == 0 && r.armed.None? && r.settleFailures < MAX_SETTLE_FAILURES
  }

  /** A nonce is fresh when no pending of this process carries it for the same key. */
  ghost predicate FreshNonce<P>(c: Core<P>, r: Pending) {
    forall q | q in c.cells && c.cells[q].key == r.key :: c.cells[q].nonce != r.nonce
  }

  /** Every identity the machine can follow leads to a known pending. */
  ghost predicate Wired<P>(s: System<P>) {
    KeysKnown(s.core) && forall t | t in s.flights :: s.flights[t].owner in s.core.cells
  }

  ghost predicate Enabled<P>(s: System<P>, step: Step<P>)
    requires Wired(s)
  {
    match step
    case Arrive(p, r) => p !in s.core.cells && Unused(r) && r.tries == 0 && r.spent == {} && r.deferredSince.None?
                         && r.settleFailures == 0 && !r.passing && FreshNonce(s.core, r)
    case Load(p, r, _, reason) => p !in s.core.cells && Unused(r) && FreshNonce(s.core, r) && reason != WrongAnswer
                                  && r.key !in s.core.pend && r.key !in s.core.terminal
    case Deliver(p, _, _, _, _) => p in s.core.cells
    case Message(prompt, _, _, _, _, _) =>
      prompt.owner in s.core.cells && prompt.key == s.core.cells[prompt.owner].key
    case Fire(timer) => timer in s.core.timers && timer.armed.due <= s.core.now
    case Defer(cb, _) => cb in s.callbacks
    case Expire(cb) => cb in s.callbacks
    case RecoveryDrop(p) => p in s.core.cells
    case NotePassing(t) => t in s.flights && s.flights[t].action.Approving?
    case Retry(t, reason) => t in s.flights && s.flights[t].stage.Open? && !StrikesUser(reason)
                             && (s.flights[t].action.Approving? && Held(s.core, s.flights[t].owner) ==>
                                   s.core.cells[s.flights[t].owner].passing)
    case Abandon(t) => t in s.flights && s.flights[t].stage.Open?
    case Weigh(t, _) => t in s.flights && s.flights[t].action.Declining? && s.flights[t].stage.Open?
    case PutStrike(t) => t in s.flights && s.flights[t].action.Declining? && s.flights[t].stage.Weighed?
    case Finish(t) => t in s.flights
    case Adopt(p) => p in s.core.cells
    case Renotify(p, _) => p in s.core.cells
    case _ => true
  }

  function Launch<P(==)>(s: System<P>, key: Key, claim: (Core<P>, Option<P>), action: Action): System<P> {
    if claim.1.None? then s.(core := claim.0)
    else s.(core := claim.0, flights := s.flights[s.next := Flight(key, claim.1.value, action, Open)],
            next := s.next + 1)
  }

  /** `finishDecline` reads the channel flag before it takes the mutex to record. */
  function WeighedFlight<P(==)>(c: Core<P>, f: Flight<P>, outcome: Outcome): Flight<P>
    requires f.owner in c.cells && f.action.Declining?
  {
    f.(stage := Weighed(outcome, StrikesFor(outcome, f.action.reason) && !c.cells[f.owner].channelUnreadable))
  }

  function StrikeCore<P(==)>(s: System<P>, f: Flight<P>): Core<P>
    requires f.owner in s.core.cells && f.action.Declining? && f.stage.Weighed?
  {
    if f.stage.charge then RecordStrike(s.core, f.owner, f.action.reason, f.stage.outcome, f.key.gid in s.groups).0
    else s.core
  }

  ghost function Next<P>(s: System<P>, step: Step<P>): System<P>
    requires Wired(s) && Enabled(s, step)
  {
    var c := s.core;
    match step
    case Tick(elapsed) => s.(core := c.(now := c.now + elapsed))
    case Arrive(p, r) => s.(core := StartPending(c, p, r).0)
    case Load(p, r, delay, reason) => s.(core := Restore(c, p, r, delay, reason))
    case Deliver(p, g, m, d, w) => s.(core := FinishChallenge(c, c.cells[p].key, p, g, m, d, w).0)
    case Message(prompt, send, q, text, reset, w) => s.(core := CompleteDM(c, prompt, send, q, text, reset, w).0)
    case AdminApprove(key) => Launch(s, key, Claim(c, key, AnyClaim), Approving)
    case AdminBan(key) => Launch(s, key, Claim(c, key, AnyClaim), Banning)
    case Answer(key, nonce, correct) =>
      Launch(s, key, Claim(c, key, NonceClaim(nonce)), if correct then Approving else Declining(WrongAnswer))
    case Fire(t) =>
      var (c', check) := DeferralCapState(c, t.key, t.nonce, t.epoch);
      s.(core := c', callbacks := if check.Valid? then s.callbacks + {Callback(t, check.capped)} else s.callbacks)
    case Defer(cb, w) => s.(core := DeferExpiry(c, cb.timer.key, cb.timer.nonce, cb.timer.epoch, cb.timer.armed.reason, w))
    case Expire(cb) =>
      var claim := Claim(c, cb.timer.key, ExpiryClaim(cb.timer.nonce, cb.timer.epoch));
      Launch(s, cb.timer.key, claim, ExpiryAction(claim, cb))
    case RecoverAll(windows) => s.(core := Recover(c, windows))
    case RecoveryDrop(p) => s.(core := Discard(c, c.cells[p].key, p))
    case NotePassing(t) => s.(core := MarkPassing(c, s.flights[t].key, s.flights[t].owner))
    case Retry(t, reason) =>
      s.(core := Reopen(c, s.flights[t].key, s.flights[t].owner, reason).0, flights := s.flights - {t})
    case Abandon(t) => s.(core := Discard(c, s.flights[t].key, s.flights[t].owner), flights := s.flights - {t})
    case Weigh(t, outcome) => s.(flights := s.flights[t := WeighedFlight(c, s.flights[t], outcome)])
    case PutStrike(t) =>
      s.(core := StrikeCore(s, s.flights[t]), flights := s.flights[t := s.flights[t].(stage := Recorded)])
    case Finish(t) =>
      s.(core := FinishTerminal(c, s.flights[t].key, s.flights[t].owner), flights := s.flights - {t})
    case Disable(gid) => s.(core := CancelGroup(c, gid))
    case Unregister(gid) => s.(core := RemoveGroup(c, gid))
    case Register(gid, known) => s.(groups := if known then s.groups + {gid} else s.groups - {gid})
    case ReadChannel(key, known) => s.(core := MarkChannel(c, key, known))
    case Adopt(p) => s.(core := AdoptAsHeld(c, c.cells[p].key, p))
    case Renotify(p, g) => s.(core := Renotified(c, c.cells[p].key, p, g))
    case FreeAnswer(key, nonce, reply) => s.(core := MarkFree(c, key, nonce, reply).0)
    case FailedTry(key, nonce) => s.(core := RecordTry(c, key, nonce).0)
    case Fallback(key, nonce, q, a) => s.(core := BeginFallback(c, key, nonce, q, a).0)
    case Shutdown => s.(core := c.(shuttingDown := true))
  }

  /** An applicant who already answered correctly is admitted by the retry, never declined. */
  function ExpiryAction<P(==)>(claim: (Core<P>, Option<P>), cb: Callback<P>): Action {
    if claim.1.Some? && claim.1.value in claim.0.cells && claim.0.cells[claim.1.value].passing then Approving
    else Declining(if cb.capped then DeferralCap else cb.timer.armed.reason)
  }

  // ---- What every step keeps ----

  /** A claimed pending still in the map is exactly the one in `terminal`, an unclaimed one is
      exactly the one the map holds, and no terminal marker stands beside another pending. */
  ghost predicate MapsOK<P>(c: Core<P>) {
    && KeysKnown(c)
    && (forall k | k in c.pend :: c.cells[c.pend[k]].key == k && !c.cells[c.pend[k]].removed)
    && (forall k | k in c.terminal :: c.cells[c.terminal[k]].key == k && c.cells[c.terminal[k]].done)
    && (forall k | k in c.pend && c.cells[c.pend[k]].done :: k in c.terminal)
    && (forall k | k in c.pend && k in c.terminal :: c.pend[k] == c.terminal[k])
    && (forall p | p in c.cells && !c.cells[p].done :: Held(c, p))
  }

  /** Every armed timer belongs to a known pending, at an epoch that pending has reached. */
  ghost predicate TimersKnown<P>(c: Core<P>) {
    forall t | t in c.timers :: t.owner in c.cells && TimerFits(t, c.cells[t.owner])
  }

  ghost predicate TimerFits<P>(t: Timer<P>, r: Pending) {
    && t.key == r.key && t.nonce == r.nonce && t.epoch <= r.epoch
    && (t.epoch == r.epoch ==> r.armed == Some(t.armed))
  }

  ghost predicate NoncesDiffer<P>(c: Core<P>) {
    forall p, q | p in c.cells && q in c.cells && c.cells[p].key == c.cells[q].key
                  && c.cells[p].nonce == c.cells[q].nonce :: p == q
  }

  /** Once deferral has begun, the timer in force stays within the cap (or one nanosecond). */
  predicate WithinCap(r: Pending) {
    r.armed.Some? && r.deferredSince.Some? && !r.capReached ==>
      r.armed.value.due <= Max(r.deferredSince.value + MAX_DEFERRAL, r.armed.value.at + 1)
  }

  ghost predicate PendingsOK<P>(c: Core<P>) {
    && (forall p | p in c.cells :: WithinCap(c.cells[p]) && c.cells[p].settleFailures <= MAX_SETTLE_FAILURES)
    && (forall p | p in c.cells && !c.cells[p].done :: c.cells[p].armed.Some? && TimerOf(p, c.cells[p]) in c.timers)
    && (forall p | p in c.cells && Held(c, p) :: c.cells[p].settleFailures < MAX_SETTLE_FAILURES)
  }

  ghost predicate FlightsOK<P>(s: System<P>) {
    && (forall t | t in s.flights ::
          t < s.next && s.flights[t].owner in s.core.cells
          && s.flights[t].key == s.core.cells[s.flights[t].owner].key
          && s.core.cells[s.flights[t].owner].done
          && StageFits(s.flights[t]))
    && (forall t, u | t in s.flights && u in s.flights && s.flights[t].owner == s.flights[u].owner :: t == u)
    && (forall k | k in s.core.terminal :: InFlight(s, s.core.terminal[k]))
  }

  /** Only a decline is weighed, and it charges only what strikes. */
  predicate StageFits<P>(f: Flight<P>) {
    f.stage.Open? ||
    (f.action.Declining? && (f.stage.Weighed? && f.stage.charge ==> StrikesFor(f.stage.outcome, f.action.reason)))
  }

  ghost predicate InFlight<P>(s: System<P>, p: P) {
    exists t :: t in s.flights && s.flights[t].owner == p
  }

  /** At most one strike per pending, and a struck pending can only leave. */
  ghost predicate StrikesOK<P>(s: System<P>) {
    && (forall i, j | 0 <= i < j < |s.core.strikes| :: s.core.strikes[i].owner != s.core.strikes[j].owner)
    && (forall i | 0 <= i < |s.core.strikes| ::
          s.core.strikes[i].owner in s.core.cells && s.core.cells[s.core.strikes[i].owner].done)
    && (forall i, t | 0 <= i < |s.core.strikes| && t in s.flights && s.flights[t].owner == s.core.strikes[i].owner ::
          s.flights[t].stage.Recorded?)
  }

  ghost predicate CapsOK<P>(c: Core<P>) {
    |c.pend| <= PENDING_GLOBAL_CAP && forall g :: |GroupKeys(c.pend, g)| <= PENDING_PER_GROUP_CAP
  }

  ghost predicate CallbacksKnown<P>(s: System<P>) {
    forall cb | cb in s.callbacks :: cb.timer in s.core.timers
  }

  ghost predicate CoreOK<P>(c: Core<P>) {
    MapsOK(c) && TimersKnown(c) && NoncesDiffer(c) && PendingsOK(c) && CapsOK(c)
  }

  ghost predicate Inv<P>(s: System<P>) {
    CoreOK(s.core) && FlightsOK(s) && StrikesOK(s) && CallbacksKnown(s)
  }

  // ---- One step at a time ----

  /** What a step that neither claims nor settles leaves alone. */
  ghost predicate Quiet<P>(c: Core<P>, c': Core<P>) {
    && (forall p | p in c.cells :: p in c'.cells && c'.cells[p].key == c.cells[p].key && (c.cells[p].done ==> c'.cells[p].done))
    && (forall k | k in c'.terminal :: k in c.terminal && c'.terminal[k] == c.terminal[k])
    && c.timers <= c'.timers && c.strikes == c'.strikes
  }

  lemma QuietKeeps<P>(s: System<P>, c': Core<P>)
    requires Inv(s) && CoreOK(c') && Quiet(s.core, c')
    ensures Inv(s.(core := c'))
  {
    var s' := s.(core := c');
    forall k | k in c'.terminal ensures InFlight(s', c'.terminal[k]) {
      assert InFlight(s, s.core.terminal[k]);
    }
  }

  /** `c'` is `c` with one pending rewritten, nobody new in the map, and perhaps one more timer. */
  ghost predicate Rewrites<P>(c: Core<P>, c': Core<P>, p: P, r: Pending) {
    && p in c.cells && c'.cells == c.cells[p := r]
    && r.key == c.cells[p].key && r.nonce == c.cells[p].nonce
    && (forall k | k in c'.pend :: k in c.pend && c'.pend[k] == c.pend[k])
  }

  lemma WriteNonces<P>(c: Core<P>, c': Core<P>, p: P, r: Pending)
    requires NoncesDiffer(c) && Rewrites(c, c', p, r)
    ensures NoncesDiffer(c')
  {
  }

  lemma WriteTimers<P>(c: Core<P>, c': Core<P>, p: P, r: Pending)
    requires TimersKnown(c) && Rewrites(c, c', p, r)
    requires r.epoch == c.cells[p].epoch && r.armed == c.cells[p].armed && c'.timers == c.timers
    ensures TimersKnown(c')
  {
    forall t | t in c'.timers ensures t.owner in c'.cells && TimerFits(t, c'.cells[t.owner]) {
      assert t in c.timers;
    }
  }

  lemma WritePendings<P>(c: Core<P>, c': Core<P>, p: P, r: Pending)
    requires PendingsOK(c) && Rewrites(c, c', p, r) && c'.timers == c.timers
    requires r.epoch == c.cells[p].epoch && r.armed == c.cells[p].armed
    requires r.deferredSince == c.cells[p].deferredSince && r.settleFailures == c.cells[p].settleFailures
    requires (c.cells[p].capReached ==> r.capReached) && (c.cells[p].done ==> r.done)
    ensures PendingsOK(c')
  {
    forall q | q in c'.cells && Held(c', q) ensures c'.cells[q].settleFailures < MAX_SETTLE_FAILURES {
      assert Held(c, q);
    }
  }

  lemma ArmTimers<P>(c: Core<P>, c': Core<P>, p: P, r: Pending)
    requires TimersKnown(c) && Rewrites(c, c', p, r)
    requires r.epoch == c.cells[p].epoch + 1 && r.armed.Some? && c'.timers == c.timers + {TimerOf(p, r)}
    ensures TimersKnown(c')
  {
    forall t | t in c'.timers ensures t.owner in c'.cells && TimerFits(t, c'.cells[t.owner]) {
      assert t in c.timers || t == TimerOf(p, r);
    }
  }

  lemma ArmPendings<P>(c: Core<P>, c': Core<P>, p: P, r: Pending)
    requires PendingsOK(c) && Rewrites(c, c', p, r)
    requires r.armed.Some? && c'.timers == c.timers + {TimerOf(p, r)} && WithinCap(r)
    requires r.settleFailures <= MAX_SETTLE_FAILURES && (Held(c', p) ==> r.settleFailures < MAX_SETTLE_FAILURES)
    ensures PendingsOK(c')
  {
    forall q | q in c'.cells && Held(c', q) ensures c'.cells[q].settleFailures < MAX_SETTLE_FAILURES {
      assert q == p || Held(c, q);
    }
  }

  /** A rewrite that changes neither `done` nor `removed` under unchanged maps. */
  lemma WriteMaps<P>(c: Core<P>, c': Core<P>, p: P, r: Pending)
    requires MapsOK(c) && Rewrites(c, c', p, r) && c'.pend == c.pend && c'.terminal == c.terminal
    requires r.done == c.cells[p].done && r.removed == c.cells[p].removed
    ensures MapsOK(c')
  {
    assert forall q | q in c.cells :: c'.cells[q].done == c.cells[q].done && c'.cells[q].key == c.cells[q].key
                                      && c'.cells[q].removed == c.cells[q].removed;
    forall q | q in c'.cells && !c'.cells[q].done ensures Held(c', q) {
      assert Held(c, q);
    }
  }

  lemma RewriteIsQuiet<P>(c: Core<P>, c': Core<P>, p: P, r: Pending)
    requires Rewrites(c, c', p, r) && c'.terminal == c.terminal && c.timers <= c'.timers && c'.strikes == c.strikes
    requires c.cells[p].done ==> r.done
    ensures Quiet(c, c')
  {
  }

  /** Two versions of a pending that differ only in what no invariant speaks about. */
  predicate SameStanding(r: Pending, r': Pending) {
    r'.key == r.key && r'.nonce == r.nonce && r'.done == r.done && r'.removed == r.removed &&
    r'.epoch == r.epoch && r'.settleFailures == r.settleFailures
  }

  ghost predicate Keeps<P>(c: Core<P>, c': Core<P>) { CoreOK(c') && Quiet(c, c') }

  lemma Stay<P>(c: Core<P>)
    requires CoreOK(c)
    ensures Keeps(c, c)
  {
  }

  lemma WriteKeeps<P>(c: Core<P>, p: P, r: Pending)
    requires CoreOK(c) && p in c.cells && SameStanding(c.cells[p], r)
    requires r.armed == c.cells[p].armed && r.deferredSince == c.cells[p].deferredSince
    requires c.cells[p].capReached ==> r.capReached
    ensures Keeps(c, c.(cells := c.cells[p := r]))
  {
    var c' := c.(cells := c.cells[p := r]);
    assert Rewrites(c, c', p, r);
    assert MapsOK(c') by { WriteMaps(c, c', p, r); }
    assert TimersKnown(c') by { WriteTimers(c, c', p, r); }
    assert NoncesDiffer(c') by { WriteNonces(c, c', p, r); }
    assert PendingsOK(c') by { WritePendings(c, c', p, r); }
    assert Quiet(c, c') by { RewriteIsQuiet(c, c', p, r); }
  }

  /** Arming changes the epoch, the timer and perhaps the deadline, and respects the cap. */
  lemma ArmedStands(r: Pending, now: Time, delay: int, reason: Reason)
    ensures var r' := ArmedPending(r, now, delay, reason);
      && WithinCap(r') && r'.armed.Some?
      && r' == r.(epoch := r.epoch + 1, armed := r'.armed, times := r'.times)
  {
  }

  lemma ArmKeeps<P>(c: Core<P>, p: P, r: Pending, delay: int, reason: Reason)
    requires CoreOK(c) && p in c.cells && SameStanding(c.cells[p], r)
    ensures Keeps(c, Arm(c, p, r, delay, reason))
  {
    var r' := ArmedPending(r, c.now, delay, reason);
    var c' := Arm(c, p, r, delay, reason);
    assert MapsOK(c') by { WriteMaps(c, c', p, r'); }
    assert TimersKnown(c') by { ArmTimers(c, c', p, r'); }
    assert NoncesDiffer(c') by { WriteNonces(c, c', p, r'); }
    assert PendingsOK(c') by {
      ArmedStands(r, c.now, delay, reason);
      assert Held(c', p) ==> Held(c, p);
      ArmPendings(c, c', p, r');
    }
    assert Quiet(c, c') by { RewriteIsQuiet(c, c', p, r'); }
  }

  // ---- Steps that rewrite one pending ----

  lemma DeliverShape<P>(c: Core<P>, key: Key, p: P, g: int, m: int, delivered: bool, window: int)
    requires p in c.cells
    ensures var c' := FinishChallenge(c, key, p, g, m, delivered, window).0;
      var r := Delivered(c.cells[p], g, m, delivered, c.now + window);
      SameStanding(c.cells[p], r) && (c' == c || c' == Arm(c, p, r, window, ExpiryReason(delivered)))
  {
  }

  lemma DeliverKeeps<P>(c: Core<P>, key: Key, p: P, g: int, m: int, delivered: bool, window: int)
    requires CoreOK(c) && p in c.cells
    ensures Keeps(c, FinishChallenge(c, key, p, g, m, delivered, window).0)
  {
    DeliverShape(c, key, p, g, m, delivered, window);
    Stay(c);
    ArmKeeps(c, p, Delivered(c.cells[p], g, m, delivered, c.now + window), window, ExpiryReason(delivered));
  }

  lemma DueStands(r0: Pending, r: Pending, deadline: Time)
    requires SameStanding(r0, r)
    ensures SameStanding(r0, Due(r, deadline))
  {
  }

  lemma WriteBackShape<P>(c: Core<P>, p: P, r: Pending, restart: bool, window: int)
    ensures WriteBack(c, p, r, restart, window)
         == if restart then Arm(c, p, Due(r, c.now + window), window, Timeout) else c.(cells := c.cells[p := r])
  {
  }

  lemma WriteBackKeeps<P>(c: Core<P>, p: P, r: Pending, restart: bool, window: int)
    requires CoreOK(c) && p in c.cells && SameStanding(c.cells[p], r)
    requires r.armed == c.cells[p].armed && r.deferredSince == c.cells[p].deferredSince
    requires c.cells[p].capReached ==> r.capReached
    ensures Keeps(c, WriteBack(c, p, r, restart, window))
  {
    WriteBackShape(c, p, r, restart, window);
    if restart {
      DueStands(c.cells[p], r, c.now + window);
      ArmKeeps(c, p, Due(r, c.now + window), window, Timeout);
    } else {
      WriteKeeps(c, p, r);
    }
  }

  lemma MessageShape<P>(c: Core<P>, prompt: Prompt<P>, send: Send, question: bool, text: string, reset: bool, window: int)
    requires prompt.owner in c.cells
    ensures var c' := CompleteDM(c, prompt, send, question, text, reset, window).0;
      c' == c || exists v, restart: bool :: c' == WriteBack(c, prompt.owner, c.cells[prompt.owner].(screen := v), restart, window)
  {
    var p := prompt.owner;
    if Current(c, prompt.key, p) && c.cells[p].nonce == prompt.nonce {
      var v := c.cells[p].screen;
      var m := Messaged(v, send, question && prompt.fallbackPending && v.fallbackPending, question, text);
      assert CompleteDM(c, prompt, send, question, text, reset, window).0
          == WriteBack(c, p, c.cells[p].(screen := m.0), m.1 && reset, window);
    }
  }

  lemma MessageKeeps<P>(c: Core<P>, prompt: Prompt<P>, send: Send, question: bool, text: string, reset: bool, window: int)
    requires CoreOK(c) && prompt.owner in c.cells
    ensures Keeps(c, CompleteDM(c, prompt, send, question, text, reset, window).0)
  {
    MessageShape(c, prompt, send, question, text, reset, window);
    Stay(c);
    var p := prompt.owner;
    forall v, restart: bool ensures Keeps(c, WriteBack(c, p, c.cells[p].(screen := v), restart, window)) {
      WriteBackKeeps(c, p, c.cells[p].(screen := v), restart, window);
    }
  }

  lemma FireKeeps<P>(c: Core<P>, key: Key, nonce: string, epoch: nat)
    requires CoreOK(c)
    ensures Keeps(c, DeferralCapState(c, key, nonce, epoch).0)
  {
    var c' := DeferralCapState(c, key, nonce, epoch).0;
    if c' == c { Stay(c); } else {
      var r := c.cells[c.pend[key]].(capReached := true);
      assert c' == c.(cells := c.cells[c.pend[key] := r]);
      WriteKeeps(c, c.pend[key], r);
    }
  }

  lemma DeferKeeps<P>(c: Core<P>, key: Key, nonce: string, epoch: nat, reason: Reason, window: int)
    requires CoreOK(c)
    ensures Keeps(c, DeferExpiry(c, key, nonce, epoch, reason, window))
  {
    if key !in c.pend || c.cells[c.pend[key]].done || !Accepts(ExpiryClaim(nonce, epoch), c.cells[c.pend[key]]) {
      Stay(c);
    } else {
      var d := Deferred(c.cells[c.pend[key]], c.now, reason, window);
      ArmKeeps(c, c.pend[key], d.0, d.1, d.2);
    }
  }

  lemma NotePassingKeeps<P>(c: Core<P>, p: P)
    requires CoreOK(c) && p in c.cells
    ensures Keeps(c, MarkPassing(c, c.cells[p].key, p))
  {
    if Held(c, p) { WriteKeeps(c, p, c.cells[p].(passing := true)); } else { Stay(c); }
  }

  lemma AdoptKeeps<P>(c: Core<P>, p: P)
    requires CoreOK(c) && p in c.cells
    ensures Keeps(c, AdoptAsHeld(c, c.cells[p].key, p))
  {
    if Held(c, p) { WriteKeeps(c, p, c.cells[p].(gate := Mute)); } else { Stay(c); }
  }

  lemma RenotifyKeeps<P>(c: Core<P>, p: P, groupMsg: int)
    requires CoreOK(c) && p in c.cells
    ensures Keeps(c, Renotified(c, c.cells[p].key, p, groupMsg))
  {
    var r := c.cells[p];
    if Current(c, r.key, p) { WriteKeeps(c, p, r.(screen := r.screen.(groupMsg := groupMsg, delivered := true))); } else { Stay(c); }
  }

  lemma ReadChannelKeeps<P>(c: Core<P>, key: Key, known: bool)
    requires CoreOK(c)
    ensures Keeps(c, MarkChannel(c, key, known))
  {
    if key in c.pend { WriteKeeps(c, c.pend[key], c.cells[c.pend[key]].(channelUnreadable := !known)); } else { Stay(c); }
  }

  lemma FreeAnswerKeeps<P>(c: Core<P>, key: Key, nonce: string, reply: FreeReply)
    requires CoreOK(c)
    ensures Keeps(c, MarkFree(c, key, nonce, reply).0)
  {
    if MarkFree(c, key, nonce, reply).1 {
      WriteKeeps(c, c.pend[key], c.cells[c.pend[key]].(spent := c.cells[c.pend[key]].spent + {reply}));
    } else { Stay(c); }
  }

  lemma FailedTryShape<P>(c: Core<P>, key: Key, nonce: string)
    requires KeysKnown(c)
    ensures var (c', left) := RecordTry(c, key, nonce);
      if left.None? then c' == c
      else key in c.pend && var r := c.cells[c.pend[key]];
        c' == c.(cells := c.cells[c.pend[key] := r.(tries := r.tries + 1)])
  {
  }

  lemma FailedTryKeeps<P>(c: Core<P>, key: Key, nonce: string)
    requires CoreOK(c)
    ensures Keeps(c, RecordTry(c, key, nonce).0)
  {
    FailedTryShape(c, key, nonce);
    Stay(c);
    if RecordTry(c, key, nonce).1.Some? {
      WriteKeeps(c, c.pend[key], c.cells[c.pend[key]].(tries := c.cells[c.pend[key]].tries + 1));
    }
  }

  lemma FallbackShape<P>(c: Core<P>, key: Key, nonce: string, question: string, answers: seq<string>)
    requires KeysKnown(c)
    ensures var (c', begun) := BeginFallback(c, key, nonce, question, answers);
      (!begun ==> c' == c) &&
      (begun ==> (
        && key in c.pend
        && SameStanding(c.cells[c.pend[key]], Switched(c.cells[c.pend[key]], question, answers, c.now + PENDING_DELIVERY_TIMEOUT))
        && c' == Arm(c, c.pend[key], Switched(c.cells[c.pend[key]], question, answers, c.now + PENDING_DELIVERY_TIMEOUT),
                     PENDING_DELIVERY_TIMEOUT, ChallengePostFailed)))
  {
  }

  lemma FallbackKeeps<P>(c: Core<P>, key: Key, nonce: string, question: string, answers: seq<string>)
    requires CoreOK(c)
    ensures Keeps(c, BeginFallback(c, key, nonce, question, answers).0)
  {
    FallbackShape(c, key, nonce, question, answers);
    Stay(c);
    if BeginFallback(c, key, nonce, question, answers).1 {
      var r := Switched(c.cells[c.pend[key]], question, answers, c.now + PENDING_DELIVERY_TIMEOUT);
      ArmKeeps(c, c.pend[key], r, PENDING_DELIVERY_TIMEOUT, ChallengePostFailed);
    }
  }

  // ---- Steps that add a pending ----

  lemma CapacityLeavesRoom<P>(pend: map<Key, P>, key: Key, p: P)
    requires |pend| <= PENDING_GLOBAL_CAP && forall g :: |GroupKeys(pend, g)| <= PENDING_PER_GROUP_CAP
    requires key in pend || CapacityOK(pend, key.gid)
    ensures var pend' := pend[key := p];
      |pend'| <= PENDING_GLOBAL_CAP && forall g :: |GroupKeys(pend', g)| <= PENDING_PER_GROUP_CAP
  {
    var pend' := pend[key := p];
    assert pend'.Keys == pend.Keys + {key};
    assert |pend'| == |pend'.Keys| && |pend| == |pend.Keys|;
    forall g ensures |GroupKeys(pend', g)| <= PENDING_PER_GROUP_CAP {
      assert GroupKeys(pend', g) == GroupKeys(pend, g) + if key.gid == g then {key} else {};
    }
  }

  /** `c'` puts the new pending `p` under its key; a pending it replaces is finished. */
  ghost predicate Puts<P>(c: Core<P>, c': Core<P>, p: P, r: Pending) {
    && KeysKnown(c)
    && p !in c.cells && !r.done && !r.removed && r.armed.Some?
    && r.key !in c.terminal && FreshNonce(c, r)
    && c'.pend == c.pend[r.key := p] && c'.terminal == c.terminal
    && c'.timers == c.timers + {TimerOf(p, r)} && c'.strikes == c.strikes
    && c'.cells == (if r.key in c.pend then c.cells[c.pend[r.key] := c.cells[c.pend[r.key]].(done := true)] else c.cells)[p := r]
  }

  lemma PutMaps<P>(c: Core<P>, c': Core<P>, p: P, r: Pending)
    requires MapsOK(c) && Puts(c, c', p, r)
    ensures MapsOK(c')
  {
    forall k | k in c'.pend ensures c'.pend[k] in c'.cells && c'.cells[c'.pend[k]].key == k && !c'.cells[c'.pend[k]].removed {
      assert k == r.key || k in c.pend;
    }
    forall q | q in c'.cells && !c'.cells[q].done ensures Held(c', q) {
      if q != p {
        assert Held(c, q);
      }
    }
    forall k | k in c'.pend && c'.cells[c'.pend[k]].done ensures k in c'.terminal {
      assert k != r.key && k in c.pend && c.pend[k] != p;
      if r.key in c.pend { assert c.pend[k] != c.pend[r.key]; }
    }
  }

  lemma PutTimers<P>(c: Core<P>, c': Core<P>, p: P, r: Pending)
    requires TimersKnown(c) && Puts(c, c', p, r)
    ensures TimersKnown(c')
  {
    forall t | t in c'.timers ensures t.owner in c'.cells && TimerFits(t, c'.cells[t.owner]) {
      assert t in c.timers || t == TimerOf(p, r);
    }
  }

  lemma PutNonces<P>(c: Core<P>, c': Core<P>, p: P, r: Pending)
    requires NoncesDiffer(c) && Puts(c, c', p, r)
    ensures NoncesDiffer(c')
  {
  }

  lemma PutPendings<P>(c: Core<P>, c': Core<P>, p: P, r: Pending)
    requires PendingsOK(c) && Puts(c, c', p, r) && WithinCap(r) && r.settleFailures < MAX_SETTLE_FAILURES
    ensures PendingsOK(c')
  {
    forall q | q in c'.cells && Held(c', q) ensures c'.cells[q].settleFailures < MAX_SETTLE_FAILURES {
      assert q == p || Held(c, q);
    }
    forall q | q in c'.cells && !c'.cells[q].done ensures c'.cells[q].armed.Some? && TimerOf(q, c'.cells[q]) in c'.timers {
      assert q == p || c'.cells[q] == c.cells[q];
    }
  }

  lemma PutIsQuiet<P>(c: Core<P>, c': Core<P>, p: P, r: Pending)
    requires Puts(c, c', p, r)
    ensures Quiet(c, c')
  {
  }

  lemma PutKeeps<P>(c: Core<P>, c': Core<P>, p: P, r: Pending)
    requires CoreOK(c) && Puts(c, c', p, r) && WithinCap(r) && r.settleFailures < MAX_SETTLE_FAILURES
    requires r.key in c.pend || CapacityOK(c.pend, r.key.gid)
    ensures Keeps(c, c')
  {
    assert MapsOK(c') by { PutMaps(c, c', p, r); }
    assert TimersKnown(c') by { PutTimers(c, c', p, r); }
    assert NoncesDiffer(c') by { PutNonces(c, c', p, r); }
    assert PendingsOK(c') by { PutPendings(c, c', p, r); }
    assert CapsOK(c') by { CapacityLeavesRoom(c.pend, r.key, p); }
    assert Quiet(c, c') by { PutIsQuiet(c, c', p, r); }
  }

  lemma StartingStands(r: Pending, prev: Option<Pending>, now: Time)
    ensures var r' := ArmedPending(Starting(r, prev, now), now, PENDING_DELIVERY_TIMEOUT, ChallengePostFailed);
      && r'.key == r.key && r'.nonce == r.nonce && r'.done == r.done && r'.removed == r.removed
      && r'.settleFailures == r.settleFailures && r'.armed.Some? && WithinCap(r')
  {
    ArmedStands(Starting(r, prev, now), now, PENDING_DELIVERY_TIMEOUT, ChallengePostFailed);
  }

  lemma StartShape<P>(c: Core<P>, p: P, r: Pending)
    requires KeysKnown(c) && StartPending(c, p, r).1.Started?
    ensures var prev := Lookup(c, r.key);
      && r.key !in c.terminal && (r.key in c.pend || CapacityOK(c.pend, r.key.gid))
      && StartPending(c, p, r).0 == Arm(
           c.(cells := if prev.Some? then c.cells[c.pend[r.key] := prev.value.(done := true)] else c.cells,
              pend := c.pend[r.key := p]),
           p, Starting(r, prev, c.now), PENDING_DELIVERY_TIMEOUT, ChallengePostFailed)
  {
  }

  lemma StartPuts<P>(c: Core<P>, p: P, r: Pending)
    requires KeysKnown(c) && p !in c.cells && Unused(r) && FreshNonce(c, r) && StartPending(c, p, r).1.Started?
    ensures var r' := ArmedPending(Starting(r, Lookup(c, r.key), c.now), c.now, PENDING_DELIVERY_TIMEOUT, ChallengePostFailed);
      Puts(c, StartPending(c, p, r).0, p, r') && WithinCap(r') && r'.settleFailures < MAX_SETTLE_FAILURES && r'.key == r.key
    ensures r.key in c.pend || CapacityOK(c.pend, r.key.gid)
  {
    StartShape(c, p, r);
    StartingStands(r, Lookup(c, r.key), c.now);
  }

  lemma ArriveKeeps<P>(c: Core<P>, p: P, r: Pending)
    requires CoreOK(c) && p !in c.cells && Unused(r) && FreshNonce(c, r)
    ensures Keeps(c, StartPending(c, p, r).0)
  {
    if StartPending(c, p, r).1.Started? {
      StartPuts(c, p, r);
      PutKeeps(c, StartPending(c, p, r).0, p,
               ArmedPending(Starting(r, Lookup(c, r.key), c.now), c.now, PENDING_DELIVERY_TIMEOUT, ChallengePostFailed));
    } else {
      Stay(c);
    }
  }

  lemma LoadKeeps<P>(c: Core<P>, p: P, r: Pending, delay: int, reason: Reason)
    requires CoreOK(c) && p !in c.cells && Unused(r) && FreshNonce(c, r) && r.key !in c.pend && r.key !in c.terminal
    ensures Keeps(c, Restore(c, p, r, delay, reason))
  {
    if CapacityOK(c.pend, r.key.gid) {
      ArmedStands(r, c.now, delay, reason);
      PutKeeps(c, Restore(c, p, r, delay, reason), p, ArmedPending(r, c.now, delay, reason));
    } else {
      Stay(c);
    }
  }

  // ---- Claims and the end of a settlement ----

  /** A rewrite that may shrink the maps and may finish the pending. */
  lemma TakeKeeps<P>(c: Core<P>, c': Core<P>, p: P, r: Pending)
    requires CoreOK(c) && MapsOK(c') && Rewrites(c, c', p, r) && c'.timers == c.timers && c'.pend.Keys <= c.pend.Keys
    requires r.(done := c.cells[p].done, removed := c.cells[p].removed, times := c.cells[p].times) == c.cells[p]
    requires c.cells[p].done ==> r.done
    ensures CoreOK(c')
  {
    assert TimersKnown(c') by { WriteTimers(c, c', p, r); }
    assert NoncesDiffer(c') by { WriteNonces(c, c', p, r); }
    assert PendingsOK(c') by { WritePendings(c, c', p, r); }
    assert CapsOK(c') by { ShrinkKeepsCaps(c.pend, c'.pend); }
  }

  lemma ShrinkKeepsCaps<P>(pend: map<Key, P>, pend': map<Key, P>)
    requires pend'.Keys <= pend.Keys
    requires |pend| <= PENDING_GLOBAL_CAP && forall g :: |GroupKeys(pend, g)| <= PENDING_PER_GROUP_CAP
    ensures |pend'| <= PENDING_GLOBAL_CAP && forall g :: |GroupKeys(pend', g)| <= PENDING_PER_GROUP_CAP
  {
    SubsetSize(pend'.Keys, pend.Keys);
    assert |pend'| == |pend'.Keys| && |pend| == |pend.Keys|;
    forall g ensures |GroupKeys(pend', g)| <= PENDING_PER_GROUP_CAP {
      SubsetSize(GroupKeys(pend', g), GroupKeys(pend, g));
    }
  }

  /** A claim only ever takes a pending that no settlement holds, and its key was unmarked. */
  lemma ClaimTakesUnclaimed<P>(c: Core<P>, key: Key, g: Guard)
    requires MapsOK(c)
    ensures var (c', claimed) := Claim(c, key, g);
      && (claimed.None? ==> c' == c)
      && (claimed.Some? ==>
            key in c.pend && c.pend[key] == claimed.value && !c.cells[claimed.value].done && key !in c.terminal
            && c'.cells[claimed.value].done && c'.terminal == c.terminal[key := claimed.value] && c'.pend == c.pend)
  {
  }

  lemma ClaimMaps<P>(c: Core<P>, key: Key, g: Guard)
    requires MapsOK(c)
    ensures MapsOK(Claim(c, key, g).0)
  {
    var (c', claimed) := Claim(c, key, g);
    if claimed.Some? {
      ClaimTakesUnclaimed(c, key, g);
      forall q | q in c'.cells && !c'.cells[q].done ensures Held(c', q) {
        assert Held(c, q);
      }
    }
  }

  lemma ClaimKeeps<P>(c: Core<P>, key: Key, g: Guard)
    requires CoreOK(c)
    ensures CoreOK(Claim(c, key, g).0)
  {
    var (c', claimed) := Claim(c, key, g);
    if claimed.Some? {
      var p := claimed.value;
      assert MapsOK(c') by { ClaimMaps(c, key, g); }
      TakeKeeps(c, c', p, c'.cells[p]);
    }
  }

  /** `c'` drops `p` from the maps where it stood and leaves every other entry alone. */
  ghost predicate Drops<P>(c: Core<P>, c': Core<P>, p: P) {
    && c'.timers == c.timers && c'.strikes == c.strikes && c'.now == c.now
    && (forall k | k in c.pend && c.pend[k] != p :: k in c'.pend)
    && (forall k | k in c'.pend :: k in c.pend && c'.pend[k] == c.pend[k] && c'.pend[k] != p)
    && (forall k | k in c.terminal && c.terminal[k] != p :: k in c'.terminal)
    && (forall k | k in c'.terminal :: k in c.terminal && c'.terminal[k] == c.terminal[k] && c'.terminal[k] != p)
  }

  lemma DropMaps<P>(c: Core<P>, c': Core<P>, p: P)
    requires MapsOK(c) && p in c.cells && Drops(c, c', p)
    requires c'.cells == c.cells[p := c.cells[p].(done := true)]
    ensures MapsOK(c')
  {
    forall q | q in c'.cells && !c'.cells[q].done ensures Held(c', q) {
      assert Held(c, q);
    }
  }

  lemma DropKeeps<P>(c: Core<P>, c': Core<P>, p: P)
    requires CoreOK(c) && p in c.cells && Drops(c, c', p)
    requires c'.cells == c.cells[p := c.cells[p].(done := true)]
    ensures Keeps(c, c')
  {
    assert MapsOK(c') by { DropMaps(c, c', p); }
    assert CoreOK(c') by { TakeKeeps(c, c', p, c.cells[p].(done := true)); }
    assert Quiet(c, c') by { DropIsQuiet(c, c', p); }
  }

  lemma DropIsQuiet<P>(c: Core<P>, c': Core<P>, p: P)
    requires p in c.cells && Drops(c, c', p) && c'.cells == c.cells[p := c.cells[p].(done := true)]
    ensures Quiet(c, c')
  {
  }

  lemma FinishDrops<P>(c: Core<P>, p: P)
    requires MapsOK(c) && p in c.cells
    ensures Drops(c, FinishTerminal(c, c.cells[p].key, p), p)
  {
  }

  lemma RewriteDone<P>(c: Core<P>, p: P)
    requires p in c.cells && c.cells[p].done
    ensures c.cells[p := c.cells[p].(done := true)] == c.cells
  {
    assert c.cells[p].(done := true) == c.cells[p];
  }

  lemma FinishKeeps<P>(c: Core<P>, p: P)
    requires CoreOK(c) && p in c.cells && c.cells[p].done
    ensures Keeps(c, FinishTerminal(c, c.cells[p].key, p))
  {
    var c' := FinishTerminal(c, c.cells[p].key, p);
    FinishDrops(c, p);
    RewriteDone(c, p);
    assert c'.cells == c.cells;
    DropKeeps(c, c', p);
  }

  lemma DiscardDrops<P>(c: Core<P>, p: P)
    requires MapsOK(c) && p in c.cells
    ensures var c' := Discard(c, c.cells[p].key, p);
      Drops(c, c', p) && c'.cells == c.cells[p := c.cells[p].(done := true)]
  {
    var f := FinishTerminal(c, c.cells[p].key, p);
    FinishDrops(c, p);
    var c' := Discard(c, c.cells[p].key, p);
    assert c'.pend == f.pend && c'.terminal == f.terminal;
    if !Held(c, p) {
      assert c.cells[p].done;
      RewriteDone(c, p);
    }
  }

  lemma DiscardKeeps<P>(c: Core<P>, p: P)
    requires CoreOK(c) && p in c.cells
    ensures Keeps(c, Discard(c, c.cells[p].key, p))
  {
    DiscardDrops(c, p);
    DropKeeps(c, Discard(c, c.cells[p].key, p), p);
  }

  // ---- Retrying ----

  lemma RetriedStands(r: Pending, now: Time, reason: Reason)
    ensures var r' := RetriedPending(r, now, reason);
      && r'.key == r.key && r'.nonce == r.nonce && !r'.done && r'.removed == r.removed
      && r'.settleFailures == r.settleFailures + 1 && r'.epoch == r.epoch + 1 && r'.armed.Some? && WithinCap(r')
  {
    ArmedStands(Retried(r, now).0, now, Retried(r, now).1, reason);
  }

  function RetriedPending(r: Pending, now: Time, reason: Reason): Pending {
    ArmedPending(Retried(r, now).0, now, Retried(r, now).1, reason)
  }

  /** How a retry can end: no longer its own ... */
  ghost predicate LetGo<P>(c: Core<P>, c': Core<P>, p: P) {
    && p in c.cells && Rewrites(c, c', p, c.cells[p]) && !Held(c, p)
    && c'.timers == c.timers && c'.pend == c.pend && c'.strikes == c.strikes
    && c'.terminal == ReleaseTerminal(c, c.cells[p].key, p).terminal
  }

  /** ... out of attempts ... */
  ghost predicate GaveUp<P>(c: Core<P>, c': Core<P>, p: P) {
    && p in c.cells && Rewrites(c, c', p, c.cells[p].(settleFailures := c.cells[p].settleFailures + 1))
    && Held(c, p) && c.cells[p].settleFailures + 1 >= MAX_SETTLE_FAILURES
    && c'.timers == c.timers && c'.pend == c.pend - {c.cells[p].key} && c'.strikes == c.strikes
    && c'.terminal == ReleaseTerminal(c, c.cells[p].key, p).terminal
  }

  /** ... or back in the map, unclaimed, with one more failed settlement and a new timer. */
  ghost predicate Reopened<P>(c: Core<P>, c': Core<P>, p: P) {
    && p in c.cells && p in c'.cells && Rewrites(c, c', p, c'.cells[p])
    && Held(c, p) && c.cells[p].settleFailures + 1 < MAX_SETTLE_FAILURES
    && c'.cells[p].armed.Some? && c'.timers == c.timers + {TimerOf(p, c'.cells[p])} && c'.pend == c.pend
    && c'.strikes == c.strikes && c'.terminal == ReleaseTerminal(c, c.cells[p].key, p).terminal
    && !c'.cells[p].done && c'.cells[p].removed == c.cells[p].removed && WithinCap(c'.cells[p])
    && c'.cells[p].settleFailures == c.cells[p].settleFailures + 1 && c'.cells[p].epoch == c.cells[p].epoch + 1
  }

  lemma ReopenShape<P>(c: Core<P>, p: P, reason: Reason)
    requires p in c.cells && c.cells[p].done
    ensures var (c', ok) := Reopen(c, c.cells[p].key, p, reason);
      var c0 := ReleaseTerminal(c, c.cells[p].key, p);
      var r := c.cells[p];
      ok == (Held(c, p) && r.settleFailures + 1 < MAX_SETTLE_FAILURES)
      && c' == if !Held(c, p) then c0
               else if !ok then c0.(cells := c.cells[p := r.(settleFailures := r.settleFailures + 1)], pend := c.pend - {r.key})
               else c0.(cells := c.cells[p := RetriedPending(r, c.now, reason)],
                        timers := c.timers + {TimerOf(p, RetriedPending(r, c.now, reason))})
  {
  }

  lemma ReopenedCase<P>(c: Core<P>, p: P, reason: Reason)
    requires p in c.cells && c.cells[p].done && Held(c, p) && c.cells[p].settleFailures + 1 < MAX_SETTLE_FAILURES
    ensures Reopened(c, Reopen(c, c.cells[p].key, p, reason).0, p)
  {
    ReopenShape(c, p, reason);
    RetriedStands(c.cells[p], c.now, reason);
  }

  lemma ReopenCases<P>(c: Core<P>, p: P, reason: Reason)
    requires p in c.cells && c.cells[p].done
    ensures var (c', ok) := Reopen(c, c.cells[p].key, p, reason);
      (LetGo(c, c', p) && !ok) || (GaveUp(c, c', p) && !ok) || (Reopened(c, c', p) && ok)
  {
    ReopenShape(c, p, reason);
    if Held(c, p) && c.cells[p].settleFailures + 1 < MAX_SETTLE_FAILURES {
      ReopenedCase(c, p, reason);
    } else if !Held(c, p) {
      assert c.cells[p := c.cells[p]] == c.cells;
    }
  }

  lemma ReleasedTerminal<P>(c: Core<P>, p: P)
    requires MapsOK(c) && p in c.cells
    ensures var t := ReleaseTerminal(c, c.cells[p].key, p).terminal;
      && (forall k | k in t :: k in c.terminal && t[k] == c.terminal[k] && t[k] != p)
      && (forall k | k in c.terminal && c.terminal[k] != p :: k in t && t[k] == c.terminal[k])
      && (Held(c, p) ==> c.cells[p].key !in t)
  {
  }

  lemma ReopenedMaps<P>(c: Core<P>, c': Core<P>, p: P)
    requires MapsOK(c) && Reopened(c, c', p) && c.cells[p].done
    ensures MapsOK(c')
  {
    ReleasedTerminal(c, p);
    forall q | q in c'.cells && !c'.cells[q].done ensures Held(c', q) {
      assert q == p || Held(c, q);
    }
  }

  lemma DroppedMaps<P>(c: Core<P>, c': Core<P>, p: P)
    requires MapsOK(c) && (LetGo(c, c', p) || GaveUp(c, c', p)) && c.cells[p].done
    ensures MapsOK(c')
  {
    ReleasedTerminal(c, p);
    forall q | q in c'.cells && !c'.cells[q].done ensures Held(c', q) {
      assert Held(c, q);
    }
  }

  lemma LetGoKeeps<P>(c: Core<P>, c': Core<P>, p: P)
    requires CoreOK(c) && LetGo(c, c', p) && c.cells[p].done
    ensures CoreOK(c')
  {
    assert MapsOK(c') by { DroppedMaps(c, c', p); }
    assert CoreOK(c') by { TakeKeeps(c, c', p, c.cells[p]); }
  }

  lemma GaveUpKeeps<P>(c: Core<P>, c': Core<P>, p: P)
    requires CoreOK(c) && GaveUp(c, c', p) && c.cells[p].done
    ensures CoreOK(c')
  {
    var r := c.cells[p].(settleFailures := c.cells[p].settleFailures + 1);
    assert MapsOK(c') by { DroppedMaps(c, c', p); }
    assert NoncesDiffer(c') by { WriteNonces(c, c', p, r); }
    assert TimersKnown(c') by { WriteTimers(c, c', p, r); }
    assert CapsOK(c') by { ShrinkKeepsCaps(c.pend, c'.pend); }
    assert PendingsOK(c') by { GaveUpPendings(c, c', p); }
  }

  lemma GaveUpPendings<P>(c: Core<P>, c': Core<P>, p: P)
    requires PendingsOK(c) && KeysKnown(c) && GaveUp(c, c', p) && c.cells[p].done
    ensures PendingsOK(c')
  {
    forall q | q in c'.cells && Held(c', q) ensures c'.cells[q].settleFailures < MAX_SETTLE_FAILURES {
      assert q != p && Held(c, q);
    }
  }

  lemma ReopenedKeeps<P>(c: Core<P>, c': Core<P>, p: P)
    requires CoreOK(c) && Reopened(c, c', p) && c.cells[p].done
    ensures CoreOK(c')
  {
    assert MapsOK(c') by { ReopenedMaps(c, c', p); }
    assert NoncesDiffer(c') by { WriteNonces(c, c', p, c'.cells[p]); }
    assert TimersKnown(c') by { ArmTimers(c, c', p, c'.cells[p]); }
    assert PendingsOK(c') by { ArmPendings(c, c', p, c'.cells[p]); }
  }

  lemma ReopenKeeps<P>(c: Core<P>, p: P, reason: Reason)
    requires CoreOK(c) && p in c.cells && c.cells[p].done
    ensures CoreOK(Reopen(c, c.cells[p].key, p, reason).0)
  {
    var c' := Reopen(c, c.cells[p].key, p, reason).0;
    ReopenCases(c, p, reason);
    if LetGo(c, c', p) { LetGoKeeps(c, c', p); }
    else if GaveUp(c, c', p) { GaveUpKeeps(c, c', p); }
    else { ReopenedKeeps(c, c', p); }
  }

  // ---- Whole-map steps ----

  /** What recovery arms: the pending with its cap and deadline settled, the delay and the reason. */
  function Recovering(r: Pending, now: Time, window: int): (Pending, int, Reason) {
    if r.capReached || (r.deferredSince.Some? && now >= r.deferredSince.value + MAX_DEFERRAL)
    then (Due(r.(capReached := true), now + NO_FAULT_GRACE), NO_FAULT_GRACE, DeferralCap)
    else (Due(r, now + window), window, Recovered)
  }

  lemma RecoveryArms(r: Pending, now: Time, window: int)
    ensures var a := Recovering(r, now, window); var r' := RecoveredPending(r, now, window);
      && SameStanding(r, a.0) && r' == ArmedPending(a.0, now, a.1, a.2).(times := r'.times)
  {
  }

  lemma RecoveredStands(r: Pending, now: Time, window: int)
    ensures var r' := RecoveredPending(r, now, window);
      && r'.key == r.key && r'.nonce == r.nonce && r'.done == r.done && r'.removed == r.removed
      && r'.settleFailures == r.settleFailures && r'.epoch == r.epoch + 1 && r'.armed.Some? && WithinCap(r')
  {
    var a := Recovering(r, now, window);
    RecoveryArms(r, now, window);
    ArmedStands(a.0, now, a.1, a.2);
  }

  /** Recovery rewrites exactly the live pendings, each with one new timer. */
  ghost predicate Rearms<P>(c: Core<P>, c': Core<P>) {
    && c'.cells.Keys == c.cells.Keys && c'.pend == c.pend && c'.terminal == c.terminal && c'.strikes == c.strikes
    && c.timers <= c'.timers
    && (forall p | p in c.cells && !Live(c, p) :: c'.cells[p] == c.cells[p])
    && (forall p | p in c.cells && Live(c, p) :: var r := c.cells[p]; var r' := c'.cells[p];
          && r'.key == r.key && r'.nonce == r.nonce && r'.done == r.done && r'.removed == r.removed
          && r'.settleFailures == r.settleFailures && r'.epoch == r.epoch + 1 && r'.armed.Some? && WithinCap(r')
          && TimerOf(p, r') in c'.timers)
    && (forall t | t in c'.timers :: t in c.timers || (t.owner in c.cells && Live(c, t.owner) && t == TimerOf(t.owner, c'.cells[t.owner])))
  }

  lemma RecoverRearms<P>(c: Core<P>, windows: (int, Gate) -> int)
    requires !c.shuttingDown
    ensures Rearms(c, Recover(c, windows))
  {
    var c' := Recover(c, windows);
    forall p | p in c.cells && Live(c, p)
      ensures var r := c.cells[p]; var r' := c'.cells[p];
        && r'.key == r.key && r'.nonce == r.nonce && r'.done == r.done && r'.removed == r.removed
        && r'.settleFailures == r.settleFailures && r'.epoch == r.epoch + 1 && r'.armed.Some? && WithinCap(r')
        && TimerOf(p, r') in c'.timers
    {
      RecoveredStands(c.cells[p], c.now, windows(c.cells[p].key.gid, c.cells[p].gate));
    }
  }

  lemma RearmMaps<P>(c: Core<P>, c': Core<P>)
    requires MapsOK(c) && Rearms(c, c')
    ensures MapsOK(c')
  {
    assert forall p | p in c.cells :: c'.cells[p].key == c.cells[p].key && c'.cells[p].done == c.cells[p].done
                                      && c'.cells[p].removed == c.cells[p].removed;
    forall q | q in c'.cells && !c'.cells[q].done ensures Held(c', q) {
      assert Held(c, q);
    }
  }

  lemma RearmTimers<P>(c: Core<P>, c': Core<P>)
    requires TimersKnown(c) && Rearms(c, c')
    ensures TimersKnown(c') && (NoncesDiffer(c) ==> NoncesDiffer(c'))
  {
    forall t | t in c'.timers ensures t.owner in c'.cells && TimerFits(t, c'.cells[t.owner]) {
      if t in c.timers {
        assert TimerFits(t, c.cells[t.owner]);
        assert Live(c, t.owner) || c'.cells[t.owner] == c.cells[t.owner];
      }
    }
    assert forall p | p in c.cells :: c'.cells[p].key == c.cells[p].key && c'.cells[p].nonce == c.cells[p].nonce;
  }

  lemma RearmPendings<P>(c: Core<P>, c': Core<P>)
    requires PendingsOK(c) && MapsOK(c) && Rearms(c, c')
    ensures PendingsOK(c')
  {
    forall p | p in c'.cells
      ensures WithinCap(c'.cells[p]) && c'.cells[p].settleFailures <= MAX_SETTLE_FAILURES
      ensures !c'.cells[p].done ==> c'.cells[p].armed.Some? && TimerOf(p, c'.cells[p]) in c'.timers
      ensures Held(c', p) ==> c'.cells[p].settleFailures < MAX_SETTLE_FAILURES
    {
      if !Live(c, p) {
        assert c'.cells[p] == c.cells[p];
        assert c.cells[p].done;
      }
      if Held(c', p) { assert Held(c, p); }
    }
  }

  lemma RecoverKeeps<P>(c: Core<P>, windows: (int, Gate) -> int)
    requires CoreOK(c)
    ensures Keeps(c, Recover(c, windows))
  {
    var c' := Recover(c, windows);
    if c.shuttingDown {
      Stay(c);
    } else {
      RecoverRearms(c, windows);
      RearmKeeps(c, c');
    }
  }

  lemma RearmKeeps<P>(c: Core<P>, c': Core<P>)
    requires CoreOK(c) && Rearms(c, c')
    ensures Keeps(c, c')
  {
    assert MapsOK(c') by { RearmMaps(c, c'); }
    assert TimersKnown(c') && NoncesDiffer(c') by { RearmTimers(c, c'); }
    assert PendingsOK(c') by { RearmPendings(c, c'); }
    assert CapsOK(c');
    assert Quiet(c, c') by { RearmIsQuiet(c, c'); }
  }

  lemma RearmIsQuiet<P>(c: Core<P>, c': Core<P>)
    requires Rearms(c, c')
    ensures Quiet(c, c')
  {
  }

  /** A group is withdrawn: its pendings leave the map done and removed, and with `terminal`
      cleared so do the ones still in flight. */
  ghost predicate Withdraws<P>(c: Core<P>, c': Core<P>, gid: int) {
    && c'.timers == c.timers && c'.strikes == c.strikes && c'.cells.Keys == c.cells.Keys
    && (forall k :: k in c'.pend <==> k in c.pend && k.gid != gid)
    && (forall k | k in c'.pend :: c'.pend[k] == c.pend[k])
    && (forall k | k in c'.terminal :: k in c.terminal && c'.terminal[k] == c.terminal[k])
    && (forall k | k in c.terminal && k.gid != gid :: k in c'.terminal)
    && (forall p | p in c.cells :: c'.cells[p] == c.cells[p] || (c'.cells[p] == Withdrawn(c.cells[p]) && c.cells[p].key.gid == gid))
    && (forall p | p in c.cells && c.cells[p].key.gid == gid && Held(c, p) :: c'.cells[p] == Withdrawn(c.cells[p]))
  }

  lemma WithdrawMaps<P>(c: Core<P>, c': Core<P>, gid: int)
    requires MapsOK(c) && Withdraws(c, c', gid)
    ensures MapsOK(c')
  {
    forall q | q in c'.cells && !c'.cells[q].done ensures Held(c', q) {
      assert Held(c, q);
    }
  }

  lemma WithdrawTimers<P>(c: Core<P>, c': Core<P>, gid: int)
    requires TimersKnown(c) && Withdraws(c, c', gid)
    ensures TimersKnown(c') && (NoncesDiffer(c) ==> NoncesDiffer(c'))
  {
    assert forall p | p in c.cells :: c'.cells[p].key == c.cells[p].key && c'.cells[p].nonce == c.cells[p].nonce
                                      && c'.cells[p].epoch == c.cells[p].epoch && c'.cells[p].armed == c.cells[p].armed;
    forall t | t in c'.timers ensures t.owner in c'.cells && TimerFits(t, c'.cells[t.owner]) {
      assert TimerFits(t, c.cells[t.owner]);
    }
  }

  lemma WithdrawPendings<P>(c: Core<P>, c': Core<P>, gid: int)
    requires PendingsOK(c) && Withdraws(c, c', gid)
    ensures PendingsOK(c')
  {
    forall p | p in c'.cells
      ensures WithinCap(c'.cells[p]) && c'.cells[p].settleFailures <= MAX_SETTLE_FAILURES
      ensures !c'.cells[p].done ==> c'.cells[p].armed.Some? && TimerOf(p, c'.cells[p]) in c'.timers
      ensures Held(c', p) ==> c'.cells[p].settleFailures < MAX_SETTLE_FAILURES
    {
      assert c'.cells[p] == c.cells[p] || c'.cells[p] == Withdrawn(c.cells[p]);
      if Held(c', p) { assert Held(c, p); }
    }
  }

  lemma WithdrawKeeps<P>(c: Core<P>, c': Core<P>, gid: int)
    requires CoreOK(c) && Withdraws(c, c', gid)
    ensures Keeps(c, c')
  {
    assert MapsOK(c') by { WithdrawMaps(c, c', gid); }
    assert TimersKnown(c') && NoncesDiffer(c') by { WithdrawTimers(c, c', gid); }
    assert PendingsOK(c') by { WithdrawPendings(c, c', gid); }
    assert CapsOK(c') by { ShrinkKeepsCaps(c.pend, c'.pend); }
    assert Quiet(c, c') by { WithdrawIsQuiet(c, c', gid); }
  }

  lemma WithdrawIsQuiet<P>(c: Core<P>, c': Core<P>, gid: int)
    requires Withdraws(c, c', gid)
    ensures Quiet(c, c')
  {
  }

  lemma DisableWithdraws<P>(c: Core<P>, gid: int)
    requires KeysKnown(c)
    ensures Withdraws(c, CancelGroup(c, gid), gid)
    ensures Withdraws(c, RemoveGroup(c, gid), gid)
  {
  }

  // ---- Every step keeps the invariant ----

  /** No invariant of the core speaks of the clock, of shutdown, or of the strikes. */
  ghost predicate SameCells<P>(c: Core<P>, c': Core<P>) {
    c'.pend == c.pend && c'.terminal == c.terminal && c'.cells == c.cells && c'.timers == c.timers
  }

  lemma SameMaps<P>(c: Core<P>, c': Core<P>)
    requires MapsOK(c) && SameCells(c, c')
    ensures MapsOK(c')
  {
    forall p | p in c'.cells && !c'.cells[p].done ensures Held(c', p) { assert Held(c, p); }
  }

  lemma SameStates<P>(c: Core<P>, c': Core<P>)
    requires PendingsOK(c) && SameCells(c, c')
    ensures PendingsOK(c')
  {
    forall p | p in c'.cells && Held(c', p) ensures c'.cells[p].settleFailures < MAX_SETTLE_FAILURES { assert Held(c, p); }
  }

  lemma SamePendings<P>(c: Core<P>, c': Core<P>)
    requires CoreOK(c) && SameCells(c, c')
    ensures CoreOK(c')
  {
    assert MapsOK(c') by { SameMaps(c, c'); }
    assert TimersKnown(c');
    assert NoncesDiffer(c');
    assert PendingsOK(c') by { SameStates(c, c'); }
    assert CapsOK(c');
  }

  lemma ClockKeeps<P>(c: Core<P>, c': Core<P>)
    requires CoreOK(c) && c' == c.(now := c'.now, shuttingDown := c'.shuttingDown)
    ensures Keeps(c, c')
  {
    SamePendings(c, c');
  }

  /** The steps that only touch the core. */
  predicate CoreStep(step: Step) {
    !step.AdminApprove? && !step.AdminBan? && !step.Answer? && !step.Fire? && !step.Expire? && !step.Retry? &&
    !step.Abandon? && !step.Weigh? && !step.PutStrike? && !step.Finish? && !step.Register?
  }

  /** Of these, the ones that write to the pending the step names. */
  predicate PendingStep(step: Step) {
    step.Deliver? || step.Message? || step.Adopt? || step.Renotify? || step.NotePassing? || step.RecoveryDrop? ||
    step.FreeAnswer? || step.FailedTry? || step.Fallback? || step.ReadChannel?
  }

  lemma PendingStepKeeps<P>(s: System<P>, step: Step<P>)
    requires Inv(s) && Wired(s) && Enabled(s, step) && PendingStep(step)
    ensures Keeps(s.core, Next(s, step).core)
  {
    var c := s.core;
    match step
    case Deliver(p, g, m, d, w) => DeliverKeeps(c, c.cells[p].key, p, g, m, d, w);
    case Message(prompt, send, q, text, reset, w) => MessageKeeps(c, prompt, send, q, text, reset, w);
    case RecoveryDrop(p) => DiscardKeeps(c, p);
    case NotePassing(t) => NotePassingKeeps(c, s.flights[t].owner);
    case ReadChannel(key, known) => ReadChannelKeeps(c, key, known);
    case Adopt(p) => AdoptKeeps(c, p);
    case Renotify(p, g) => RenotifyKeeps(c, p, g);
    case FreeAnswer(key, nonce, reply) => FreeAnswerKeeps(c, key, nonce, reply);
    case FailedTry(key, nonce) => FailedTryKeeps(c, key, nonce);
    case Fallback(key, nonce, q, a) => FallbackKeeps(c, key, nonce, q, a);
  }

  lemma CoreStepKeeps<P>(s: System<P>, step: Step<P>)
    requires Inv(s) && Wired(s) && Enabled(s, step) && CoreStep(step) && !PendingStep(step)
    ensures Keeps(s.core, Next(s, step).core)
  {
    var c := s.core;
    match step
    case Tick(_) => ClockKeeps(c, Next(s, step).core);
    case Shutdown => ClockKeeps(c, Next(s, step).core);
    case Arrive(p, r) => ArriveKeeps(c, p, r);
    case Load(p, r, delay, reason) => LoadKeeps(c, p, r, delay, reason);
    case Defer(cb, w) => DeferKeeps(c, cb.timer.key, cb.timer.nonce, cb.timer.epoch, cb.timer.armed.reason, w);
    case RecoverAll(windows) => RecoverKeeps(c, windows);
    case Disable(gid) => DisableWithdraws(c, gid); WithdrawKeeps(c, CancelGroup(c, gid), gid);
    case Unregister(gid) => DisableWithdraws(c, gid); WithdrawKeeps(c, RemoveGroup(c, gid), gid);
  }

  ghost predicate Launched<P>(s: System<P>, s': System<P>, key: Key, p: P, action: Action) {
    && p in s.core.cells && !s.core.cells[p].done && s.core.cells[p].key == key
    && p in s'.core.cells && s'.core.cells == s.core.cells[p := s'.core.cells[p]]
    && s'.core.cells[p].done && s'.core.cells[p].key == key
    && s'.core.terminal == s.core.terminal[key := p] && s'.core.strikes == s.core.strikes
    && s'.flights == s.flights[s.next := Flight(key, p, action, Open)] && s'.next == s.next + 1
  }

  lemma LaunchShape<P>(s: System<P>, key: Key, g: Guard, action: Action)
    requires MapsOK(s.core)
    ensures var claim := Claim(s.core, key, g); var s' := Launch(s, key, claim, action);
      && s'.callbacks == s.callbacks && s'.core == claim.0 && s'.core.timers == s.core.timers
      && (claim.1.None? ==> s' == s)
      && (claim.1.Some? ==> Launched(s, s', key, claim.1.value, action))
  {
    ClaimTakesUnclaimed(s.core, key, g);
  }

  /** A claim starts the only settlement its pending has. */
  lemma LaunchKeeps<P>(s: System<P>, key: Key, g: Guard, action: Action)
    requires Inv(s)
    ensures Inv(Launch(s, key, Claim(s.core, key, g), action))
  {
    var claim := Claim(s.core, key, g);
    var s' := Launch(s, key, claim, action);
    LaunchShape(s, key, g, action);
    assert CoreOK(s'.core) by { ClaimKeeps(s.core, key, g); }
    if claim.1.Some? {
      assert FlightsOK(s') by { LaunchFlights(s, s', key, claim.1.value, action); }
      assert StrikesOK(s') by { LaunchStrikes(s, s', key, claim.1.value, action); }
    }
  }

  lemma LaunchFlights<P>(s: System<P>, s': System<P>, key: Key, p: P, action: Action)
    requires FlightsOK(s) && Launched(s, s', key, p, action)
    ensures FlightsOK(s')
  {
    forall k | k in s'.core.terminal ensures InFlight(s', s'.core.terminal[k]) {
      if k == key {
        assert s'.flights[s.next].owner == p;
      } else {
        assert InFlight(s, s.core.terminal[k]);
        var t :| t in s.flights && s.flights[t].owner == s.core.terminal[k];
        assert t in s'.flights && s'.flights[t] == s.flights[t];
      }
    }
  }

  lemma LaunchStrikes<P>(s: System<P>, s': System<P>, key: Key, p: P, action: Action)
    requires StrikesOK(s) && FlightsOK(s) && Launched(s, s', key, p, action)
    ensures StrikesOK(s')
  {
  }

  /** What the end of a flight leaves: its ticket gone, its pending no longer terminal. */
  ghost predicate Landed<P>(s: System<P>, s': System<P>, t: nat) {
    && t in s.flights && s'.flights == s.flights - {t} && s'.next == s.next
    && s'.core.strikes == s.core.strikes
    && (forall p | p in s.core.cells :: p in s'.core.cells && s'.core.cells[p].key == s.core.cells[p].key)
    && (forall p | p in s.core.cells && s.core.cells[p].done && (p != s.flights[t].owner || s.flights[t].stage.Recorded?) :: s'.core.cells[p].done)
    && (forall k | k in s'.core.terminal :: k in s.core.terminal && s'.core.terminal[k] == s.core.terminal[k]
                                            && s'.core.terminal[k] != s.flights[t].owner)
  }

  lemma LandFlights<P>(s: System<P>, s': System<P>, t: nat)
    requires FlightsOK(s) && Landed(s, s', t)
    ensures FlightsOK(s')
  {
    forall k | k in s'.core.terminal ensures InFlight(s', s'.core.terminal[k]) {
      assert InFlight(s, s.core.terminal[k]);
      var u :| u in s.flights && s.flights[u].owner == s.core.terminal[k];
      assert u in s'.flights;
    }
  }

  lemma LandStrikes<P>(s: System<P>, s': System<P>, t: nat)
    requires StrikesOK(s) && FlightsOK(s) && Landed(s, s', t)
    ensures StrikesOK(s')
  {
    forall i | 0 <= i < |s'.core.strikes|
      ensures s'.core.strikes[i].owner in s'.core.cells && s'.core.cells[s'.core.strikes[i].owner].done
    {
      var p := s.core.strikes[i].owner;
      assert p == s.flights[t].owner ==> s.flights[t].stage.Recorded?;
    }
  }

  lemma LandKeeps<P>(s: System<P>, s': System<P>, t: nat)
    requires Inv(s) && Landed(s, s', t) && CoreOK(s'.core) && s'.callbacks == s.callbacks && s.core.timers <= s'.core.timers
    ensures Inv(s')
  {
    assert FlightsOK(s') by { LandFlights(s, s', t); }
    assert StrikesOK(s') by { LandStrikes(s, s', t); }
    assert CallbacksKnown(s');
  }

  lemma FinishStep<P>(s: System<P>, t: nat)
    requires Inv(s) && t in s.flights
    ensures Wired(s) && Inv(Next(s, Finish(t)))
  {
    var f := s.flights[t];
    var s' := Next(s, Finish(t));
    assert Keeps(s.core, s'.core) by { FinishKeeps(s.core, f.owner); }
    assert Landed(s, s', t) by { FinishDrops(s.core, f.owner); }
    LandKeeps(s, s', t);
  }

  lemma AbandonStep<P>(s: System<P>, t: nat)
    requires Inv(s) && t in s.flights && s.flights[t].stage.Open?
    ensures Wired(s) && Inv(Next(s, Abandon(t)))
  {
    var f := s.flights[t];
    var s' := Next(s, Abandon(t));
    assert Keeps(s.core, s'.core) by { DiscardKeeps(s.core, f.owner); }
    assert Landed(s, s', t) by { DiscardDrops(s.core, f.owner); }
    LandKeeps(s, s', t);
  }

  lemma RetryLands<P>(s: System<P>, s': System<P>, t: nat)
    requires FlightsOK(s) && MapsOK(s.core) && t in s.flights && s.flights[t].stage.Open?
    requires s' == s.(core := s'.core, flights := s.flights - {t})
    requires LetGo(s.core, s'.core, s.flights[t].owner) || GaveUp(s.core, s'.core, s.flights[t].owner)
             || Reopened(s.core, s'.core, s.flights[t].owner)
    ensures Landed(s, s', t) && s.core.timers <= s'.core.timers
  {
    ReleasedTerminal(s.core, s.flights[t].owner);
  }

  lemma RetryStep<P>(s: System<P>, t: nat, reason: Reason)
    requires Inv(s) && Wired(s) && Enabled(s, Retry(t, reason))
    ensures Inv(Next(s, Retry(t, reason)))
  {
    var f := s.flights[t];
    var s' := Next(s, Retry(t, reason));
    assert CoreOK(s'.core) by { ReopenKeeps(s.core, f.owner, reason); }
    assert Landed(s, s', t) && s.core.timers <= s'.core.timers by {
      ReopenCases(s.core, f.owner, reason);
      RetryLands(s, s', t);
    }
    LandKeeps(s, s', t);
  }

  /** A decline comes one stage further, and at the last one adds at most one strike, for a pending
      that has none. */
  ghost predicate Judged<P>(s: System<P>, s': System<P>, t: nat) {
    && t in s.flights && t in s'.flights && !s.flights[t].stage.Recorded? && StageFits(s'.flights[t])
    && s' == s.(core := s.core.(strikes := s'.core.strikes),
                flights := s.flights[t := s.flights[t].(stage := s'.flights[t].stage)])
    && (s'.core.strikes == s.core.strikes
        || (|s'.core.strikes| == |s.core.strikes| + 1 && s'.core.strikes[..|s.core.strikes|] == s.core.strikes
            && s'.core.strikes[|s.core.strikes|].owner == s.flights[t].owner && s'.flights[t].stage.Recorded?))
  }

  lemma JudgedStrikes<P>(s: System<P>, s': System<P>, t: nat)
    requires StrikesOK(s) && FlightsOK(s) && Judged(s, s', t)
    ensures StrikesOK(s')
  {
    var n := |s.core.strikes|;
    forall i | 0 <= i < n ensures s'.core.strikes[i] == s.core.strikes[i] {
      assert s'.core.strikes[i] == s'.core.strikes[..n][i];
    }
    forall i | 0 <= i < n ensures s.core.strikes[i].owner != s.flights[t].owner {
    }
  }

  lemma JudgedFlights<P>(s: System<P>, s': System<P>, t: nat)
    requires FlightsOK(s) && Judged(s, s', t)
    ensures FlightsOK(s')
  {
    forall k | k in s'.core.terminal ensures InFlight(s', s'.core.terminal[k]) {
      assert InFlight(s, s.core.terminal[k]);
      var u :| u in s.flights && s.flights[u].owner == s.core.terminal[k];
      assert u in s'.flights && s'.flights[u].owner == s.flights[u].owner;
    }
  }

  lemma WeighingIsJudged<P>(s: System<P>, t: nat, outcome: Outcome)
    requires Wired(s) && Enabled(s, Weigh(t, outcome))
    ensures Judged(s, Next(s, Weigh(t, outcome)), t)
  {
  }

  lemma StrikeIsJudged<P>(s: System<P>, t: nat)
    requires Wired(s) && Enabled(s, PutStrike(t))
    ensures Judged(s, Next(s, PutStrike(t)), t)
  {
  }

  lemma JudgedKeeps<P>(s: System<P>, s': System<P>, t: nat)
    requires Inv(s) && Judged(s, s', t)
    ensures Inv(s')
  {
    assert CoreOK(s'.core) by { SamePendings(s.core, s'.core); }
    assert FlightsOK(s') by { JudgedFlights(s, s', t); }
    assert StrikesOK(s') by { JudgedStrikes(s, s', t); }
    assert CallbacksKnown(s');
  }

  lemma FireStep<P>(s: System<P>, timer: Timer<P>)
    requires Inv(s) && timer in s.core.timers && timer.armed.due <= s.core.now
    ensures Wired(s) && Inv(Next(s, Fire(timer)))
  {
    var s' := Next(s, Fire(timer));
    var s1 := s.(core := s'.core);
    FiredShape(s, timer);
    assert Keeps(s.core, s'.core) by { FireKeeps(s.core, timer.key, timer.nonce, timer.epoch); }
    assert Inv(s1) by { QuietKeeps(s, s'.core); }
    MoreCallbacks(s1, s', timer);
  }

  lemma FiredShape<P>(s: System<P>, timer: Timer<P>)
    requires Wired(s) && Enabled(s, Fire(timer))
    ensures var s' := Next(s, Fire(timer));
      && s'.core == DeferralCapState(s.core, timer.key, timer.nonce, timer.epoch).0 && s'.core.timers == s.core.timers
      && s' == s.(core := s'.core, groups := s'.groups, callbacks := s'.callbacks)
      && (forall cb | cb in s'.callbacks :: cb in s.callbacks || cb.timer == timer)
  {
  }

  /** Group registration and remembered callbacks do not bear on the rest of the invariant. */
  lemma MoreCallbacks<P>(s: System<P>, s': System<P>, timer: Timer<P>)
    requires Inv(s) && timer in s.core.timers
    requires s' == s.(groups := s'.groups, callbacks := s'.callbacks)
    requires forall cb | cb in s'.callbacks :: cb in s.callbacks || cb.timer == timer
    ensures Inv(s')
  {
    assert FlightsOK(s') by {
      forall k | k in s'.core.terminal ensures InFlight(s', s'.core.terminal[k]) { assert InFlight(s, s.core.terminal[k]); }
    }
    assert StrikesOK(s');
  }

  lemma RegroupKeeps<P>(s: System<P>, s': System<P>)
    requires Inv(s) && s' == s.(groups := s'.groups)
    ensures Inv(s')
  {
    assert FlightsOK(s') by {
      forall k | k in s'.core.terminal ensures InFlight(s', s'.core.terminal[k]) { assert InFlight(s, s.core.terminal[k]); }
    }
    assert StrikesOK(s');
  }

  lemma CoreStepStep<P>(s: System<P>, step: Step<P>)
    requires Inv(s) && Wired(s) && Enabled(s, step) && CoreStep(step)
    ensures Inv(Next(s, step))
  {
    var s' := Next(s, step);
    assert Keeps(s.core, s'.core) by { if PendingStep(step) { PendingStepKeeps(s, step); } else { CoreStepKeeps(s, step); } }
    assert s' == s.(core := s'.core) by { CoreStepShape(s, step); }
    QuietKeeps(s, s'.core);
  }

  lemma CoreStepShape<P>(s: System<P>, step: Step<P>)
    requires Wired(s) && Enabled(s, step) && CoreStep(step)
    ensures Next(s, step) == s.(core := Next(s, step).core)
  {
  }

  lemma ClaimStep<P>(s: System<P>, step: Step<P>)
    requires Inv(s) && Wired(s) && Enabled(s, step)
    requires step.AdminApprove? || step.AdminBan? || step.Answer? || step.Expire?
    ensures Inv(Next(s, step))
  {
    match step
    case AdminApprove(key) => LaunchKeeps(s, key, AnyClaim, Approving);
    case AdminBan(key) => LaunchKeeps(s, key, AnyClaim, Banning);
    case Answer(key, nonce, correct) =>
      LaunchKeeps(s, key, NonceClaim(nonce), if correct then Approving else Declining(WrongAnswer));
    case Expire(cb) =>
      var g := ExpiryClaim(cb.timer.nonce, cb.timer.epoch);
      LaunchKeeps(s, cb.timer.key, g, ExpiryAction(Claim(s.core, cb.timer.key, g), cb));
  }

  lemma SettleStep<P>(s: System<P>, step: Step<P>)
    requires Inv(s) && Wired(s) && Enabled(s, step)
    requires step.Retry? || step.Abandon? || step.Weigh? || step.PutStrike? || step.Finish?
    ensures Inv(Next(s, step))
  {
    match step
    case Retry(t, reason) => RetryStep(s, t, reason);
    case Abandon(t) => AbandonStep(s, t);
    case Weigh(t, outcome) => WeighingIsJudged(s, t, outcome); JudgedKeeps(s, Next(s, step), t);
    case PutStrike(t) => StrikeIsJudged(s, t); JudgedKeeps(s, Next(s, step), t);
    case Finish(t) => FinishStep(s, t);
  }

  lemma GroupStep<P>(s: System<P>, step: Step<P>)
    requires Inv(s) && Wired(s) && Enabled(s, step)
    requires step.Fire? || step.Register?
    ensures Inv(Next(s, step))
  {
    match step
    case Fire(timer) => FireStep(s, timer);
    case Register(_, _) => RegroupKeeps(s, Next(s, step));
  }

  lemma StepKeepsInv<P>(s: System<P>, step: Step<P>)
    requires Inv(s) && Wired(s) && Enabled(s, step)
    ensures Inv(Next(s, step))
  {
    if CoreStep(step) {
      CoreStepStep(s, step);
    } else if step.AdminApprove? || step.AdminBan? || step.Answer? || step.Expire? {
      ClaimStep(s, step);
    } else if step.Fire? || step.Register? {
      GroupStep(s, step);
    } else {
      SettleStep(s, step);
    }
  }
}

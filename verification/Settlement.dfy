/** The lock-protected state of the verification service, and one function per section that
    runs under the service mutex. `P` is the identity of a pending (a pointer in the source):
    two pendings for the same applicant are different identities however alike they look. */
module Settlement {
  import opened Options

  /** Nanoseconds on the service clock. */
  type Time = int

  const PENDING_DELIVERY_TIMEOUT: int := 60_000_000_000 // 60 s
  const NO_FAULT_GRACE: int := 60_000_000_000 // 60 s
  const DUPLICATE_ARRIVAL_WINDOW: int := 30_000_000_000 // 30 s
  const MAX_DEFERRAL: int := 172_800_000_000_000 // 48 h
  const MAX_SETTLE_FAILURES := 10
  const KERNEL_MAX_TRIES := 3
  const PENDING_GLOBAL_CAP := 2000
  const PENDING_PER_GROUP_CAP := 500

  datatype Key = Key(gid: int, uid: int)

  /** A join request the applicant waits on outside, or a member muted inside the group. */
  datatype Gate = Request | Mute

  datatype Reason =
    | Timeout | WrongAnswer
    | ApproveRetry | BanRetry | DeclineRetry
    | RestartLapsed | Recovered | ChallengePostFailed | DeferralCap

  /** The one-shot free replies of the kernel challenge. */
  datatype FreeReply = SampleBounced | NoLinuxReminded | OSClarified

  /** What a timer was armed with: it may fire at `due` or later. */
  datatype Armed = Armed(at: Time, due: Time, reason: Reason)

  /** What the applicant has been shown: the posted messages and the question in force. */
  datatype Screen = Screen(
    groupMsg: int, privateMsg: int, delivered: bool,
    kernel: bool, question: string, fallback: seq<string>, fallbackPending: bool, hinted: bool, prompted: bool)

  datatype Times = Times(
    deadline: Time, startedAt: Option<Time>, failedAt: Option<Time>, lastRenotify: Option<Time>)

  /** One pending verification, with the key it was started for. `armed` stands for its timer. */
  datatype Pending = Pending(
    key: Key, nonce: string, gate: Gate, passing: bool, screen: Screen, tries: nat, spent: set<FreeReply>,
    times: Times, deferredSince: Option<Time>, capReached: bool, epoch: nat, armed: Option<Armed>,
    settleFailures: nat, channelUnreadable: bool, done: bool, removed: bool)

  function Due(r: Pending, deadline: Time): Pending { r.(times := r.times.(deadline := deadline)) }

  /** A timer callback carries the nonce and epoch it was armed with. `owner` is not carried by
      the source; it records whose timer this is, so that what a callback hits can be judged. */
  datatype Timer<P> = Timer(owner: P, key: Key, nonce: string, epoch: nat, armed: Armed)

  datatype Outcome = Confirmed | GoneAndOut

  /** One recorded failure. */
  datatype Strike<P> = Strike(owner: P, reason: Reason, outcome: Outcome, at: Time)

  /** `timers` only grows: stopping a timer can lose the race against its callback, so every
      expiry ever armed may still fire. */
  datatype Core<P(==)> = Core(
    now: Time,
    pend: map<Key, P>,
    terminal: map<Key, P>,
    cells: map<P, Pending>,
    timers: set<Timer<P>>,
    strikes: seq<Strike<P>>,
    shuttingDown: bool)

  ghost predicate KeysKnown<P>(c: Core<P>) {
    && (forall k | k in c.pend :: c.pend[k] in c.cells)
    && (forall k | k in c.terminal :: c.terminal[k] in c.cells)
  }

  /** The pending is the one the map holds for its key. */
  predicate Held<P(==)>(c: Core<P>, p: P)
    requires p in c.cells
  {
    var k := c.cells[p].key;
    k in c.pend && c.pend[k] == p
  }

  predicate Live<P(==)>(c: Core<P>, p: P)
    requires p in c.cells
  {
    Held(c, p) && !c.cells[p].done
  }

  predicate InTerminal<P(==)>(c: Core<P>, p: P)
    requires p in c.cells
  {
    var k := c.cells[p].key;
    k in c.terminal && c.terminal[k] == p
  }

  // ---- Timers ----

  function Max(a: int, b: int): int { if a < b then b else a }

  /** The delay a timer really gets: never zero, and never past the deferral cap. */
  function ArmDelay(r: Pending, now: Time, delay: int): int {
    var d := if delay <= 0 then NO_FAULT_GRACE else delay;
    if r.deferredSince.Some? && !r.capReached then
      var remaining := r.deferredSince.value + MAX_DEFERRAL - now;
      var bound := if remaining <= 0 then 1 else remaining;
      if d > bound then bound else d
    else d
  }

  function ArmedPending(r: Pending, now: Time, delay: int, reason: Reason): Pending {
    var d := ArmDelay(r, now, delay);
    r.(epoch := r.epoch + 1,
       times := if delay <= 0 || d != delay then r.times.(deadline := now + d) else r.times,
       armed := Some(Armed(now, now + d, if delay <= 0 then ChallengePostFailed else reason)))
  }

  function TimerOf<P>(p: P, r: Pending): Timer<P>
    requires r.armed.Some?
  {
    Timer(p, r.key, r.nonce, r.epoch, r.armed.value)
  }

  /** `armExpiry`: write back `r` with a new epoch and start its timer. */
  function Arm<P(==)>(c: Core<P>, p: P, r: Pending, delay: int, reason: Reason): Core<P> {
    var r' := ArmedPending(r, c.now, delay, reason);
    c.(cells := c.cells[p := r'], timers := c.timers + {TimerOf(p, r')})
  }

  function ExpiryReason(delivered: bool): Reason {
    if delivered then Timeout else ChallengePostFailed
  }

  // ---- Starting and delivering a challenge ----

  datatype StartStatus = Started | BlockedCapacity | BlockedTerminal | DuplicateArrival

  function GroupKeys<P>(pend: map<Key, P>, gid: int): set<Key> {
    set k | k in pend && k.gid == gid
  }

  function CapacityOK<P>(pend: map<Key, P>, gid: int): bool {
    |pend| < PENDING_GLOBAL_CAP && |GroupKeys(pend, gid)| < PENDING_PER_GROUP_CAP
  }

  predicate OnScreen(r: Pending) { r.screen.groupMsg != 0 || r.screen.privateMsg != 0 }

  predicate RepeatArrival(prev: Pending, now: Time) {
    !prev.done && OnScreen(prev) && prev.tries == 0 &&
    prev.times.startedAt.Some? && now - prev.times.startedAt.value < DUPLICATE_ARRIVAL_WINDOW
  }

  /** What a re-application inherits: attempts, spent free replies, and an active fallback question. */
  function Inherit(arrival: Pending, prev: Pending): Pending {
    var r := arrival.(tries := prev.tries, spent := prev.spent);
    if arrival.screen.kernel && prev.screen.kernel && |prev.screen.fallback| > 0 then
      r.(screen := r.screen.(question := prev.screen.question, fallback := prev.screen.fallback, hinted := true))
    else r
  }

  /** The pending a started challenge puts in the map, before its delivery timer is armed. */
  function Starting(arrival: Pending, prev: Option<Pending>, now: Time): Pending {
    var r := if prev.Some? then Inherit(arrival, prev.value) else arrival;
    r.(times := r.times.(deadline := now + PENDING_DELIVERY_TIMEOUT, startedAt := Some(now)))
  }

  function Lookup<P(==)>(c: Core<P>, key: Key): Option<Pending>
    requires KeysKnown(c)
  {
    if key in c.pend then Some(c.cells[c.pend[key]]) else None
  }

  function StartPending<P(==)>(c: Core<P>, p: P, arrival: Pending): (Core<P>, StartStatus)
    requires KeysKnown(c)
  {
    var key := arrival.key;
    var prev := Lookup(c, key);
    if key in c.terminal || (prev.Some? && prev.value.done) then (c, BlockedTerminal)
    else if prev.None? && !CapacityOK(c.pend, key.gid) then (c, BlockedCapacity)
    else if prev.Some? && RepeatArrival(prev.value, c.now) then (c, DuplicateArrival)
    else
      var cells := if prev.Some? then c.cells[c.pend[key] := prev.value.(done := true)] else c.cells;
      (Arm(c.(cells := cells, pend := c.pend[key := p]), p, Starting(arrival, prev, c.now),
           PENDING_DELIVERY_TIMEOUT, ChallengePostFailed), Started)
  }

  /** `load`, for one stored record whose key is not in the map yet. */
  function Restore<P(==)>(c: Core<P>, p: P, stored: Pending, delay: int, reason: Reason): Core<P> {
    if !CapacityOK(c.pend, stored.key.gid) then c
    else Arm(c.(pend := c.pend[stored.key := p]), p, stored, delay, reason)
  }

  /** Is `p` what the map holds for `key`, and unclaimed? */
  predicate Current<P(==)>(c: Core<P>, key: Key, p: P)
    requires p in c.cells
  {
    key in c.pend && c.pend[key] == p && !c.cells[p].done
  }

  function Delivered(r: Pending, groupMsg: int, privateMsg: int, delivered: bool, deadline: Time): Pending {
    Due(r.(screen := r.screen.(groupMsg := groupMsg, privateMsg := privateMsg, delivered := delivered)), deadline)
  }

  function FinishChallenge<P(==)>(
    c: Core<P>, key: Key, p: P, groupMsg: int, privateMsg: int, delivered: bool, window: int): (Core<P>, bool)
    requires p in c.cells
  {
    if !Current(c, key, p) then (c, false)
    else
      (Arm(c, p, Delivered(c.cells[p], groupMsg, privateMsg, delivered, c.now + window), window, ExpiryReason(delivered)), true)
  }

  /** How a direct message ended: sent, refused for good, or unknown. */
  datatype Send = Sent(messageID: int) | Refused | Uncertain

  datatype Prompt<P> = Prompt(key: Key, nonce: string, owner: P, fallbackPending: bool)

  /** What a finished direct message makes of the screen, and whether its window starts over. */
  function Messaged(v: Screen, send: Send, promoting: bool, question: bool, kernelText: string): (Screen, bool) {
    match send
    case Sent(id) =>
      (v.(fallbackPending := v.fallbackPending && !promoting,
          privateMsg := if id != 0 then id else v.privateMsg,
          delivered := true,
          prompted := v.prompted || (question && v.kernel)),
       promoting || !v.delivered)
    case Refused =>
      if promoting then
        (v.(question := kernelText, fallback := [], fallbackPending := false, hinted := false), true)
      else (v, false)
    case Uncertain => (v, false)
  }

  function WriteBack<P(==)>(c: Core<P>, p: P, r: Pending, restart: bool, window: int): Core<P> {
    if restart then Arm(c, p, Due(r, c.now + window), window, Timeout) else c.(cells := c.cells[p := r])
  }

  function CompleteDM<P(==)>(
    c: Core<P>, prompt: Prompt<P>, send: Send, question: bool, kernelText: string,
    resetExpiry: bool, window: int): (Core<P>, bool)
    requires prompt.owner in c.cells
  {
    var p := prompt.owner;
    if !Current(c, prompt.key, p) || c.cells[p].nonce != prompt.nonce then (c, false)
    else
      var r := c.cells[p];
      var m := Messaged(r.screen, send, question && prompt.fallbackPending && r.screen.fallbackPending, question, kernelText);
      (WriteBack(c, p, r.(screen := m.0), m.1 && resetExpiry, window), true)
  }

  // ---- Claims ----

  datatype Guard = AnyClaim | NonceClaim(nonce: string) | ExpiryClaim(timerNonce: string, epoch: nat)

  predicate Accepts(g: Guard, r: Pending) {
    match g
    case AnyClaim => true
    case NonceClaim(n) => r.nonce == n
    case ExpiryClaim(n, e) => r.nonce == n && r.epoch == e
  }

  function Claimed(r: Pending, stamp: bool, now: Time): Pending {
    r.(done := true, times := if stamp then r.times.(failedAt := Some(now)) else r.times)
  }

  /** `consume`, `claimPending`, `claimPendingNonce` and `claimPendingExpiry`: take a live pending
      for settlement and mark its key terminal. Only the last two stamp the failure time, and
      only they refuse during shutdown. */
  function Claim<P(==)>(c: Core<P>, key: Key, g: Guard): (Core<P>, Option<P>)
    requires KeysKnown(c)
  {
    if key !in c.pend || c.cells[c.pend[key]].done || (!g.AnyClaim? && c.shuttingDown)
       || !Accepts(g, c.cells[c.pend[key]])
    then (c, None)
    else
      var p := c.pend[key];
      (c.(cells := c.cells[p := Claimed(c.cells[p], !g.AnyClaim?, c.now)], terminal := c.terminal[key := p]), Some(p))
  }

  // ---- Settling ----

  function ReleaseTerminal<P(==)>(c: Core<P>, key: Key, p: P): Core<P> {
    if key in c.terminal && c.terminal[key] == p then c.(terminal := c.terminal - {key}) else c
  }

  function FinishTerminal<P(==)>(c: Core<P>, key: Key, p: P): Core<P> {
    var c' := if key in c.pend && c.pend[key] == p then c.(pend := c.pend - {key}) else c;
    ReleaseTerminal(c', key, p)
  }

  function Discard<P(==)>(c: Core<P>, key: Key, p: P): Core<P>
    requires p in c.cells
  {
    var c' := if key in c.pend && c.pend[key] == p
              then c.(pend := c.pend - {key}, cells := c.cells[p := c.cells[p].(done := true)]) else c;
    ReleaseTerminal(c', key, p)
  }

  /** A pending handed back for another attempt, and the delay its timer gets. */
  function Retried(r: Pending, now: Time): (Pending, int) {
    var r1 := r.(settleFailures := r.settleFailures + 1, done := false);
    var delay := r.times.deadline - now;
    if delay < NO_FAULT_GRACE then (Due(r1, now + NO_FAULT_GRACE), NO_FAULT_GRACE) else (r1, delay)
  }

  /** A failed settlement goes back for another attempt, at most MAX_SETTLE_FAILURES - 1 times. */
  function Reopen<P(==)>(c: Core<P>, key: Key, p: P, reason: Reason): (Core<P>, bool)
    requires p in c.cells
  {
    var r := c.cells[p];
    var c0 := ReleaseTerminal(c, key, p);
    if !(key in c.pend && c.pend[key] == p && r.done) then (c0, false)
    else if r.settleFailures + 1 >= MAX_SETTLE_FAILURES then
      (c0.(cells := c.cells[p := r.(settleFailures := r.settleFailures + 1)], pend := c.pend - {key}), false)
    else
      var (r', delay) := Retried(r, c.now);
      (Arm(c0, p, r', delay, reason), true)
  }

  function MarkPassing<P(==)>(c: Core<P>, key: Key, p: P): Core<P>
    requires p in c.cells
  {
    if key in c.pend && c.pend[key] == p then c.(cells := c.cells[p := c.cells[p].(passing := true)]) else c
  }

  function AdoptAsHeld<P(==)>(c: Core<P>, key: Key, p: P): Core<P>
    requires p in c.cells
  {
    if key in c.pend && c.pend[key] == p then c.(cells := c.cells[p := c.cells[p].(gate := Mute)]) else c
  }

  /** The last section of `renotifyPending`: a challenge sent again after an outage is the one shown. */
  function Renotified<P(==)>(c: Core<P>, key: Key, p: P, groupMsg: int): Core<P>
    requires p in c.cells
  {
    if !Current(c, key, p) then c
    else c.(cells := c.cells[p := c.cells[p].(screen := c.cells[p].screen.(groupMsg := groupMsg, delivered := true))])
  }

  predicate StrikesUser(reason: Reason) { reason.Timeout? || reason.WrongAnswer? }

  predicate StrikesFor(outcome: Outcome, reason: Reason) {
    StrikesUser(reason) && (outcome.Confirmed? || reason.WrongAnswer?)
  }

  /** `recordPendingVerifyFail`: refused once the group is gone or its verifications were cancelled. */
  function RecordStrike<P(==)>(c: Core<P>, p: P, reason: Reason, outcome: Outcome, isGroup: bool): (Core<P>, bool)
    requires p in c.cells
  {
    var r := c.cells[p];
    if r.removed || !isGroup then (c, false)
    else
      var at := if r.times.failedAt.Some? then r.times.failedAt.value else c.now;
      (c.(strikes := c.strikes + [Strike(p, reason, outcome, at)]), true)
  }

  // ---- Expiry ----

  datatype CapCheck = Stale | Valid(capped: bool)

  function DeferralCapState<P(==)>(c: Core<P>, key: Key, nonce: string, epoch: nat): (Core<P>, CapCheck)
    requires KeysKnown(c)
  {
    if key !in c.pend || c.cells[c.pend[key]].done || !Accepts(ExpiryClaim(nonce, epoch), c.cells[c.pend[key]])
    then (c, Stale)
    else
      var p := c.pend[key];
      var r := c.cells[p];
      if r.capReached then (c, Valid(true))
      else if r.deferredSince.None? || c.now < r.deferredSince.value + MAX_DEFERRAL then (c, Valid(false))
      else (c.(cells := c.cells[p := r.(capReached := true)]), Valid(true))
  }

  /** An expiry that could not reach Telegram: a fresh window that stops at the cap, and from the
      cap on a short strike-free retry. Gives the pending, its delay and the reason it carries. */
  function Deferred(r: Pending, now: Time, reason: Reason, window: int): (Pending, int, Reason) {
    var since := if r.deferredSince.None? then now else r.deferredSince.value;
    var remaining := since + MAX_DEFERRAL - now;
    var capped := r.capReached || remaining <= 0;
    var delay := if reason.ChallengePostFailed? then PENDING_DELIVERY_TIMEOUT else window;
    var d := if capped then NO_FAULT_GRACE else if delay > remaining then remaining else delay;
    (Due(r.(deferredSince := Some(since), capReached := capped), now + d), d,
     if capped then DeferralCap else reason)
  }

  function DeferExpiry<P(==)>(c: Core<P>, key: Key, nonce: string, epoch: nat, reason: Reason, window: int): Core<P>
    requires KeysKnown(c)
  {
    if key !in c.pend || c.cells[c.pend[key]].done || !Accepts(ExpiryClaim(nonce, epoch), c.cells[c.pend[key]])
    then c
    else
      var d := Deferred(c.cells[c.pend[key]], c.now, reason, window);
      Arm(c, c.pend[key], d.0, d.1, d.2)
  }

  /** What recovery makes of one live pending: a fresh strike-free window, or the short
      settlement retry once the deferral cap has been reached. */
  function RecoveredPending(r: Pending, now: Time, window: int): Pending {
    var capped := r.capReached || (r.deferredSince.Some? && now >= r.deferredSince.value + MAX_DEFERRAL);
    var delay := if capped then NO_FAULT_GRACE else window;
    var r1 := ArmedPending(Due(r.(capReached := capped), now + delay), now, delay,
                           if capped then DeferralCap else Recovered);
    if capped || (r.times.lastRenotify.Some? && now - r.times.lastRenotify.value < delay) then r1
    else r1.(times := r1.times.(lastRenotify := Some(now)))
  }

  ghost function Recover<P>(c: Core<P>, window: (int, Gate) -> int): Core<P> {
    if c.shuttingDown then c
    else
      var cells := map p | p in c.cells ::
        if Live(c, p) then RecoveredPending(c.cells[p], c.now, window(c.cells[p].key.gid, c.cells[p].gate))
        else c.cells[p];
      c.(cells := cells,
         timers := c.timers + set p | p in c.cells && Live(c, p) :: TimerOf(p, RecoveredPending(c.cells[p], c.now, window(c.cells[p].key.gid, c.cells[p].gate))))
  }

  // ---- Groups ----

  function Withdrawn(r: Pending): Pending { r.(done := true, removed := true) }

  /** Switching verification off abandons what the map holds; a settlement already in flight
      keeps its terminal marker until it returns. */
  ghost function CancelGroup<P>(c: Core<P>, gid: int): Core<P> {
    c.(pend := map k | k in c.pend && k.gid != gid :: c.pend[k],
       cells := map p | p in c.cells ::
         if c.cells[p].key.gid == gid && Held(c, p) then Withdrawn(c.cells[p]) else c.cells[p])
  }

  ghost function RemoveGroup<P>(c: Core<P>, gid: int): Core<P> {
    c.(pend := map k | k in c.pend && k.gid != gid :: c.pend[k],
       terminal := map k | k in c.terminal && k.gid != gid :: c.terminal[k],
       cells := map p | p in c.cells ::
         if c.cells[p].key.gid == gid && (Held(c, p) || InTerminal(c, p)) then Withdrawn(c.cells[p])
         else c.cells[p])
  }

  // ---- Grading ----

  function MarkChannel<P(==)>(c: Core<P>, key: Key, known: bool): Core<P>
    requires KeysKnown(c)
  {
    if key in c.pend then
      var p := c.pend[key];
      c.(cells := c.cells[p := c.cells[p].(channelUnreadable := !known)])
    else c
  }

  /** Grant a free reply, at most once. */
  function MarkFree<P(==)>(c: Core<P>, key: Key, nonce: string, reply: FreeReply): (Core<P>, bool)
    requires KeysKnown(c)
  {
    if key !in c.pend || c.cells[c.pend[key]].done || c.cells[c.pend[key]].nonce != nonce
       || reply in c.cells[c.pend[key]].spent
    then (c, false)
    else
      var p := c.pend[key];
      (c.(cells := c.cells[p := c.cells[p].(spent := c.cells[p].spent + {reply})]), true)
  }

  /** Charge one failed reply; the number of replies left, or None when nothing was charged. */
  function RecordTry<P(==)>(c: Core<P>, key: Key, nonce: string): (Core<P>, Option<nat>)
    requires KeysKnown(c)
  {
    if key !in c.pend || c.cells[c.pend[key]].done || c.cells[c.pend[key]].nonce != nonce then (c, None)
    else
      var p := c.pend[key];
      var tries := c.cells[p].tries + 1;
      (c.(cells := c.cells[p := c.cells[p].(tries := tries)]), Some(Max(KERNEL_MAX_TRIES - tries, 0)))
  }

  function Switched(r: Pending, question: string, answers: seq<string>, deadline: Time): Pending {
    Due(r.(screen := r.screen.(hinted := true, question := question, fallback := answers, fallbackPending := true)), deadline)
  }

  function BeginFallback<P(==)>(c: Core<P>, key: Key, nonce: string, question: string, answers: seq<string>): (Core<P>, bool)
    requires KeysKnown(c)
  {
    if key !in c.pend || c.cells[c.pend[key]].done || c.cells[c.pend[key]].nonce != nonce
       || c.cells[c.pend[key]].screen.hinted || c.cells[c.pend[key]].screen.fallbackPending
    then (c, false)
    else
      var p := c.pend[key];
      (Arm(c, p, Switched(c.cells[p], question, answers, c.now + PENDING_DELIVERY_TIMEOUT), PENDING_DELIVERY_TIMEOUT, ChallengePostFailed), true)
  }
}

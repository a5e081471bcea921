/** What single sections of the verification service decide, by what they look at: whether a challenge
    starts, how many attempts are left, what a delivery and an expiry are taken for, and how long
    everything lasts. */
module SettlementLaws {
  import opened Options
  import opened Settlement

  /** One minute to deliver, one of grace, half a minute in which a second arrival is the first one
      repeated, and two days of deferral; nanoseconds all. */
  lemma Durations()
    ensures PENDING_DELIVERY_TIMEOUT == 60 * 1_000_000_000 && NO_FAULT_GRACE == 60 * 1_000_000_000
    ensures DUPLICATE_ARRIVAL_WINDOW == 30 * 1_000_000_000 && MAX_DEFERRAL == 48 * 3600 * 1_000_000_000
  {
  }

  /** The applicant's earlier challenge is on screen, unanswered and untried, and less than half a minute
      old. */
  predicate JustArrived(prev: Pending, now: Time) {
    && !prev.done && (prev.screen.groupMsg != 0 || prev.screen.privateMsg != 0) && prev.tries == 0
    && prev.times.startedAt.Some? && now < prev.times.startedAt.value + 30_000_000_000
  }

  /** An arrival is turned away while a settlement for it is under way, when two thousand applicants
      wait, or five hundred of its group, and it is not one of them, or when it just arrived; otherwise
      its challenge starts. */
  lemma StartsExactlyWhen<P>(c: Core<P>, p: P, arrival: Pending)
    requires KeysKnown(c)
    ensures var key := arrival.key; var status := StartPending(c, p, arrival).1;
      var waits := key in c.pend;
      var settling := key in c.terminal || (waits && c.cells[c.pend[key]].done);
      var full := |c.pend| >= 2000 || |set k | k in c.pend && k.gid == key.gid| >= 500;
      && (status.BlockedTerminal? <==> settling)
      && (status.BlockedCapacity? <==> !settling && !waits && full)
      && (status.DuplicateArrival? <==> !settling && waits && JustArrived(c.cells[c.pend[key]], c.now))
      && (!status.Started? ==> StartPending(c, p, arrival).0 == c)
  {
    assert GroupKeys(c.pend, arrival.key.gid) == set k | k in c.pend && k.gid == arrival.key.gid;
  }

  ghost predicate Begins<P>(c: Core<P>, p: P, arrival: Pending) {
    KeysKnown(c) && StartPending(c, p, arrival).1.Started? && p !in c.cells && arrival.deferredSince.None?
  }

  /** The new one in the map, the one before it done, and everything else as it was. */
  ghost predicate TakesItsPlace<P>(c: Core<P>, key: Key, p: P, c': Core<P>) {
    && c'.pend == c.pend[key := p] && c'.terminal == c.terminal && c'.strikes == c.strikes && p in c'.cells
    && (key in c.pend ==> c.pend[key] in c.cells && c.pend[key] in c'.cells
                          && c'.cells[c.pend[key]] == c.cells[c.pend[key]].(done := true))
  }

  lemma StartedTakesItsPlace<P>(c: Core<P>, p: P, arrival: Pending)
    requires Begins(c, p, arrival)
    ensures TakesItsPlace(c, arrival.key, p, StartPending(c, p, arrival).0)
  {
  }

  lemma StartedCell<P>(c: Core<P>, p: P, arrival: Pending)
    requires Begins(c, p, arrival)
    ensures var c' := StartPending(c, p, arrival).0;
      p in c'.cells && c'.cells[p] ==
        ArmedPending(Starting(arrival, Lookup(c, arrival.key), c.now), c.now, PENDING_DELIVERY_TIMEOUT, ChallengePostFailed)
  {
  }

  /** A minute to be delivered, and what was used up by the one before. */
  predicate FreshlyStarted(r: Pending, from: Pending, now: Time) {
    && r.times.startedAt == Some(now) && r.times.deadline == now + 60_000_000_000
    && r.armed == Some(Armed(now, now + 60_000_000_000, ChallengePostFailed))
    && r.tries == from.tries && r.spent == from.spent
  }

  lemma StartingIs(arrival: Pending, prev: Option<Pending>, now: Time)
    requires arrival.deferredSince.None?
    ensures FreshlyStarted(
      ArmedPending(Starting(arrival, prev, now), now, PENDING_DELIVERY_TIMEOUT, ChallengePostFailed),
      if prev.Some? then prev.value else arrival, now)
  {
  }

  /** A started challenge takes the place of the one before, which is done, and has a minute to be
      delivered; what was used up of attempts and free replies stays used up. */
  lemma StartedIs<P>(c: Core<P>, p: P, arrival: Pending)
    requires Begins(c, p, arrival)
    ensures var key := arrival.key; var c' := StartPending(c, p, arrival).0;
      && TakesItsPlace(c, key, p, c')
      && FreshlyStarted(c'.cells[p], if key in c.pend then c.cells[c.pend[key]] else arrival, c.now)
  {
    StartedTakesItsPlace(c, p, arrival);
    StartedCell(c, p, arrival);
    StartingIs(arrival, Lookup(c, arrival.key), c.now);
  }

  /** A stored challenge is put back while there is room, armed anew; one that was never deferred is
      armed for the delay and the reason it was given. */
  ghost predicate PutBack<P>(c: Core<P>, p: P, r: Pending, delay: int, reason: Reason, c': Core<P>) {
    && c' == c.(pend := c.pend[r.key := p], cells := c'.cells, timers := c'.timers)
    && p in c'.cells && c'.cells == c.cells[p := c'.cells[p]]
    && var r' := c'.cells[p];
    && r' == r.(epoch := r.epoch + 1, times := r'.times, armed := r'.armed) && r'.armed.Some?
    && c'.timers == c.timers + {Timer(p, r.key, r.nonce, r.epoch + 1, r'.armed.value)}
    && (delay > 0 && r.deferredSince.None? ==> r'.times == r.times && r'.armed == Some(Armed(c.now, c.now + delay, reason)))
  }

  lemma RoomWhen<P>(pend: map<Key, P>, gid: int)
    ensures CapacityOK(pend, gid) <==> |pend| < 2000 && |set k | k in pend && k.gid == gid| < 500
  {
    assert GroupKeys(pend, gid) == set k | k in pend && k.gid == gid;
  }

  lemma RestoringPutsBack<P>(c: Core<P>, p: P, r: Pending, delay: int, reason: Reason)
    requires CapacityOK(c.pend, r.key.gid)
    ensures PutBack(c, p, r, delay, reason, Restore(c, p, r, delay, reason))
  {
  }

  lemma RestoresExactlyWhen<P>(c: Core<P>, p: P, r: Pending, delay: int, reason: Reason)
    ensures var full := |c.pend| >= 2000 || |set k | k in c.pend && k.gid == r.key.gid| >= 500;
      if full then Restore(c, p, r, delay, reason) == c else PutBack(c, p, r, delay, reason, Restore(c, p, r, delay, reason))
  {
    RoomWhen(c.pend, r.key.gid);
    if CapacityOK(c.pend, r.key.gid) { RestoringPutsBack(c, p, r, delay, reason); }
  }

  /** A failed reply is charged to the challenge it was given to and no other; each leaves one attempt
      fewer of three, and none from the third on. */
  lemma AttemptsRunOut<P>(c: Core<P>, key: Key, nonce: string)
    requires KeysKnown(c)
    ensures var (c', left) := RecordTry(c, key, nonce);
      var current := key in c.pend && !c.cells[c.pend[key]].done && c.cells[c.pend[key]].nonce == nonce;
      && (left.Some? <==> current)
      && (!current ==> c' == c)
      && (current ==> (var (r, r') := (c.cells[c.pend[key]], c'.cells[c.pend[key]]);
            && r' == r.(tries := r.tries + 1)
            && left == Some(if r'.tries >= 3 then 0 else 3 - r'.tries)))
  {
  }

  /** So two charged in a row leave one fewer, until none is left. */
  lemma EachTryCosts<P>(c: Core<P>, key: Key, nonce: string)
    requires KeysKnown(c) && RecordTry(c, key, nonce).1.Some?
    ensures var (c1, first) := RecordTry(c, key, nonce);
      && KeysKnown(c1) && RecordTry(c1, key, nonce).1 == Some(if first.value > 0 then first.value - 1 else 0)
  {
    AttemptsRunOut(c, key, nonce);
    var c1 := RecordTry(c, key, nonce).0;
    assert c1.pend == c.pend && c1.terminal == c.terminal && c1.cells.Keys == c.cells.Keys;
    AttemptsRunOut(c1, key, nonce);
  }

  /** Only a delivered question can be timed out on. */
  lemma DeliveryDecidesTheReason<P>(c: Core<P>, p: P, groupMsg: int, privateMsg: int, delivered: bool, window: int)
    requires p in c.cells && Current(c, c.cells[p].key, p) && window > 0 && c.cells[p].deferredSince.None?
    ensures var (c', ok) := FinishChallenge(c, c.cells[p].key, p, groupMsg, privateMsg, delivered, window);
      && ok && p in c'.cells
      && c'.cells[p].armed == Some(Armed(c.now, c.now + window, if delivered then Timeout else ChallengePostFailed))
  {
  }

  /** A failure is the applicant's if it was a wrong answer, or a timeout that Telegram confirmed. */
  lemma StrikesExactly(outcome: Outcome, reason: Reason)
    ensures StrikesFor(outcome, reason) <==> reason == WrongAnswer || (reason == Timeout && outcome == Confirmed)
    ensures StrikesUser(reason) <==> reason == WrongAnswer || reason == Timeout
  {
  }
}

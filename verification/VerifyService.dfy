/** The verification service over its heap: pendings are objects updated in place, and each method
    is one section that runs under the service mutex. */
module VerifyService {
  import opened Options
  import opened Settlement
  import opened SettlementCases
  import opened SettlementRuns

  class PendingObject {
    const key: Key
    const nonce: string
    var gate: Gate
    var passing: bool
    var screen: Screen
    var tries: nat
    var spent: set<FreeReply>
    var times: Times
    var deferredSince: Option<Time>
    var capReached: bool
    var epoch: nat
    var armed: Option<Armed>
    var settleFailures: nat
    var channelUnreadable: bool
    var done: bool
    var removed: bool

    constructor (r: Pending)
      ensures Snapshot() == r && key == r.key
    {
      key, nonce, gate, passing := r.key, r.nonce, r.gate, r.passing;
      screen, times := r.screen, r.times;
      tries, spent := r.tries, r.spent;
      deferredSince, capReached, epoch, armed := r.deferredSince, r.capReached, r.epoch, r.armed;
      settleFailures, channelUnreadable, done, removed := r.settleFailures, r.channelUnreadable, r.done, r.removed;
    }

    ghost function Snapshot(): Pending
      reads this
    {
      Pending(key, nonce, gate, passing, screen, tries, spent, times, deferredSince, capReached, epoch, armed,
              settleFailures, channelUnreadable, done, removed)
    }

    /** A new epoch and timer; a delay that is not positive, or runs past the deferral cap, is cut. */
    method Rearm(now: Time, delay: int, reason: Reason)
      modifies `times, `epoch, `armed
      ensures Snapshot() == ArmedPending(old(Snapshot()), now, delay, reason)
    {
      var d, why := delay, reason;
      if d <= 0 {
        d := NO_FAULT_GRACE;
        times := times.(deadline := now + d);
        why := ChallengePostFailed;
      }
      if deferredSince.Some? && !capReached {
        var remaining := deferredSince.value + MAX_DEFERRAL - now;
        if remaining <= 0 {
          remaining := 1;
        }
        if d > remaining {
          d := remaining;
          times := times.(deadline := now + d);
        }
      }
      assert d == ArmDelay(old(Snapshot()), now, delay);
      epoch := epoch + 1;
      armed := Some(Armed(now, now + d, why));
    }

    method Claim(stamp: bool, now: Time)
      modifies `done, `times
      ensures Snapshot() == Claimed(old(Snapshot()), stamp, now)
    {
      done := true;
      if stamp {
        times := times.(failedAt := Some(now));
      }
    }

    /** What a challenge takes over from the one it replaces, if any, and its delivery deadline. */
    method Begin(prev: PendingObject?, now: Time)
      modifies `tries, `spent, `screen, `times
      ensures Snapshot() == Starting(old(Snapshot()), if prev == null then None else Some(old(prev.Snapshot())), now)
    {
      if prev != null {
        tries, spent := prev.tries, prev.spent;
        if screen.kernel && prev.screen.kernel && |prev.screen.fallback| > 0 {
          screen := screen.(question := prev.screen.question, fallback := prev.screen.fallback, hinted := true);
        }
      }
      times := times.(deadline := now + PENDING_DELIVERY_TIMEOUT, startedAt := Some(now));
    }

    method Deliver(groupMsg: int, privateMsg: int, delivered: bool, deadline: Time)
      modifies `screen, `times
      ensures Snapshot() == Delivered(old(Snapshot()), groupMsg, privateMsg, delivered, deadline)
    {
      screen := screen.(groupMsg := groupMsg, privateMsg := privateMsg, delivered := delivered);
      times := times.(deadline := deadline);
    }

    /** What a finished direct message changes, and whether the answer window starts over. */
    method Message(send: Send, promoting: bool, question: bool, kernelText: string) returns (restart: bool)
      modifies `screen
      ensures (screen, restart) == Messaged(old(screen), send, promoting, question, kernelText)
    {
      match send
      case Uncertain => restart := false;
      case Refused =>
        restart := promoting;
        if promoting {
          screen := screen.(question := kernelText, fallback := [], fallbackPending := false, hinted := false);
        }
      case Sent(id) =>
        restart := false;
        if promoting {
          screen := screen.(fallbackPending := false);
          restart := true;
        }
        if id != 0 {
          screen := screen.(privateMsg := id);
        }
        if !screen.delivered {
          screen := screen.(delivered := true);
          restart := true;
        }
        if question && screen.kernel {
          screen := screen.(prompted := true);
        }
    }

    /** One more failed settlement: unclaimed again, for at least the grace period. */
    method Retry(now: Time) returns (delay: int)
      modifies `settleFailures, `done, `times
      ensures (Snapshot(), delay) == Retried(old(Snapshot()), now)
    {
      settleFailures := settleFailures + 1;
      done := false;
      delay := times.deadline - now;
      if delay < NO_FAULT_GRACE {
        delay := NO_FAULT_GRACE;
        times := times.(deadline := now + delay);
      }
    }

    /** An expiry that could not reach Telegram. */
    method Postpone(now: Time, reason: Reason, window: int) returns (delay: int, why: Reason)
      modifies `deferredSince, `capReached, `times
      ensures (Snapshot(), delay, why) == Deferred(old(Snapshot()), now, reason, window)
    {
      DeferralCases(Snapshot(), now, reason, window);
      if deferredSince.None? {
        deferredSince := Some(now);
      }
      delay, why := if reason.ChallengePostFailed? then PENDING_DELIVERY_TIMEOUT else window, reason;
      var remaining := deferredSince.value + MAX_DEFERRAL - now;
      if capReached || remaining <= 0 {
        capReached := true;
        delay, why := NO_FAULT_GRACE, DeferralCap;
      } else if delay > remaining {
        delay := remaining;
      }
      times := times.(deadline := now + delay);
    }

    method Switch(question: string, answers: seq<string>, deadline: Time)
      modifies `screen, `times
      ensures Snapshot() == Switched(old(Snapshot()), question, answers, deadline)
    {
      screen := screen.(hinted := true, question := question, fallback := answers, fallbackPending := true);
      times := times.(deadline := deadline);
    }

    /** A fresh window after an outage, or a strike-free settlement once the cap is reached. */
    method Recover(now: Time, window: int)
      modifies `capReached, `times, `epoch, `armed
      ensures armed.Some? && Snapshot() == RecoveredPending(old(Snapshot()), now, window)
    {
      var delay, reason := window, Recovered;
      if capReached || (deferredSince.Some? && now >= deferredSince.value + MAX_DEFERRAL) {
        capReached := true;
        delay, reason := NO_FAULT_GRACE, DeferralCap;
      }
      times := times.(deadline := now + delay);
      Rearm(now, delay, reason);
      if !capReached && !(times.lastRenotify.Some? && now - times.lastRenotify.value < delay) {
        times := times.(lastRenotify := Some(now));
      }
    }

    method Withdraw()
      modifies `removed, `done
      ensures Snapshot() == Withdrawn(old(Snapshot()))
    {
      removed := true;
      done := true;
    }
  }

  /** A map of pendings holds known ones, each under its own key. */
  ghost predicate Keyed(m: map<Key, PendingObject>, known: set<PendingObject>) {
    forall k | k in m :: m[k] in known && m[k].key == k
  }

  class Service {
    var pend: map<Key, PendingObject>
    var terminal: map<Key, PendingObject>
    var shuttingDown: bool
    var now: Time
    /** Every pending the service has seen, as it stands. */
    ghost var cells: map<PendingObject, Pending>
    ghost var timers: set<Timer<PendingObject>>
    ghost var strikes: seq<Strike<PendingObject>>

    constructor (clock: Time)
      ensures Valid() && Abs() == Core(clock, map[], map[], map[], {}, [], false)
    {
      pend, terminal, shuttingDown, now := map[], map[], false, clock;
      cells, timers, strikes := map[], {}, [];
    }

    ghost predicate Valid()
      reads this, cells.Keys
    {
      Tracked() && Keyed(pend, cells.Keys) && Keyed(terminal, cells.Keys)
    }

    ghost predicate Tracked()
      reads `cells, cells.Keys
    {
      forall p | p in cells :: cells[p] == p.Snapshot()
    }

    /** Valid, except that `p` may have been written to since it was last noted. */
    ghost predicate ValidBut(p: PendingObject)
      reads this, cells.Keys - {p}
    {
      (forall q | q in cells && q != p :: cells[q] == q.Snapshot()) && Keyed(pend, cells.Keys + {p}) && Keyed(terminal, cells.Keys)
    }

    lemma Doubt(p: PendingObject)
      requires Valid()
      ensures ValidBut(p)
    {
    }

    /** The end of a section that wrote to `p`. */
    ghost method Note(p: PendingObject)
      requires ValidBut(p)
      modifies `cells
      ensures Valid() && cells.Keys == old(cells.Keys) + {p}
      ensures Abs() == old(Abs()).(cells := old(cells)[p := p.Snapshot()])
    {
      cells := cells[p := p.Snapshot()];
    }

    lemma ValidMatches()
      requires Valid()
      ensures KeysMatch(Abs())
    {
    }

    /** The state the protocol is stated over. */
    ghost function Abs(): Core<PendingObject>
      reads this
    {
      Core(now, pend, terminal, cells, timers, strikes, shuttingDown)
    }

    /** `armExpiry`. */
    method ArmExpiry(p: PendingObject, delay: int, reason: Reason)
      requires ValidBut(p)
      modifies p`times, p`epoch, p`armed, `timers, `cells
      ensures Valid() && cells.Keys == old(cells.Keys) + {p}
      ensures Abs() == Arm(old(Abs()), p, old(p.Snapshot()), delay, reason)
    {
      p.Rearm(now, delay, reason);
      timers := timers + {TimerOf(p, p.Snapshot())};
      Note(p);
    }

    /** `markTerminalLocked`. */
    method MarkTerminal(key: Key, p: PendingObject)
      requires Valid() && p in cells && p.key == key
      modifies `terminal
      ensures Valid() && Abs() == old(Abs()).(terminal := old(terminal)[key := p])
    {
      terminal := terminal[key := p];
    }

    /** `releaseTerminalLocked`: only the pending that holds the marker releases it. */
    method ReleaseTerminal(key: Key, p: PendingObject)
      requires Valid()
      modifies `terminal
      ensures Valid() && Abs() == Settlement.ReleaseTerminal(old(Abs()), key, p)
    {
      if key in terminal && terminal[key] == p {
        terminal := terminal - {key};
      }
    }

    /** What every claim does once its guard holds. */
    method Take(key: Key, p: PendingObject, stamp: bool)
      requires Valid() && key in pend && pend[key] == p
      modifies p, `cells, `terminal
      ensures Valid() && cells.Keys == old(cells.Keys)
      ensures Abs() == old(Abs()).(cells := old(cells)[p := Claimed(old(p.Snapshot()), stamp, now)], terminal := old(terminal)[key := p])
    {
      Doubt(p);
      p.Claim(stamp, now);
      Note(p);
      MarkTerminal(key, p);
    }

    method Drop(key: Key)
      requires Valid()
      modifies `pend
      ensures Valid() && Abs() == old(Abs()).(pend := old(pend) - {key})
    {
      pend := pend - {key};
    }

    /** `consume` and `claimPending`. */
    method Consume(key: Key) returns (claimed: Option<PendingObject>)
      requires Valid()
      modifies this, cells.Keys
      ensures Valid() && cells.Keys == old(cells.Keys)
      ensures (Abs(), claimed) == Claim(old(Abs()), key, AnyClaim)
    {
      if key !in pend || pend[key].done {
        return None;
      }
      Take(key, pend[key], false);
      return Some(pend[key]);
    }

    /** `claimPendingNonce`. */
    method ClaimNonce(key: Key, nonce: string) returns (claimed: Option<PendingObject>)
      requires Valid()
      modifies this, cells.Keys
      ensures Valid() && cells.Keys == old(cells.Keys)
      ensures (Abs(), claimed) == Claim(old(Abs()), key, NonceClaim(nonce))
    {
      if shuttingDown || key !in pend || pend[key].done || pend[key].nonce != nonce {
        return None;
      }
      Take(key, pend[key], true);
      return Some(pend[key]);
    }

    /** `claimPendingExpiry`. */
    method ClaimExpiry(key: Key, nonce: string, epoch: nat) returns (claimed: Option<PendingObject>)
      requires Valid()
      modifies this, cells.Keys
      ensures Valid() && cells.Keys == old(cells.Keys)
      ensures (Abs(), claimed) == Claim(old(Abs()), key, ExpiryClaim(nonce, epoch))
    {
      if shuttingDown || key !in pend || pend[key].done || pend[key].nonce != nonce || pend[key].epoch != epoch {
        return None;
      }
      Take(key, pend[key], true);
      return Some(pend[key]);
    }

    /** `startPending`: reserve capacity and install the challenge before it is delivered. */
    method StartPending(p: PendingObject) returns (status: StartStatus)
      requires Valid() && p !in cells
      modifies this, cells.Keys, p
      ensures Valid() && cells.Keys == old(cells.Keys) + if status.Started? then {p} else {}
      ensures (Abs(), status) == Settlement.StartPending(old(Abs()), p, old(p.Snapshot()))
    {
      if p.key in terminal || (p.key in pend && pend[p.key].done) {
        return BlockedTerminal;
      }
      if p.key !in pend && !CapacityOK(pend, p.key.gid) {
        return BlockedCapacity;
      }
      if p.key in pend {
        if RepeatArrivalOf(pend[p.key]) {
          return DuplicateArrival;
        }
        Replace(p);
      } else {
        Add(p);
      }
      return Started;
    }

    method Add(p: PendingObject)
      requires Valid() && p !in cells && p.key !in pend && p.key !in terminal && CapacityOK(pend, p.key.gid)
      modifies this, p
      ensures Valid() && cells.Keys == old(cells.Keys) + {p}
      ensures (Abs(), Started) == Settlement.StartPending(old(Abs()), p, old(p.Snapshot()))
    {
      StartAdds(Abs(), p, p.Snapshot());
      p.Begin(null, now);
      Enter(p);
    }

    method Replace(p: PendingObject)
      requires Valid() && p !in cells && p.key in pend && p.key !in terminal
      requires !pend[p.key].done && !RepeatArrivalOf(pend[p.key])
      modifies this, cells.Keys, p
      ensures Valid() && cells.Keys == old(cells.Keys) + {p}
      ensures (Abs(), Started) == Settlement.StartPending(old(Abs()), p, old(p.Snapshot()))
    {
      var prev := pend[p.key];
      StartReplaces(Abs(), p, p.Snapshot());
      p.Begin(prev, now);
      Supersede(prev);
      Enter(p);
    }

    predicate RepeatArrivalOf(prev: PendingObject)
      reads this, prev
      ensures RepeatArrivalOf(prev) == RepeatArrival(prev.Snapshot(), now)
    {
      && !prev.done && (prev.screen.groupMsg != 0 || prev.screen.privateMsg != 0) && prev.tries == 0
      && prev.times.startedAt.Some? && now - prev.times.startedAt.value < DUPLICATE_ARRIVAL_WINDOW
    }

    method Enter(p: PendingObject)
      requires Valid() && p !in cells
      modifies this, p
      ensures Valid() && cells.Keys == old(cells.Keys) + {p}
      ensures Abs() == Arm(old(Abs()).(pend := old(pend)[p.key := p]), p, old(p.Snapshot()), PENDING_DELIVERY_TIMEOUT, ChallengePostFailed)
    {
      pend := pend[p.key := p];
      ArmExpiry(p, PENDING_DELIVERY_TIMEOUT, ChallengePostFailed);
    }

    method Supersede(prev: PendingObject)
      requires Valid() && prev in cells
      modifies prev`done, `cells
      ensures Valid() && cells.Keys == old(cells.Keys)
      ensures Abs() == old(Abs()).(cells := old(cells)[prev := old(cells)[prev].(done := true)])
    {
      Doubt(prev);
      prev.done := true;
      Note(prev);
    }

    /** `finishPendingChallenge`. */
    method FinishChallenge(p: PendingObject, groupMsg: int, privateMsg: int, delivered: bool, window: int) returns (ok: bool)
      requires Valid() && p in cells
      modifies `timers, `cells, p
      ensures Valid() && cells.Keys == old(cells.Keys)
      ensures (Abs(), ok) == Settlement.FinishChallenge(old(Abs()), p.key, p, groupMsg, privateMsg, delivered, window)
    {
      if p.key !in pend || pend[p.key] != p || p.done {
        return false;
      }
      Show(p, groupMsg, privateMsg, delivered, window);
      return true;
    }

    method Show(p: PendingObject, groupMsg: int, privateMsg: int, delivered: bool, window: int)
      requires Valid() && p in cells
      modifies `timers, `cells, p
      ensures Valid() && cells.Keys == old(cells.Keys)
      ensures Abs() == Arm(old(Abs()), p, Delivered(old(p.Snapshot()), groupMsg, privateMsg, delivered, now + window), window,
                           ExpiryReason(delivered))
    {
      Doubt(p);
      p.Deliver(groupMsg, privateMsg, delivered, now + window);
      ArmExpiry(p, window, ExpiryReason(delivered));
    }

    /** `reopenPending`. */
    method Reopen(p: PendingObject, reason: Reason) returns (ok: bool)
      requires Valid() && p in cells && p.done
      modifies `pend, `terminal, `timers, `cells, p
      ensures Valid() && cells.Keys == old(cells.Keys)
      ensures (Abs(), ok) == Settlement.Reopen(old(Abs()), p.key, p, reason)
    {
      if p.key !in pend || pend[p.key] != p {
        ReopenLetsGo(Abs(), p, reason);
        ReleaseTerminal(p.key, p);
        ok := false;
      } else if p.settleFailures + 1 >= MAX_SETTLE_FAILURES {
        GiveUp(p, reason);
        ok := false;
      } else {
        HandBack(p, reason);
        ok := true;
      }
    }

    /** Out of attempts: the pending leaves the map, still claimed. */
    method GiveUp(p: PendingObject, ghost reason: Reason)
      requires Valid() && p in cells && p.done && p.key in pend && pend[p.key] == p
      requires p.settleFailures + 1 >= MAX_SETTLE_FAILURES
      modifies `pend, `terminal, `cells, p`settleFailures
      ensures Valid() && cells.Keys == old(cells.Keys)
      ensures (Abs(), false) == Settlement.Reopen(old(Abs()), p.key, p, reason)
    {
      ReopenGivesUp(Abs(), p, reason);
      Leave(p);
    }

    method Leave(p: PendingObject)
      requires Valid() && p in cells
      modifies `pend, `terminal, `cells, p`settleFailures
      ensures Valid() && cells.Keys == old(cells.Keys)
      ensures Abs() == Settlement.ReleaseTerminal(
        old(Abs()).(cells := old(cells)[p := old(cells)[p].(settleFailures := old(cells)[p].settleFailures + 1)],
                    pend := old(pend) - {p.key}), p.key, p)
    {
      Fail(p);
      Drop(p.key);
      ReleaseTerminal(p.key, p);
    }

    method Fail(p: PendingObject)
      requires Valid() && p in cells
      modifies `cells, p`settleFailures
      ensures Valid() && cells.Keys == old(cells.Keys)
      ensures Abs() == old(Abs()).(cells := old(cells)[p := old(cells)[p].(settleFailures := old(p.settleFailures) + 1)])
    {
      Doubt(p);
      p.settleFailures := p.settleFailures + 1;
      Note(p);
    }

    method HandBack(p: PendingObject, reason: Reason)
      requires Valid() && p in cells && p.done && p.key in pend && pend[p.key] == p
      requires p.settleFailures + 1 < MAX_SETTLE_FAILURES
      modifies `terminal, `timers, `cells, p
      ensures Valid() && cells.Keys == old(cells.Keys)
      ensures (Abs(), true) == Settlement.Reopen(old(Abs()), p.key, p, reason)
    {
      ReopenHandsBack(Abs(), p, reason);
      ReleaseTerminal(p.key, p);
      Requeue(p, reason);
    }

    method Requeue(p: PendingObject, reason: Reason)
      requires Valid() && p in cells
      modifies `timers, `cells, p
      ensures Valid() && cells.Keys == old(cells.Keys)
      ensures Abs() == Arm(old(Abs()), p, Retried(old(p.Snapshot()), now).0, Retried(old(p.Snapshot()), now).1, reason)
    {
      Doubt(p);
      var delay := p.Retry(now);
      ArmExpiry(p, delay, reason);
    }

    // ---- Settling ----

    /** `finishTerminal`. */
    method FinishTerminal(p: PendingObject)
      requires Valid() && p in cells
      modifies `pend, `terminal
      ensures Valid() && Abs() == Settlement.FinishTerminal(old(Abs()), p.key, p)
    {
      if p.key in pend && pend[p.key] == p {
        Drop(p.key);
      }
      ReleaseTerminal(p.key, p);
    }

    /** `discardPending`. */
    method Discard(p: PendingObject)
      requires Valid() && p in cells
      modifies `pend, `terminal, `cells, p`done
      ensures Valid() && cells.Keys == old(cells.Keys)
      ensures Abs() == Settlement.Discard(old(Abs()), p.key, p)
    {
      if p.key in pend && pend[p.key] == p {
        Supersede(p);
        Drop(p.key);
      }
      ReleaseTerminal(p.key, p);
    }

    /** `markPassing`. */
    method MarkPassing(p: PendingObject)
      requires Valid() && p in cells
      modifies `cells, p`passing
      ensures Valid() && cells.Keys == old(cells.Keys)
      ensures Abs() == Settlement.MarkPassing(old(Abs()), p.key, p)
    {
      if p.key in pend && pend[p.key] == p {
        Doubt(p);
        p.passing := true;
        Note(p);
      }
    }

    /** `adoptAsHeld`. */
    method AdoptAsHeld(p: PendingObject)
      requires Valid() && p in cells
      modifies `cells, p`gate
      ensures Valid() && cells.Keys == old(cells.Keys)
      ensures Abs() == Settlement.AdoptAsHeld(old(Abs()), p.key, p)
    {
      if p.key in pend && pend[p.key] == p {
        Doubt(p);
        p.gate := Mute;
        Note(p);
      }
    }

    /** The last section of `renotifyPending`. */
    method Renotified(p: PendingObject, groupMsg: int)
      requires Valid() && p in cells
      modifies `cells, p`screen
      ensures Valid() && cells.Keys == old(cells.Keys)
      ensures Abs() == Settlement.Renotified(old(Abs()), p.key, p, groupMsg)
    {
      if p.key in pend && pend[p.key] == p && !p.done {
        Doubt(p);
        p.screen := p.screen.(groupMsg := groupMsg, delivered := true);
        Note(p);
      }
    }

    /** `recordPendingVerifyFail`, up to the strike table. */
    method RecordStrike(p: PendingObject, reason: Reason, outcome: Outcome, isGroup: bool) returns (recorded: bool)
      requires Valid() && p in cells
      modifies `strikes
      ensures Valid() && (Abs(), recorded) == Settlement.RecordStrike(old(Abs()), p, reason, outcome, isGroup)
    {
      if p.removed || !isGroup {
        return false;
      }
      strikes := strikes + [Strike(p, reason, outcome, if p.times.failedAt.Some? then p.times.failedAt.value else now)];
      return true;
    }

    // ---- Expiry ----

    /** `deferralCapState`. */
    method DeferralCapState(key: Key, nonce: string, epoch: nat) returns (check: CapCheck)
      requires Valid()
      modifies `cells, cells.Keys
      ensures Valid() && cells.Keys == old(cells.Keys)
      ensures (Abs(), check) == Settlement.DeferralCapState(old(Abs()), key, nonce, epoch)
    {
      if key !in pend || pend[key].done || pend[key].nonce != nonce || pend[key].epoch != epoch {
        return Stale;
      }
      var p := pend[key];
      if p.capReached {
        return CapCheck.Valid(true);
      }
      if p.deferredSince.None? || now < p.deferredSince.value + MAX_DEFERRAL {
        return CapCheck.Valid(false);
      }
      ReachCap(p);
      return CapCheck.Valid(true);
    }

    method ReachCap(p: PendingObject)
      requires Valid() && p in cells
      modifies `cells, p`capReached
      ensures Valid() && cells.Keys == old(cells.Keys)
      ensures Abs() == old(Abs()).(cells := old(cells)[p := old(p.Snapshot()).(capReached := true)])
    {
      Doubt(p);
      p.capReached := true;
      Note(p);
    }

    /** `deferExpiry`. */
    method DeferExpiry(key: Key, nonce: string, epoch: nat, reason: Reason, window: int)
      requires Valid()
      modifies `timers, `cells, cells.Keys
      ensures Valid() && cells.Keys == old(cells.Keys)
      ensures Abs() == Settlement.DeferExpiry(old(Abs()), key, nonce, epoch, reason, window)
    {
      if key in pend && !pend[key].done && pend[key].nonce == nonce && pend[key].epoch == epoch {
        Postpone(pend[key], reason, window);
      }
    }

    method Postpone(p: PendingObject, reason: Reason, window: int)
      requires Valid() && p in cells
      modifies `timers, `cells, p
      ensures Valid() && cells.Keys == old(cells.Keys)
      ensures var d := Deferred(old(p.Snapshot()), now, reason, window); Abs() == Arm(old(Abs()), p, d.0, d.1, d.2)
    {
      Doubt(p);
      var delay, why := p.Postpone(now, reason, window);
      ArmExpiry(p, delay, why);
    }

    // ---- Direct messages and grading ----

    /** `completeDMDelivery`. */
    method CompleteDM(prompt: Prompt<PendingObject>, send: Send, question: bool, kernelText: string,
                      resetExpiry: bool, window: int) returns (current: bool)
      requires Valid() && prompt.owner in cells
      modifies `timers, `cells, prompt.owner
      ensures Valid() && cells.Keys == old(cells.Keys)
      ensures (Abs(), current) == Settlement.CompleteDM(old(Abs()), prompt, send, question, kernelText, resetExpiry, window)
    {
      var p := prompt.owner;
      if prompt.key !in pend || pend[prompt.key] != p || p.done || p.nonce != prompt.nonce {
        return false;
      }
      CompletesCurrent(Abs(), prompt, send, question, kernelText, resetExpiry, window);
      Apply(p, send, question && prompt.fallbackPending && p.screen.fallbackPending, question, kernelText, resetExpiry, window);
      return true;
    }

    method Apply(p: PendingObject, send: Send, promoting: bool, question: bool, kernelText: string, resetExpiry: bool, window: int)
      requires Valid() && p in cells
      modifies `timers, `cells, p
      ensures Valid() && cells.Keys == old(cells.Keys)
      ensures var m := Messaged(old(p.screen), send, promoting, question, kernelText);
        Abs() == WriteBack(old(Abs()), p, old(p.Snapshot()).(screen := m.0), m.1 && resetExpiry, window)
    {
      Doubt(p);
      var restart := p.Message(send, promoting, question, kernelText);
      Settle(p, restart && resetExpiry, window);
    }

    method Settle(p: PendingObject, restart: bool, window: int)
      requires ValidBut(p) && p in cells
      modifies `timers, `cells, p`times, p`epoch, p`armed
      ensures Valid() && cells.Keys == old(cells.Keys)
      ensures Abs() == WriteBack(old(Abs()), p, old(p.Snapshot()), restart, window)
    {
      if restart {
        Restart(p, window);
      } else {
        Note(p);
      }
    }

    method Restart(p: PendingObject, window: int)
      requires ValidBut(p) && p in cells
      modifies `timers, `cells, p`times, p`epoch, p`armed
      ensures Valid() && cells.Keys == old(cells.Keys)
      ensures Abs() == Arm(old(Abs()), p, Due(old(p.Snapshot()), now + window), window, Timeout)
    {
      p.times := p.times.(deadline := now + window);
      ArmExpiry(p, window, Timeout);
    }

    /** `markChannelReadable`. */
    method MarkChannel(key: Key, known: bool)
      requires Valid()
      modifies `cells, cells.Keys
      ensures Valid() && cells.Keys == old(cells.Keys)
      ensures Abs() == Settlement.MarkChannel(old(Abs()), key, known)
    {
      if key in pend {
        var p := pend[key];
        Doubt(p);
        p.channelUnreadable := !known;
        Note(p);
      }
    }

    /** `markSampleBounced`, `markNoLinuxReminded` and `markOSClarified`. */
    method MarkFree(key: Key, nonce: string, reply: FreeReply) returns (granted: bool)
      requires Valid()
      modifies `cells, cells.Keys
      ensures Valid() && cells.Keys == old(cells.Keys)
      ensures (Abs(), granted) == Settlement.MarkFree(old(Abs()), key, nonce, reply)
    {
      if key !in pend || pend[key].done || pend[key].nonce != nonce || reply in pend[key].spent {
        return false;
      }
      Spend(pend[key], reply);
      return true;
    }

    method Spend(p: PendingObject, reply: FreeReply)
      requires Valid() && p in cells
      modifies `cells, p`spent
      ensures Valid() && cells.Keys == old(cells.Keys)
      ensures Abs() == old(Abs()).(cells := old(cells)[p := old(cells)[p].(spent := old(p.spent) + {reply})])
    {
      Doubt(p);
      p.spent := p.spent + {reply};
      Note(p);
    }

    /** `recordKernelTry`. */
    method RecordTry(key: Key, nonce: string) returns (left: Option<nat>)
      requires Valid()
      modifies `cells, cells.Keys
      ensures Valid() && cells.Keys == old(cells.Keys)
      ensures (Abs(), left) == Settlement.RecordTry(old(Abs()), key, nonce)
    {
      if key !in pend || pend[key].done || pend[key].nonce != nonce {
        return None;
      }
      var p := pend[key];
      Charge(p);
      return Some(if p.tries > KERNEL_MAX_TRIES then 0 else KERNEL_MAX_TRIES - p.tries);
    }

    method Charge(p: PendingObject)
      requires Valid() && p in cells
      modifies `cells, p`tries
      ensures Valid() && cells.Keys == old(cells.Keys) && p.tries == old(p.tries) + 1
      ensures Abs() == old(Abs()).(cells := old(cells)[p := old(cells)[p].(tries := old(p.tries) + 1)])
    {
      Doubt(p);
      p.tries := p.tries + 1;
      Note(p);
    }

    /** `beginKernelFallback`. */
    method BeginFallback(key: Key, nonce: string, question: string, answers: seq<string>) returns (begun: bool)
      requires Valid()
      modifies `timers, `cells, cells.Keys
      ensures Valid() && cells.Keys == old(cells.Keys)
      ensures (Abs(), begun) == Settlement.BeginFallback(old(Abs()), key, nonce, question, answers)
    {
      if key !in pend || pend[key].done || pend[key].nonce != nonce || pend[key].screen.hinted
         || pend[key].screen.fallbackPending {
        return false;
      }
      SwitchTo(pend[key], question, answers);
      return true;
    }

    method SwitchTo(p: PendingObject, question: string, answers: seq<string>)
      requires Valid() && p in cells
      modifies `timers, `cells, p
      ensures Valid() && cells.Keys == old(cells.Keys)
      ensures Abs() == Arm(old(Abs()), p, Switched(old(p.Snapshot()), question, answers, now + PENDING_DELIVERY_TIMEOUT),
                           PENDING_DELIVERY_TIMEOUT, ChallengePostFailed)
    {
      Doubt(p);
      p.Switch(question, answers, now + PENDING_DELIVERY_TIMEOUT);
      ArmExpiry(p, PENDING_DELIVERY_TIMEOUT, ChallengePostFailed);
    }

    /** Time passes. */
    method Tick(elapsed: nat)
      requires Valid()
      modifies `now
      ensures Valid() && Abs() == old(Abs()).(now := old(now) + elapsed)
    {
      now := now + elapsed;
    }

    /** `stopForShutdown`, up to the timers it stops. */
    method Shutdown()
      requires Valid()
      modifies `shuttingDown
      ensures Valid() && Abs() == old(Abs()).(shuttingDown := true)
    {
      shuttingDown := true;
    }

    // ---- Whole groups ----

    method Withdraw(p: PendingObject)
      requires Valid() && p in cells
      modifies `cells, p`removed, p`done
      ensures Valid() && cells.Keys == old(cells.Keys)
      ensures Abs() == old(Abs()).(cells := old(cells)[p := Withdrawn(old(cells)[p])])
    {
      Doubt(p);
      p.Withdraw();
      Note(p);
    }

    /** `cancelGroupVerifications`, up to the clean-up messages. */
    method CancelGroup(gid: int)
      requires Valid()
      modifies `pend, `cells, cells.Keys
      ensures Valid() && cells.Keys == old(cells.Keys)
      ensures Abs() == Settlement.CancelGroup(old(Abs()), gid)
    {
      ValidMatches();
      CancelStarts(Abs(), gid);
      CancelAll(gid, GroupKeys(pend, gid), Abs());
      CancelEnds(old(Abs()), gid);
    }

    method CancelAll(gid: int, keys: set<Key>, ghost c: Core<PendingObject>)
      requires Valid() && KeysMatch(c) && OfGroup(keys, c.pend, gid) && Abs() == PartCancelled(c, gid, keys)
      modifies `pend, `cells, cells.Keys
      ensures Valid() && cells.Keys == old(cells.Keys) && Abs() == PartCancelled(c, gid, {})
    {
      var todo := keys;
      while todo != {}
        invariant Valid() && cells.Keys == old(cells.Keys) && todo <= keys && Abs() == PartCancelled(c, gid, todo)
        decreases |todo|
      {
        var k :| k in todo;
        CancelOne(k, gid, todo, c);
        todo := todo - {k};
      }
    }

    method CancelOne(k: Key, ghost gid: int, ghost todo: set<Key>, ghost c: Core<PendingObject>)
      requires Valid() && KeysMatch(c) && k in todo && k in c.pend && k.gid == gid
      requires Abs() == PartCancelled(c, gid, todo)
      modifies `pend, `cells, cells.Keys
      ensures Valid() && cells.Keys == old(cells.Keys)
      ensures Abs() == PartCancelled(c, gid, todo - {k})
    {
      CancelContinues(c, gid, todo, k);
      Withdraw(pend[k]);
      Drop(k);
    }

    /** `RemoveGroup`: what the map holds, then what is being settled. */
    method RemoveGroup(gid: int)
      requires Valid()
      modifies `pend, `terminal, `cells, cells.Keys
      ensures Valid() && cells.Keys == old(cells.Keys)
      ensures Abs() == Settlement.RemoveGroup(old(Abs()), gid)
    {
      CancelGroup(gid);
      RemoveTerminal(gid);
      RemovalEnds(old(Abs()), gid);
    }

    method RemoveTerminal(gid: int)
      requires Valid()
      modifies `terminal, `cells, cells.Keys
      ensures Valid() && cells.Keys == old(cells.Keys) && Abs() == PartRemoved(old(Abs()), gid, {})
    {
      ValidMatches();
      RemovalStarts(Abs(), gid);
      RemoveAll(gid, GroupKeys(terminal, gid), Abs());
    }

    method RemoveAll(gid: int, keys: set<Key>, ghost c: Core<PendingObject>)
      requires Valid() && KeysMatch(c) && OfGroup(keys, c.terminal, gid) && Abs() == PartRemoved(c, gid, keys)
      modifies `terminal, `cells, cells.Keys
      ensures Valid() && cells.Keys == old(cells.Keys) && Abs() == PartRemoved(c, gid, {})
    {
      var todo := keys;
      while todo != {}
        invariant Valid() && cells.Keys == old(cells.Keys) && todo <= keys && Abs() == PartRemoved(c, gid, todo)
        decreases |todo|
      {
        var k :| k in todo;
        RemoveOne(k, gid, todo, c);
        todo := todo - {k};
      }
    }

    method RemoveOne(k: Key, ghost gid: int, ghost todo: set<Key>, ghost c: Core<PendingObject>)
      requires Valid() && KeysMatch(c) && k in todo && k in c.terminal && k.gid == gid
      requires Abs() == PartRemoved(c, gid, todo)
      modifies `terminal, `cells, cells.Keys
      ensures Valid() && cells.Keys == old(cells.Keys)
      ensures Abs() == PartRemoved(c, gid, todo - {k})
    {
      RemovalContinues(c, gid, todo, k);
      Withdraw(terminal[k]);
      Unmark(k);
    }

    method Unmark(key: Key)
      requires Valid()
      modifies `terminal
      ensures Valid() && Abs() == old(Abs()).(terminal := old(terminal) - {key})
    {
      terminal := terminal - {key};
    }

    /** `onRecovery`, up to the messages it sends afterwards. */
    method Recover(windows: (int, Gate) -> int)
      requires Valid()
      modifies `timers, `cells, cells.Keys
      ensures Valid() && cells.Keys == old(cells.Keys)
      ensures Abs() == Settlement.Recover(old(Abs()), windows)
    {
      if shuttingDown {
        return;
      }
      ValidMatches();
      RecoveryStarts(Abs(), windows);
      RecoverEach(windows, pend.Keys, Abs());
      RecoveryEnds(old(Abs()), windows);
    }

    method RecoverEach(windows: (int, Gate) -> int, keys: set<Key>, ghost c: Core<PendingObject>)
      requires Valid() && KeysMatch(c) && Abs() == PartRecovered(c, windows, keys)
      modifies `timers, `cells, cells.Keys
      ensures Valid() && cells.Keys == old(cells.Keys) && Abs() == PartRecovered(c, windows, {})
    {
      var todo := keys;
      while todo != {}
        invariant Valid() && cells.Keys == old(cells.Keys) && Abs() == PartRecovered(c, windows, todo)
        decreases |todo|
      {
        var k :| k in todo;
        RecoverNext(k, windows, todo, c);
        todo := todo - {k};
      }
    }

    method RecoverNext(k: Key, windows: (int, Gate) -> int, ghost todo: set<Key>, ghost c: Core<PendingObject>)
      requires Valid() && KeysMatch(c) && k in todo && Abs() == PartRecovered(c, windows, todo)
      modifies `timers, `cells, cells.Keys
      ensures Valid() && cells.Keys == old(cells.Keys) && Abs() == PartRecovered(c, windows, todo - {k})
    {
      SettlingIsKept(c, windows, todo, k);
      if k !in pend || pend[k].done {
        SettlingIsSkipped(c, windows, todo, k);
      } else {
        RecoveryContinues(c, windows, todo, k);
        RecoverOne(pend[k], windows(k.gid, pend[k].gate));
      }
    }

    method RecoverOne(p: PendingObject, window: int)
      requires Valid() && p in cells
      modifies `timers, `cells, p
      ensures Valid() && cells.Keys == old(cells.Keys)
      ensures var r := RecoveredPending(old(p.Snapshot()), now, window);
        Abs() == old(Abs()).(cells := old(cells)[p := r], timers := old(timers) + {TimerOf(p, r)})
    {
      Doubt(p);
      p.Recover(now, window);
      timers := timers + {TimerOf(p, p.Snapshot())};
      Note(p);
    }
  }
}

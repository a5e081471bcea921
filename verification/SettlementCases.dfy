/** The lock sections case by case, and part of the way through their loops: the steps by which
    the methods of `VerifyService` reach what `Settlement` says of each section as a whole. */
module SettlementCases {
  import opened Options
  import opened Settlement
  import opened SettlementRuns

  lemma StartReplaces<P>(c: Core<P>, p: P, r: Pending)
    requires KeysKnown(c) && r.key !in c.terminal && r.key in c.pend
    requires var prev := c.cells[c.pend[r.key]]; !prev.done && !RepeatArrival(prev, c.now)
    ensures Settlement.StartPending(c, p, r) ==
      (Arm(c.(cells := c.cells[c.pend[r.key] := c.cells[c.pend[r.key]].(done := true)], pend := c.pend[r.key := p]),
           p, Starting(r, Some(c.cells[c.pend[r.key]]), c.now), PENDING_DELIVERY_TIMEOUT, ChallengePostFailed), Started)
  {
  }

  lemma StartAdds<P>(c: Core<P>, p: P, r: Pending)
    requires KeysKnown(c) && r.key !in c.terminal && r.key !in c.pend && CapacityOK(c.pend, r.key.gid)
    ensures Settlement.StartPending(c, p, r)
      == (Arm(c.(pend := c.pend[r.key := p]), p, Starting(r, None, c.now), PENDING_DELIVERY_TIMEOUT, ChallengePostFailed), Started)
  {
  }

  lemma CompletesCurrent<P>(
    c: Core<P>, prompt: Prompt<P>, send: Send, question: bool, kernelText: string, resetExpiry: bool, window: int)
    requires prompt.owner in c.cells && Current(c, prompt.key, prompt.owner) && c.cells[prompt.owner].nonce == prompt.nonce
    ensures var r := c.cells[prompt.owner];
      var m := Messaged(r.screen, send, question && prompt.fallbackPending && r.screen.fallbackPending, question, kernelText);
      Settlement.CompleteDM(c, prompt, send, question, kernelText, resetExpiry, window)
        == (WriteBack(c, prompt.owner, r.(screen := m.0), m.1 && resetExpiry, window), true)
  {
  }

  lemma ReopenLetsGo<P>(c: Core<P>, p: P, reason: Reason)
    requires p in c.cells && c.cells[p].done && !Held(c, p)
    ensures Settlement.Reopen(c, c.cells[p].key, p, reason) == (Settlement.ReleaseTerminal(c, c.cells[p].key, p), false)
  {
  }

  lemma ReopenGivesUp<P>(c: Core<P>, p: P, reason: Reason)
    requires p in c.cells && c.cells[p].done && Held(c, p) && c.cells[p].settleFailures + 1 >= MAX_SETTLE_FAILURES
    ensures Settlement.Reopen(c, c.cells[p].key, p, reason) ==
      (Settlement.ReleaseTerminal(
         c.(cells := c.cells[p := c.cells[p].(settleFailures := c.cells[p].settleFailures + 1)],
            pend := c.pend - {c.cells[p].key}), c.cells[p].key, p), false)
  {
  }

  lemma ReopenHandsBack<P>(c: Core<P>, p: P, reason: Reason)
    requires p in c.cells && c.cells[p].done && Held(c, p) && c.cells[p].settleFailures + 1 < MAX_SETTLE_FAILURES
    ensures Settlement.Reopen(c, c.cells[p].key, p, reason) ==
      (Arm(Settlement.ReleaseTerminal(c, c.cells[p].key, p), p,
           Retried(c.cells[p], c.now).0, Retried(c.cells[p], c.now).1, reason), true)
  {
  }

  lemma DeferralCases(r: Pending, now: Time, reason: Reason, window: int)
    ensures var since := if r.deferredSince.Some? then r.deferredSince else Some(now);
      var remaining := since.value + MAX_DEFERRAL - now;
      var delay := if reason.ChallengePostFailed? then PENDING_DELIVERY_TIMEOUT else window;
      Deferred(r, now, reason, window) ==
        if r.capReached || remaining <= 0 then
          (Due(r.(deferredSince := since, capReached := true), now + NO_FAULT_GRACE), NO_FAULT_GRACE, DeferralCap)
        else if delay > remaining then (Due(r.(deferredSince := since), now + remaining), remaining, reason)
        else (Due(r.(deferredSince := since), now + delay), delay, reason)
  {
  }

  // ---- Loops over a group, part of the way through ----

  ghost predicate KeysMatch<P>(c: Core<P>) {
    && KeysKnown(c)
    && (forall k | k in c.pend :: c.cells[c.pend[k]].key == k)
    && (forall k | k in c.terminal :: c.cells[c.terminal[k]].key == k)
  }

  ghost predicate OfGroup<P>(keys: set<Key>, m: map<Key, P>, gid: int) {
    forall k | k in keys :: k in m && k.gid == gid
  }

  ghost function PartCancelled<P>(c: Core<P>, gid: int, todo: set<Key>): Core<P> {
    c.(pend := map k | k in c.pend && (k.gid != gid || k in todo) :: c.pend[k],
       cells := map p | p in c.cells ::
         if c.cells[p].key.gid == gid && Held(c, p) && c.cells[p].key !in todo then Withdrawn(c.cells[p]) else c.cells[p])
  }

  lemma CancelStarts<P>(c: Core<P>, gid: int)
    ensures PartCancelled(c, gid, GroupKeys(c.pend, gid)) == c
  {
    assert PartCancelled(c, gid, GroupKeys(c.pend, gid)).cells == c.cells;
    assert PartCancelled(c, gid, GroupKeys(c.pend, gid)).pend == c.pend;
  }

  lemma CancelContinues<P>(c: Core<P>, gid: int, todo: set<Key>, k: Key)
    requires KeysMatch(c) && k in todo && k in c.pend && k.gid == gid
    ensures var c1 := PartCancelled(c, gid, todo);
      k in c1.pend && c1.pend[k] in c1.cells && PartCancelled(c, gid, todo - {k})
        == c1.(cells := c1.cells[c1.pend[k] := Withdrawn(c1.cells[c1.pend[k]])], pend := c1.pend - {k})
  {
    var c1 := PartCancelled(c, gid, todo);
    var c2 := PartCancelled(c, gid, todo - {k});
    assert c2.pend == c1.pend - {k};
    assert c2.cells == c1.cells[c1.pend[k] := Withdrawn(c1.cells[c1.pend[k]])];
  }

  lemma CancelEnds<P>(c: Core<P>, gid: int)
    ensures PartCancelled(c, gid, {}) == Settlement.CancelGroup(c, gid)
  {
    assert PartCancelled(c, gid, {}).pend == Settlement.CancelGroup(c, gid).pend;
    assert PartCancelled(c, gid, {}).cells == Settlement.CancelGroup(c, gid).cells;
  }

  ghost function PartRemoved<P>(c: Core<P>, gid: int, todo: set<Key>): Core<P> {
    c.(terminal := map k | k in c.terminal && (k.gid != gid || k in todo) :: c.terminal[k],
       cells := map p | p in c.cells ::
         if c.cells[p].key.gid == gid && InTerminal(c, p) && c.cells[p].key !in todo then Withdrawn(c.cells[p]) else c.cells[p])
  }

  lemma RemovalStarts<P>(c: Core<P>, gid: int)
    ensures PartRemoved(c, gid, GroupKeys(c.terminal, gid)) == c
  {
    assert PartRemoved(c, gid, GroupKeys(c.terminal, gid)).cells == c.cells;
    assert PartRemoved(c, gid, GroupKeys(c.terminal, gid)).terminal == c.terminal;
  }

  lemma RemovalContinues<P>(c: Core<P>, gid: int, todo: set<Key>, k: Key)
    requires KeysMatch(c) && k in todo && k in c.terminal && k.gid == gid
    ensures var c1 := PartRemoved(c, gid, todo);
      k in c1.terminal && c1.terminal[k] in c1.cells && PartRemoved(c, gid, todo - {k})
        == c1.(cells := c1.cells[c1.terminal[k] := Withdrawn(c1.cells[c1.terminal[k]])], terminal := c1.terminal - {k})
  {
    var c1 := PartRemoved(c, gid, todo);
    var c2 := PartRemoved(c, gid, todo - {k});
    assert c2.terminal == c1.terminal - {k};
    assert c2.cells == c1.cells[c1.terminal[k] := Withdrawn(c1.cells[c1.terminal[k]])];
  }

  lemma RemovalEnds<P>(c: Core<P>, gid: int)
    ensures PartRemoved(Settlement.CancelGroup(c, gid), gid, {}) == Settlement.RemoveGroup(c, gid)
  {
    var c1 := PartRemoved(Settlement.CancelGroup(c, gid), gid, {});
    assert c1.terminal == Settlement.RemoveGroup(c, gid).terminal;
    assert c1.cells == Settlement.RemoveGroup(c, gid).cells;
  }

  ghost function PartRecovered<P>(c: Core<P>, windows: (int, Gate) -> int, todo: set<Key>): Core<P> {
    c.(cells := map p | p in c.cells ::
         if Live(c, p) && c.cells[p].key !in todo then Refreshed(c, windows, p) else c.cells[p],
       timers := c.timers + NewTimers(c, windows, todo))
  }

  ghost function NewTimers<P>(c: Core<P>, windows: (int, Gate) -> int, todo: set<Key>): set<Timer<P>> {
    set p | p in c.cells && Live(c, p) && c.cells[p].key !in todo :: TimerOf(p, Refreshed(c, windows, p))
  }

  ghost function Refreshed<P>(c: Core<P>, windows: (int, Gate) -> int, p: P): (r: Pending)
    requires p in c.cells
    ensures r.armed.Some?
  {
    RecoveredPending(c.cells[p], c.now, windows(c.cells[p].key.gid, c.cells[p].gate))
  }

  lemma RecoveryStarts<P>(c: Core<P>, windows: (int, Gate) -> int)
    ensures PartRecovered(c, windows, c.pend.Keys) == c
  {
    assert PartRecovered(c, windows, c.pend.Keys).cells == c.cells;
    assert PartRecovered(c, windows, c.pend.Keys).timers == c.timers;
  }

  lemma SettlingIsSkipped<P>(c: Core<P>, windows: (int, Gate) -> int, todo: set<Key>, k: Key)
    requires KeysMatch(c) && k in todo && (k !in c.pend || c.cells[c.pend[k]].done)
    ensures PartRecovered(c, windows, todo - {k}) == PartRecovered(c, windows, todo)
  {
    assert PartRecovered(c, windows, todo - {k}).cells == PartRecovered(c, windows, todo).cells;
    assert PartRecovered(c, windows, todo - {k}).timers == PartRecovered(c, windows, todo).timers;
  }

  lemma SettlingIsKept<P>(c: Core<P>, windows: (int, Gate) -> int, todo: set<Key>, k: Key)
    requires KeysMatch(c) && k in todo
    ensures k in c.pend ==> PartRecovered(c, windows, todo).cells[c.pend[k]] == c.cells[c.pend[k]]
  {
  }

  lemma RecoveryContinues<P>(c: Core<P>, windows: (int, Gate) -> int, todo: set<Key>, k: Key)
    requires KeysMatch(c) && k in todo && k in c.pend && !c.cells[c.pend[k]].done
    ensures var c1 := PartRecovered(c, windows, todo);
      var p := c.pend[k];
      c1.cells[p] == c.cells[p] && PartRecovered(c, windows, todo - {k})
        == c1.(cells := c1.cells[p := Refreshed(c, windows, p)], timers := c1.timers + {TimerOf(p, Refreshed(c, windows, p))})
  {
    var c1 := PartRecovered(c, windows, todo);
    var c2 := PartRecovered(c, windows, todo - {k});
    var p := c.pend[k];
    assert c2.cells == c1.cells[p := Refreshed(c, windows, p)] by { CellsContinue(c, windows, todo, k); }
    assert c2.timers == c1.timers + {TimerOf(p, Refreshed(c, windows, p))} by { TimersContinue(c, windows, todo, k); }
  }

  lemma CellsContinue<P>(c: Core<P>, windows: (int, Gate) -> int, todo: set<Key>, k: Key)
    requires KeysMatch(c) && k in todo && k in c.pend && !c.cells[c.pend[k]].done
    ensures PartRecovered(c, windows, todo - {k}).cells
         == PartRecovered(c, windows, todo).cells[c.pend[k] := Refreshed(c, windows, c.pend[k])]
  {
  }

  lemma TimersContinue<P>(c: Core<P>, windows: (int, Gate) -> int, todo: set<Key>, k: Key)
    requires KeysMatch(c) && k in todo && k in c.pend && !c.cells[c.pend[k]].done
    ensures PartRecovered(c, windows, todo - {k}).timers
         == PartRecovered(c, windows, todo).timers + {TimerOf(c.pend[k], Refreshed(c, windows, c.pend[k]))}
  {
  }

  lemma RecoveryEnds<P>(c: Core<P>, windows: (int, Gate) -> int)
    requires !c.shuttingDown
    ensures PartRecovered(c, windows, {}) == Settlement.Recover(c, windows)
  {
    assert PartRecovered(c, windows, {}).cells == Settlement.Recover(c, windows).cells;
    assert PartRecovered(c, windows, {}).timers == Settlement.Recover(c, windows).timers;
  }
}

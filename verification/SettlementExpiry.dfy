/** What an expiry may do: which timer counts, the deferral cap, and the reasons that follow it. */
module SettlementExpiry {
  import opened Options
  import opened Settlement
  import opened SettlementRuns
  import opened SettlementTheorems
  import opened SettlementGrowth
  import opened SettlementTickets

  /** The timer armed last for the live pending the map holds under its key. */
  ghost predicate InForce<P>(c: Core<P>, t: Timer<P>) {
    && t.owner in c.cells && Current(c, t.key, t.owner)
    && c.cells[t.owner].armed.Some? && TimerOf(t.owner, c.cells[t.owner]) == t
  }

  ghost predicate Matches<P>(c: Core<P>, t: Timer<P>)
    requires KeysKnown(c)
  {
    t.key in c.pend && !c.cells[c.pend[t.key]].done && Accepts(ExpiryClaim(t.nonce, t.epoch), c.cells[c.pend[t.key]])
  }

  /** Nonce and epoch, which are all the source compares, identify the timer in force. */
  lemma MatchesOnlyInForce<P>(c: Core<P>, t: Timer<P>)
    requires CoreOK(c) && t in c.timers
    ensures Matches(c, t) <==> InForce(c, t)
  {
    assert t.owner in c.cells && TimerFits(t, c.cells[t.owner]);
    if Matches(c, t) {
      assert c.cells[c.pend[t.key]].key == t.key;
      assert c.pend[t.key] == t.owner;
    }
  }

  /** Every other timer of the same pending was armed earlier. */
  lemma InForceIsLast<P>(c: Core<P>, t: Timer<P>, u: Timer<P>)
    requires CoreOK(c) && t in c.timers && u in c.timers && InForce(c, t) && u.owner == t.owner && u != t
    ensures u.epoch < t.epoch
  {
    assert TimerFits(u, c.cells[u.owner]);
  }

  /** A timer that is not in force changes nothing, however it fires; one that is in force is
      checked, can be deferred, and is claimed unless the service is shutting down. */
  lemma OnlyTheTimerInForceActs<P>(s: System<P>, t: Timer<P>, capped: bool, window: int)
    requires Inv(s) && t in s.core.timers && Wired(s)
    ensures Enabled(s, Fire(t)) && !InForce(s.core, t) ==> Next(s, Fire(t)) == s
    ensures Enabled(s, Fire(t)) && InForce(s.core, t) ==>
      exists b :: Next(s, Fire(t)).callbacks == s.callbacks + {Callback(t, b)}
    ensures Callback(t, capped) in s.callbacks ==>
      (Next(s, Defer(Callback(t, capped), window)) != s <==> InForce(s.core, t))
    ensures Callback(t, capped) in s.callbacks ==>
      (Next(s, Expire(Callback(t, capped))) != s <==> InForce(s.core, t) && !s.core.shuttingDown)
  {
    MatchesOnlyInForce(s.core, t);
    if Enabled(s, Fire(t)) && InForce(s.core, t) {
      var check := DeferralCapState(s.core, t.key, t.nonce, t.epoch).1;
      assert Next(s, Fire(t)).callbacks == s.callbacks + {Callback(t, check.capped)};
    }
    if Callback(t, capped) in s.callbacks { DeferActs(s, Callback(t, capped), window); ExpireActs(s, Callback(t, capped)); }
  }

  lemma DeferActs<P>(s: System<P>, cb: Callback<P>, window: int)
    requires Wired(s) && cb in s.callbacks
    ensures Next(s, Defer(cb, window)) != s <==> Matches(s.core, cb.timer)
  {
    if Matches(s.core, cb.timer) {
      var p := s.core.pend[cb.timer.key];
      assert Next(s, Defer(cb, window)).core.cells[p].epoch == s.core.cells[p].epoch + 1;
    }
  }

  lemma ExpireActs<P>(s: System<P>, cb: Callback<P>)
    requires Wired(s) && cb in s.callbacks
    ensures Next(s, Expire(cb)) != s <==> Matches(s.core, cb.timer) && !s.core.shuttingDown
  {
    if Matches(s.core, cb.timer) && !s.core.shuttingDown {
      assert Next(s, Expire(cb)).next == s.next + 1;
    }
  }

  // ---- The deferral cap ----

  /** Until the cap is reached, no timer of a deferred verification is due later than 48 hours
      after its first deferral, or one nanosecond after it was armed. */
  lemma DeferralEnds<P>(now: Time, groups: set<int>, steps: seq<Step<P>>, s: System<P>, p: P)
    requires Runs(Empty<P>(now, groups), steps, s) && p in s.core.cells && !s.core.cells[p].done
    ensures var r := s.core.cells[p];
      && r.armed.Some? && TimerOf(p, r) in s.core.timers && InForce(s.core, TimerOf(p, r))
      && (r.deferredSince.Some? && !r.capReached ==>
            r.armed.value.due <= Max(r.deferredSince.value + MAX_DEFERRAL, r.armed.value.at + 1))
  {
    EmptyIsSafe<P>(now, groups);
    RunsKeepInv(Empty(now, groups), steps, s);
    assert WithinCap(s.core.cells[p]);
    assert Held(s.core, p);
  }

  /** The deferral cap has passed, or was taken up before. */
  predicate AtTheCap(r: Pending, now: Time) {
    r.capReached || (r.deferredSince.Some? && now >= r.deferredSince.value + MAX_DEFERRAL)
  }

  lemma FireShape<P>(s: System<P>, t: Timer<P>, s': System<P>)
    requires Stepped(s, Fire(t), s') && Matches(s.core, t)
    ensures var p := s.core.pend[t.key]; var r := s.core.cells[p]; var capped := AtTheCap(r, s.core.now);
      s' == s.(callbacks := s.callbacks + {Callback(t, capped)},
               core := if capped && !r.capReached then s.core.(cells := s.core.cells[p := r.(capReached := true)]) else s.core)
  {
  }

  /** An expiry that fires once the cap has passed, or after it was taken up, is remembered as capped,
      and no other is ... */
  lemma FiringAtTheCap<P>(s: System<P>, t: Timer<P>, s': System<P>)
    requires CoreOK(s.core) && Stepped(s, Fire(t), s') && InForce(s.core, t)
    ensures var capped := AtTheCap(s.core.cells[t.owner], s.core.now);
      && s'.callbacks == s.callbacks + {Callback(t, capped)}
      && s'.core.cells == s.core.cells[t.owner := s.core.cells[t.owner].(capReached := capped)]
  {
    MatchesOnlyInForce(s.core, t);
    FireShape(s, t, s');
    var r := s.core.cells[t.owner];
    assert r.capReached == AtTheCap(r, s.core.now) ==> r.(capReached := AtTheCap(r, s.core.now)) == r;
  }

  lemma ExpireShape<P>(s: System<P>, cb: Callback<P>, s': System<P>)
    requires Stepped(s, Expire(cb), s') && Matches(s.core, cb.timer) && !s.core.shuttingDown
    ensures var p := s.core.pend[cb.timer.key];
      s'.flights == s.flights[s.next := Flight(cb.timer.key, p,
        if s.core.cells[p].passing then Approving
        else Declining(if cb.capped then DeferralCap else cb.timer.armed.reason), Open)]
    ensures s'.next == s.next + 1
  {
  }

  /** ... and is settled with the strike-free cap reason, unless the applicant already passed and
      only the approval failed: those are approved. */
  lemma CappedExpiryIsStrikeFree<P>(s: System<P>, t: Timer<P>, s': System<P>)
    requires CoreOK(s.core) && t in s.core.timers && InForce(s.core, t)
    requires Stepped(s, Expire(Callback(t, true)), s') && !s.core.shuttingDown
    ensures s'.flights == s.flights[s.next :=
      Flight(t.key, t.owner, if s.core.cells[t.owner].passing then Approving else Declining(DeferralCap), Open)]
    ensures StrikeFree(s', s.next)
  {
    MatchesOnlyInForce(s.core, t);
    ExpireShape(s, Callback(t, true), s');
  }

  /** A settlement is in flight under the ticket, and its reason strikes nobody. */
  ghost predicate StrikeFree<P>(s: System<P>, ticket: nat) {
    && ticket < s.next && ticket in s.flights
    && (s.flights[ticket].action.Declining? ==> !StrikesUser(s.flights[ticket].action.reason))
  }

  /** Recording a settlement with a strike-free reason changes no strike, whatever Telegram said. */
  lemma StrikeFreeReasons<P>(s: System<P>, ticket: nat, s': System<P>)
    requires FlightsOK(s) && Stepped(s, PutStrike(ticket), s') && !StrikesUser(s.flights[ticket].action.reason)
    ensures s'.core == s.core
  {
  }

  /** A settlement that would not strike never will, however long it takes. */
  lemma NeverStrikes<P>(s: System<P>, steps: seq<Step<P>>, s1: System<P>, ticket: nat, s2: System<P>)
    requires StrikeFree(s, ticket) && Runs(s, steps, s1) && FlightsOK(s1) && Stepped(s1, PutStrike(ticket), s2)
    ensures s2.core == s1.core
  {
    RunKeepsTicket(s, steps, s1, ticket);
    StrikeFreeReasons(s1, ticket, s2);
  }

  /** An expiry that fires once the cap has passed, or after it was taken up, never leads to a strike,
      whatever happens while it is checked and afterwards: if it comes to a settlement at all, that
      one records nothing. */
  lemma CapNeverStrikes<P>(s: System<P>, t: Timer<P>, s0: System<P>, mid: seq<Step<P>>, s1: System<P>, s2: System<P>,
                           rest: seq<Step<P>>, s3: System<P>, s4: System<P>)
    requires Inv(s) && Stepped(s, Fire(t), s0) && InForce(s.core, t) && AtTheCap(s.core.cells[t.owner], s.core.now)
    requires Runs(s0, mid, s1) && Stepped(s1, Expire(Callback(t, true)), s2) && !s1.core.shuttingDown && InForce(s1.core, t)
    requires Runs(s2, rest, s3) && Stepped(s3, PutStrike(s1.next), s4)
    ensures s0.callbacks == s.callbacks + {Callback(t, true)}
    ensures s4.core == s3.core
  {
    FiringAtTheCap(s, t, s0);
    assert Inv(s1) by {
      SteppedKeepsInv(s, Fire(t), s0);
      RunsKeepInv(s0, mid, s1);
    }
    CappedExpiryIsStrikeFree(s1, t, s2);
    assert Inv(s3) by {
      SteppedKeepsInv(s1, Expire(Callback(t, true)), s2);
      RunsKeepInv(s2, rest, s3);
    }
    NeverStrikes(s2, rest, s3, s1.next, s4);
  }

  /** An applicant who passed, and whose admission only failed to go through, is never timed out:
      whatever happens in between, an expiry that claims them tries the admission again. */
  lemma PassedIsNeverTimedOut<P>(s: System<P>, steps: seq<Step<P>>, s1: System<P>, cb: Callback<P>, s2: System<P>)
    requires Inv(s) && Runs(s, steps, s1) && cb.timer.owner in s.core.cells && s.core.cells[cb.timer.owner].passing
    requires Stepped(s1, Expire(cb), s2) && InForce(s1.core, cb.timer) && !s1.core.shuttingDown
    ensures s2.flights == s1.flights[s1.next := Flight(cb.timer.key, cb.timer.owner, Approving, Open)]
  {
    assert Inv(s1) by { RunsKeepInv(s, steps, s1); }
    RunGrows(s, steps, s1, cb.timer.owner);
    MatchesOnlyInForce(s1.core, cb.timer);
    ExpireShape(s1, cb, s2);
  }
}

/** Failures on the applicant's record: when a settlement adds one, and when it must not. */
module SettlementStrikes {
  import opened Options
  import opened Settlement
  import opened SettlementRuns
  import opened SettlementTheorems
  import opened SettlementGrowth
  import opened SettlementTickets

  lemma StrikeShape<P>(s: System<P>, ticket: nat, s': System<P>)
    requires Stepped(s, PutStrike(ticket), s')
    ensures var f := s.flights[ticket]; var r := s.core.cells[f.owner];
      var due := f.stage.charge && !r.removed && f.key.gid in s.groups;
      var at := if r.times.failedAt.Some? then r.times.failedAt.value else s.core.now;
      s'.core.strikes ==
        if due then s.core.strikes + [Strike(f.owner, f.action.reason, f.stage.outcome, at)] else s.core.strikes
  {
  }

  /** The settlement's pending has not been taken back, and its group is still one of the bot's. */
  predicate Wanted<P(==)>(s: System<P>, ticket: nat) {
    && ticket in s.flights && s.flights[ticket].owner in s.core.cells
    && !s.core.cells[s.flights[ticket].owner].removed && s.flights[ticket].key.gid in s.groups
  }

  /** A decline that is the applicant's fault and confirmed (or a wrong answer), of somebody whose
      channel gate could be read. */
  predicate Charges<P(==)>(s: System<P>, ticket: nat, outcome: Outcome) {
    && ticket in s.flights && s.flights[ticket].action.Declining? && s.flights[ticket].owner in s.core.cells
    && StrikesFor(outcome, s.flights[ticket].action.reason)
    && !s.core.cells[s.flights[ticket].owner].channelUnreadable
  }

  lemma RecordedWhen<P>(s: System<P>, ticket: nat, s': System<P>)
    requires Stepped(s, PutStrike(ticket), s')
    ensures s'.core.strikes != s.core.strikes <==> s.flights[ticket].stage.charge && Wanted(s, ticket)
  {
    StrikeShape(s, ticket, s');
  }

  lemma WeighShape<P>(s: System<P>, ticket: nat, outcome: Outcome, s': System<P>)
    requires Stepped(s, Weigh(ticket, outcome), s')
    ensures s' == s.(flights := s.flights[ticket := WeighedFlight(s.core, s.flights[ticket], outcome)])
    ensures s'.flights[ticket].stage == Weighed(outcome, Charges(s, ticket, outcome))
  {
  }

  lemma WeighedStays<P>(s: System<P>, ticket: nat, mid: seq<Step<P>>, s': System<P>)
    requires ticket in s.flights && s.flights[ticket].stage.Weighed? && ticket < s.next
    requires Runs(s, mid, s') && ticket in s'.flights && s'.flights[ticket].stage.Weighed?
    ensures s'.flights[ticket] == s.flights[ticket]
  {
    RunKeepsTicket(s, mid, s', ticket);
  }

  lemma WeighedIsRecorded<P>(s: System<P>, ticket: nat, mid: seq<Step<P>>, s1: System<P>, s2: System<P>)
    requires ticket in s.flights && s.flights[ticket].stage.Weighed? && ticket < s.next
    requires Runs(s, mid, s1) && Stepped(s1, PutStrike(ticket), s2)
    ensures s2.core.strikes != s1.core.strikes <==> s.flights[ticket].stage.charge && Wanted(s1, ticket)
  {
    WeighedStays(s, ticket, mid, s1);
    RecordedWhen(s1, ticket, s2);
  }

  /** One settlement adds a strike exactly when the failure was the applicant's when it was weighed
      and the group still wants it when it is recorded, whatever has happened in between. */
  lemma StrikeExactlyWhen<P>(
    s: System<P>, ticket: nat, outcome: Outcome, s0: System<P>, mid: seq<Step<P>>, s1: System<P>, s2: System<P>)
    requires FlightsOK(s) && Stepped(s, Weigh(ticket, outcome), s0)
    requires Runs(s0, mid, s1) && Stepped(s1, PutStrike(ticket), s2)
    ensures s2.core.strikes != s1.core.strikes <==> Charges(s, ticket, outcome) && Wanted(s1, ticket)
  {
    WeighShape(s, ticket, outcome, s0);
    WeighedIsRecorded(s0, ticket, mid, s1, s2);
  }

  lemma ArrivalStrikesNobody<P>(c: Core<P>, p: P, r: Pending)
    requires KeysKnown(c)
    ensures StartPending(c, p, r).0.strikes == c.strikes
  {
    if StartPending(c, p, r).1.Started? { StartShape(c, p, r); }
  }

  lemma RetryStrikesNobody<P>(c: Core<P>, key: Key, p: P, reason: Reason)
    requires p in c.cells
    ensures Reopen(c, key, p, reason).0.strikes == c.strikes
  {
  }

  lemma PendingStepStrikesNobody<P>(s: System<P>, step: Step<P>)
    requires Wired(s) && Enabled(s, step) && PendingStep(step)
    ensures Next(s, step).core.strikes == s.core.strikes
  {
  }

  lemma CoreStepStrikesNobody<P>(s: System<P>, step: Step<P>)
    requires Wired(s) && Enabled(s, step) && CoreStep(step) && !PendingStep(step) && !step.Arrive?
    ensures Next(s, step).core.strikes == s.core.strikes
  {
  }

  lemma ClaimStrikesNobody<P>(s: System<P>, step: Step<P>)
    requires Wired(s) && Enabled(s, step)
    requires step.AdminApprove? || step.AdminBan? || step.Answer? || step.Expire?
    ensures Next(s, step).core.strikes == s.core.strikes
  {
  }

  lemma EndStrikesNobody<P>(s: System<P>, step: Step<P>)
    requires Wired(s) && Enabled(s, step)
    requires step.Fire? || step.Register? || step.Abandon? || step.Weigh? || step.Finish?
    ensures Next(s, step).core.strikes == s.core.strikes
  {
  }

  /** Every step but that one leaves the record alone. */
  lemma OnlyDeclinesStrike<P>(s: System<P>, step: Step<P>)
    requires Wired(s) && Enabled(s, step) && !step.PutStrike?
    ensures Next(s, step).core.strikes == s.core.strikes
  {
    if step.Arrive? { ArrivalStrikesNobody(s.core, step.p, step.pending); }
    else if step.Retry? { RetryStrikesNobody(s.core, s.flights[step.ticket].key, s.flights[step.ticket].owner, step.reason); }
    else if PendingStep(step) { PendingStepStrikesNobody(s, step); }
    else if CoreStep(step) { CoreStepStrikesNobody(s, step); }
    else if step.AdminApprove? || step.AdminBan? || step.Answer? || step.Expire? { ClaimStrikesNobody(s, step); }
    else { EndStrikesNobody(s, step); }
  }

  /** What a step appends: nothing, or one deserved strike for a pending nobody has removed. */
  lemma StepStrikes<P>(s: System<P>, step: Step<P>)
    requires FlightsOK(s) && Wired(s) && Enabled(s, step)
    ensures var old_ := s.core.strikes; var new_ := Next(s, step).core.strikes;
      new_ == old_ || exists strike ::
        new_ == old_ + [strike] && strike.owner in s.core.cells && !s.core.cells[strike.owner].removed
        && StrikesFor(strike.outcome, strike.reason)
  {
    if step.PutStrike? { StrikeShape(s, step.ticket, Next(s, step)); } else { OnlyDeclinesStrike(s, step); }
  }

  ghost predicate Deserved<P>(strikes: seq<Strike<P>>) {
    forall i | 0 <= i < |strikes| :: StrikesFor(strikes[i].outcome, strikes[i].reason)
  }

  lemma {:induction false} RunStrikesDeserved<P>(s: System<P>, steps: seq<Step<P>>, s': System<P>)
    requires Inv(s) && Runs(s, steps, s') && Deserved(s.core.strikes)
    ensures Deserved(s'.core.strikes)
    decreases |steps|
  {
    if steps != [] {
      StepStrikes(s, steps[0]);
      StepKeepsInv(s, steps[0]);
      RunStrikesDeserved(Next(s, steps[0]), steps[1..], s');
    }
  }

  /** Over any number of failed settlements, deferrals and recoveries, a pending adds at most one
      strike, and only for a confirmed timeout or a wrong answer. */
  lemma AtMostOneStrike<P>(now: Time, groups: set<int>, steps: seq<Step<P>>, s: System<P>)
    requires Runs(Empty<P>(now, groups), steps, s)
    ensures forall i, j | 0 <= i < j < |s.core.strikes| :: s.core.strikes[i].owner != s.core.strikes[j].owner
    ensures forall i | 0 <= i < |s.core.strikes| :: var strike := s.core.strikes[i];
      strike.reason == WrongAnswer || (strike.reason == Timeout && strike.outcome == Confirmed)
  {
    EmptyIsSafe<P>(now, groups);
    RunsKeepInv(Empty(now, groups), steps, s);
    RunStrikesDeserved(Empty(now, groups), steps, s);
  }

  // ---- Withdrawn groups ----

  /** The strikes of `strikes'` beyond the first `n` are none of `p`'s. */
  ghost predicate NoneSince<P>(strikes: seq<Strike<P>>, n: nat, p: P) {
    n <= |strikes| && forall i | n <= i < |strikes| :: strikes[i].owner != p
  }

  lemma RemovedStep<P>(s: System<P>, step: Step<P>, p: P, n: nat)
    requires Inv(s) && Wired(s) && Enabled(s, step)
    requires p in s.core.cells && s.core.cells[p].removed && NoneSince(s.core.strikes, n, p)
    ensures var c' := Next(s, step).core;
      p in c'.cells && c'.cells[p].removed && NoneSince(c'.strikes, n, p)
  {
    assert Evolve(s.core, Next(s, step).core) by { StepEvolves(s, step); }
    StepStrikes(s, step);
  }

  /** A pending marked removed is never struck again, however its settlement goes on. */
  lemma {:induction false} RemovedIsNeverStruck<P>(s: System<P>, steps: seq<Step<P>>, s': System<P>, p: P, n: nat)
    requires Inv(s) && Runs(s, steps, s') && p in s.core.cells && s.core.cells[p].removed && NoneSince(s.core.strikes, n, p)
    ensures NoneSince(s'.core.strikes, n, p)
    decreases |steps|
  {
    if steps != [] {
      var s1 := Next(s, steps[0]);
      RemovedStep(s, steps[0], p, n);
      assert Inv(s1) by { StepKeepsInv(s, steps[0]); }
      RemovedIsNeverStruck(s1, steps[1..], s', p, n);
    }
  }

  lemma WithdrawalMarks<P>(s: System<P>, step: Step<P>, s1: System<P>, p: P)
    requires Stepped(s, step, s1) && p in s.core.cells && Withdrawing(s.core, step, p)
    ensures s1.core.strikes == s.core.strikes && p in s1.core.cells && s1.core.cells[p].removed
  {
  }

  /** The step takes the pending back: its group is unregistered while it is held or being settled,
      or has verification switched off while it is held. */
  predicate Withdrawing<P(==)>(c: Core<P>, step: Step<P>, p: P)
    requires p in c.cells
  {
    || (step == Unregister(c.cells[p].key.gid) && (Held(c, p) || InTerminal(c, p)))
    || (step == Disable(c.cells[p].key.gid) && Held(c, p))
  }

  /** Unregistering a group protects everyone whose verification it holds or is settling;
      switching verification off protects everyone whose verification it holds. */
  lemma WithdrawnIsNeverStruck<P>(s: System<P>, step: Step<P>, s1: System<P>, steps: seq<Step<P>>, s': System<P>, p: P)
    requires Inv(s) && p in s.core.cells && Withdrawing(s.core, step, p)
    requires Stepped(s, step, s1) && Runs(s1, steps, s')
    ensures NoneSince(s'.core.strikes, |s.core.strikes|, p)
  {
    assert Inv(s1) by { SteppedKeepsInv(s, step, s1); }
    WithdrawalMarks(s, step, s1, p);
    RemovedIsNeverStruck(s1, steps, s', p, |s.core.strikes|);
  }

  lemma DisabledFlag<P>(c: Core<P>, p: P, gid: int)
    requires p in c.cells && c.cells[p].key.gid == gid
    ensures var c' := CancelGroup(c, gid);
      && p in c'.cells && c'.strikes == c.strikes && c'.cells[p].channelUnreadable == c.cells[p].channelUnreadable
      && (c'.cells[p].removed <==> c.cells[p].removed || Held(c, p))
  {
  }

  lemma DisableShape<P>(s: System<P>, gid: int, s': System<P>)
    requires Stepped(s, Disable(gid), s')
    ensures s' == s.(core := CancelGroup(s.core, gid))
  {
  }

  /** What is left of a decline up to its record. */
  function ToRecord<P>(f: Flight<P>, ticket: nat, outcome: Outcome): seq<Step<P>> {
    if f.stage.Open? then [Weigh(ticket, outcome), PutStrike(ticket)] else [PutStrike(ticket)]
  }

  /** The failure will count, unless the group is withdrawn first. */
  ghost predicate Counts<P>(s: System<P>, ticket: nat, outcome: Outcome) {
    ticket in s.flights && var f := s.flights[ticket];
    && f.action.Declining? && Wanted(s, ticket)
    && (f.stage.Open? ==> Charges(s, ticket, outcome)) && (f.stage.Weighed? ==> f.stage.charge) && !f.stage.Recorded?
  }

  lemma CountsWhenWeighed<P>(s: System<P>, ticket: nat, s': System<P>)
    requires Runs(s, [PutStrike(ticket)], s') && ticket in s.flights && s.flights[ticket].stage.Weighed?
    ensures s'.core.strikes != s.core.strikes <==> Counts(s, ticket, Confirmed)
  {
    var strike: Step<P> := PutStrike(ticket);
    assert [strike] == [strike] + [];
    var s1 := RunsFirst(s, strike, [], s');
    RecordedWhen(s, ticket, s1);
  }

  lemma CountsUntilRecorded<P>(s: System<P>, ticket: nat, outcome: Outcome, s': System<P>)
    requires ticket in s.flights && s.flights[ticket].action.Declining? && !s.flights[ticket].stage.Recorded?
    requires Runs(s, ToRecord(s.flights[ticket], ticket, outcome), s')
    ensures s'.core.strikes != s.core.strikes <==> Counts(s, ticket, outcome)
  {
    if s.flights[ticket].stage.Open? {
      var weigh: Step<P> := Weigh(ticket, outcome);
      assert [weigh, PutStrike(ticket)] == [weigh] + [PutStrike(ticket)];
      var s1 := RunsFirst(s, weigh, [PutStrike(ticket)], s');
      WeighShape(s, ticket, outcome, s1);
      CountsWhenWeighed(s1, ticket, s');
    } else {
      CountsWhenWeighed(s, ticket, s');
    }
  }

  /** Switching verification off abandons what the map holds, and only that. A failure whose
      settlement is still in flight is struck all the same when its pending is no longer in the
      map, and exactly then. */
  lemma DisableProtectsWhatTheMapHolds<P>(s: System<P>, ticket: nat, outcome: Outcome, s': System<P>)
    requires Inv(s) && Counts(s, ticket, outcome)
    requires Runs(s, [Disable(s.flights[ticket].key.gid)] + ToRecord(s.flights[ticket], ticket, outcome), s')
    ensures s'.core.strikes != s.core.strikes <==> !Held(s.core, s.flights[ticket].owner)
  {
    var f := s.flights[ticket];
    var s1 := RunsFirst(s, Disable(f.key.gid), ToRecord(f, ticket, outcome), s');
    DisableShape(s, f.key.gid, s1);
    DisabledFlag(s.core, f.owner, f.key.gid);
    CountsUntilRecorded(s1, ticket, outcome, s');
  }
}

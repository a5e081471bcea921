/** Concrete runs, from the start of the service, in which a promise of the source's comments does
    not hold. */
module SettlementExamples {
  import opened Options
  import opened Settlement
  import opened SettlementRuns
  import opened SettlementTheorems

  const APPLICANT := Key(1, 7)
  const WINDOW := 300_000_000_000 // 5 min
  const LATER := 40_000_000_000 // 40 s, past the window for duplicate arrivals

  const EMPTY: System<nat> := Empty<nat>(0, {1})

  /** A join request as it arrives: nothing posted yet, nothing spent. */
  function Arrival(nonce: string): Pending {
    Pending(APPLICANT, nonce, Request, false, Screen(0, 0, false, false, "", [], false, false, false), 0, {},
            Times(0, None, None, None), None, false, 0, None, 0, false, false, false)
  }

  function Started(nonce: string): Pending {
    ArmedPending(Starting(Arrival(nonce), None, 0), 0, PENDING_DELIVERY_TIMEOUT, ChallengePostFailed)
  }

  /** One challenge being delivered. */
  function Waiting(): System<nat> {
    var r := Started("a");
    System(Core(0, map[APPLICANT := 0], map[], map[0 := r], {TimerOf(0, r)}, [], false), {1}, map[], 0, {})
  }

  lemma WaitingIsReached()
    ensures Stepped(EMPTY, Arrive(0, Arrival("a")), Waiting())
  {
    assert GroupKeys(EMPTY.core.pend, 1) == {};
    assert Next(EMPTY, Arrive(0, Arrival("a"))).core == Waiting().core;
  }

  // ---- A button ----

  /** Its message, number 5, posted in the group. */
  function Posted(): Pending {
    ArmedPending(Delivered(Started("a"), 5, 0, true, WINDOW), 0, WINDOW, Timeout)
  }

  /** Forty seconds after that. */
  function Shown(): System<nat> {
    System(Core(LATER, map[APPLICANT := 0], map[], map[0 := Posted()],
                {TimerOf(0, Started("a")), TimerOf(0, Posted())}, [], false), {1}, map[], 0, {})
  }

  lemma PostedIsReached() returns (s: System<nat>)
    ensures Stepped(Waiting(), Deliver(0, 5, 0, true, WINDOW), s)
    ensures s == Shown().(core := Shown().core.(now := 0))
  {
    s := Next(Waiting(), Deliver(0, 5, 0, true, WINDOW));
    assert s.core.cells == Shown().core.cells && s.core.timers == Shown().core.timers;
  }

  lemma ShownIsReached()
    ensures Stepped(Shown().(core := Shown().core.(now := 0)), Tick(LATER), Shown())
  {
  }

  /** The first challenge is done with, the second waits, and nothing of it is on screen. */
  predicate SecondWaits(c: Core<nat>) {
    && c.pend == map[APPLICANT := 1] && c.terminal == map[] && c.cells.Keys == {0, 1}
    && c.cells[0] == Posted().(done := true)
    && c.cells[1].key == APPLICANT && c.cells[1].nonce == "b" && !c.cells[1].done && !OnScreen(c.cells[1])
  }

  lemma SecondStarts()
    ensures SecondWaits(StartPending(Shown().core, 1, Arrival("b")).0)
  {
  }

  lemma AppliesAgain() returns (s: System<nat>)
    ensures Stepped(Shown(), Arrive(1, Arrival("b")), s)
    ensures SecondWaits(s.core) && s.flights == map[] && s.next == 0
  {
    SecondStarts();
    s := Next(Shown(), Arrive(1, Arrival("b")));
  }

  /** It is the second one that is being approved. */
  predicate SecondSettled(s: System<nat>) {
    && s.core.cells.Keys == {0, 1} && s.flights == map[0 := Flight(APPLICANT, 1, Approving, Open)]
    && s.core.cells[0].nonce == "a" && s.core.cells[0].screen.groupMsg == 5
    && s.core.cells[1].nonce == "b" && !OnScreen(s.core.cells[1])
  }

  lemma Approved(s: System<nat>) returns (s': System<nat>)
    requires SecondWaits(s.core) && s.flights == map[] && s.next == 0
    ensures Stepped(s, AdminApprove(APPLICANT), s') && SecondSettled(s')
  {
    s' := Next(s, AdminApprove(APPLICANT));
  }

  const BUTTON: seq<Step<nat>> := [
    Arrive(0, Arrival("a")), Deliver(0, 5, 0, true, WINDOW), Tick(LATER), Arrive(1, Arrival("b")), AdminApprove(APPLICANT)]

  lemma ShownInRun()
    ensures Runs(EMPTY, BUTTON[..3], Shown())
  {
    WaitingIsReached();
    RunsUpTo(EMPTY, BUTTON, 0, EMPTY, Waiting());
    var s := PostedIsReached();
    RunsUpTo(EMPTY, BUTTON, 1, Waiting(), s);
    ShownIsReached();
    RunsUpTo(EMPTY, BUTTON, 2, s, Shown());
  }

  lemma SecondInRun() returns (s: System<nat>)
    ensures Runs(EMPTY, BUTTON[..4], s)
    ensures SecondWaits(s.core) && s.flights == map[] && s.next == 0
  {
    ShownInRun();
    s := AppliesAgain();
    RunsUpTo(EMPTY, BUTTON, 3, Shown(), s);
  }

  /** A button posted for the first challenge settles the second, of which nothing is on screen yet:
      pressed and checked while the first was shown, claimed after the applicant applied again. */
  lemma ButtonCanSettleAnother() returns (s: System<nat>)
    ensures Runs(EMPTY, BUTTON, s) && SecondSettled(s)
  {
    var s1 := SecondInRun();
    s := Approved(s1);
    RunsUpTo(EMPTY, BUTTON, 4, s1, s);
    assert BUTTON[..5] == BUTTON;
  }

  // ---- A wrong answer ----

  /** A wrong answer being settled, whose pending the recovery has dropped meanwhile because it
      found the applicant already inside. */
  function Orphaned(): System<nat> {
    var r := Started("a");
    var done := r.(done := true, times := r.times.(failedAt := Some(0)));
    System(Core(0, map[], map[], map[0 := done], {TimerOf(0, r)}, [], false), {1},
           map[0 := Flight(APPLICANT, 0, Declining(WrongAnswer), Open)], 1, {})
  }

  lemma OrphanedIsReached() returns (s: System<nat>)
    ensures Stepped(Waiting(), Answer(APPLICANT, "a", false), s) && Stepped(s, RecoveryDrop(0), Orphaned())
  {
    s := Next(Waiting(), Answer(APPLICANT, "a", false));
    assert s.flights == Orphaned().flights;
    var s' := Next(s, RecoveryDrop(0));
    assert s'.core.cells == Orphaned().core.cells && s'.core.pend == map[] && s'.core.terminal == map[];
  }

  /** The wrong answer is still being settled, and nothing is recorded yet. */
  predicate StillSettling(s: System<nat>) {
    && s.flights == Orphaned().flights && s.groups == {1} && s.core.cells == Orphaned().core.cells
    && s.core.pend == map[] && s.core.terminal == map[] && s.core.strikes == []
  }

  lemma SwitchedOff() returns (s: System<nat>)
    ensures Stepped(Orphaned(), Disable(1), s) && StillSettling(s)
  {
    s := Next(Orphaned(), Disable(1));
  }

  lemma StrikeFollows(s: System<nat>) returns (s1: System<nat>, s2: System<nat>)
    requires StillSettling(s)
    ensures Stepped(s, Weigh(0, Confirmed), s1) && Stepped(s1, PutStrike(0), s2)
    ensures |s2.core.strikes| == 1 && s2.core.strikes[0].owner == 0
  {
    s1 := Next(s, Weigh(0, Confirmed));
    s2 := Next(s1, PutStrike(0));
  }

  const SWITCH_OFF: seq<Step<nat>> := [
    Arrive(0, Arrival("a")), Answer(APPLICANT, "a", false), RecoveryDrop(0), Disable(1), Weigh(0, Confirmed), PutStrike(0)]

  lemma OrphanedInRun()
    ensures Runs(EMPTY, SWITCH_OFF[..3], Orphaned())
  {
    WaitingIsReached();
    RunsUpTo(EMPTY, SWITCH_OFF, 0, EMPTY, Waiting());
    var s := OrphanedIsReached();
    RunsUpTo(EMPTY, SWITCH_OFF, 1, Waiting(), s);
    RunsUpTo(EMPTY, SWITCH_OFF, 2, s, Orphaned());
  }

  lemma SwitchedOffInRun() returns (s: System<nat>)
    ensures Runs(EMPTY, SWITCH_OFF[..4], s) && StillSettling(s)
  {
    OrphanedInRun();
    s := SwitchedOff();
    RunsUpTo(EMPTY, SWITCH_OFF, 3, Orphaned(), s);
  }

  /** Verification is then switched off for the group, and the failure is still recorded. */
  lemma SwitchedOffAndStillStruck() returns (s: System<nat>)
    ensures Runs(EMPTY, SWITCH_OFF, s)
    ensures |s.core.strikes| == 1 && s.core.strikes[0].owner == 0
  {
    var s1 := SwitchedOffInRun();
    var s2;
    s2, s := StrikeFollows(s1);
    RunsUpTo(EMPTY, SWITCH_OFF, 4, s1, s2);
    RunsUpTo(EMPTY, SWITCH_OFF, 5, s2, s);
    assert SWITCH_OFF[..6] == SWITCH_OFF;
  }

  // ---- A group that goes ----

  const GONE: System<nat> := EMPTY.(groups := {})

  lemma GoneIsReached()
    ensures Stepped(EMPTY, Register(1, false), GONE) && Stepped(GONE, Unregister(1), GONE)
  {
    var s := Next(EMPTY, Register(1, false));
    assert s.groups == {};
    var s' := Next(GONE, Unregister(1));
    assert s'.core.pend == map[] && s'.core.terminal == map[] && s'.core.cells == map[];
  }

  lemma ArrivesAfterwards() returns (s: System<nat>)
    ensures Stepped(GONE, Arrive(0, Arrival("a")), s) && s == Waiting().(groups := {})
  {
    assert GroupKeys(GONE.core.pend, 1) == {};
    s := Next(GONE, Arrive(0, Arrival("a")));
    assert s.core == Waiting().core;
  }

  const TOO_LATE: seq<Step<nat>> := [Register(1, false), Unregister(1), Arrive(0, Arrival("a"))]

  /** A join request that was accepted for verification while its group was still one of the bot's is
      put in the map after the group has been removed with everything in it. */
  lemma ArrivalOutlivesItsGroup()
    ensures Runs(EMPTY, TOO_LATE, Waiting().(groups := {}))
  {
    GoneIsReached();
    RunsUpTo(EMPTY, TOO_LATE, 0, EMPTY, GONE);
    RunsUpTo(EMPTY, TOO_LATE, 1, GONE, GONE);
    var s := ArrivesAfterwards();
    RunsUpTo(EMPTY, TOO_LATE, 2, GONE, s);
    assert TOO_LATE[..3] == TOO_LATE;
  }
}

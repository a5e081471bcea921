/** How pendings are written to disk and read back. The record leaves out what a message on screen
    already implies, and what only this process needs. */
module Persistence {
  import opened Options
  import opened Settlement
  import opened SettlementRuns
  import opened SettlementScreens
  import opened SettlementTheorems

  const SECOND := 1_000_000_000
  const RECOVERY_WINDOW: int := 86_400_000_000_000 // 24 h

  datatype Mode = Unset | Quiz | Kernel

  /** The quiz put to the applicant, and the mute that holds a member back. */
  datatype Quizzed = Quizzed(options: seq<string>, correct: int)
  datatype Hold = Hold(invited: bool, held: bool, until: int)

  /** A pending with everything else that is stored of it. */
  datatype Entry = Entry(core: Pending, quiz: Quizzed, hold: Hold, name: string, saidPending: bool)

  /** `pendingRec`. Times are whole seconds; 0 stands for no deferral. */
  datatype Record = Record(
    key: Key, groupMsg: int, privateMsg: int, delivered: bool, mode: Mode,
    fallback: seq<string>, fallbackPending: bool, prompted: bool, tries: nat, hinted: bool,
    sampleBounced: bool, noLinuxReminded: bool, osClarified: bool,
    question: string, quiz: Quizzed, nonce: string, name: string,
    deadline: int, deferredSince: int, capReached: bool, settleFailures: nat, saidPending: bool,
    gate: Gate, hold: Hold, passing: bool, channelUnreadable: bool)

  /** `time.Unix` there and back: the start of the second. */
  function Seconds(t: Time): int { t / SECOND }
  function FromSeconds(s: int): Time { s * SECOND }

  /** What `save` writes for one pending. */
  function Stored(e: Entry): Record {
    var r, v := e.core, e.core.screen;
    Record(r.key, v.groupMsg, v.privateMsg, v.delivered && v.groupMsg == 0 && v.privateMsg == 0,
           if v.kernel then Kernel else Quiz, v.fallback, v.fallbackPending, v.prompted, r.tries, v.hinted,
           SampleBounced in r.spent, NoLinuxReminded in r.spent, OSClarified in r.spent,
           v.question, e.quiz, r.nonce, e.name,
           Seconds(r.times.deadline), if r.deferredSince.Some? then Seconds(r.deferredSince.value) else 0,
           r.capReached, r.settleFailures, e.saidPending, r.gate, e.hold, r.passing, r.channelUnreadable)
  }

  predicate Winnable(q: Quizzed) { |q.options| >= 2 && 0 <= q.correct < |q.options| }

  function Spent(m: Record): set<FreeReply> {
    (if m.sampleBounced then {SampleBounced} else {})
    + (if m.noLinuxReminded then {NoLinuxReminded} else {})
    + (if m.osClarified then {OSClarified} else {})
  }

  function StoredScreen(m: Record): Screen {
    Screen(m.groupMsg, m.privateMsg, m.delivered, m.mode == Kernel, m.question, m.fallback, m.fallbackPending, m.hinted, m.prompted)
  }

  /** The pending `load` builds from a record, before its deadline is looked at; a quiz nobody could
      win is not restored. */
  function Loaded(m: Record): Option<Entry> {
    if m.mode != Kernel && !Winnable(m.quiz) then None
    else
      Some(Entry(
        Pending(m.key, m.nonce, m.gate, m.passing,
          AsLoaded(StoredScreen(m), m.delivered),
          m.tries, Spent(m), Times(FromSeconds(m.deadline), None, None, None),
          if m.deferredSince != 0 then Some(FromSeconds(m.deferredSince)) else None,
          m.capReached, 0, None, m.settleFailures, m.channelUnreadable, false, false),
        m.quiz, m.hold, m.name, m.saidPending))
  }

  // ---- Round trips ----

  /** A time kept to the second. */
  predicate Kept(t: Time, t': Time) { t' <= t < t' + 1_000_000_000 && t' % 1_000_000_000 == 0 }

  lemma SecondsKeep(t: Time)
    ensures Kept(t, FromSeconds(Seconds(t)))
    ensures Seconds(FromSeconds(Seconds(t))) == Seconds(t)
  {
  }

  /** Everything that grading and settling look at, but for times and the screen. */
  predicate SameCase(r: Pending, r': Pending) {
    && r'.key == r.key && r'.nonce == r.nonce && r'.gate == r.gate && r'.passing == r.passing
    && r'.tries == r.tries && r'.spent == r.spent && r'.capReached == r.capReached
    && r'.settleFailures == r.settleFailures && r'.channelUnreadable == r.channelUnreadable
  }

  /** A deferral is lost when it began in the first second of 1970, and only then. */
  predicate DeferralKept(since: Option<Time>, since': Option<Time>) {
    match since
    case None => since'.None?
    case Some(t) => if 0 <= t < 1_000_000_000 then since'.None? else since'.Some? && Kept(t, since'.value)
  }

  lemma SpentIsStored(e: Entry)
    ensures Spent(Stored(e)) == e.core.spent
  {
    forall f: FreeReply | f in e.core.spent ensures f in Spent(Stored(e)) {
      assert f == SampleBounced || f == NoLinuxReminded || f == OSClarified;
    }
  }

  /** A stored pending comes back with its case, to the second and unclaimed; the screen comes back
      exactly when a message on it means delivered, a deferral exactly when it did not start in the
      first second of 1970. */
  lemma LoadUndoesSave(e: Entry)
    requires e.core.screen.kernel || Winnable(e.quiz)
    ensures var back := Loaded(Stored(e));
      && back.Some? && SameCase(e.core, back.value.core)
      && back.value == e.(core := back.value.core)
      && !back.value.core.done && !back.value.core.removed
      && Kept(e.core.times.deadline, back.value.core.times.deadline)
      && (back.value.core.screen == e.core.screen <==> Shown(e.core))
      && DeferralKept(e.core.deferredSince, back.value.core.deferredSince)
  {
    SpentIsStored(e);
    SecondsKeep(e.core.times.deadline);
    if e.core.deferredSince.Some? { SecondsKeep(e.core.deferredSince.value); }
  }

  /** Whatever a record says, the pending built from it can be restored by a step of a run. */
  lemma LoadedIsReadBack(m: Record)
    requires Loaded(m).Some?
    ensures ReadBack(Loaded(m).value.core)
  {
    assert Loaded(m).value.core.screen == AsLoaded(StoredScreen(m), m.delivered);
  }

  /** A record from before the kernel mode names none, and is a quiz. */
  lemma OldRecordsAreQuizzes(m: Record)
    ensures m.mode == Unset ==> Loaded(m) == Loaded(m.(mode := Quiz))
    ensures Loaded(m).Some? <==> m.mode == Kernel || (|m.quiz.options| >= 2 && 0 <= m.quiz.correct < |m.quiz.options|)
    ensures Loaded(m).Some? ==> (Loaded(m).value.core.screen.kernel <==> m.mode == Kernel)
  {
  }

  /** A pending that cannot be won is the only one lost. */
  lemma LostExactlyWhen(e: Entry)
    ensures Loaded(Stored(e)).None? <==>
            !e.core.screen.kernel && (|e.quiz.options| <= 1 || e.quiz.correct < 0 || e.quiz.correct >= |e.quiz.options|)
  {
  }

  /** Reading and writing back gives the same record exactly when it names its mode and does not
      repeat what its message ids say; so one that this program wrote never changes. */
  lemma SaveUndoesLoad(m: Record)
    requires Loaded(m).Some?
    ensures Stored(Loaded(m).value) == m <==> m.mode != Unset && (m.delivered ==> m.groupMsg == 0 && m.privateMsg == 0)
  {
    StoredAgain(m);
  }

  lemma SecondsAreKept(seconds: int)
    ensures Seconds(FromSeconds(seconds)) == seconds
  {
  }

  lemma StoredAgain(m: Record)
    requires Loaded(m).Some?
    ensures Stored(Loaded(m).value) == m.(mode := if m.mode == Kernel then Kernel else Quiz,
                                          delivered := m.delivered && m.groupMsg == 0 && m.privateMsg == 0)
  {
    SecondsAreKept(m.deadline);
    SecondsAreKept(m.deferredSince);
  }

  lemma SavedTwiceIsSavedOnce(e: Entry)
    requires Loaded(Stored(e)).Some?
    ensures Stored(Loaded(Stored(e)).value) == Stored(e)
  {
    SaveUndoesLoad(Stored(e));
  }

  /** Whatever a run did to a pending before it was saved, unless its quiz cannot be won, it comes
      back with its case, its screen and, to the second, its times, and fit to be restored. */
  lemma ReachablePendingsComeBack<P>(now: Time, groups: set<int>, steps: seq<Step<P>>, s: System<P>, p: P, e: Entry)
    requires Runs(Empty<P>(now, groups), steps, s) && AllSourced(steps)
    requires p in s.core.cells && Held(s.core, p) && e.core == s.core.cells[p]
    requires e.core.screen.kernel || Winnable(e.quiz)
    ensures var back := Loaded(Stored(e));
      && back.Some? && SameCase(e.core, back.value.core) && back.value.core.screen == e.core.screen
      && Kept(e.core.times.deadline, back.value.core.times.deadline)
      && DeferralKept(e.core.deferredSince, back.value.core.deferredSince)
      && Unused(back.value.core) && ReadBack(back.value.core)
  {
    OnScreenIsDelivered(now, groups, steps, s, p);
    LoadUndoesSave(e);
    LoadedIsReadBack(Stored(e));
    EmptyIsSafe<P>(now, groups);
    RunsKeepInv(Empty(now, groups), steps, s);
  }

  // ---- Coming back after a while ----

  /** The window and the reason a restored pending gets. */
  datatype Resumption = Resumption(entry: Pending, delay: int, reason: Reason)

  /** The second half of `load`: the cap is taken up if it passed meanwhile, a long outage gives a
      fresh window, and a lapse during a short restart a grace period. */
  function Resumed(r: Pending, now: Time, longOutage: bool, window: int): Resumption {
    var delay := r.times.deadline - now;
    var capped := r.capReached || (r.deferredSince.Some? && now >= r.deferredSince.value + MAX_DEFERRAL);
    var r1 := r.(capReached := capped);
    if capped then
      if delay <= 0 || delay > NO_FAULT_GRACE then Resumption(Due(r1, now + NO_FAULT_GRACE), NO_FAULT_GRACE, DeferralCap)
      else Resumption(r1, delay, DeferralCap)
    else if longOutage then
      var again := Max(window, RECOVERY_WINDOW);
      Resumption(r1.(times := r1.times.(deadline := now + again, lastRenotify := Some(now))), again, Recovered)
    else if delay <= 0 then Resumption(Due(r1, now + NO_FAULT_GRACE), NO_FAULT_GRACE, RestartLapsed)
    else Resumption(r1, Max(delay, SECOND), ExpiryReason(r.screen.delivered && !r.screen.fallbackPending))
  }

  /** A restored window can strike exactly when the applicant had a delivered question, was still in
      time, no long outage ate into that time, and the deferral cap had not passed. */
  lemma RestoredStrikesExactlyWhen(r: Pending, now: Time, longOutage: bool, window: int)
    ensures StrikesUser(Resumed(r, now, longOutage, window).reason) <==>
            && r.screen.delivered && !r.screen.fallbackPending && now < r.times.deadline && !longOutage
            && !r.capReached && (r.deferredSince.None? || now < r.deferredSince.value + MAX_DEFERRAL)
    ensures Resumed(r, now, longOutage, window).delay > 0
  {
  }

  /** The window by the numbers: past the deferral cap at most a minute; after a long outage what the
      group gives and at least a day; after a lapse a minute; otherwise what was left and at least a
      second, for a reason that delivery decides. Nothing else of the pending changes. */
  lemma RestoredWindow(r: Pending, now: Time, longOutage: bool, window: int)
    ensures var (back, left) := (Resumed(r, now, longOutage, window), r.times.deadline - now);
      var capped := r.capReached || (r.deferredSince.Some? && now >= r.deferredSince.value + 172_800_000_000_000);
      && back.entry == r.(capReached := capped, times := back.entry.times)
      && back.entry.times.startedAt == r.times.startedAt
      && (capped ==> back.reason == DeferralCap && back.delay == if 0 < left <= 60_000_000_000 then left else 60_000_000_000)
      && (capped || left <= 0 || longOutage ==> back.entry.times.deadline == now + back.delay)
      && (!capped && longOutage ==>
            && back.reason == Recovered && back.delay == Max(window, 86_400_000_000_000)
            && back.entry.times.lastRenotify == Some(now))
      && (!capped && !longOutage && left <= 0 ==> back.reason == RestartLapsed && back.delay == 60_000_000_000)
      && (!capped && !longOutage && left > 0 ==>
            && back.entry.times == r.times && back.delay == Max(left, 1_000_000_000)
            && back.reason == if r.screen.delivered && !r.screen.fallbackPending then Timeout else ChallengePostFailed)
  {
  }

  /** The timer armed for it fires no earlier than any deadline it still had, and after the cap
      within the grace period. */
  lemma RestoredInTime(r: Pending, now: Time, longOutage: bool, window: int)
    ensures var (resumed, cap) := (Resumed(r, now, longOutage, window), r.deferredSince);
      var armed := ArmedPending(resumed.entry, now, resumed.delay, resumed.reason).armed.value;
      && (armed.reason == DeferralCap <==> r.capReached || (cap.Some? && now >= cap.value + MAX_DEFERRAL))
      && (armed.reason == DeferralCap ==> now < armed.due <= now + NO_FAULT_GRACE)
      && (armed.reason != DeferralCap && cap.Some? ==> armed.due <= cap.value + MAX_DEFERRAL)
      && (armed.reason != DeferralCap && cap.None? ==> r.times.deadline <= armed.due || longOutage)
  {
  }

  /** A pending read back, with the window it gets, is one a run may go on with, unless its settlement had
      failed for good: where its key is free and its nonce fresh, the restoring step can be taken. */
  lemma RestoringIsAStep<P>(s: System<P>, p: P, m: Record, longOutage: bool, window: int)
    requires Wired(s) && p !in s.core.cells && Loaded(m).Some? && m.key !in s.core.pend && m.key !in s.core.terminal
    requires forall q | q in s.core.cells && s.core.cells[q].key == m.key :: s.core.cells[q].nonce != m.nonce
    ensures var back := Resumed(Loaded(m).value.core, s.core.now, longOutage, window);
      Enabled(s, Load(p, back.entry, back.delay, back.reason)) <==> m.settleFailures < 10
  {
    var r := Loaded(m).value.core;
    RestoredWindow(r, s.core.now, longOutage, window);
    assert r.key == m.key && r.nonce == m.nonce && r.settleFailures == m.settleFailures;
  }
}

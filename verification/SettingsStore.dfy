/** The revisioned settings store: one state, one published snapshot, three kinds of commit. */
module SettingsStore {
  import opened Options
  import opened Settings
  import opened Registrations

  datatype GroupBaseline = GroupBaseline(gid: int, values: Overrides)
  datatype GlobalBaseline = GlobalBaseline(rich: bool, perMinute: int, adminLog: int)
  datatype GlobalOverrides = GlobalOverrides(rich: Option<bool>, perMinute: Option<int>, adminLog: Option<int>)

  /** The configured groups, and what a group registered at run time starts from. */
  datatype Baseline = Baseline(groups: seq<GroupBaseline>, defaults: Overrides, global: GlobalBaseline)

  datatype GroupRecord = GroupRecord(revision: nat, overrides: Overrides)

  datatype State = State(
    registration: Registration, records: map<int, GroupRecord>, globalRevision: nat, global: GlobalOverrides)

  function Configured(b: Baseline): set<int> { set i | 0 <= i < |b.groups| :: b.groups[i].gid }

  /** What a group follows where it has no override. */
  function BaseOf(groups: seq<GroupBaseline>, defaults: Overrides, gid: int): Overrides {
    if groups == [] then defaults else if groups[0].gid == gid then groups[0].values else BaseOf(groups[1..], defaults, gid)
  }

  function Base(b: Baseline, gid: int): Overrides { BaseOf(b.groups, b.defaults, gid) }

  /** A configured group follows its own baseline, any other the defaults. */
  lemma {:induction false} BaseIs(groups: seq<GroupBaseline>, defaults: Overrides, gid: int)
    requires forall i, j | 0 <= i < j < |groups| :: groups[i].gid != groups[j].gid
    ensures forall i | 0 <= i < |groups| && groups[i].gid == gid :: BaseOf(groups, defaults, gid) == groups[i].values
    ensures (forall i | 0 <= i < |groups| :: groups[i].gid != gid) ==> BaseOf(groups, defaults, gid) == defaults
  {
    if groups != [] {
      BaseIs(groups[1..], defaults, gid);
      forall i | 0 <= i < |groups| && groups[i].gid == gid ensures BaseOf(groups, defaults, gid) == groups[i].values {
        if i > 0 { assert groups[1..][i - 1] == groups[i]; }
      }
    }
  }

  function RecordOf(s: State, gid: int): GroupRecord {
    if gid in s.records then s.records[gid] else GroupRecord(0, map[])
  }

  predicate IsGroup(b: Baseline, s: State, gid: int) { gid in Configured(b) || Registered(s.registration, gid) }

  predicate GroupOK(b: Baseline, s: State, gid: int)
  {
    ValidGroup(Base(b, gid), RecordOf(s, gid).overrides)
  }

  /** What the bot-wide settings come to: each override where there is one, else the baseline. */
  function EffectiveGlobal(b: Baseline, g: GlobalOverrides): GlobalBaseline {
    GlobalBaseline(match g.rich case Some(on) => on case None => b.global.rich,
                   match g.perMinute case Some(n) => n case None => b.global.perMinute,
                   match g.adminLog case Some(chat) => chat case None => b.global.adminLog)
  }

  /** What `buildSnapshot` accepts. */
  predicate Buildable(b: Baseline, s: State) {
    && ValidRegistration(Configured(b), s.registration)
    && (forall i | 0 <= i < |b.groups| :: GroupOK(b, s, b.groups[i].gid))
    && (forall i | 0 <= i < |s.registration.groups| :: GroupOK(b, s, s.registration.groups[i].gid))
    && EffectiveGlobal(b, s.global).perMinute > 0
  }

  datatype View = View(revision: nat, registered: bool, base: Overrides, overrides: Overrides)

  datatype Snapshot = Snapshot(
    groups: map<int, View>, order: seq<int>, registration: Registration, globalRevision: nat, global: GlobalOverrides)

  function ViewOf(b: Baseline, s: State, gid: int): View {
    View(RecordOf(s, gid).revision, gid !in Configured(b), Base(b, gid), RecordOf(s, gid).overrides)
  }

  function Order(b: Baseline, s: State): seq<int> {
    seq(|b.groups|, i requires 0 <= i < |b.groups| => b.groups[i].gid)
    + seq(|s.registration.groups|, i requires 0 <= i < |s.registration.groups| => s.registration.groups[i].gid)
  }

  /** The snapshot of a state: configured groups first, then the registered ones. */
  function SnapshotOf(b: Baseline, s: State): Snapshot {
    Snapshot(map gid | gid in Order(b, s) :: ViewOf(b, s, gid), Order(b, s), s.registration, s.globalRevision, s.global)
  }

  lemma OrderIsEffective(b: Baseline, s: State, gid: int)
    ensures gid in Order(b, s) <==> IsGroup(b, s, gid)
  {
    var order := Order(b, s);
    if gid in Configured(b) {
      var i :| 0 <= i < |b.groups| && b.groups[i].gid == gid;
      assert order[i] == gid;
    }
    if Registered(s.registration, gid) {
      var i :| 0 <= i < |s.registration.groups| && s.registration.groups[i].gid == gid;
      assert order[|b.groups| + i] == gid;
    }
    if gid in order {
      var i :| 0 <= i < |order| && order[i] == gid;
      if i >= |b.groups| { assert s.registration.groups[i - |b.groups|].gid == gid; }
    }
  }

  /** A state builds exactly when its registration record is valid, every effective group's settings are
      acceptable, and private lookups have a positive rate. */
  lemma BuildsExactlyWhen(b: Baseline, s: State)
    ensures Buildable(b, s) <==>
      && ValidRegistration(Configured(b), s.registration)
      && (forall gid | gid in Configured(b) || Registered(s.registration, gid) :: ValidGroup(Base(b, gid), RecordOf(s, gid).overrides))
      && (if s.global.perMinute.Some? then s.global.perMinute.value else b.global.perMinute) > 0
  {
    if Buildable(b, s) {
      forall gid | gid in Configured(b) || Registered(s.registration, gid) ensures GroupOK(b, s, gid) {
        if gid in Configured(b) {
          var i :| 0 <= i < |b.groups| && b.groups[i].gid == gid;
          assert GroupOK(b, s, b.groups[i].gid);
        } else {
          var i :| 0 <= i < |s.registration.groups| && s.registration.groups[i].gid == gid;
          assert GroupOK(b, s, s.registration.groups[i].gid);
        }
      }
    } else {
      assert forall i | 0 <= i < |b.groups| :: b.groups[i].gid in Configured(b);
      assert forall i | 0 <= i < |s.registration.groups| :: Registered(s.registration, s.registration.groups[i].gid);
    }
  }

  /** What readers see of a state: exactly the effective groups, each at its revision, with what it
      follows and what was changed, and marked as registered at run time unless it is configured. */
  lemma SnapshotTells(b: Baseline, s: State, gid: int)
    ensures gid in SnapshotOf(b, s).groups <==> gid in Configured(b) || Registered(s.registration, gid)
    ensures gid in SnapshotOf(b, s).groups ==> (var v := SnapshotOf(b, s).groups[gid];
      && v.registered == (gid !in Configured(b)) && v.base == Base(b, gid)
      && v.revision == RecordOf(s, gid).revision && v.overrides == RecordOf(s, gid).overrides)
    ensures SnapshotOf(b, s).registration == s.registration
    ensures SnapshotOf(b, s).global == s.global && SnapshotOf(b, s).globalRevision == s.globalRevision
  {
    OrderIsEffective(b, s, gid);
  }

  // ---- Commits ----

  datatype Outcome =
    | Committed(revision: nat) | Unchanged(revision: nat)
    | Unavailable | NotDurable | UnknownGroup | Conflict | Invalid | WriteFailed

  predicate Accepted(out: Outcome) { out.Committed? || out.Unchanged? }

  /** Whether writes are allowed, whether they reach a file, and whether the next one succeeds. */
  datatype Disk = Disk(writable: bool, durable: bool, works: bool)

  /** The last steps of every commit: the candidate must build, and must reach the file. */
  function Publish(s: State, candidate: State, valid: bool, revision: nat, disk: Disk): (State, Outcome) {
    if !valid then (s, Invalid)
    else if disk.durable && !disk.works then (s, WriteFailed)
    else (candidate, Committed(revision))
  }

  function WithGroup(b: Baseline, s: State, gid: int, next: Overrides): State {
    s.(records := s.records[gid := GroupRecord(RecordOf(s, gid).revision + 1, Compact(Base(b, gid), next))])
  }

  /** `valid` says whether the candidate, the state with the change made, builds. */
  function GroupCommit(b: Baseline, s: State, gid: int, expected: nat, next: Overrides, valid: bool, disk: Disk): (State, Outcome) {
    if !disk.writable then (s, Unavailable)
    else if !IsGroup(b, s, gid) then (s, UnknownGroup)
    else if RecordOf(s, gid).revision != expected then (s, Conflict)
    else if RecordOf(s, gid).overrides == Compact(Base(b, gid), next) then (s, Unchanged(expected))
    else Publish(s, WithGroup(b, s, gid, next), valid, expected + 1, disk)
  }

  function CompactGlobal(b: Baseline, g: GlobalOverrides): GlobalOverrides {
    GlobalOverrides(if g.rich == Some(b.global.rich) then None else g.rich,
                    if g.perMinute == Some(b.global.perMinute) then None else g.perMinute,
                    if g.adminLog == Some(b.global.adminLog) then None else g.adminLog)
  }

  /** Compaction changes no effective value. What it leaves differs from the baseline, and is all
      that differs, so equal effective settings are stored alike. */
  lemma CompactGlobalKeepsEffective(b: Baseline, g: GlobalOverrides, h: GlobalOverrides)
    ensures EffectiveGlobal(b, CompactGlobal(b, g)) == EffectiveGlobal(b, g)
    ensures var c := CompactGlobal(b, g);
      c.rich != Some(b.global.rich) && c.perMinute != Some(b.global.perMinute) && c.adminLog != Some(b.global.adminLog)
    ensures CompactGlobal(b, g) == CompactGlobal(b, h) <==> EffectiveGlobal(b, g) == EffectiveGlobal(b, h)
  {
  }

  /** No override follows the baseline, each one is followed. */
  lemma EffectiveGlobalFollows(b: Baseline, rich: bool, perMinute: int, adminLog: int)
    ensures EffectiveGlobal(b, GlobalOverrides(None, None, None)) == b.global
    ensures EffectiveGlobal(b, GlobalOverrides(Some(rich), Some(perMinute), Some(adminLog)))
         == GlobalBaseline(rich, perMinute, adminLog)
  {
  }

  function WithGlobal(b: Baseline, s: State, next: GlobalOverrides): State {
    s.(globalRevision := s.globalRevision + 1, global := CompactGlobal(b, next))
  }

  function GlobalCommit(b: Baseline, s: State, expected: nat, next: GlobalOverrides, valid: bool, disk: Disk): (State, Outcome) {
    if !disk.writable then (s, Unavailable)
    else if s.globalRevision != expected then (s, Conflict)
    else if s.global == CompactGlobal(b, next) then (s, Unchanged(expected))
    else Publish(s, WithGlobal(b, s, next), valid, expected + 1, disk)
  }

  /** A Go slice: an empty one may be nil or not, and a deep comparison tells the two apart. */
  datatype Slice<T> = Nil | Of(items: seq<T>)

  function Items<T>(x: Slice<T>): seq<T> { if x.Nil? then [] else x.items }

  /** `append([]T(nil), items...)`: a copy of nothing is nil. */
  function Copied<T>(items: seq<T>): Slice<T> { if |items| == 0 then Nil else Of(items) }

  /** `nonNil...`: nil becomes empty, anything else is copied. */
  function NonNil<T>(x: Slice<T>): Slice<T> { if x.Nil? then Of([]) else Copied(x.items) }

  /** A registration record as it is handed around. */
  datatype Passed = Passed(
    revision: nat, owner: int, claim: string, claimExpires: int, control: int,
    groups: Slice<RegisteredGroup>, nonces: Slice<EnrollmentNonce>,
    pending: Slice<PendingRegistration>, leaves: Slice<UnknownLeave>)

  function Content(x: Passed): Registration {
    Registration(x.revision, x.owner, x.claim, x.claimExpires, x.control,
                 Items(x.groups), Items(x.nonces), Items(x.pending), Items(x.leaves))
  }

  /** A record with its lists copied: the form a snapshot holds, and a draft starts from. */
  function Fresh(r: Registration): Passed {
    Passed(r.revision, r.owner, r.claim, r.claimExpires, r.control,
           Copied(r.groups), Copied(r.nonces), Copied(r.pending), Copied(r.leaves))
  }

  /** `normalizeRegistrationState` and `cloneRegistrationState`. */
  function Normalized(x: Passed): Passed {
    x.(groups := NonNil(x.groups), nonces := NonNil(x.nonces), pending := NonNil(x.pending), leaves := NonNil(x.leaves))
  }

  /** `Registrations()`: the record as its readers get it. */
  function AsRead(r: Registration): Passed { Normalized(Fresh(r)) }

  predicate HasNil(x: Passed) { x.groups.Nil? || x.nonces.Nil? || x.pending.Nil? || x.leaves.Nil? }

  /** The comparison by which a commit is recognised as changing nothing. */
  predicate SameRegistration(current: Registration, next: Passed) { Fresh(current) == Normalized(next) }

  /** The record of a group that is neither configured nor registered any more is dropped. */
  function WithRegistration(b: Baseline, s: State, next: Registration): State {
    s.(registration := next.(revision := s.registration.revision + 1),
       records := map gid | gid in s.records && (gid in Configured(b) || Registered(next, gid)) :: s.records[gid])
  }

  function RegistrationCommit(b: Baseline, s: State, expected: nat, next: Passed, valid: bool, disk: Disk): (State, Outcome) {
    if !disk.writable || !disk.durable then (s, NotDurable)
    else if s.registration.revision != expected || next.revision != expected then (s, Conflict)
    else if SameRegistration(s.registration, next) then (s, Unchanged(expected))
    else Publish(s, WithRegistration(b, s, Content(next)), valid, expected + 1, disk)
  }

  datatype Step =
    | OnGroup(gid: int, expected: nat, overrides: Overrides, disk: Disk)
    | OnGlobal(expected: nat, global: GlobalOverrides, disk: Disk)
    | OnRegistration(expected: nat, registration: Passed, disk: Disk)

  function Candidate(b: Baseline, s: State, step: Step): State {
    match step
    case OnGroup(gid, _, next, _) => WithGroup(b, s, gid, next)
    case OnGlobal(_, next, _) => WithGlobal(b, s, next)
    case OnRegistration(_, next, _) => WithRegistration(b, s, Content(next))
  }

  function Do(b: Baseline, s: State, step: Step, valid: bool): (State, Outcome) {
    match step
    case OnGroup(gid, expected, next, disk) => GroupCommit(b, s, gid, expected, next, valid, disk)
    case OnGlobal(expected, next, disk) => GlobalCommit(b, s, expected, next, valid, disk)
    case OnRegistration(expected, next, disk) => RegistrationCommit(b, s, expected, next, valid, disk)
  }

  // ---- What every commit keeps ----

  /** An accepted change leads to its candidate, built and written; every other end of a commit
      leaves the state as it was. */
  lemma CommitsAreAtomic(b: Baseline, s: State, step: Step, valid: bool)
    ensures var (s', out) := Do(b, s, step, valid);
      && s' == (if out.Committed? then Candidate(b, s, step) else s)
      && (out.Committed? ==> valid && step.disk.writable && (step.disk.durable ==> step.disk.works))
      && (out.Committed? ==> out.revision == step.expected + 1)
  {
  }

  /** A commit, with the check that its candidate builds. */
  function TryCommit(b: Baseline, s: State, step: Step): (State, Outcome) {
    Do(b, s, step, Buildable(b, Candidate(b, s, step)))
  }

  /** What a running store is: the committed state, and the snapshot its readers see. */
  datatype Running = Running(state: State, snapshot: Snapshot)

  /** A new snapshot is published with every change, and only then. */
  function Advance(b: Baseline, r: Running, step: Step): Running {
    var (s', out) := TryCommit(b, r.state, step);
    if out.Committed? then Running(s', SnapshotOf(b, s')) else r.(state := s')
  }

  ghost function Run(b: Baseline, r: Running, steps: seq<Step>): Running
    decreases |steps|
  {
    if steps == [] then r else Run(b, Advance(b, r, steps[0]), steps[1..])
  }

  predicate Consistent(b: Baseline, r: Running) { Buildable(b, r.state) && r.snapshot == SnapshotOf(b, r.state) }

  lemma StepIsConsistent(b: Baseline, r: Running, step: Step)
    requires Consistent(b, r)
    ensures Consistent(b, Advance(b, r, step))
  {
    CommitsAreAtomic(b, r.state, step, Buildable(b, Candidate(b, r.state, step)));
  }

  /** However many commits are made, of whatever kind, at whatever revision and with whatever disk:
      the committed state builds, and the published snapshot is the one built from it. */
  lemma {:induction false} CommitsStayConsistent(b: Baseline, r: Running, steps: seq<Step>)
    requires Consistent(b, r)
    ensures Consistent(b, Run(b, r, steps))
    decreases |steps|
  {
    if steps != [] {
      StepIsConsistent(b, r, steps[0]);
      CommitsStayConsistent(b, Advance(b, r, steps[0]), steps[1..]);
    }
  }

  /** Two versions of something revisioned: the same, or the next one. */
  predicate Advances(rev: nat, rev': nat, same: bool) { (rev' == rev && same) || rev' == rev + 1 }

  ghost predicate StateAdvances(b: Baseline, s: State, s': State, gid: int) {
    && Advances(s.globalRevision, s'.globalRevision, s'.global == s.global)
    && Advances(s.registration.revision, s'.registration.revision, s'.registration == s.registration)
    && (IsGroup(b, s, gid) && IsGroup(b, s', gid) ==>
          Advances(RecordOf(s, gid).revision, RecordOf(s', gid).revision, RecordOf(s', gid) == RecordOf(s, gid)))
  }

  lemma SameRegistered(r: Registration, r': Registration, gid: int)
    requires r'.groups == r.groups
    ensures Registered(r', gid) <==> Registered(r, gid)
  {
  }

  lemma RegistrationAdvances(b: Baseline, s: State, next: Registration, gid: int)
    ensures StateAdvances(b, s, WithRegistration(b, s, next), gid)
  {
    SameRegistered(next, WithRegistration(b, s, next).registration, gid);
  }

  /** Revisions count changes one by one, for the bot-wide settings, for the registration record,
      and for every group that is effective before and after. */
  lemma RevisionsCountChanges(b: Baseline, s: State, step: Step, valid: bool, gid: int)
    ensures StateAdvances(b, s, Do(b, s, step, valid).0, gid)
  {
    if step.OnRegistration? { RegistrationAdvances(b, s, Content(step.registration), gid); }
  }

  /** A group commit touches one record and nothing else; */
  lemma GroupCommitTouchesOneRecord(b: Baseline, s: State, gid: int, expected: nat, next: Overrides, valid: bool, disk: Disk)
    requires GroupCommit(b, s, gid, expected, next, valid, disk).1.Committed?
    ensures var s' := GroupCommit(b, s, gid, expected, next, valid, disk).0;
      && s' == s.(records := s'.records) && s'.records - {gid} == s.records - {gid}
      && s'.records[gid] == GroupRecord(expected + 1, Compact(Base(b, gid), next))
  {
  }

  /** a registration commit keeps the record of every group that stays effective and drops all others. */
  lemma RegistrationCommitKeepsRetained(b: Baseline, s: State, expected: nat, next: Passed, valid: bool, disk: Disk)
    requires RegistrationCommit(b, s, expected, next, valid, disk).1.Committed?
    ensures var s' := RegistrationCommit(b, s, expected, next, valid, disk).0;
      && s' == s.(registration := Content(next).(revision := expected + 1), records := s'.records)
      && (forall g :: g in s'.records <==> g in s.records && IsGroup(b, s', g))
      && (forall g | g in s'.records :: s'.records[g] == s.records[g])
  {
    var s' := WithRegistration(b, s, Content(next));
    forall g ensures IsGroup(b, s', g) <==> g in Configured(b) || Registered(Content(next), g) {
      SameRegistered(Content(next), s'.registration, g);
    }
  }

  // ---- When a registration commit is recognised as no change ----

  lemma CopiesAgree<T>(items: seq<T>, x: Slice<T>)
    ensures Copied(items) == NonNil(x) <==> Items(x) == items && !x.Nil?
  {
  }

  /** A registration commit at the current revision is recognised as changing nothing exactly when it
      says what the record says and hands over no nil list. */
  lemma UnchangedExactlyWhen(b: Baseline, s: State, next: Passed, valid: bool, disk: Disk)
    requires disk.writable && disk.durable && next.revision == s.registration.revision
    ensures RegistrationCommit(b, s, s.registration.revision, next, valid, disk).1.Unchanged?
       <==> Content(next) == s.registration && !HasNil(next)
  {
    CopiesAgree(s.registration.groups, next.groups);
    CopiesAgree(s.registration.nonces, next.nonces);
    CopiesAgree(s.registration.pending, next.pending);
    CopiesAgree(s.registration.leaves, next.leaves);
  }

  /** So the record is recognised when it is handed back as it was read. */
  lemma AsReadIsUnchanged(b: Baseline, s: State, valid: bool, disk: Disk)
    requires disk.writable && disk.durable
    ensures RegistrationCommit(b, s, s.registration.revision, AsRead(s.registration), valid, disk)
         == (s, Unchanged(s.registration.revision))
  {
    UnchangedExactlyWhen(b, s, AsRead(s.registration), valid, disk);
  }

  /** A fresh copy of it, which is what every registration change starts from, is recognised exactly
      when no list is empty; otherwise a change that changed nothing is a new revision. */
  lemma FreshCopyIsUnchangedExactlyWhen(b: Baseline, s: State, valid: bool, disk: Disk)
    requires disk.writable && disk.durable && valid && disk.works
    ensures var (r, out) := (s.registration, RegistrationCommit(b, s, s.registration.revision, Fresh(s.registration), valid, disk));
      && (out.1.Unchanged? <==> r.groups != [] && r.nonces != [] && r.pending != [] && r.leaves != [])
      && (!out.1.Unchanged? ==> out.0.registration == r.(revision := r.revision + 1))
    ensures Fresh(Content(AsRead(s.registration))) == Fresh(s.registration) == Normalized(AsRead(s.registration))
  {
    assert Content(Fresh(s.registration)) == s.registration;
    UnchangedExactlyWhen(b, s, Fresh(s.registration), valid, disk);
  }

  /** An owner with nothing registered commits the record as it is, and the revision goes up. */
  lemma NothingChangedAndStillNew(b: Baseline) returns (s: State)
    requires EffectiveGlobal(b, GlobalOverrides(None, None, None)).perMinute > 0
    requires forall i | 0 <= i < |b.groups| :: ValidGroup(Base(b, b.groups[i].gid), map[])
    ensures Buildable(b, s)
    ensures RegistrationCommit(b, s, 0, Fresh(s.registration), true, Disk(true, true, true)) ==
      (s.(registration := s.registration.(revision := 1)), Committed(1))
  {
    s := State(Registration(0, 7, "", 0, 0, [], [], [], []), map[], 0, GlobalOverrides(None, None, None));
    assert Content(Fresh(s.registration)) == s.registration;
    FreshCopyIsUnchangedExactlyWhen(b, s, true, Disk(true, true, true));
  }

  // ---- The store ----

  class Store {
    const baseline: Baseline
    const durable: bool
    var writable: bool
    var state: State
    var snapshot: Snapshot

    ghost predicate Valid()
      reads this
    {
      Buildable(baseline, state) && snapshot == SnapshotOf(baseline, state)
    }

    constructor (b: Baseline, initial: State, path: bool)
      requires Buildable(b, initial)
      ensures Valid() && baseline == b && state == initial && durable == path
    {
      baseline, durable, writable, state := b, path, true, initial;
      snapshot := SnapshotOf(b, initial);
    }

    /** `Group`: one effective group, read off the snapshot. */
    method Group(gid: int) returns (group: Option<View>)
      requires Valid()
      ensures group == if IsGroup(baseline, state, gid) then Some(ViewOf(baseline, state, gid)) else None
    {
      OrderIsEffective(baseline, state, gid);
      return if gid in snapshot.groups then Some(snapshot.groups[gid]) else None;
    }

    /** Build, write, and only then publish. */
    method Put(candidate: State, revision: nat, works: bool) returns (out: Outcome)
      requires Valid()
      modifies `state, `snapshot
      ensures Valid()
      ensures (state, out) == Publish(old(state), candidate, Buildable(baseline, candidate), revision, Disk(writable, durable, works))
    {
      if !Buildable(baseline, candidate) {
        return Invalid;
      }
      if durable && !works {
        return WriteFailed;
      }
      state, snapshot := candidate, SnapshotOf(baseline, candidate);
      return Committed(revision);
    }

    method CommitGroup(gid: int, expected: nat, next: Overrides, works: bool) returns (out: Outcome)
      requires Valid()
      modifies `state, `snapshot
      ensures Valid()
      ensures (state, out) == GroupCommit(baseline, old(state), gid, expected, next,
                Buildable(baseline, WithGroup(baseline, old(state), gid, next)), Disk(writable, durable, works))
    {
      if !writable {
        return Unavailable;
      }
      var found, revision, overrides, base := Current(gid);
      if !found {
        return UnknownGroup;
      }
      if revision != expected {
        return Conflict;
      }
      var compact := Compact(base, next);
      if overrides == compact {
        return Unchanged(revision);
      }
      out := Put(WithGroup(baseline, state, gid, next), revision + 1, works);
    }

    /** What a group commit reads off the snapshot. */
    method Current(gid: int) returns (found: bool, revision: nat, overrides: Overrides, base: Overrides)
      requires Valid()
      ensures found == IsGroup(baseline, state, gid)
      ensures found ==> (revision, overrides) == (RecordOf(state, gid).revision, RecordOf(state, gid).overrides)
      ensures found ==> base == Base(baseline, gid)
    {
      var group := Group(gid);
      if group.None? {
        return false, 0, map[], map[];
      }
      return true, group.value.revision, group.value.overrides, group.value.base;
    }

    method CommitGlobal(expected: nat, next: GlobalOverrides, works: bool) returns (out: Outcome)
      requires Valid()
      modifies `state, `snapshot
      ensures Valid()
      ensures (state, out) == GlobalCommit(baseline, old(state), expected, next,
                Buildable(baseline, WithGlobal(baseline, old(state), next)), Disk(writable, durable, works))
    {
      if !writable {
        return Unavailable;
      }
      if snapshot.globalRevision != expected {
        return Conflict;
      }
      var compact := CompactGlobal(baseline, next);
      if snapshot.global == compact {
        return Unchanged(snapshot.globalRevision);
      }
      out := Put(WithGlobal(baseline, state, next), expected + 1, works);
    }

    method CommitRegistrations(expected: nat, next: Passed, works: bool) returns (out: Outcome)
      requires Valid()
      modifies `state, `snapshot
      ensures Valid()
      ensures (state, out) == RegistrationCommit(baseline, old(state), expected, next,
                Buildable(baseline, WithRegistration(baseline, old(state), Content(next))), Disk(writable, durable, works))
    {
      ghost var valid := Buildable(baseline, WithRegistration(baseline, state, Content(next)));
      var early := CheckRegistration(expected, next, valid, works);
      if early.Some? {
        return early.value;
      }
      var candidate := Changed(Content(next));
      out := Put(candidate, expected + 1, works);
    }

    /** What ends a registration commit before anything is built. */
    method CheckRegistration(expected: nat, next: Passed, ghost valid: bool, ghost works: bool) returns (early: Option<Outcome>)
      requires Valid()
      ensures RegistrationCommit(baseline, state, expected, next, valid, Disk(writable, durable, works)) ==
        if early.Some? then (state, early.value)
        else Publish(state, WithRegistration(baseline, state, Content(next)), valid, expected + 1, Disk(writable, durable, works))
    {
      if !durable || !writable {
        return Some(NotDurable);
      }
      var current := snapshot.registration;
      if current.revision != expected || next.revision != expected {
        return Some(Conflict);
      }
      if SameRegistration(current, next) {
        return Some(Unchanged(expected));
      }
      return None;
    }

    /** The state with the record changed. */
    method Changed(next: Registration) returns (candidate: State)
      ensures candidate == WithRegistration(baseline, state, next)
    {
      var records := Retained(next);
      candidate := state.(registration := next.(revision := state.registration.revision + 1), records := records);
    }

    /** The records of the groups that will be effective. */
    method Retained(next: Registration) returns (records: map<int, GroupRecord>)
      ensures records == WithRegistration(baseline, state, next).records
    {
      var keep := Configured(baseline);
      var i := 0;
      while i < |next.groups|
        invariant 0 <= i <= |next.groups|
        invariant forall g :: g in keep <==> g in Configured(baseline) || exists j :: 0 <= j < i && next.groups[j].gid == g
      {
        keep := keep + {next.groups[i].gid};
        i := i + 1;
      }
      records := map gid | gid in state.records && gid in keep :: state.records[gid];
    }
  }
}

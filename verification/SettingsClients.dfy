/** Clients that read a revision, compute a change from what they read, and commit it at that
    revision: when none of them overwrites a change it has not seen. */
module SettingsClients {
  import opened Options
  import opened Settings
  import opened Registrations
  import opened RegistrationRules
  import opened SettingsStore

  /** One group as a client has read it, and in which of the group's lifetimes: a group that is
      unregistered and registered again starts over. */
  datatype Seen = Seen(life: nat, revision: nat, overrides: Overrides)

  /** An accepted change, and what it was computed from. */
  datatype Entry = Entry(life: nat, basis: Overrides, change: Overrides -> Overrides)

  /** What happens in the store, as one group and its clients see it: a client reads the group, or
      commits a change computed from what it read, or something else is committed. */
  datatype Event =
    | Read(client: nat)
    | Write(client: nat, change: Overrides -> Overrides, disk: Disk)
    | Other(step: Step)

  /** `start` is what the group's current lifetime began with, `log` what was accepted in it. The
      store knows neither, nor the number of the lifetime. */
  datatype World = World(state: State, life: nat, start: Overrides, seen: map<nat, Seen>, log: seq<Entry>)

  predicate Possible(b: Baseline, gid: int, w: World, e: Event) {
    match e
    case Read(_) => IsGroup(b, w.state, gid)
    case Write(client, _, _) => client in w.seen
    case Other(step) => !(step.OnGroup? && step.gid == gid)
  }

  function Writing(gid: int, seen: Seen, change: Overrides -> Overrides, disk: Disk): Step {
    OnGroup(gid, seen.revision, change(seen.overrides), disk)
  }

  function After(b: Baseline, gid: int, w: World, e: Event): World
    requires Possible(b, gid, w, e)
  {
    match e
    case Read(client) =>
      var r := RecordOf(w.state, gid);
      w.(seen := w.seen[client := Seen(w.life, r.revision, r.overrides)])
    case Write(client, change, disk) =>
      var seen := w.seen[client];
      var out := TryCommit(b, w.state, Writing(gid, seen, change, disk));
      w.(state := out.0, log := if Accepted(out.1) then w.log + [Entry(seen.life, seen.overrides, change)] else w.log)
    case Other(step) =>
      var s' := TryCommit(b, w.state, step).0;
      if IsGroup(b, w.state, gid) && !IsGroup(b, s', gid) then World(s', w.life + 1, map[], w.seen, [])
      else w.(state := s')
  }

  ghost predicate Happens(b: Baseline, gid: int, w: World, events: seq<Event>, w': World)
    decreases |events|
  {
    if events == [] then w' == w
    else Possible(b, gid, w, events[0]) && Happens(b, gid, After(b, gid, w, events[0]), events[1..], w')
  }

  function Opened(s: State, gid: int): World { World(s, 0, RecordOf(s, gid).overrides, map[], []) }

  /** What the last accepted change left. */
  function Left(base: Overrides, start: Overrides, log: seq<Entry>): Overrides {
    if log == [] then start else Compact(base, log[|log| - 1].change(log[|log| - 1].basis))
  }

  /** The accepted changes, applied one after the other to what was there first. */
  function Applied(base: Overrides, start: Overrides, log: seq<Entry>): Overrides {
    if log == [] then start
    else Compact(base, log[|log| - 1].change(Applied(base, start, log[..|log| - 1])))
  }

  // ---- What every event keeps ----

  /** Whoever read in the current lifetime has not read the future; at the current revision they have
      read the current overrides. */
  ghost predicate SeenOK(b: Baseline, gid: int, w: World) {
    var r := RecordOf(w.state, gid);
    forall c | c in w.seen :: w.seen[c].life <= w.life && (w.seen[c].life == w.life ==>
      IsGroup(b, w.state, gid) && w.seen[c].revision <= r.revision
      && (w.seen[c].revision == r.revision ==> w.seen[c].overrides == r.overrides))
  }

  /** A change read in the current lifetime was computed from what the change before it left. */
  ghost predicate LogOK(b: Baseline, gid: int, w: World) {
    forall i | 0 <= i < |w.log| :: w.log[i].life == w.life ==> w.log[i].basis == Left(Base(b, gid), w.start, w.log[..i])
  }

  ghost predicate InStep(b: Baseline, gid: int, w: World) {
    && SeenOK(b, gid, w) && LogOK(b, gid, w)
    && (if IsGroup(b, w.state, gid) then RecordOf(w.state, gid).overrides == Left(Base(b, gid), w.start, w.log)
        else gid !in w.state.records && w.log == [] && w.start == map[])
    && (gid in Configured(b) ==> w.life == 0)
  }

  ghost predicate Wrote(b: Baseline, gid: int, s: State, s': State, seen: Seen, next: Overrides) {
    && IsGroup(b, s, gid) && RecordOf(s, gid).revision == seen.revision
    && RecordOf(s', gid).overrides == Compact(Base(b, gid), next)
    && (RecordOf(s', gid) == RecordOf(s, gid) || RecordOf(s', gid).revision == seen.revision + 1)
  }

  /** An accepted write was made at the current revision, and leaves what it computed. */
  lemma WriteShape(b: Baseline, gid: int, s: State, seen: Seen, change: Overrides -> Overrides, disk: Disk)
    ensures var (s', out) := TryCommit(b, s, Writing(gid, seen, change, disk));
      && (!Accepted(out) ==> s' == s) && s'.registration == s.registration
      && (Accepted(out) ==> Wrote(b, gid, s, s', seen, change(seen.overrides)))
  {
  }

  lemma WriteStaysInStep(b: Baseline, gid: int, w: World, e: Event)
    requires InStep(b, gid, w) && e.Write? && Possible(b, gid, w, e)
    ensures InStep(b, gid, After(b, gid, w, e))
  {
    var seen, w' := w.seen[e.client], After(b, gid, w, e);
    WriteShape(b, gid, w.state, seen, e.change, e.disk);
    if w'.log != w.log {
      forall i | 0 <= i < |w'.log| && w'.log[i].life == w.life
        ensures w'.log[i].basis == Left(Base(b, gid), w.start, w'.log[..i])
      {
        assert w'.log[..i] == if i < |w.log| then w.log[..i] else w.log;
      }
    }
  }

  /** What a commit to something else does to the group: nothing, or it leaves with its record, or
      comes back without one. */
  lemma OtherShape(b: Baseline, gid: int, s: State, step: Step)
    requires !(step.OnGroup? && step.gid == gid)
    ensures var s' := TryCommit(b, s, step).0;
      && (IsGroup(b, s, gid) && IsGroup(b, s', gid) ==> RecordOf(s', gid) == RecordOf(s, gid))
      && (gid in s'.records ==> gid in s.records)
      && (IsGroup(b, s, gid) && !IsGroup(b, s', gid) ==> gid !in s'.records)
  {
    if step.OnRegistration? && TryCommit(b, s, step).1.Committed? {
      RegistrationCommitKeepsRetained(b, s, step.expected, step.registration, Buildable(b, Candidate(b, s, step)), step.disk);
    }
  }

  lemma OtherStaysInStep(b: Baseline, gid: int, w: World, e: Event)
    requires InStep(b, gid, w) && e.Other? && Possible(b, gid, w, e)
    ensures InStep(b, gid, After(b, gid, w, e))
  {
    OtherShape(b, gid, w.state, e.step);
  }

  lemma {:induction false} ClientsStayInStep(b: Baseline, gid: int, w: World, events: seq<Event>, w': World)
    requires InStep(b, gid, w) && Happens(b, gid, w, events, w')
    ensures InStep(b, gid, w')
    decreases |events|
  {
    if events != [] {
      var e := events[0];
      if e.Write? { WriteStaysInStep(b, gid, w, e); }
      else if e.Other? { OtherStaysInStep(b, gid, w, e); }
      ClientsStayInStep(b, gid, After(b, gid, w, e), events[1..], w');
    }
  }

  // ---- Lost updates ----

  /** In any interleaving of clients, readers and other commits, the group coming and going: a write
      that is accepted was computed from the current overrides when they were read in the current
      lifetime, so a stale one was read in an earlier lifetime, at the same revision. */
  lemma StaleWritesWereReadEarlier(
    b: Baseline, gid: int, s: State, events: seq<Event>, w: World, client: nat, change: Overrides -> Overrides, disk: Disk)
    requires IsGroup(b, s, gid) && Happens(b, gid, Opened(s, gid), events, w) && client in w.seen
    requires Accepted(TryCommit(b, w.state, Writing(gid, w.seen[client], change, disk)).1)
    requires w.seen[client].overrides != RecordOf(w.state, gid).overrides
    ensures w.seen[client].life < w.life && w.seen[client].revision == RecordOf(w.state, gid).revision
  {
    ClientsStayInStep(b, gid, Opened(s, gid), events, w);
    WriteShape(b, gid, w.state, w.seen[client], change, disk);
  }

  /** Every accepted change was computed from what the one before it left. */
  ghost predicate Seamless(base: Overrides, start: Overrides, log: seq<Entry>) {
    forall i | 0 <= i < |log| :: log[i].basis == Left(base, start, log[..i])
  }

  lemma ReadInItsLifetimeIsSeamless(b: Baseline, gid: int, w: World)
    requires LogOK(b, gid, w) && forall i | 0 <= i < |w.log| :: w.log[i].life == w.life
    ensures Seamless(Base(b, gid), w.start, w.log)
  {
  }

  lemma {:induction false} SeamlessIsApplied(base: Overrides, start: Overrides, log: seq<Entry>)
    requires Seamless(base, start, log)
    ensures Left(base, start, log) == Applied(base, start, log)
    decreases |log|
  {
    if log != [] {
      var front := log[..|log| - 1];
      forall i | 0 <= i < |front| ensures front[i].basis == Left(base, start, front[..i]) { assert front[..i] == log[..i]; }
      SeamlessIsApplied(base, start, front);
    }
  }

  /** When everything accepted in the group's current lifetime was read in it, no update is lost: the
      group's overrides are the accepted changes applied one after the other. */
  lemma NoUpdateIsLost(b: Baseline, gid: int, s: State, events: seq<Event>, w: World)
    requires IsGroup(b, s, gid) && Happens(b, gid, Opened(s, gid), events, w) && IsGroup(b, w.state, gid)
    requires forall i | 0 <= i < |w.log| :: w.log[i].life == w.life
    ensures RecordOf(w.state, gid).overrides == Applied(Base(b, gid), w.start, w.log)
  {
    ClientsStayInStep(b, gid, Opened(s, gid), events, w);
    ReadInItsLifetimeIsSeamless(b, gid, w);
    SeamlessIsApplied(Base(b, gid), w.start, w.log);
  }

  lemma {:induction false} LivesAreCounted(b: Baseline, gid: int, w: World, events: seq<Event>, w': World)
    requires Happens(b, gid, w, events, w')
    requires (forall c | c in w.seen :: w.seen[c].life <= w.life) && (forall i | 0 <= i < |w.log| :: w.log[i].life <= w.life)
    ensures forall i | 0 <= i < |w'.log| :: w'.log[i].life <= w'.life
    decreases |events|
  {
    if events != [] { LivesAreCounted(b, gid, After(b, gid, w, events[0]), events[1..], w'); }
  }

  /** A configured group never leaves: its overrides are always the accepted changes in order. */
  lemma ConfiguredGroupsLoseNothing(b: Baseline, gid: int, s: State, events: seq<Event>, w: World)
    requires gid in Configured(b) && Happens(b, gid, Opened(s, gid), events, w)
    ensures RecordOf(w.state, gid).overrides == Applied(Base(b, gid), RecordOf(s, gid).overrides, w.log)
  {
    ClientsStayInStep(b, gid, Opened(s, gid), events, w);
    LivesAreCounted(b, gid, Opened(s, gid), events, w);
    StartStays(b, gid, Opened(s, gid), events, w);
    NoUpdateIsLost(b, gid, s, events, w);
  }

  lemma {:induction false} StartStays(b: Baseline, gid: int, w: World, events: seq<Event>, w': World)
    requires gid in Configured(b) && Happens(b, gid, w, events, w')
    ensures w'.start == w.start
    decreases |events|
  {
    if events != [] { StartStays(b, gid, After(b, gid, w, events[0]), events[1..], w'); }
  }

  // ---- How an update is lost ----

  const GOOD := Disk(true, true, true)

  /** Overrides in the form they are stored in, acceptable for the group, and saying something. */
  ghost predicate Storable(b: Baseline, gid: int, v: Overrides) {
    Compact(Base(b, gid), v) == v && ValidGroup(Base(b, gid), v) && v != map[]
  }

  lemma HappensFirst(b: Baseline, gid: int, w: World, e: Event, rest: seq<Event>, w': World)
    requires Possible(b, gid, w, e) && Happens(b, gid, After(b, gid, w, e), rest, w')
    ensures Happens(b, gid, w, [e] + rest, w')
  {
    assert ([e] + rest)[1..] == rest;
  }

  /** From `w`, the events lead to `w'`, whatever happens then. */
  ghost predicate Leads(b: Baseline, gid: int, w: World, es: seq<Event>, w': World) {
    forall rest, w'' :: Happens(b, gid, w', rest, w'') ==> Happens(b, gid, w, es + rest, w'')
  }

  lemma LeadsOne(b: Baseline, gid: int, w: World, e: Event)
    requires Possible(b, gid, w, e)
    ensures Leads(b, gid, w, [e], After(b, gid, w, e))
  {
    forall rest, w'' | Happens(b, gid, After(b, gid, w, e), rest, w'') ensures Happens(b, gid, w, [e] + rest, w'') {
      HappensFirst(b, gid, w, e, rest, w'');
    }
  }

  lemma LeadsJoined(b: Baseline, gid: int, w: World, es: seq<Event>, w1: World, fs: seq<Event>, w2: World)
    requires Leads(b, gid, w, es, w1) && Leads(b, gid, w1, fs, w2)
    ensures Leads(b, gid, w, es + fs, w2)
  {
    forall rest, w'' | Happens(b, gid, w2, rest, w'') ensures Happens(b, gid, w, (es + fs) + rest, w'') {
      assert es + (fs + rest) == (es + fs) + rest;
      LeadsTo(b, gid, w1, fs, w2, rest, w'');
      LeadsTo(b, gid, w, es, w1, fs + rest, w'');
    }
  }

  lemma LeadsTo(b: Baseline, gid: int, w: World, es: seq<Event>, w': World, rest: seq<Event>, w'': World)
    requires Leads(b, gid, w, es, w') && Happens(b, gid, w', rest, w'')
    ensures Happens(b, gid, w, es + rest, w'')
  {
  }

  lemma LeadsHappens(b: Baseline, gid: int, w: World, es: seq<Event>, w': World)
    requires Leads(b, gid, w, es, w')
    ensures Happens(b, gid, w, es, w')
  {
    assert Happens(b, gid, w', [], w');
    assert es + [] == es;
  }

  lemma GroupChangeBuilds(b: Baseline, s: State, gid: int, v: Overrides)
    requires Buildable(b, s) && ValidGroup(Base(b, gid), Compact(Base(b, gid), v))
    ensures Buildable(b, WithGroup(b, s, gid, v))
  {
    var s' := WithGroup(b, s, gid, v);
    forall g | GroupOK(b, s, g) ensures GroupOK(b, s', g) {}
  }

  /** The world stands at a revision of the group, in its current lifetime. */
  ghost predicate Stands(b: Baseline, gid: int, w: World, life: nat, r: GroupRecord) {
    Buildable(b, w.state) && IsGroup(b, w.state, gid) && RecordOf(w.state, gid) == r && w.life == life
  }

  /** Somebody reads the group and commits `v`. */
  lemma ChangeOnce(b: Baseline, gid: int, w: World, d: nat, v: Overrides) returns (es: seq<Event>, w': World)
    requires Stands(b, gid, w, w.life, RecordOf(w.state, gid)) && Storable(b, gid, v) && RecordOf(w.state, gid).overrides != v
    ensures Leads(b, gid, w, es, w') && Stands(b, gid, w', w.life, GroupRecord(RecordOf(w.state, gid).revision + 1, v))
    ensures forall c | c in w.seen && c != d :: c in w'.seen && w'.seen[c] == w.seen[c]
  {
    var read, write := Read(d), Write(d, (o: Overrides) => v, GOOD);
    var w1 := After(b, gid, w, read);
    GroupChangeBuilds(b, w.state, gid, v);
    w' := After(b, gid, w1, write);
    assert w'.state == WithGroup(b, w.state, gid, v);
    SameRegistered(w.state.registration, w'.state.registration, gid);
    LeadsOne(b, gid, w, read);
    LeadsOne(b, gid, w1, write);
    LeadsJoined(b, gid, w, [read], w1, [write], w');
    es := [read] + [write];
  }

  /** Two settings in turn, `k` commits, the last of them `v`. */
  lemma {:induction false} ChangeOften(b: Baseline, gid: int, w: World, d: nat, v: Overrides, u: Overrides, k: nat)
    returns (es: seq<Event>, w': World)
    requires Stands(b, gid, w, w.life, GroupRecord(0, map[])) && Storable(b, gid, v) && Storable(b, gid, u) && u != v
    ensures Leads(b, gid, w, es, w') && Stands(b, gid, w', w.life, if k == 0 then GroupRecord(0, map[]) else GroupRecord(k, v))
    ensures forall c | c in w.seen && c != d :: c in w'.seen && w'.seen[c] == w.seen[c]
    decreases k
  {
    if k == 0 {
      es, w' := [], w;
      assert forall rest: seq<Event> :: [] + rest == rest;
    } else {
      var es1, w1 := ChangeOften(b, gid, w, d, u, v, k - 1);
      var es2, w2 := ChangeOnce(b, gid, w1, d, v);
      LeadsJoined(b, gid, w, es1, w1, es2, w2);
      es, w' := es1 + es2, w2;
    }
  }

  function Without(r: Registration, gid: int): Registration {
    r.(groups := DropAt(r.groups, FirstGroup(r.groups, gid)), control := if r.control == gid then 0 else r.control)
  }

  lemma LeavingBuilds(b: Baseline, s: State, gid: int)
    requires Buildable(b, s) && gid !in Configured(b) && Registered(s.registration, gid)
    ensures var gone := WithRegistration(b, s, Without(s.registration, gid));
      Buildable(b, gone) && !IsGroup(b, gone, gid)
  {
    var r, r' := s.registration, Without(s.registration, gid);
    var i := FirstGroup(r.groups, gid);
    var dropped := r.(groups := DropAt(r.groups, i));
    var gone := WithRegistration(b, s, r');
    DroppingGroupKeeps(Configured(b), r, i);
    forall g ensures Registered(r', g) <==> Registered(dropped, g) { SameRegistered(dropped, r', g); }
    forall g ensures Registered(gone.registration, g) <==> Registered(r', g) { SameRegistered(r', gone.registration, g); }
    assert ValidRegistration(Configured(b), gone.registration);
    forall j | 0 <= j < |b.groups| ensures GroupOK(b, gone, b.groups[j].gid) { assert b.groups[j].gid in Configured(b); }
    forall j | 0 <= j < |r'.groups| ensures GroupOK(b, gone, r'.groups[j].gid) { StaysOK(b, s, r', gone, r'.groups[j].gid); }
  }

  lemma StaysOK(b: Baseline, s: State, r': Registration, s': State, g: int)
    requires Buildable(b, s) && s' == WithRegistration(b, s, r') && Registered(r', g) && Registered(s.registration, g)
    ensures GroupOK(b, s', g)
  {
    var i :| 0 <= i < |s.registration.groups| && s.registration.groups[i].gid == g;
    assert GroupOK(b, s, s.registration.groups[i].gid);
  }

  /** Registered again, the group starts over. */
  lemma ReturningBuilds(b: Baseline, s: State, gid: int)
    requires Buildable(b, s) && gid != 0 && !IsGroup(b, s, gid) && gid !in s.records && ValidGroup(Base(b, gid), map[])
    ensures var back := WithRegistration(b, s, Back(s.registration, gid));
      Buildable(b, back) && Registered(Back(s.registration, gid), gid) && IsGroup(b, back, gid)
      && RecordOf(back, gid) == GroupRecord(0, map[])
  {
    var r, r' := s.registration, Back(s.registration, gid);
    var back := WithRegistration(b, s, r');
    AddGroupValidExactlyWhen(Configured(b), r, gid, 1, "", false);
    forall g ensures Registered(r', g) <==> Registered(r, g) || g == gid { ReturnedGroups(r, gid, g); }
    forall g ensures Registered(back.registration, g) <==> Registered(r', g) { SameRegistered(r', back.registration, g); }
    assert ValidRegistration(Configured(b), back.registration);
    forall j | 0 <= j < |b.groups| ensures GroupOK(b, back, b.groups[j].gid) { assert b.groups[j].gid in Configured(b); }
    forall j | 0 <= j < |r'.groups| ensures GroupOK(b, back, r'.groups[j].gid) {
      var g := r'.groups[j].gid;
      assert Registered(r', g);
      if g != gid { StaysOK(b, s, r', back, g); }
    }
  }

  function Back(r: Registration, gid: int): Registration { AddGroup(r, gid, 1, "", false) }

  lemma ReturnedGroups(r: Registration, gid: int, g: int)
    requires !Registered(r, gid)
    ensures Registered(Back(r, gid), g) <==> Registered(r, g) || g == gid
  {
    FirstGroupRegistered(r, gid);
    var r' := r.(groups := r.groups + [RegisteredGroup(gid, 1, "")]);
    RegisteredWith(r, RegisteredGroup(gid, 1, ""), g);
    SameRegistered(r', Back(r, gid), g);
  }

  /** The registration record is replaced by another that builds. */
  lemma ChangeRegistration(b: Baseline, gid: int, w: World, next: Registration) returns (es: seq<Event>, w': World)
    requires Buildable(b, WithRegistration(b, w.state, next)) && next.revision == w.state.registration.revision
    requires Registered(next, gid) != Registered(w.state.registration, gid)
    ensures Leads(b, gid, w, es, w') && w'.state == WithRegistration(b, w.state, next) && w'.seen == w.seen
    ensures w'.life == if IsGroup(b, w.state, gid) && !IsGroup(b, w'.state, gid) then w.life + 1 else w.life
  {
    var e := Other(OnRegistration(w.state.registration.revision, Fresh(next), GOOD));
    RegistrationGoesThrough(b, w.state, next, gid);
    w' := After(b, gid, w, e);
    LeadsOne(b, gid, w, e);
    es := [e];
  }

  lemma Return(b: Baseline, gid: int, w: World) returns (es: seq<Event>, w': World)
    requires Buildable(b, w.state) && gid != 0 && !IsGroup(b, w.state, gid) && gid !in w.state.records
    requires ValidGroup(Base(b, gid), map[])
    ensures Leads(b, gid, w, es, w') && Stands(b, gid, w', w.life, GroupRecord(0, map[])) && w'.seen == w.seen
  {
    ReturningBuilds(b, w.state, gid);
    es, w' := ChangeRegistration(b, gid, w, Back(w.state.registration, gid));
  }

  /** The group is unregistered, if it is there, and registered again. */
  lemma LeaveAndReturn(b: Baseline, gid: int, w: World) returns (es: seq<Event>, w': World)
    requires Buildable(b, w.state) && gid != 0 && gid !in Configured(b) && ValidGroup(Base(b, gid), map[])
    requires IsGroup(b, w.state, gid) || gid !in w.state.records
    ensures Leads(b, gid, w, es, w') && Stands(b, gid, w', w'.life, GroupRecord(0, map[])) && w'.seen == w.seen
  {
    if IsGroup(b, w.state, gid) {
      LeavingBuilds(b, w.state, gid);
      var es1, w1 := ChangeRegistration(b, gid, w, Without(w.state.registration, gid));
      var es2, w2 := Return(b, gid, w1);
      LeadsJoined(b, gid, w, es1, w1, es2, w2);
      es, w' := es1 + es2, w2;
    } else {
      es, w' := Return(b, gid, w);
    }
  }

  lemma RegistrationGoesThrough(b: Baseline, s: State, next: Registration, gid: int)
    requires Buildable(b, WithRegistration(b, s, next)) && next.revision == s.registration.revision
    requires Registered(next, gid) != Registered(s.registration, gid)
    ensures TryCommit(b, s, OnRegistration(s.registration.revision, Fresh(next), GOOD)).0 == WithRegistration(b, s, next)
  {
    assert Content(Fresh(next)) == next;
    UnchangedExactlyWhen(b, s, Fresh(next), true, GOOD);
  }

  /** An override that no baseline refuses. */
  function Fails(n: int): Overrides { map[VerifyMaxFails := Number(n)] }

  lemma OthersFollow(base: Overrides, n: int, f: Field)
    requires f != VerifyMaxFails
    ensures Effective(base, Fails(n), f) == Effective(base, map[], f)
  {
  }

  lemma FailsValid(base: Overrides, n: int)
    requires ValidGroup(base, map[])
    ensures ValidGroup(base, Fails(n))
  {
    var o := Fails(n);
    assert forall f | f in o :: f == VerifyMaxFails;
    assert OverridesOK(o) && ChannelOK(base, o);
    assert ModesOK(base, o) by {
      OthersFollow(base, n, DeliveryMode);
      OthersFollow(base, n, VerifyMode);
      OthersFollow(base, n, Lang);
    }
    assert FallbacksOK(base, o) by {
      OthersFollow(base, n, FallbackBuiltin);
      OthersFollow(base, n, FallbackQuestions);
    }
  }

  lemma FailsStorable(b: Baseline, gid: int, n: int)
    requires ValidGroup(Base(b, gid), map[])
    requires VerifyMaxFails in Base(b, gid) ==> Base(b, gid)[VerifyMaxFails] != Number(n)
    ensures Storable(b, gid, Fails(n))
  {
    FailsValid(Base(b, gid), n);
    assert Compact(Base(b, gid), Fails(n)) == Fails(n);
    assert VerifyMaxFails in Fails(n);
  }

  /** Two settings to put in turn that the client has not read. */
  lemma OtherSettings(b: Baseline, gid: int, read: Overrides) returns (v: Overrides, u: Overrides)
    requires ValidGroup(Base(b, gid), map[])
    ensures Storable(b, gid, v) && Storable(b, gid, u) && u != v && read != v
  {
    var n := if VerifyMaxFails in Base(b, gid) then Num(Base(b, gid)[VerifyMaxFails]) else 0;
    FailsStorable(b, gid, n + 1);
    FailsStorable(b, gid, n + 2);
    assert Fails(n + 1)[VerifyMaxFails] != Fails(n + 2)[VerifyMaxFails];
    if read != Fails(n + 1) { v, u := Fails(n + 1), Fails(n + 2); } else { v, u := Fails(n + 2), Fails(n + 1); }
  }

  /** A group registered at run time can lose an update, from any reading that is not of its first
      revision: the group leaves and returns, others bring it to the same revision with other settings,
      and a write made on the old reading is accepted. */
  lemma UpdateCanBeLost(b: Baseline, gid: int, w: World, client: nat) returns (es: seq<Event>, w': World)
    requires Buildable(b, w.state) && gid != 0 && gid !in Configured(b) && ValidGroup(Base(b, gid), map[])
    requires IsGroup(b, w.state, gid) || gid !in w.state.records
    requires client in w.seen && w.seen[client].revision > 0
    ensures Happens(b, gid, w, es, w') && client in w'.seen && w'.seen[client] == w.seen[client]
    ensures Accepted(TryCommit(b, w'.state, OnGroup(gid, w.seen[client].revision, map[], GOOD)).1)
    ensures RecordOf(w'.state, gid).overrides != w.seen[client].overrides
  {
    var seen := w.seen[client];
    var v, u := OtherSettings(b, gid, seen.overrides);
    var es1, w1 := LeaveAndReturn(b, gid, w);
    var es2, w2 := ChangeOften(b, gid, w1, client + 1, v, u, seen.revision);
    LeadsJoined(b, gid, w, es1, w1, es2, w2);
    LeadsHappens(b, gid, w, es1 + es2, w2);
    assert Compact(Base(b, gid), map[]) == map[];
    GroupChangeBuilds(b, w2.state, gid, map[]);
    es, w' := es1 + es2, w2;
  }

  ghost predicate FirstIsEmpty(gid: int, w: World) {
    && (RecordOf(w.state, gid).revision == 0 ==> RecordOf(w.state, gid).overrides == map[])
    && (forall c | c in w.seen && w.seen[c].revision == 0 :: w.seen[c].overrides == map[])
  }

  lemma FirstStaysEmpty(b: Baseline, gid: int, w: World, e: Event)
    requires InStep(b, gid, w) && FirstIsEmpty(gid, w) && Possible(b, gid, w, e)
    ensures FirstIsEmpty(gid, After(b, gid, w, e))
  {
    if e.Write? { WriteShape(b, gid, w.state, w.seen[e.client], e.change, e.disk); }
    if e.Other? { OtherShape(b, gid, w.state, e.step); }
  }

  lemma {:induction false} FirstRunsEmpty(b: Baseline, gid: int, w: World, events: seq<Event>, w': World)
    requires InStep(b, gid, w) && FirstIsEmpty(gid, w) && Happens(b, gid, w, events, w')
    ensures FirstIsEmpty(gid, w')
    decreases |events|
  {
    if events != [] {
      var w1 := After(b, gid, w, events[0]);
      FirstStaysEmpty(b, gid, w, events[0]);
      assert InStep(b, gid, w1) by { ClientsStayInStep(b, gid, w, [events[0]], w1); }
      FirstRunsEmpty(b, gid, w1, events[1..], w');
    }
  }

  lemma {:induction false} WorldsBuild(b: Baseline, gid: int, w: World, events: seq<Event>, w': World)
    requires Buildable(b, w.state) && Happens(b, gid, w, events, w')
    ensures Buildable(b, w'.state)
    decreases |events|
  {
    if events != [] {
      WorldBuilds(b, gid, w, events[0]);
      WorldsBuild(b, gid, After(b, gid, w, events[0]), events[1..], w');
    }
  }

  lemma WorldBuilds(b: Baseline, gid: int, w: World, e: Event)
    requires Buildable(b, w.state) && Possible(b, gid, w, e)
    ensures Buildable(b, After(b, gid, w, e).state)
  {
    if !e.Read? {
      var step := if e.Write? then Writing(gid, w.seen[e.client], e.change, e.disk) else e.step;
      CommitsAreAtomic(b, w.state, step, Buildable(b, Candidate(b, w.state, step)));
    }
  }

  /** Whatever happens from here on, any write accepted on this reading is computed from what the group
      then has. */
  ghost predicate Safe(b: Baseline, gid: int, w: World, client: nat)
    requires client in w.seen
  {
    forall es, w', next, disk ::
      Happens(b, gid, w, es, w') && client in w'.seen && w'.seen[client] == w.seen[client]
      && Accepted(TryCommit(b, w'.state, OnGroup(gid, w.seen[client].revision, next, disk)).1)
      ==> RecordOf(w'.state, gid).overrides == w.seen[client].overrides
  }

  /** What a client has read, in whatever interleaving, is safe to write on exactly when the group is a
      configured one, which never leaves, or it was read at its first revision, where there is only one
      thing to read. */
  lemma ReadingIsSafeExactlyWhen(b: Baseline, gid: int, s: State, events: seq<Event>, w: World, client: nat)
    requires Buildable(b, s) && IsGroup(b, s, gid) && ValidGroup(Base(b, gid), map[])
    requires RecordOf(s, gid).revision == 0 ==> RecordOf(s, gid).overrides == map[]
    requires Happens(b, gid, Opened(s, gid), events, w) && client in w.seen
    ensures Safe(b, gid, w, client) <==> gid in Configured(b) || w.seen[client].revision == 0
  {
    ClientsStayInStep(b, gid, Opened(s, gid), events, w);
    FirstRunsEmpty(b, gid, Opened(s, gid), events, w);
    if gid in Configured(b) || w.seen[client].revision == 0 {
      forall es, w', next, disk |
        Happens(b, gid, w, es, w') && client in w'.seen && w'.seen[client] == w.seen[client]
        && Accepted(TryCommit(b, w'.state, OnGroup(gid, w.seen[client].revision, next, disk)).1)
        ensures RecordOf(w'.state, gid).overrides == w.seen[client].overrides
      {
        AcceptedIsCurrent(b, gid, w, es, w', client, next, disk);
      }
    } else {
      WorldsBuild(b, gid, Opened(s, gid), events, w);
      assert gid != 0 by { assert Registered(s.registration, gid); }
      var es, w' := UpdateCanBeLost(b, gid, w, client);
      assert !Safe(b, gid, w, client);
    }
  }

  lemma AcceptedIsCurrent(
    b: Baseline, gid: int, w: World, es: seq<Event>, w': World, client: nat, next: Overrides, disk: Disk)
    requires InStep(b, gid, w) && FirstIsEmpty(gid, w) && Happens(b, gid, w, es, w') && client in w'.seen
    requires gid in Configured(b) || w'.seen[client].revision == 0
    requires Accepted(TryCommit(b, w'.state, OnGroup(gid, w'.seen[client].revision, next, disk)).1)
    ensures RecordOf(w'.state, gid).overrides == w'.seen[client].overrides
  {
    ClientsStayInStep(b, gid, w, es, w');
    FirstRunsEmpty(b, gid, w, es, w');
    WriteShape(b, gid, w'.state, w'.seen[client], (o: Overrides) => next, disk);
  }
}

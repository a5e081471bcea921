/** When the store accepts a change, and what the settings come to then, in terms of the change alone. */
module SettingsLaws {
  import opened Options
  import opened Settings
  import opened Registrations
  import opened RegistrationRules
  import opened SettingsStore
  import Clients = SettingsClients
  import Globals = SettingsGlobals

  predicate Written(disk: Disk) { disk.durable ==> disk.works }

  lemma GroupCandidateBuilds(b: Baseline, s: State, gid: int, next: Overrides)
    requires Buildable(b, s) && IsGroup(b, s, gid)
    ensures Buildable(b, WithGroup(b, s, gid, next)) <==> ValidGroup(Base(b, gid), Compact(Base(b, gid), next))
  {
    BuildsExactlyWhen(b, s);
    BuildsExactlyWhen(b, WithGroup(b, s, gid, next));
    assert RecordOf(WithGroup(b, s, gid, next), gid).overrides == Compact(Base(b, gid), next);
  }

  /** A group's settings can be changed exactly where writing is allowed, for a group the bot serves, at
      its current revision, to what is stored already, or to anything valid that reaches the disk; then
      every field comes to what was asked for, and otherwise nothing changes. */
  lemma GroupChangeAcceptedExactlyWhen(b: Baseline, s: State, gid: int, expected: nat, next: Overrides, disk: Disk)
    requires Buildable(b, s)
    ensures var (s', out) := TryCommit(b, s, OnGroup(gid, expected, next, disk));
      var (base, r) := (Base(b, gid), RecordOf(s, gid));
      && (Accepted(out) <==>
            && disk.writable && (gid in Configured(b) || Registered(s.registration, gid)) && r.revision == expected
            && (r.overrides == Compact(base, next) || (ValidGroup(base, Compact(base, next)) && Written(disk))))
      && (Accepted(out) ==>
            forall f :: Effective(base, RecordOf(s', gid).overrides, f).value == Effective(base, next, f).value)
      && (!Accepted(out) ==> s' == s)
  {
    if IsGroup(b, s, gid) { GroupCandidateBuilds(b, s, gid, next); }
    forall f ensures Effective(Base(b, gid), Compact(Base(b, gid), next), f).value == Effective(Base(b, gid), next, f).value {
      CompactKeepsEffective(Base(b, gid), next, f);
    }
  }

  lemma GlobalCandidateBuilds(b: Baseline, s: State, next: GlobalOverrides)
    requires Buildable(b, s)
    ensures Buildable(b, WithGlobal(b, s, next)) <==> EffectiveGlobal(b, next).perMinute > 0
  {
    BuildsExactlyWhen(b, s);
    BuildsExactlyWhen(b, WithGlobal(b, s, next));
    CompactGlobalKeepsEffective(b, next, next);
    assert forall gid :: RecordOf(WithGlobal(b, s, next), gid) == RecordOf(s, gid);
  }

  /** The bot-wide settings likewise; what they have to keep is a positive number of private queries. */
  lemma GlobalChangeAcceptedExactlyWhen(b: Baseline, s: State, expected: nat, next: GlobalOverrides, disk: Disk)
    requires Buildable(b, s)
    ensures var (s', out) := TryCommit(b, s, OnGlobal(expected, next, disk));
      && (Accepted(out) <==>
            && disk.writable && s.globalRevision == expected
            && (s.global == CompactGlobal(b, next) || (EffectiveGlobal(b, next).perMinute > 0 && Written(disk))))
      && (Accepted(out) ==> EffectiveGlobal(b, s'.global) == EffectiveGlobal(b, next))
      && (!Accepted(out) ==> s' == s)
  {
    GlobalCandidateBuilds(b, s, next);
    CompactGlobalKeepsEffective(b, next, next);
  }

  lemma RegistrationCandidateBuilds(b: Baseline, s: State, next: Registration)
    requires Buildable(b, s)
    ensures Buildable(b, WithRegistration(b, s, next)) <==>
      && ValidRegistration(Configured(b), next)
      && forall gid | gid !in Configured(b) && Registered(next, gid) && !Registered(s.registration, gid) ::
           ValidGroup(Base(b, gid), RecordOf(s, gid).overrides)
  {
    var s' := WithRegistration(b, s, next);
    BuildsExactlyWhen(b, s);
    BuildsExactlyWhen(b, s');
    assert ValidRegistration(Configured(b), s'.registration) == ValidRegistration(Configured(b), next);
    assert forall gid :: Registered(s'.registration, gid) == Registered(next, gid);
    assert forall gid | gid in Configured(b) || Registered(next, gid) :: RecordOf(s', gid) == RecordOf(s, gid);
  }

  /** The registration record is changed only on a disk, at the current revision, to what it is already,
      or to a valid record; groups that enter must be good with what is stored of them. */
  lemma RegistrationChangeAcceptedExactlyWhen(b: Baseline, s: State, expected: nat, next: Passed, disk: Disk)
    requires Buildable(b, s)
    ensures var (s', out) := TryCommit(b, s, OnRegistration(expected, next, disk));
      && (Accepted(out) <==>
            && disk.writable && disk.durable && s.registration.revision == expected == next.revision
            && (SameRegistration(s.registration, next)
                || (disk.works && ValidRegistration(Configured(b), Content(next))
                    && forall gid | gid !in Configured(b) && Registered(Content(next), gid) && !Registered(s.registration, gid) ::
                         ValidGroup(Base(b, gid), RecordOf(s, gid).overrides))))
      && (Accepted(out) ==> s'.registration == Content(next).(revision := s'.registration.revision))
      && (!Accepted(out) ==> s' == s)
  {
    RegistrationCandidateBuilds(b, s, Content(next));
  }

  // ---- Clients ----

  /** A client that reads a group and writes at once is accepted if what it asks for is there already or
      is valid and reaches the disk, and leaves what it computed. */
  lemma UndisturbedWriteIsAccepted(
    b: Baseline, gid: int, w: Clients.World, client: nat, change: Overrides -> Overrides, disk: Disk)
    requires Buildable(b, w.state) && IsGroup(b, w.state, gid)
    ensures var (read, write) := (Clients.Read(client), Clients.Write(client, change, disk));
      var (base, r) := (Base(b, gid), RecordOf(w.state, gid));
      var stored := Compact(base, change(r.overrides));
      && Clients.Possible(b, gid, w, read) && Clients.Possible(b, gid, Clients.After(b, gid, w, read), write)
      && var w' := Clients.After(b, gid, Clients.After(b, gid, w, read), write);
      if disk.writable && (r.overrides == stored || (ValidGroup(base, stored) && Written(disk)))
      then RecordOf(w'.state, gid).overrides == stored && w'.log == w.log + [Clients.Entry(w.life, r.overrides, change)]
      else w'.state == w.state && w'.log == w.log
  {
    GroupChangeAcceptedExactlyWhen(b, w.state, gid, RecordOf(w.state, gid).revision, change(RecordOf(w.state, gid).overrides), disk);
  }

  lemma UndisturbedGlobalWriteIsAccepted(
    b: Baseline, w: Globals.World, client: nat, change: GlobalOverrides -> GlobalOverrides, disk: Disk)
    requires Buildable(b, w.state)
    ensures var (read, write) := (Globals.Read(client), Globals.Write(client, change, disk));
      var wanted := EffectiveGlobal(b, change(w.state.global));
      && Globals.Possible(w, read) && Globals.Possible(Globals.After(b, w, read), write)
      && var w' := Globals.After(b, Globals.After(b, w, read), write);
      if disk.writable && (EffectiveGlobal(b, w.state.global) == wanted || (wanted.perMinute > 0 && Written(disk)))
      then EffectiveGlobal(b, w'.state.global) == wanted
      else w'.state == w.state
  {
    GlobalChangeAcceptedExactlyWhen(b, w.state, w.state.globalRevision, change(w.state.global), disk);
  }
}

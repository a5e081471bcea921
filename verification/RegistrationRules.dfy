/** Every registration change keeps the record valid, touches one group only, and spends what it
    uses; and drift between the record and the configuration is reconciled. */
module RegistrationRules {
  import opened Options
  import opened Registrations

  lemma GroupsWith(configured: set<int>, gs: seq<RegisteredGroup>, g: RegisteredGroup)
    requires ValidGroups(configured, gs) && FirstGroup(gs, g.gid) == |gs|
    ensures ValidGroups(configured, gs + [g]) <==> g.gid != 0 && g.registeredBy > 0 && g.gid !in configured
  {
    assert (gs + [g])[|gs|] == g;
  }

  lemma RegisteredWith(r: Registration, g: RegisteredGroup, gid: int)
    ensures Registered(r.(groups := r.groups + [g]), gid) <==> Registered(r, gid) || g.gid == gid
  {
    var r' := r.(groups := r.groups + [g]);
    assert r'.groups[|r.groups|] == g;
    if Registered(r, gid) {
      var i :| 0 <= i < |r.groups| && r.groups[i].gid == gid;
      assert r'.groups[i].gid == gid;
    }
  }

  lemma FirstGroupRegistered(r: Registration, gid: int)
    ensures Registered(r, gid) <==> FirstGroup(r.groups, gid) < |r.groups|
  {
  }

  lemma RemovalsStayApart(ps: seq<PendingRegistration>, ls: seq<UnknownLeave>, gid: int)
    requires ValidPending(ps) && ValidLeaves(ls) && Apart(ps, ls)
    ensures Apart(RemovePending(ps, gid), RemoveLeave(ls, gid))
  {
    RemovePendingKeeps(ps, gid);
    RemoveLeaveKeeps(ls, gid);
    ApartByElements(ps, ls);
    ApartByElements(RemovePending(ps, gid), RemoveLeave(ls, gid));
  }

  lemma PuttingStaysApart(ps: seq<PendingRegistration>, ls: seq<UnknownLeave>, p: PendingRegistration)
    requires ValidPending(ps) && ValidLeaves(ls) && Apart(ps, ls)
    ensures Apart(PutPendingIn(ps, p), RemoveLeave(ls, p.gid))
  {
    PutPendingKeeps(ps, p);
    RemoveLeaveKeeps(ls, p.gid);
    ApartByElements(ps, ls);
    ApartByElements(PutPendingIn(ps, p), RemoveLeave(ls, p.gid));
  }

  lemma LeavingStaysApart(ps: seq<PendingRegistration>, ls: seq<UnknownLeave>, l: UnknownLeave)
    requires ValidPending(ps) && ValidLeaves(ls) && Apart(ps, ls) && l.gid != 0 && l.expiresAt > 0
    requires !Awaiting(ps, l.gid)
    ensures Apart(ps, PutLeave(ls, l))
  {
    PutLeaveKeeps(ls, l);
    ApartByElements(ps, ls);
    ApartByElements(ps, PutLeave(ls, l));
  }

  /** Adding a group gives a valid record exactly when the group was there already, or it may be
      added: it is not configured, and a real user adds it. */
  lemma AddGroupValidExactlyWhen(configured: set<int>, r: Registration, gid: int, actor: int, title: string, noGroups: bool)
    requires ValidRegistration(configured, r)
    ensures ValidRegistration(configured, AddGroup(r, gid, actor, title, noGroups))
       <==> Registered(r, gid) || (gid != 0 && gid !in configured && actor > 0)
  {
    var r' := AddGroup(r, gid, actor, title, noGroups);
    RemovePendingKeeps(r.pending, gid);
    RemoveLeaveKeeps(r.leaves, gid);
    RemovalsStayApart(r.pending, r.leaves, gid);
    FirstGroupRegistered(r, gid);
    if !Registered(r, gid) {
      var g := RegisteredGroup(gid, actor, title);
      GroupsWith(configured, r.groups, g);
      RegisteredWith(r, g, r'.control);
      assert Registered(r', r'.control) <==> Registered(r.(groups := r.groups + [g]), r'.control);
    }
  }

  lemma PutPendingValidExactlyWhen(configured: set<int>, r: Registration, p: PendingRegistration)
    requires ValidRegistration(configured, r)
    ensures ValidRegistration(configured, PutPending(r, p)) <==> p.gid != 0 && p.registeredBy != 0 && p.expiresAt > 0
  {
    PutPendingKeeps(r.pending, p);
    RemoveLeaveKeeps(r.leaves, p.gid);
    PuttingStaysApart(r.pending, r.leaves, p);
    assert Registered(PutPending(r, p), r.control) <==> Registered(r, r.control);
  }

  lemma DroppingNonceKeeps(ns: seq<EnrollmentNonce>, i: nat)
    requires ValidNonces(ns) && i < |ns|
    ensures ValidNonces(DropAt(ns, i)) && !Issued(DropAt(ns, i), ns[i].nonce)
    ensures forall n | n in DropAt(ns, i) :: n in ns
  {
    var ms := DropAt(ns, i);
    forall j | 0 <= j < |ms| ensures ms[j] == ns[if j < i then j else j + 1] {}
  }

  lemma {:induction false} UnexpiredHolds(ns: seq<EnrollmentNonce>, now: int)
    ensures forall n :: n in Unexpired(ns, now) <==> n in ns && now < n.expiresAt
  {
    if ns != [] {
      UnexpiredHolds(ns[1..], now);
      assert ns == [ns[0]] + ns[1..];
    }
  }

  lemma ValidRest(ns: seq<EnrollmentNonce>)
    requires ValidNonces(ns) && ns != []
    ensures ValidNonces(ns[1..]) && ValidNonces([ns[0]]) && forall n | n in ns[1..] :: n.nonce != ns[0].nonce
  {
  }

  lemma ValidOnceJoined(n: EnrollmentNonce, ns: seq<EnrollmentNonce>)
    requires ValidNonces([n]) && ValidNonces(ns) && forall m | m in ns :: m.nonce != n.nonce
    ensures ValidNonces([n] + ns)
  {
    assert [n][0] == n;
  }

  lemma {:induction false} UnexpiredIsValid(ns: seq<EnrollmentNonce>, now: int)
    requires ValidNonces(ns)
    ensures ValidNonces(Unexpired(ns, now))
  {
    if ns != [] {
      ValidRest(ns);
      UnexpiredIsValid(ns[1..], now);
      UnexpiredHolds(ns[1..], now);
      if now < ns[0].expiresAt { ValidOnceJoined(ns[0], Unexpired(ns[1..], now)); }
    }
  }

  lemma UnexpiredKeeps(ns: seq<EnrollmentNonce>, now: int)
    ensures forall n :: n in Unexpired(ns, now) <==> n in ns && now < n.expiresAt
    ensures ValidNonces(ns) ==> ValidNonces(Unexpired(ns, now))
  {
    UnexpiredHolds(ns, now);
    if ValidNonces(ns) { UnexpiredIsValid(ns, now); }
  }

  lemma IssuingKeeps(ns: seq<EnrollmentNonce>, now: int, n: EnrollmentNonce)
    requires ValidNonces(ns) && n.nonce != "" && n.issuedBy != 0 && n.expiresAt > 0 && !Issued(ns, n.nonce)
    ensures ValidNonces(Unexpired(ns, now) + [n])
  {
    UnexpiredKeeps(ns, now);
    var kept := Unexpired(ns, now);
    forall j | 0 <= j < |kept| ensures kept[j].nonce != n.nonce {
      assert kept[j] in ns;
    }
  }

  lemma DroppingGroupKeeps(configured: set<int>, r: Registration, i: nat)
    requires ValidGroups(configured, r.groups) && i < |r.groups|
    ensures ValidGroups(configured, DropAt(r.groups, i))
    ensures forall g :: Registered(r.(groups := DropAt(r.groups, i)), g) <==> Registered(r, g) && g != r.groups[i].gid
  {
    var gs := DropAt(r.groups, i);
    var r' := r.(groups := gs);
    forall j | 0 <= j < |gs| ensures gs[j] == r.groups[if j < i then j else j + 1] {}
    forall g | Registered(r, g) && g != r.groups[i].gid ensures Registered(r', g) {
      var j :| 0 <= j < |r.groups| && r.groups[j].gid == g;
      assert gs[if j < i then j else j - 1].gid == g;
    }
  }

  // ---- Every change ----

  /** What every caller sees to: real groups and actors, a clock past 1970, and tokens that are not
      empty. */
  predicate Genuine(change: Change, now: int) {
    now > 0 &&
    match change
    case Enroll(gid, actor, _, _) => gid != 0 && actor > 0
    case Authorize(gid, actor, _) => gid != 0 && actor > 0
    case NoteLeave(gid, _, deadline) => gid != 0 && deadline > 0
    case EnsureClaim(claim, _) => claim != ""
    case IssueNonce(_, nonce, _) => nonce != ""
    case _ => true
  }

  /** The change would register a group that config.json lists. Nothing keeps a caller from trying: an
      enrollment payload is accepted in whatever group it was sent to. */
  predicate RegistersConfigured(configured: set<int>, change: Change, facts: Facts) {
    match change
    case Enroll(gid, _, _, _) => gid in configured && facts.membership.Admin?
    case Authorize(gid, _, _) => gid in configured && facts.membership.Admin?
    case Complete(gid, _) => gid in configured
    case _ => false
  }

  predicate PendingActors(r: Registration) { forall i | 0 <= i < |r.pending| :: r.pending[i].registeredBy > 0 }

  /** What else a change relies on: real actors behind what is pending, and a nonce nobody holds. */
  predicate Grounded(r: Registration, change: Change) {
    (change.Complete? ==> PendingActors(r)) && (change.IssueNonce? ==> !Issued(r.nonces, change.nonce))
  }

  lemma EnrollValidExactlyWhen(configured: set<int>, r: Registration, change: Change, facts: Facts)
    requires change.Enroll? && ValidRegistration(configured, r) && Genuine(change, facts.now)
    requires Propose(r, change, facts).Commit?
    ensures ValidRegistration(configured, Propose(r, change, facts).next) <==> !RegistersConfigured(configured, change, facts)
  {
    var i := FirstNonce(r.nonces, change.nonce, r.owner, facts.now);
    DroppingNonceKeeps(r.nonces, i);
    var r' := r.(nonces := DropAt(r.nonces, i));
    assert Registered(r', r.control) <==> Registered(r, r.control);
    AddGroupValidExactlyWhen(configured, r', change.gid, change.actor, change.title, facts.noGroups);
    PutPendingValidExactlyWhen(configured, r', PendingUntil(change.gid, change.actor, change.title, facts.now));
  }

  lemma ExpireKeepsValid(configured: set<int>, r: Registration, change: Change, facts: Facts)
    requires change.ExpirePending? && ValidRegistration(configured, r) && Propose(r, change, facts).Commit?
    ensures ValidRegistration(configured, Propose(r, change, facts).next)
  {
    var i := FirstPending(r.pending, change.gid);
    if i < |r.pending| && r.pending[i].expiresAt == change.expected.expiresAt {
      var l := UnknownLeave(change.gid, r.pending[i].title, r.pending[i].expiresAt);
      RemovePendingKeeps(r.pending, change.gid);
      ApartByElements(r.pending, r.leaves);
      ApartByElements(RemovePending(r.pending, change.gid), r.leaves);
      PutLeaveKeeps(r.leaves, l);
      LeavingStaysApart(RemovePending(r.pending, change.gid), r.leaves, l);
      assert Registered(Propose(r, change, facts).next, r.control) <==> Registered(r, r.control);
    }
  }

  lemma UnregisterKeepsValid(configured: set<int>, r: Registration, change: Change, facts: Facts)
    requires change.Unregister? && ValidRegistration(configured, r) && facts.now > 0 && Propose(r, change, facts).Commit?
    ensures ValidRegistration(configured, Propose(r, change, facts).next)
  {
    var i := FirstGroup(r.groups, change.gid);
    var l := UnknownLeave(change.gid, r.groups[i].title, facts.now);
    DroppingGroupKeeps(configured, r, i);
    RemovePendingKeeps(r.pending, change.gid);
    ApartByElements(r.pending, r.leaves);
    ApartByElements(RemovePending(r.pending, change.gid), r.leaves);
    PutLeaveKeeps(r.leaves, l);
    LeavingStaysApart(RemovePending(r.pending, change.gid), r.leaves, l);
    var next := Propose(r, change, facts).next;
    assert forall g :: Registered(next, g) <==> Registered(r.(groups := DropAt(r.groups, i)), g);
  }

  lemma NoteLeaveKeepsValid(configured: set<int>, r: Registration, change: Change, facts: Facts)
    requires change.NoteLeave? && ValidRegistration(configured, r) && Genuine(change, facts.now)
    requires Propose(r, change, facts).Commit?
    ensures ValidRegistration(configured, Propose(r, change, facts).next)
  {
    var l := UnknownLeave(change.gid, change.title, change.deadline);
    PutLeaveKeeps(r.leaves, l);
    LeavingStaysApart(r.pending, r.leaves, l);
    assert Registered(Propose(r, change, facts).next, r.control) <==> Registered(r, r.control);
  }

  lemma ClearLeaveKeepsValid(configured: set<int>, r: Registration, gid: int)
    requires ValidRegistration(configured, r)
    ensures ValidRegistration(configured, r.(leaves := RemoveLeave(r.leaves, gid)))
  {
    RemoveLeaveKeeps(r.leaves, gid);
    ApartByElements(r.pending, r.leaves);
    ApartByElements(r.pending, RemoveLeave(r.leaves, gid));
    assert Registered(r.(leaves := RemoveLeave(r.leaves, gid)), r.control) <==> Registered(r, r.control);
  }

  lemma OwnerChangeKeepsValid(configured: set<int>, r: Registration, change: Change, facts: Facts)
    requires change.EnsureClaim? || change.ClaimOwner? || change.IssueNonce?
    requires ValidRegistration(configured, r) && Genuine(change, facts.now) && Grounded(r, change)
    requires Propose(r, change, facts).Commit?
    ensures ValidRegistration(configured, Propose(r, change, facts).next)
  {
    var next := Propose(r, change, facts).next;
    assert Registered(next, r.control) <==> Registered(r, r.control);
    if change.IssueNonce? {
      IssuingKeeps(r.nonces, facts.now, EnrollmentNonce(change.nonce, change.issuer, facts.now + change.lifetime));
    }
  }

  /** A change to a valid record gives a valid one exactly when it does not register a configured
      group; so the validation before a commit refuses just that, and never anything else. */
  lemma ChangeValidExactlyWhen(configured: set<int>, r: Registration, change: Change, facts: Facts)
    requires ValidRegistration(configured, r) && Genuine(change, facts.now) && Grounded(r, change)
    requires Propose(r, change, facts).Commit?
    ensures ValidRegistration(configured, Propose(r, change, facts).next) <==> !RegistersConfigured(configured, change, facts)
  {
    match change
    case Enroll(_, _, _, _) => EnrollValidExactlyWhen(configured, r, change, facts);
    case Authorize(gid, actor, title) =>
      AddGroupValidExactlyWhen(configured, r, gid, actor, title, facts.noGroups);
      PutPendingValidExactlyWhen(configured, r, PendingUntil(gid, actor, title, facts.now));
    case Complete(gid, _) =>
      var p := r.pending[FirstPending(r.pending, gid)];
      AddGroupValidExactlyWhen(configured, r, gid, p.registeredBy, p.title, facts.noGroups);
    case ExpirePending(_, _) => ExpireKeepsValid(configured, r, change, facts);
    case NoteLeave(_, _, _) => NoteLeaveKeepsValid(configured, r, change, facts);
    case Unregister(_) => UnregisterKeepsValid(configured, r, change, facts);
    case ClearLeave(gid) => ClearLeaveKeepsValid(configured, r, gid);
    case EnsureClaim(_, _) => OwnerChangeKeepsValid(configured, r, change, facts);
    case ClaimOwner(_, _) => OwnerChangeKeepsValid(configured, r, change, facts);
    case IssueNonce(_, _, _) => OwnerChangeKeepsValid(configured, r, change, facts);
  }

  // ---- Drift between the record and the configuration ----

  function Unconfigured(configured: set<int>, gs: seq<RegisteredGroup>): seq<RegisteredGroup> {
    if gs == [] then []
    else if gs[0].gid in configured then Unconfigured(configured, gs[1..])
    else [gs[0]] + Unconfigured(configured, gs[1..])
  }

  /** `reconcileWithBaseline`. */
  function Reconcile(configured: set<int>, r: Registration): Registration {
    var r' := r.(groups := Unconfigured(configured, r.groups));
    if r.control != 0 && r.control !in configured && !Registered(r', r.control) then r'.(control := 0) else r'
  }

  lemma {:induction false} UnconfiguredKeeps(configured: set<int>, gs: seq<RegisteredGroup>)
    ensures forall g :: g in Unconfigured(configured, gs) <==> g in gs && g.gid !in configured
    ensures (forall i | 0 <= i < |gs| :: gs[i].gid !in configured) ==> Unconfigured(configured, gs) == gs
  {
    if gs != [] {
      UnconfiguredKeeps(configured, gs[1..]);
      assert gs == [gs[0]] + gs[1..];
    }
  }

  lemma ValidGroupsRest(configured: set<int>, gs: seq<RegisteredGroup>)
    requires ValidGroups(configured, gs) && gs != []
    ensures ValidGroups(configured, gs[1..]) && ValidGroups({}, [gs[0]]) && forall g | g in gs[1..] :: g.gid != gs[0].gid
  {
  }

  lemma ValidGroupsJoined(configured: set<int>, g: RegisteredGroup, gs: seq<RegisteredGroup>)
    requires ValidGroups({}, [g]) && g.gid !in configured && ValidGroups(configured, gs) && forall h | h in gs :: h.gid != g.gid
    ensures ValidGroups(configured, [g] + gs)
  {
    assert [g][0] == g;
  }

  lemma {:induction false} UnconfiguredIsValid(before: set<int>, configured: set<int>, gs: seq<RegisteredGroup>)
    requires ValidGroups(before, gs)
    ensures ValidGroups(configured, Unconfigured(configured, gs))
  {
    if gs != [] {
      ValidGroupsRest(before, gs);
      UnconfiguredIsValid(before, configured, gs[1..]);
      UnconfiguredKeeps(configured, gs[1..]);
      if gs[0].gid !in configured { ValidGroupsJoined(configured, gs[0], Unconfigured(configured, gs[1..])); }
    }
  }

  /** A record that was valid under one configuration is reconciled into a valid one under any
      other, and a record that is valid already is left alone. */
  lemma ReconcileMendsDrift(before: set<int>, after: set<int>, r: Registration)
    requires ValidRegistration(before, r)
    ensures ValidRegistration(after, Reconcile(after, r))
    ensures ValidRegistration(after, r) ==> Reconcile(after, r) == r
    ensures forall gid :: Registered(Reconcile(after, r), gid) <==> Registered(r, gid) && gid !in after
  {
    UnconfiguredKeeps(after, r.groups);
    UnconfiguredIsValid(before, after, r.groups);
    var r' := Reconcile(after, r);
    forall gid ensures Registered(r', gid) <==> Registered(r, gid) && gid !in after {
      if Registered(r', gid) {
        var i :| 0 <= i < |r'.groups| && r'.groups[i].gid == gid;
        assert r'.groups[i] in r.groups;
      }
      if Registered(r, gid) && gid !in after {
        var i :| 0 <= i < |r.groups| && r.groups[i].gid == gid;
        assert r.groups[i] in r'.groups;
      }
    }
  }
}

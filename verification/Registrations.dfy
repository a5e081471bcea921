/** Who owns the bot, which groups it serves, which it may come to serve and which it must leave:
    the registration record, what makes it valid, and every change made to it. */
module Registrations {
  import opened Options

  const REGISTRATION_PENDING: int := 600 // seconds

  datatype RegisteredGroup = RegisteredGroup(gid: int, registeredBy: int, title: string)
  datatype EnrollmentNonce = EnrollmentNonce(nonce: string, issuedBy: int, expiresAt: int)
  datatype PendingRegistration = PendingRegistration(gid: int, registeredBy: int, title: string, expiresAt: int)
  datatype UnknownLeave = UnknownLeave(gid: int, title: string, expiresAt: int)

  datatype Registration = Registration(
    revision: nat, owner: int, claim: string, claimExpires: int, control: int,
    groups: seq<RegisteredGroup>, nonces: seq<EnrollmentNonce>,
    pending: seq<PendingRegistration>, leaves: seq<UnknownLeave>)

  // ---- Lists searched by group ----

  predicate Registered(r: Registration, gid: int) { exists i :: 0 <= i < |r.groups| && r.groups[i].gid == gid }
  predicate Awaiting(ps: seq<PendingRegistration>, gid: int) { exists i :: 0 <= i < |ps| && ps[i].gid == gid }
  predicate Leaving(ls: seq<UnknownLeave>, gid: int) { exists i :: 0 <= i < |ls| && ls[i].gid == gid }
  predicate Issued(ns: seq<EnrollmentNonce>, nonce: string) { exists i :: 0 <= i < |ns| && ns[i].nonce == nonce }

  /** The index of the first element that `hit` accepts, or the length. */
  function First<T>(s: seq<T>, hit: T -> bool): (i: nat)
    ensures i <= |s| && (i < |s| ==> hit(s[i])) && forall j | 0 <= j < i :: !hit(s[j])
  {
    if s == [] then 0 else if hit(s[0]) then 0 else 1 + First(s[1..], hit)
  }

  lemma FirstIs<T>(s: seq<T>, hit: T -> bool, i: nat)
    requires i <= |s| && (i < |s| ==> hit(s[i])) && forall j | 0 <= j < i :: !hit(s[j])
    ensures First(s, hit) == i
  {
  }

  function DropAt<T>(s: seq<T>, i: nat): seq<T> { if i < |s| then s[..i] + s[i + 1..] else s }

  function FirstPending(ps: seq<PendingRegistration>, gid: int): nat { First(ps, (p: PendingRegistration) => p.gid == gid) }
  function FirstLeave(ls: seq<UnknownLeave>, gid: int): nat { First(ls, (l: UnknownLeave) => l.gid == gid) }
  function FirstGroup(gs: seq<RegisteredGroup>, gid: int): nat { First(gs, (g: RegisteredGroup) => g.gid == gid) }

  function FirstNonce(ns: seq<EnrollmentNonce>, nonce: string, owner: int, now: int): nat {
    First(ns, (n: EnrollmentNonce) => n.nonce == nonce && n.issuedBy == owner && now < n.expiresAt)
  }

  // ---- Validity ----

  predicate ValidGroups(configured: set<int>, gs: seq<RegisteredGroup>) {
    && (forall i | 0 <= i < |gs| :: gs[i].gid != 0 && gs[i].registeredBy > 0 && gs[i].gid !in configured)
    && (forall i, j | 0 <= i < j < |gs| :: gs[i].gid != gs[j].gid)
  }

  predicate ValidNonces(ns: seq<EnrollmentNonce>) {
    && (forall i | 0 <= i < |ns| :: ns[i].nonce != "" && ns[i].issuedBy != 0 && ns[i].expiresAt > 0)
    && (forall i, j | 0 <= i < j < |ns| :: ns[i].nonce != ns[j].nonce)
  }

  predicate ValidPending(ps: seq<PendingRegistration>) {
    && (forall i | 0 <= i < |ps| :: ps[i].gid != 0 && ps[i].registeredBy != 0 && ps[i].expiresAt > 0)
    && (forall i, j | 0 <= i < j < |ps| :: ps[i].gid != ps[j].gid)
  }

  predicate ValidLeaves(ls: seq<UnknownLeave>) {
    && (forall i | 0 <= i < |ls| :: ls[i].gid != 0 && ls[i].expiresAt > 0)
    && (forall i, j | 0 <= i < j < |ls| :: ls[i].gid != ls[j].gid)
  }

  /** A group is never both pending registration and awaiting leave. */
  predicate Apart(ps: seq<PendingRegistration>, ls: seq<UnknownLeave>) {
    forall i, j | 0 <= i < |ps| && 0 <= j < |ls| :: ps[i].gid != ls[j].gid
  }

  predicate ValidOwner(r: Registration) {
    r.owner >= 0 && (r.claim == "" <==> r.claimExpires == 0) && (r.claim != "" ==> r.claimExpires > 0) &&
    (r.owner != 0 ==> r.claim == "")
  }

  /** `validateRegistrations`. */
  predicate ValidRegistration(configured: set<int>, r: Registration) {
    && ValidOwner(r) && ValidGroups(configured, r.groups) && ValidNonces(r.nonces)
    && ValidPending(r.pending) && ValidLeaves(r.leaves) && Apart(r.pending, r.leaves)
    && (r.control == 0 || r.control in configured || Registered(r, r.control))
  }

  // ---- Edits ----

  function RemovePending(ps: seq<PendingRegistration>, gid: int): seq<PendingRegistration> { DropAt(ps, FirstPending(ps, gid)) }
  function RemoveLeave(ls: seq<UnknownLeave>, gid: int): seq<UnknownLeave> { DropAt(ls, FirstLeave(ls, gid)) }

  function PutPendingIn(ps: seq<PendingRegistration>, p: PendingRegistration): seq<PendingRegistration> {
    var i := FirstPending(ps, p.gid);
    if i < |ps| then ps[i := p] else ps + [p]
  }

  /** A leave already noted is only ever postponed. */
  function PutLeave(ls: seq<UnknownLeave>, l: UnknownLeave): seq<UnknownLeave> {
    var i := FirstLeave(ls, l.gid);
    if i < |ls| then (if l.expiresAt > ls[i].expiresAt then ls[i := l] else ls) else ls + [l]
  }

  /** `addRegisteredGroup`; `noGroups` says that no group is effective yet. */
  function AddGroup(r: Registration, gid: int, actor: int, title: string, noGroups: bool): Registration {
    var groups := if FirstGroup(r.groups, gid) < |r.groups| then r.groups else r.groups + [RegisteredGroup(gid, actor, title)];
    r.(groups := groups, pending := RemovePending(r.pending, gid), leaves := RemoveLeave(r.leaves, gid),
       control := if r.control == 0 && noGroups then gid else r.control)
  }

  function PutPending(r: Registration, p: PendingRegistration): Registration {
    r.(leaves := RemoveLeave(r.leaves, p.gid), pending := PutPendingIn(r.pending, p))
  }

  // ---- Changes ----

  datatype Membership = Ineligible | Member | Admin

  datatype Change =
    | Enroll(gid: int, actor: int, title: string, nonce: string)
    | Authorize(gid: int, actor: int, title: string)
    | Complete(gid: int, expected: PendingRegistration)
    | ExpirePending(gid: int, expected: PendingRegistration)
    | NoteLeave(gid: int, title: string, deadline: int)
    | Unregister(gid: int)
    | ClearLeave(gid: int)
    | EnsureClaim(claim: string, lifetime: int)
    | ClaimOwner(user: int, claim: string)
    | IssueNonce(issuer: int, nonce: string, lifetime: int)

  /** What a change asks for: a commit, nothing, or an error for its caller. */
  datatype Proposal = Commit(next: Registration) | Skip | Refuse

  /** What the environment tells a change: the bot's own membership, the time in seconds, and
      whether any group is effective. */
  datatype Facts = Facts(membership: Membership, now: int, noGroups: bool)

  function PendingUntil(gid: int, actor: int, title: string, now: int): PendingRegistration {
    PendingRegistration(gid, actor, title, now + REGISTRATION_PENDING)
  }

  function Propose(r: Registration, change: Change, facts: Facts): Proposal {
    var now := facts.now;
    match change
    case Enroll(gid, actor, title, nonce) =>
      var i := FirstNonce(r.nonces, nonce, r.owner, now);
      if facts.membership.Ineligible? || i == |r.nonces| then Refuse
      else
        var r' := r.(nonces := DropAt(r.nonces, i));
        Commit(if facts.membership.Admin? then AddGroup(r', gid, actor, title, facts.noGroups)
               else PutPending(r', PendingUntil(gid, actor, title, now)))
    case Authorize(gid, actor, title) =>
      if facts.membership.Ineligible? then Refuse
      else if facts.membership.Admin? then Commit(AddGroup(r, gid, actor, title, facts.noGroups))
      else Commit(PutPending(r, PendingUntil(gid, actor, title, now)))
    case Complete(gid, expected) =>
      var i := FirstPending(r.pending, gid);
      if !facts.membership.Admin? then Skip
      else if i == |r.pending| || r.pending[i].expiresAt != expected.expiresAt || now >= r.pending[i].expiresAt then Refuse
      else Commit(AddGroup(r, gid, r.pending[i].registeredBy, r.pending[i].title, facts.noGroups))
    case ExpirePending(gid, expected) =>
      var i := FirstPending(r.pending, gid);
      if i == |r.pending| || r.pending[i].expiresAt != expected.expiresAt then Commit(r)
      else Commit(r.(pending := RemovePending(r.pending, gid),
                     leaves := PutLeave(r.leaves, UnknownLeave(gid, r.pending[i].title, r.pending[i].expiresAt))))
    case NoteLeave(gid, title, deadline) =>
      if !facts.membership.Member? then Skip
      else if FirstPending(r.pending, gid) < |r.pending| || FirstGroup(r.groups, gid) < |r.groups| then Refuse
      else Commit(r.(leaves := PutLeave(r.leaves, UnknownLeave(gid, title, deadline))))
    case Unregister(gid) =>
      var i := FirstGroup(r.groups, gid);
      if i == |r.groups| then Refuse
      else Commit(r.(groups := DropAt(r.groups, i), pending := RemovePending(r.pending, gid),
                     control := if r.control == gid then 0 else r.control,
                     leaves := PutLeave(r.leaves, UnknownLeave(gid, r.groups[i].title, now))))
    case ClearLeave(gid) => Commit(r.(leaves := RemoveLeave(r.leaves, gid)))
    case EnsureClaim(claim, lifetime) =>
      if lifetime <= 0 then Refuse
      else if r.owner != 0 || (r.claim != "" && now < r.claimExpires) then Skip
      else Commit(r.(claim := claim, claimExpires := now + lifetime))
    case ClaimOwner(user, claim) =>
      if user <= 0 || r.owner != 0 || r.claim == "" || r.claim != claim || now >= r.claimExpires then Refuse
      else Commit(r.(owner := user, claim := "", claimExpires := 0))
    case IssueNonce(issuer, nonce, lifetime) =>
      if lifetime <= 0 || r.owner == 0 || r.owner != issuer then Refuse
      else Commit(r.(nonces := Unexpired(r.nonces, now) + [EnrollmentNonce(nonce, issuer, now + lifetime)]))
  }

  function Unexpired(ns: seq<EnrollmentNonce>, now: int): seq<EnrollmentNonce> {
    if ns == [] then []
    else if now < ns[0].expiresAt then [ns[0]] + Unexpired(ns[1..], now)
    else Unexpired(ns[1..], now)
  }

  // ---- What the edits do to the lists ----

  lemma RemovePendingKeeps(ps: seq<PendingRegistration>, gid: int)
    requires ValidPending(ps)
    ensures ValidPending(RemovePending(ps, gid)) && !Awaiting(RemovePending(ps, gid), gid)
    ensures forall p :: p in RemovePending(ps, gid) <==> p in ps && p.gid != gid
  {
    var i := FirstPending(ps, gid);
    var qs := RemovePending(ps, gid);
    if i < |ps| {
      forall j | 0 <= j < |qs| ensures qs[j] == ps[if j < i then j else j + 1] {}
      forall p | p in ps && p.gid != gid ensures p in qs {
        var j :| 0 <= j < |ps| && ps[j] == p;
        assert p == qs[if j < i then j else j - 1];
      }
    }
  }

  lemma RemoveLeaveKeeps(ls: seq<UnknownLeave>, gid: int)
    requires ValidLeaves(ls)
    ensures ValidLeaves(RemoveLeave(ls, gid)) && !Leaving(RemoveLeave(ls, gid), gid)
    ensures forall l :: l in RemoveLeave(ls, gid) <==> l in ls && l.gid != gid
  {
    var i := FirstLeave(ls, gid);
    var ms := RemoveLeave(ls, gid);
    if i < |ls| {
      forall j | 0 <= j < |ms| ensures ms[j] == ls[if j < i then j else j + 1] {}
      forall l | l in ls && l.gid != gid ensures l in ms {
        var j :| 0 <= j < |ls| && ls[j] == l;
        assert l == ms[if j < i then j else j - 1];
      }
    }
  }

  lemma PutPendingKeeps(ps: seq<PendingRegistration>, p: PendingRegistration)
    requires ValidPending(ps)
    ensures ValidPending(PutPendingIn(ps, p)) <==> p.gid != 0 && p.registeredBy != 0 && p.expiresAt > 0
    ensures forall q :: q in PutPendingIn(ps, p) <==> q == p || (q in ps && q.gid != p.gid)
  {
    var i := FirstPending(ps, p.gid);
    var qs := PutPendingIn(ps, p);
    if i < |ps| {
      assert qs[i] == p;
      forall q | q in ps && q.gid != p.gid ensures q in qs {
        var j :| 0 <= j < |ps| && ps[j] == q;
        assert qs[j] == q;
      }
    } else {
      assert qs[|ps|] == p;
      forall q | q in ps ensures q in qs && q.gid != p.gid {
        var j :| 0 <= j < |ps| && ps[j] == q;
        assert qs[j] == q;
      }
    }
  }

  lemma PutLeaveKeeps(ls: seq<UnknownLeave>, l: UnknownLeave)
    requires ValidLeaves(ls) && l.gid != 0 && l.expiresAt > 0
    ensures ValidLeaves(PutLeave(ls, l)) && Leaving(PutLeave(ls, l), l.gid)
    ensures forall m | m in PutLeave(ls, l) :: m.gid == l.gid || m in ls
  {
    var i := FirstLeave(ls, l.gid);
    var ms := PutLeave(ls, l);
    if i < |ls| { assert ms[i].gid == l.gid; } else { assert ms[|ls|].gid == l.gid; }
  }

  lemma ApartByElements(ps: seq<PendingRegistration>, ls: seq<UnknownLeave>)
    ensures Apart(ps, ls) <==> forall p, l | p in ps && l in ls :: p.gid != l.gid
  {
  }
}

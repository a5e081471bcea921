/** The working copy a registration change edits in place before it is committed. */
module RegistrationDraft {
  import opened Options
  import opened Registrations

  class Draft {
    const revision: nat
    var owner: int
    var claim: string
    var claimExpires: int
    var control: int
    var groups: seq<RegisteredGroup>
    var nonces: seq<EnrollmentNonce>
    var pending: seq<PendingRegistration>
    var leaves: seq<UnknownLeave>

    /** `cloneRegistrationMutation`. */
    constructor (r: Registration)
      ensures Value() == r
    {
      revision, owner, claim, claimExpires, control := r.revision, r.owner, r.claim, r.claimExpires, r.control;
      groups, nonces, pending, leaves := r.groups, r.nonces, r.pending, r.leaves;
    }

    function Value(): Registration
      reads this
    {
      Registration(revision, owner, claim, claimExpires, control, groups, nonces, pending, leaves)
    }

    method PendingIndex(gid: int) returns (i: nat)
      ensures i == FirstPending(pending, gid)
    {
      i := 0;
      while i < |pending| && pending[i].gid != gid
        invariant i <= |pending| && forall j | 0 <= j < i :: pending[j].gid != gid
      {
        i := i + 1;
      }
      FirstIs(pending, (p: PendingRegistration) => p.gid == gid, i);
    }

    method LeaveIndex(gid: int) returns (i: nat)
      ensures i == FirstLeave(leaves, gid)
    {
      i := 0;
      while i < |leaves| && leaves[i].gid != gid
        invariant i <= |leaves| && forall j | 0 <= j < i :: leaves[j].gid != gid
      {
        i := i + 1;
      }
      FirstIs(leaves, (l: UnknownLeave) => l.gid == gid, i);
    }

    method GroupIndex(gid: int) returns (i: nat)
      ensures i == FirstGroup(groups, gid)
    {
      i := 0;
      while i < |groups| && groups[i].gid != gid
        invariant i <= |groups| && forall j | 0 <= j < i :: groups[j].gid != gid
      {
        i := i + 1;
      }
      FirstIs(groups, (g: RegisteredGroup) => g.gid == gid, i);
    }

    method NonceIndex(nonce: string, now: int) returns (i: nat)
      ensures i == FirstNonce(nonces, nonce, owner, now)
    {
      ghost var issuer := owner;
      i := 0;
      while i < |nonces| && !(nonces[i].nonce == nonce && nonces[i].issuedBy == owner && now < nonces[i].expiresAt)
        invariant i <= |nonces|
        invariant forall j | 0 <= j < i :: !(nonces[j].nonce == nonce && nonces[j].issuedBy == owner && now < nonces[j].expiresAt)
      {
        i := i + 1;
      }
      FirstIs(nonces, (n: EnrollmentNonce) => n.nonce == nonce && n.issuedBy == issuer && now < n.expiresAt, i);
    }

    /** `removePendingRegistration`. */
    method RemovePending(gid: int)
      modifies `pending
      ensures pending == Registrations.RemovePending(old(pending), gid)
    {
      var i := PendingIndex(gid);
      if i < |pending| {
        pending := pending[..i] + pending[i + 1..];
      }
    }

    /** `removeUnknownGroupLeave`. */
    method RemoveLeave(gid: int)
      modifies `leaves
      ensures leaves == Registrations.RemoveLeave(old(leaves), gid)
    {
      var i := LeaveIndex(gid);
      if i < |leaves| {
        leaves := leaves[..i] + leaves[i + 1..];
      }
    }

    /** `putPendingRegistration`. */
    method PutPending(p: PendingRegistration)
      modifies `pending, `leaves
      ensures Value() == Registrations.PutPending(old(Value()), p)
    {
      RemoveLeave(p.gid);
      var i := PendingIndex(p.gid);
      if i < |pending| {
        pending := pending[i := p];
        return;
      }
      pending := pending + [p];
    }

    /** `putUnknownGroupLeave`. */
    method PutLeave(l: UnknownLeave)
      modifies `leaves
      ensures leaves == Registrations.PutLeave(old(leaves), l)
    {
      var i := LeaveIndex(l.gid);
      if i < |leaves| {
        if l.expiresAt > leaves[i].expiresAt {
          leaves := leaves[i := l];
        }
        return;
      }
      leaves := leaves + [l];
    }

    /** `addRegisteredGroup`. */
    method AddGroup(gid: int, actor: int, title: string, noGroups: bool)
      modifies `groups, `pending, `leaves, `control
      ensures Value() == Registrations.AddGroup(old(Value()), gid, actor, title, noGroups)
    {
      var i := GroupIndex(gid);
      if i == |groups| {
        groups := groups + [RegisteredGroup(gid, actor, title)];
      }
      RemovePending(gid);
      RemoveLeave(gid);
      if control == 0 && noGroups {
        control := gid;
      }
    }

    /** The change of `consumeEnrollment`: the nonce is spent, then the group enters or waits. */
    method Enroll(gid: int, actor: int, title: string, nonce: string, facts: Facts) returns (commit: bool)
      modifies this
      ensures Done(old(Value()), Change.Enroll(gid, actor, title, nonce), facts, commit)
    {
      if facts.membership.Ineligible? {
        return false;
      }
      var i := NonceIndex(nonce, facts.now);
      if i == |nonces| {
        return false;
      }
      nonces := nonces[..i] + nonces[i + 1..];
      if facts.membership.Admin? {
        AddGroup(gid, actor, title, facts.noGroups);
      } else {
        PutPending(PendingUntil(gid, actor, title, facts.now));
      }
      return true;
    }

    /** The change of `authorizeOwnerMembership`. */
    method Authorize(gid: int, actor: int, title: string, facts: Facts) returns (commit: bool)
      modifies this
      ensures Done(old(Value()), Change.Authorize(gid, actor, title), facts, commit)
    {
      if facts.membership.Ineligible? {
        return false;
      }
      if facts.membership.Admin? {
        AddGroup(gid, actor, title, facts.noGroups);
      } else {
        PutPending(PendingUntil(gid, actor, title, facts.now));
      }
      return true;
    }

    /** The change of `completePending`. */
    method Complete(gid: int, expected: PendingRegistration, facts: Facts) returns (commit: bool)
      modifies this
      ensures Done(old(Value()), Change.Complete(gid, expected), facts, commit)
    {
      if !facts.membership.Admin? {
        return false;
      }
      var i := PendingIndex(gid);
      if i == |pending| || pending[i].expiresAt != expected.expiresAt || facts.now >= pending[i].expiresAt {
        return false;
      }
      AddGroup(gid, pending[i].registeredBy, pending[i].title, facts.noGroups);
      return true;
    }

    /** The change of `expirePending`: from awaiting promotion to awaiting leave. */
    method ExpirePending(gid: int, expected: PendingRegistration, facts: Facts) returns (commit: bool)
      modifies this
      ensures Done(old(Value()), Change.ExpirePending(gid, expected), facts, commit)
    {
      var i := PendingIndex(gid);
      if i == |pending| || pending[i].expiresAt != expected.expiresAt {
        return true;
      }
      var current := pending[i];
      RemovePending(gid);
      PutLeave(UnknownLeave(gid, current.title, current.expiresAt));
      return true;
    }

    /** The change of `persistUnknownLeaveIfMember`. */
    method NoteLeave(gid: int, title: string, deadline: int, facts: Facts) returns (commit: bool)
      modifies this
      ensures Done(old(Value()), Change.NoteLeave(gid, title, deadline), facts, commit)
    {
      if !facts.membership.Member? {
        return false;
      }
      var i := PendingIndex(gid);
      var j := GroupIndex(gid);
      if i < |pending| || j < |groups| {
        return false;
      }
      PutLeave(UnknownLeave(gid, title, deadline));
      return true;
    }

    /** The change of `unregisterGroup`. */
    method Unregister(gid: int, facts: Facts) returns (commit: bool)
      modifies this
      ensures Done(old(Value()), Change.Unregister(gid), facts, commit)
    {
      var i := GroupIndex(gid);
      if i == |groups| {
        return false;
      }
      Withdraw(i, gid, facts.now);
      return true;
    }

    method Withdraw(i: nat, gid: int, now: int)
      requires i < |groups|
      modifies `groups, `pending, `control, `leaves
      ensures groups == DropAt(old(groups), i) && pending == Registrations.RemovePending(old(pending), gid)
      ensures control == if old(control) == gid then 0 else old(control)
      ensures leaves == Registrations.PutLeave(old(leaves), UnknownLeave(gid, old(groups)[i].title, now))
    {
      var title := groups[i].title;
      groups := groups[..i] + groups[i + 1..];
      RemovePending(gid);
      if control == gid {
        control := 0;
      }
      PutLeave(UnknownLeave(gid, title, now));
    }

    /** The change of `clearUnknownGroupLeave`. */
    method ClearLeave(gid: int, facts: Facts) returns (commit: bool)
      modifies this
      ensures Done(old(Value()), Change.ClearLeave(gid), facts, commit)
    {
      RemoveLeave(gid);
      return true;
    }

    /** The change of `EnsureOwnerClaim`. */
    method EnsureClaim(token: string, lifetime: int, facts: Facts) returns (commit: bool)
      modifies this
      ensures Done(old(Value()), Change.EnsureClaim(token, lifetime), facts, commit)
    {
      if lifetime <= 0 || owner != 0 {
        return false;
      }
      if claim != "" && facts.now < claimExpires {
        return false;
      }
      claim := token;
      claimExpires := facts.now + lifetime;
      return true;
    }

    /** The change of `ClaimOwner`. */
    method ClaimOwner(user: int, token: string, facts: Facts) returns (commit: bool)
      modifies this
      ensures Done(old(Value()), Change.ClaimOwner(user, token), facts, commit)
    {
      if user <= 0 {
        return false;
      }
      if owner != 0 || claim == "" || claim != token || facts.now >= claimExpires {
        return false;
      }
      owner, claim, claimExpires := user, "", 0;
      return true;
    }

    /** The change of `IssueEnrollmentNonce`: expired capabilities go, the new one is added. */
    method IssueNonce(issuer: int, nonce: string, lifetime: int, facts: Facts) returns (commit: bool)
      modifies this
      ensures Done(old(Value()), Change.IssueNonce(issuer, nonce, lifetime), facts, commit)
    {
      if lifetime <= 0 || owner == 0 || owner != issuer {
        return false;
      }
      var kept := LiveNonces(facts.now);
      nonces := kept + [EnrollmentNonce(nonce, issuer, facts.now + lifetime)];
      return true;
    }

    method LiveNonces(now: int) returns (kept: seq<EnrollmentNonce>)
      ensures kept == Unexpired(nonces, now)
    {
      kept := [];
      var i := 0;
      while i < |nonces|
        invariant 0 <= i <= |nonces| && kept + Unexpired(nonces[i..], now) == Unexpired(nonces, now)
      {
        if now < nonces[i].expiresAt {
          kept := kept + [nonces[i]];
        }
        i := i + 1;
      }
      assert nonces[i..] == [];
    }

    /** The draft has become what the change proposes, or is not to be committed. */
    ghost predicate Done(r: Registration, change: Change, facts: Facts, commit: bool)
      reads this
    {
      (commit <==> Propose(r, change, facts).Commit?) && (commit ==> Propose(r, change, facts) == Commit(Value()))
    }
  }

  // ---- The validator's loops ----

  method CheckGroups(configured: set<int>, gs: seq<RegisteredGroup>) returns (ok: bool, seen: set<int>)
    ensures ok <==> ValidGroups(configured, gs)
    ensures ok ==> forall g :: g in seen <==> g in configured || exists i :: 0 <= i < |gs| && gs[i].gid == g
  {
    seen := configured;
    var i := 0;
    while i < |gs|
      invariant 0 <= i <= |gs| && ValidGroups(configured, gs[..i])
      invariant forall g :: g in seen <==> g in configured || exists j :: 0 <= j < i && gs[j].gid == g
    {
      if gs[i].gid == 0 || gs[i].registeredBy <= 0 || gs[i].gid in seen {
        return false, seen;
      }
      seen := seen + {gs[i].gid};
      i := i + 1;
    }
    assert gs[..i] == gs;
    return true, seen;
  }

  method CheckNonces(ns: seq<EnrollmentNonce>) returns (ok: bool)
    ensures ok <==> ValidNonces(ns)
  {
    var seen: set<string> := {};
    var i := 0;
    while i < |ns|
      invariant 0 <= i <= |ns| && ValidNonces(ns[..i])
      invariant forall n :: n in seen <==> exists j :: 0 <= j < i && ns[j].nonce == n
    {
      if ns[i].nonce == "" || ns[i].nonce in seen || ns[i].issuedBy == 0 || ns[i].expiresAt <= 0 {
        return false;
      }
      seen := seen + {ns[i].nonce};
      i := i + 1;
    }
    assert ns[..i] == ns;
    return true;
  }

  method CheckPending(ps: seq<PendingRegistration>) returns (ok: bool, seen: set<int>)
    ensures ok <==> ValidPending(ps)
    ensures ok ==> forall g :: g in seen <==> Awaiting(ps, g)
  {
    seen := {};
    var i := 0;
    while i < |ps|
      invariant 0 <= i <= |ps| && ValidPending(ps[..i])
      invariant forall g :: g in seen <==> exists j :: 0 <= j < i && ps[j].gid == g
    {
      if ps[i].gid == 0 || ps[i].gid in seen || ps[i].registeredBy == 0 || ps[i].expiresAt <= 0 {
        return false, seen;
      }
      seen := seen + {ps[i].gid};
      i := i + 1;
    }
    assert ps[..i] == ps;
    return true, seen;
  }

  method CheckLeaves(ls: seq<UnknownLeave>, ps: seq<PendingRegistration>, pending: set<int>) returns (ok: bool)
    requires forall g :: g in pending <==> Awaiting(ps, g)
    ensures ok <==> ValidLeaves(ls) && Apart(ps, ls)
  {
    var seen: set<int> := {};
    var i := 0;
    while i < |ls|
      invariant 0 <= i <= |ls| && ValidLeaves(ls[..i]) && Apart(ps, ls[..i])
      invariant forall g :: g in seen <==> exists j :: 0 <= j < i && ls[j].gid == g
    {
      if ls[i].gid == 0 || ls[i].gid in seen || ls[i].expiresAt <= 0 || ls[i].gid in pending {
        return false;
      }
      seen := seen + {ls[i].gid};
      i := i + 1;
    }
    assert ls[..i] == ls;
    return true;
  }

  /** `validateRegistrations` accepts exactly the valid records. */
  method Validate(configured: set<int>, r: Registration) returns (ok: bool)
    ensures ok <==> ValidRegistration(configured, r)
  {
    if r.owner < 0 || (r.claim == "") != (r.claimExpires == 0) || (r.claim != "" && r.claimExpires <= 0)
       || (r.owner != 0 && r.claim != "") {
      return false;
    }
    var groupsOK, known := CheckGroups(configured, r.groups);
    if !groupsOK { return false; }
    var noncesOK := CheckNonces(r.nonces);
    if !noncesOK { return false; }
    var pendingOK, awaiting := CheckPending(r.pending);
    if !pendingOK { return false; }
    var leavesOK := CheckLeaves(r.leaves, r.pending, awaiting);
    if !leavesOK { return false; }
    return r.control == 0 || r.control in known;
  }
}

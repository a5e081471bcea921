/** What the changes of the registration record promise, in terms of the record alone: who may become
    the owner, who may let groups in, and what a group's entry leads to. */
module RegistrationLaws {
  import opened Registrations
  import opened RegistrationRules

  // ---- The owner claim ----

  /** A claim is accepted exactly from a real user who presents the open claim in time. It makes that
      user the owner, uses the claim up, and changes nothing else. */
  lemma ClaimAcceptedExactlyWhen(r: Registration, user: int, token: string, facts: Facts)
    ensures var p := Propose(r, ClaimOwner(user, token), facts);
      && (p.Commit? <==> user > 0 && r.owner == 0 && token != "" && token == r.claim && facts.now < r.claimExpires)
      && (p.Commit? ==> p.next == r.(owner := user, claim := "", claimExpires := 0))
      && (!p.Commit? ==> p.Refuse?)
  {
  }

  /** A new claim is opened exactly when there is no owner and no open claim; for as long as asked. */
  lemma ClaimOpenedExactlyWhen(r: Registration, token: string, lifetime: int, facts: Facts)
    ensures var p := Propose(r, EnsureClaim(token, lifetime), facts);
      && (p.Commit? <==> lifetime > 0 && r.owner == 0 && (r.claim == "" || facts.now >= r.claimExpires))
      && (p.Commit? ==> p.next == r.(claim := token, claimExpires := facts.now + lifetime))
      && (p.Refuse? <==> lifetime <= 0)
  {
  }

  /** Once opened, a claim is accepted until its end and no longer, and no other token is. */
  lemma OpenedClaimIsAccepted(r: Registration, token: string, lifetime: int, earlier: Facts, user: int, shown: string, later: Facts)
    requires token != "" && user > 0 && Propose(r, EnsureClaim(token, lifetime), earlier).Commit?
    ensures Propose(Propose(r, EnsureClaim(token, lifetime), earlier).next, ClaimOwner(user, shown), later).Commit? <==>
      shown == token && later.now < earlier.now + lifetime
  {
  }

  // ---- Enrollment capabilities ----

  /** Capabilities are issued by the owner alone, for as long as asked; with each, the expired ones go
      and nothing else changes. */
  lemma IssuedExactlyWhen(r: Registration, issuer: int, nonce: string, lifetime: int, facts: Facts)
    ensures var p := Propose(r, IssueNonce(issuer, nonce, lifetime), facts);
      && (p.Commit? <==> lifetime > 0 && r.owner != 0 && issuer == r.owner)
      && (p.Commit? ==>
            && p.next == r.(nonces := p.next.nonces)
            && forall n :: n in p.next.nonces <==>
                 n == EnrollmentNonce(nonce, issuer, facts.now + lifetime) || (n in r.nonces && facts.now < n.expiresAt))
  {
    UnexpiredHolds(r.nonces, facts.now);
  }

  /** The capability is there, of the present owner's, and not expired. */
  ghost predicate Usable(r: Registration, nonce: string, now: int) {
    exists n :: n in r.nonces && n.nonce == nonce && n.issuedBy == r.owner && now < n.expiresAt
  }

  /** An enrollment is accepted exactly when the bot is at least a member and the capability is usable,
      which it is not any more afterwards; every other one is left. */
  lemma EnrolledExactlyWhen(configured: set<int>, r: Registration, gid: int, actor: int, title: string, nonce: string, facts: Facts)
    requires ValidRegistration(configured, r)
    ensures var p := Propose(r, Enroll(gid, actor, title, nonce), facts);
      && (p.Commit? <==> !facts.membership.Ineligible? && Usable(r, nonce, facts.now))
      && (p.Commit? ==> forall n :: n in p.next.nonces <==> n in r.nonces && n.nonce != nonce)
  {
    var i := FirstNonce(r.nonces, nonce, r.owner, facts.now);
    if i < |r.nonces| {
      assert r.nonces[i] in r.nonces;
      DroppedExactly(r.nonces, i);
    } else {
      assert forall n | n in r.nonces :: !(n.nonce == nonce && n.issuedBy == r.owner && facts.now < n.expiresAt);
    }
  }

  lemma DroppedExactly(ns: seq<EnrollmentNonce>, i: nat)
    requires ValidNonces(ns) && i < |ns|
    ensures forall n :: n in DropAt(ns, i) <==> n in ns && n.nonce != ns[i].nonce
  {
    var ms := DropAt(ns, i);
    assert forall j | 0 <= j < |ms| :: ms[j] == ns[if j < i then j else j + 1];
    forall n | n in ns && n.nonce != ns[i].nonce ensures n in ms {
      var j :| 0 <= j < |ns| && ns[j] == n;
      assert ms[if j < i then j else j - 1] == n;
    }
  }

  // ---- A group comes in ----

  /** The group is registered, by whoever was first, and neither pending nor to be left. */
  ghost predicate Entered(r: Registration, next: Registration, gid: int, actor: int, title: string) {
    && !Awaiting(next.pending, gid) && !Leaving(next.leaves, gid)
    && (forall g :: g in next.groups <==> g in r.groups || (g == RegisteredGroup(gid, actor, title) && !Registered(r, gid)))
  }

  /** The group waits ten minutes for the bot to be promoted, and is not to be left meanwhile. */
  ghost predicate Waits(r: Registration, next: Registration, gid: int, actor: int, title: string, now: int) {
    && !Leaving(next.leaves, gid) && next.groups == r.groups
    && (forall p :: p in next.pending <==> p == PendingRegistration(gid, actor, title, now + 600) || (p in r.pending && p.gid != gid))
  }

  lemma AddedGroupEntered(configured: set<int>, r: Registration, gid: int, actor: int, title: string, noGroups: bool)
    requires ValidRegistration(configured, r)
    ensures Entered(r, AddGroup(r, gid, actor, title, noGroups), gid, actor, title)
    ensures AddGroup(r, gid, actor, title, noGroups).control == if r.control == 0 && noGroups then gid else r.control
  {
    RemovePendingKeeps(r.pending, gid);
    RemoveLeaveKeeps(r.leaves, gid);
    FirstGroupRegistered(r, gid);
  }

  lemma PutPendingWaits(configured: set<int>, r: Registration, gid: int, actor: int, title: string, now: int)
    requires ValidRegistration(configured, r)
    ensures Waits(r, PutPending(r, PendingUntil(gid, actor, title, now)), gid, actor, title, now)
  {
    PutPendingKeeps(r.pending, PendingUntil(gid, actor, title, now));
    RemoveLeaveKeeps(r.leaves, gid);
  }

  /** With a usable capability, or on the owner's own word, a group enters where the bot is an
      administrator and waits where it is only a member. */
  lemma EntryLeadsTo(configured: set<int>, r: Registration, change: Change, facts: Facts)
    requires ValidRegistration(configured, r) && (change.Enroll? || change.Authorize?) && Propose(r, change, facts).Commit?
    ensures var next := Propose(r, change, facts).next;
      if facts.membership.Admin? then Entered(r, next, change.gid, change.actor, change.title)
      else Waits(r, next, change.gid, change.actor, change.title, facts.now)
  {
    var r' := if change.Enroll? then r.(nonces := Propose(r, change, facts).next.nonces) else r;
    if change.Enroll? {
      DroppingNonceKeeps(r.nonces, FirstNonce(r.nonces, change.nonce, r.owner, facts.now));
    }
    SameRegisteredGroups(r, r', r.control);
    SameRegisteredGroups(r, r', change.gid);
    AddedGroupEntered(configured, r', change.gid, change.actor, change.title, facts.noGroups);
    PutPendingWaits(configured, r', change.gid, change.actor, change.title, facts.now);
  }

  lemma SameRegisteredGroups(r: Registration, r': Registration, gid: int)
    requires r'.groups == r.groups
    ensures Registered(r', gid) <==> Registered(r, gid)
  {
  }

  ghost predicate Awaited(r: Registration, gid: int, until: int, now: int) {
    exists w :: w in r.pending && w.gid == gid && w.expiresAt == until && now < until
  }

  /** A waiting group enters exactly when the bot has become an administrator, in time, and the entry is
      the one that was being waited for. */
  lemma CompletedExactlyWhen(configured: set<int>, r: Registration, gid: int, expected: PendingRegistration, facts: Facts)
    requires ValidRegistration(configured, r)
    ensures var p := Propose(r, Complete(gid, expected), facts);
      && (p.Commit? <==> facts.membership.Admin? && Awaited(r, gid, expected.expiresAt, facts.now))
      && (p.Commit? ==> forall w | w in r.pending && w.gid == gid :: Entered(r, p.next, gid, w.registeredBy, w.title))
  {
    var i := FirstPending(r.pending, gid);
    assert forall w | w in r.pending && w.gid == gid :: i < |r.pending| && w == r.pending[i];
    if i < |r.pending| {
      assert r.pending[i] in r.pending;
      AddedGroupEntered(configured, r, gid, r.pending[i].registeredBy, r.pending[i].title, facts.noGroups);
    }
  }

  /** A group is unregistered exactly when it was registered; then it is gone everywhere and to be left
      at once. */
  lemma UnregisteredExactlyWhen(configured: set<int>, r: Registration, gid: int, facts: Facts)
    requires ValidRegistration(configured, r)
    ensures var p := Propose(r, Unregister(gid), facts);
      && (p.Commit? <==> Registered(r, gid))
      && (p.Commit? ==>
            && (forall g :: g in p.next.groups <==> g in r.groups && g.gid != gid)
            && !Awaiting(p.next.pending, gid) && Leaving(p.next.leaves, gid) && p.next.control != gid)
  {
    var i := FirstGroup(r.groups, gid);
    FirstGroupRegistered(r, gid);
    if i < |r.groups| {
      var gs := DropAt(r.groups, i);
      assert forall j | 0 <= j < |gs| :: gs[j] == r.groups[if j < i then j else j + 1];
      forall g | g in r.groups && g.gid != gid ensures g in gs {
        var j :| 0 <= j < |r.groups| && r.groups[j] == g;
        assert gs[if j < i then j else j - 1] == g;
      }
      assert gid != 0;
      RemovePendingKeeps(r.pending, gid);
      LeaveIsPut(r.leaves, UnknownLeave(gid, r.groups[i].title, facts.now));
    }
  }

  lemma LeaveIsPut(ls: seq<UnknownLeave>, l: UnknownLeave)
    ensures Leaving(PutLeave(ls, l), l.gid)
  {
    var i := FirstLeave(ls, l.gid);
    assert PutLeave(ls, l)[i].gid == l.gid;
  }

  /** A noted leave is taken back, and nothing else. */
  lemma LeaveTakenBack(configured: set<int>, r: Registration, gid: int, facts: Facts)
    requires ValidRegistration(configured, r)
    ensures var p := Propose(r, ClearLeave(gid), facts);
      && p.Commit? && p.next == r.(leaves := p.next.leaves)
      && forall l :: l in p.next.leaves <==> l in r.leaves && l.gid != gid
  {
    RemoveLeaveKeeps(r.leaves, gid);
  }
}

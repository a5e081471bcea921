/** Registration as it runs: threads that hold a per-group lock, read the record, propose a change
    and commit it at the revision they read, or judge a group unknown and leave it. */
module RegistrationRuns {
  import opened Options
  import opened Registrations
  import opened RegistrationLaws
  import opened RegistrationRules
  import opened SettingsStore

  /** What one thread holds: a group's lock, the record it read last, whether it found the group
      unknown and is about to leave it, and whether it was then a chat the bot needs for others. */
  datatype Thread = Thread(lock: Option<int>, view: Option<Registration>, judged: bool, support: bool)

  /** A capability used, by whom it had to be issued, and when. */
  datatype Spent = Spent(nonce: string, gid: int, owner: int, at: int)

  /** An owner claim opened, and until when; and one accepted, with the token shown. */
  datatype Offer = Offer(token: string, until: int)
  datatype Claim = Claim(user: int, token: string, at: int)

  /** A `LeaveChat` call, whether its group was registered at that moment, and whether it had been found
      to be a chat the bot needs for others. */
  datatype Departure = Departure(gid: int, registered: bool, support: bool)

  datatype World = World(
    registration: Registration, holder: map<int, nat>, threads: map<nat, Thread>,
    issued: set<string>, grants: seq<EnrollmentNonce>, spent: seq<Spent>,
    offers: seq<Offer>, claims: seq<Claim>, left: seq<Departure>)

  datatype Step =
    | Lock(t: nat, gid: int)
    | Unlock(t: nat)
    | View(t: nat)
    | Change(t: nat, change: Registrations.Change, facts: Facts, written: bool)
    | Judge(t: nat, support: bool)
    | Leave(t: nat)

  /** The group whose lock a change is made under; owner changes take none. */
  function GroupOf(change: Registrations.Change): Option<int> {
    match change
    case EnsureClaim(_, _) => None
    case ClaimOwner(_, _) => None
    case IssueNonce(_, _, _) => None
    case _ => Some(change.gid)
  }

  function ThreadOf(w: World, t: nat): Thread {
    if t in w.threads then w.threads[t] else Thread(None, None, false, false)
  }

  ghost predicate Possible(w: World, step: Step) {
    var thread := ThreadOf(w, step.t);
    match step
    case Lock(t, gid) => thread.lock.None? && gid !in w.holder
    case Unlock(t) => thread.lock.Some?
    case View(t) => true
    case Change(t, change, facts, _) =>
      && thread.view.Some? && (GroupOf(change).Some? ==> thread.lock == GroupOf(change))
      && Genuine(change, facts.now)
      && (change.IssueNonce? ==> change.nonce !in w.issued)
    case Judge(t, _) => thread.lock.Some?
    case Leave(t) => thread.lock.Some? && thread.judged
  }

  function With(w: World, t: nat, thread: Thread): World { w.(threads := w.threads[t := thread]) }

  /** The commit succeeds when it is made at the current revision, its record is valid, and it
      reaches the disk. */
  predicate Commits(configured: set<int>, w: World, step: Step)
    requires step.Change?
  {
    var view := ThreadOf(w, step.t).view;
    view.Some? && Propose(view.value, step.change, step.facts).Commit? && step.written &&
    view.value.revision == w.registration.revision &&
    ValidRegistration(configured, Propose(view.value, step.change, step.facts).next)
  }

  function Committed(w: World, next: Registration): Registration {
    if SameRegistration(w.registration, Fresh(next)) then w.registration
    else next.(revision := w.registration.revision + 1)
  }

  /** A commit of a run is a commit of the store: what the one takes over the other does, and the store
      takes over nothing else. */
  lemma CommitsAsTheStore(b: Baseline, s: State, w: World, step: Step)
    requires step.Change? && ThreadOf(w, step.t).view.Some? && s.registration == w.registration
    requires Propose(ThreadOf(w, step.t).view.value, step.change, step.facts).Commit?
    ensures var view := ThreadOf(w, step.t).view.value;
      var next := Propose(view, step.change, step.facts).next;
      var (s', out) := RegistrationCommit(b, s, view.revision, Fresh(next), ValidRegistration(Configured(b), next), Disk(true, true, step.written));
      && (Commits(Configured(b), w, step) ==> Accepted(out) && s'.registration == Committed(w, next))
      && (out.Committed? ==> Commits(Configured(b), w, step))
  {
    var view := ThreadOf(w, step.t).view.value;
    var next := Propose(view, step.change, step.facts).next;
    assert Content(Fresh(next)) == next && next.revision == view.revision;
  }

  function After(configured: set<int>, w: World, step: Step): World
    requires Possible(w, step)
  {
    var thread := ThreadOf(w, step.t);
    match step
    case Lock(t, gid) => With(w.(holder := w.holder[gid := t]), t, thread.(lock := Some(gid), judged := false))
    case Unlock(t) => With(w.(holder := w.holder - {thread.lock.value}), t, thread.(lock := None, judged := false))
    case View(t) => With(w, t, thread.(view := Some(w.registration)))
    case Change(t, change, facts, _) =>
      var w' := With(w, t, thread.(view := None, judged := false));
      if Commits(configured, w, step) then
        w'.(registration := Committed(w, Propose(thread.view.value, change, facts).next),
            issued := if change.IssueNonce? then w.issued + {change.nonce} else w.issued,
            grants := if change.IssueNonce? then w.grants + [EnrollmentNonce(change.nonce, change.issuer, facts.now + change.lifetime)] else w.grants,
            spent := if change.Enroll? then w.spent + [Spent(change.nonce, change.gid, w.registration.owner, facts.now)] else w.spent,
            offers := if change.EnsureClaim? then w.offers + [Offer(change.claim, facts.now + change.lifetime)] else w.offers,
            claims := if change.ClaimOwner? then w.claims + [Claim(change.user, change.claim, facts.now)] else w.claims)
      else w'
    case Judge(t, support) =>
      var gid := thread.lock.value;
      With(w, t, thread.(judged := !(gid in configured || Registered(w.registration, gid) || support), support := support))
    case Leave(t) =>
      var gid := thread.lock.value;
      With(w.(left := w.left + [Departure(gid, Registered(w.registration, gid), thread.support)]), t, thread.(judged := false))
  }

  // ---- What every step keeps ----

  /** A group's lock is held by one thread, which knows it. */
  ghost predicate LocksOK(w: World) {
    forall t | t in w.threads && w.threads[t].lock.Some? :: w.threads[t].lock.value in w.holder && w.holder[w.threads[t].lock.value] == t
  }

  /** Nobody has read the future, and whoever read the current revision has read the current record. */
  ghost predicate ViewsOK(w: World) {
    forall t | t in w.threads && w.threads[t].view.Some? ::
      var view := w.threads[t].view.value;
      view.revision <= w.registration.revision && (view.revision == w.registration.revision ==> view == w.registration)
  }

  ghost predicate JudgmentsOK(configured: set<int>, w: World) {
    && (forall t | t in w.threads && w.threads[t].judged ::
          w.threads[t].lock.Some? && !w.threads[t].support && w.threads[t].lock.value !in configured && !Registered(w.registration, w.threads[t].lock.value))
    && (forall i | 0 <= i < |w.left| :: !w.left[i].registered && !w.left[i].support && w.left[i].gid !in configured)
  }

  ghost predicate NoncesOK(w: World) {
    && (forall i | 0 <= i < |w.registration.nonces| :: w.registration.nonces[i].nonce in w.issued)
    && (forall i | 0 <= i < |w.spent| :: w.spent[i].nonce in w.issued && !Issued(w.registration.nonces, w.spent[i].nonce))
    && (forall i, j | 0 <= i < j < |w.spent| :: w.spent[i].nonce != w.spent[j].nonce)
  }

  ghost predicate OwnerOK(w: World) {
    |w.claims| <= 1 && (|w.claims| == 1 ==> w.claims[0].user > 0 && w.registration.owner == w.claims[0].user)
  }

  /** The token was offered, and still stood. */
  ghost predicate Offered(offers: seq<Offer>, token: string, at: int) {
    token != "" && exists i :: 0 <= i < |offers| && offers[i].token == token && at < offers[i].until
  }

  /** The capability was granted by `owner`, and still stood. */
  ghost predicate Granted(grants: seq<EnrollmentNonce>, nonce: string, owner: int, at: int) {
    owner != 0 && exists i :: 0 <= i < |grants| && grants[i].nonce == nonce && grants[i].issuedBy == owner && at < grants[i].expiresAt
  }

  /** What can be claimed was offered, what can be used was granted, and so was what has been. */
  ghost predicate HistoryOK(w: World) {
    && (w.registration.claim != "" ==> Offer(w.registration.claim, w.registration.claimExpires) in w.offers)
    && (forall n | n in w.registration.nonces :: n in w.grants)
    && (forall i | 0 <= i < |w.claims| :: Offered(w.offers, w.claims[i].token, w.claims[i].at))
    && (forall i | 0 <= i < |w.spent| :: Granted(w.grants, w.spent[i].nonce, w.spent[i].owner, w.spent[i].at))
  }

  ghost predicate RecordOK(configured: set<int>, w: World) {
    ValidRegistration(configured, w.registration) && PendingActors(w.registration)
  }

  ghost predicate Inv(configured: set<int>, w: World) {
    LocksOK(w) && ViewsOK(w) && JudgmentsOK(configured, w) && NoncesOK(w) && OwnerOK(w) && HistoryOK(w) && RecordOK(configured, w)
  }

  // ---- Changes, as the record sees them ----

  lemma AddedGroups(r: Registration, gid: int, actor: int, title: string, noGroups: bool, g: int)
    requires Registered(AddGroup(r, gid, actor, title, noGroups), g)
    ensures Registered(r, g) || g == gid
  {
    var r' := AddGroup(r, gid, actor, title, noGroups);
    var i :| 0 <= i < |r'.groups| && r'.groups[i].gid == g;
    if i < |r.groups| { assert r.groups[i].gid == g; }
  }

  /** A change registers no group but its own. */
  lemma OnlyItsOwnGroup(configured: set<int>, r: Registration, change: Registrations.Change, facts: Facts, g: int)
    requires ValidRegistration(configured, r) && Propose(r, change, facts).Commit?
    requires Registered(Propose(r, change, facts).next, g)
    ensures Registered(r, g) || GroupOf(change) == Some(g)
  {
    var next := Propose(r, change, facts).next;
    match change
    case Enroll(gid, actor, title, nonce) =>
      var r' := r.(nonces := next.nonces);
      if facts.membership.Admin? {
        AddedGroups(r', gid, actor, title, facts.noGroups, g);
      }
      if Registered(r', g) { assert r'.groups == r.groups; }
    case Authorize(gid, actor, title) =>
      if facts.membership.Admin? { AddedGroups(r, gid, actor, title, facts.noGroups, g); } else { assert next.groups == r.groups; }
    case Complete(gid, _) =>
      var p := r.pending[FirstPending(r.pending, gid)];
      AddedGroups(r, gid, p.registeredBy, p.title, facts.noGroups, g);
    case Unregister(gid) =>
      DroppingGroupKeeps(configured, r, FirstGroup(r.groups, gid));
      assert Registered(r.(groups := next.groups), g);
    case _ => assert next.groups == r.groups;
  }

  /** No change takes the owner's place or lets a second one in. */
  lemma OwnerIsFirst(r: Registration, change: Registrations.Change, facts: Facts)
    requires Propose(r, change, facts).Commit?
    ensures var next := Propose(r, change, facts).next;
      && (r.owner != 0 ==> next.owner == r.owner)
      && (change.ClaimOwner? ==> r.owner == 0 && next.owner == change.user && change.user > 0)
      && (!change.ClaimOwner? ==> next.owner == r.owner)
  {
  }

  /** Nonces come in only by being issued, and go out for good when they are used. */
  lemma NoncesComeAndGo(r: Registration, change: Registrations.Change, facts: Facts)
    requires ValidNonces(r.nonces) && Propose(r, change, facts).Commit?
    ensures var next := Propose(r, change, facts).next;
      && (forall n | Issued(next.nonces, n) :: Issued(r.nonces, n) || (change.IssueNonce? && n == change.nonce))
      && (change.Enroll? ==> Issued(r.nonces, change.nonce) && !Issued(next.nonces, change.nonce))
  {
    var next := Propose(r, change, facts).next;
    if change.Enroll? {
      var i := FirstNonce(r.nonces, change.nonce, r.owner, facts.now);
      DroppingNonceKeeps(r.nonces, i);
      assert next.nonces == DropAt(r.nonces, i);
    } else if change.IssueNonce? {
      UnexpiredKeeps(r.nonces, facts.now);
    }
    forall n | Issued(next.nonces, n) ensures Issued(r.nonces, n) || (change.IssueNonce? && n == change.nonce) {
      var i :| 0 <= i < |next.nonces| && next.nonces[i].nonce == n;
      assert next.nonces[i] in r.nonces || next.nonces[i].nonce == n;
    }
  }

  predicate RealActors(ps: seq<PendingRegistration>) { forall i | 0 <= i < |ps| :: ps[i].registeredBy > 0 }

  /** A group that enters, or is put down as pending. */
  lemma PendingAfterEntry(r: Registration, change: Registrations.Change, facts: Facts)
    requires (change.Enroll? || change.Authorize?) && Propose(r, change, facts).Commit?
    ensures var ps := Propose(r, change, facts).next.pending;
      || ps == RemovePending(r.pending, change.gid)
      || ps == PutPendingIn(r.pending, PendingUntil(change.gid, change.actor, change.title, facts.now))
  {
  }

  /** Any other change lets one go, or none. */
  lemma PendingAfter(r: Registration, change: Registrations.Change, facts: Facts)
    requires !change.Enroll? && !change.Authorize? && Propose(r, change, facts).Commit?
    ensures var ps := Propose(r, change, facts).next.pending;
      ps == r.pending || (GroupOf(change).Some? && ps == RemovePending(r.pending, GroupOf(change).value))
  {
  }

  /** Whoever is put down as pending was a real actor. */
  lemma PendingActorsStay(r: Registration, change: Registrations.Change, facts: Facts)
    requires ValidPending(r.pending) && RealActors(r.pending) && Genuine(change, facts.now)
    requires Propose(r, change, facts).Commit?
    ensures RealActors(Propose(r, change, facts).next.pending)
  {
    if GroupOf(change).Some? { RemovingKeepsActors(r.pending, GroupOf(change).value); }
    if !change.Enroll? && !change.Authorize? {
      PendingAfter(r, change, facts);
    } else {
      PendingAfterEntry(r, change, facts);
      PuttingKeepsActors(r.pending, PendingUntil(change.gid, change.actor, change.title, facts.now));
    }
  }

  lemma RemovingKeepsActors(ps: seq<PendingRegistration>, gid: int)
    requires ValidPending(ps) && RealActors(ps)
    ensures RealActors(RemovePending(ps, gid))
  {
    RemovePendingKeeps(ps, gid);
    forall i | 0 <= i < |RemovePending(ps, gid)| ensures RemovePending(ps, gid)[i].registeredBy > 0 {
      assert RemovePending(ps, gid)[i] in ps;
    }
  }

  lemma PuttingKeepsActors(ps: seq<PendingRegistration>, p: PendingRegistration)
    requires ValidPending(ps) && RealActors(ps) && p.registeredBy > 0
    ensures RealActors(PutPendingIn(ps, p))
  {
    PutPendingKeeps(ps, p);
    forall i | 0 <= i < |PutPendingIn(ps, p)| ensures PutPendingIn(ps, p)[i].registeredBy > 0 {
      assert PutPendingIn(ps, p)[i] in ps || PutPendingIn(ps, p)[i] == p;
    }
  }

  // ---- Steps ----

  /** A change that commits was proposed from the record it replaces. */
  lemma CommitSeesCurrent(configured: set<int>, w: World, step: Step)
    requires ViewsOK(w) && step.Change? && step.t in w.threads && Commits(configured, w, step)
    ensures ThreadOf(w, step.t).view == Some(w.registration)
  {
  }

  lemma ChangeKeepsRecord(configured: set<int>, w: World, step: Step)
    requires Inv(configured, w) && step.Change? && Possible(w, step) && Commits(configured, w, step)
    ensures RecordOK(configured, After(configured, w, step))
  {
    var r := w.registration;
    CommitSeesCurrent(configured, w, step);
    PendingActorsStay(r, step.change, step.facts);
    var next := Propose(r, step.change, step.facts).next;
    RevisionAside(configured, next, r.revision + 1);
  }

  lemma RevisionAside(configured: set<int>, r: Registration, revision: nat)
    ensures ValidRegistration(configured, r.(revision := revision)) <==> ValidRegistration(configured, r)
    ensures forall g :: Registered(r.(revision := revision), g) <==> Registered(r, g)
  {
    forall g ensures Registered(r.(revision := revision), g) <==> Registered(r, g) { SameRegistered(r, r.(revision := revision), g); }
  }

  lemma ChangeKeepsJudgments(configured: set<int>, w: World, step: Step)
    requires Inv(configured, w) && step.Change? && Possible(w, step) && Commits(configured, w, step)
    ensures JudgmentsOK(configured, After(configured, w, step))
  {
    var w' := After(configured, w, step);
    var r := w.registration;
    CommitSeesCurrent(configured, w, step);
    forall t | t in w'.threads && w'.threads[t].judged ensures !Registered(w'.registration, w'.threads[t].lock.value) {
      var g := w.threads[t].lock.value;
      assert t != step.t && w'.threads[t] == w.threads[t];
      if Registered(w'.registration, g) {
        var next := Propose(r, step.change, step.facts).next;
        RevisionAside(configured, next, r.revision + 1);
        OnlyItsOwnGroup(configured, r, step.change, step.facts, g);
      }
    }
  }

  lemma ChangeKeepsNonces(configured: set<int>, w: World, step: Step)
    requires ViewsOK(w) && NoncesOK(w) && OwnerOK(w) && ValidNonces(w.registration.nonces)
    requires step.Change? && Possible(w, step) && Commits(configured, w, step)
    ensures NoncesOK(After(configured, w, step)) && OwnerOK(After(configured, w, step))
  {
    var w' := After(configured, w, step);
    CommitSeesCurrent(configured, w, step);
    NoncesComeAndGo(w.registration, step.change, step.facts);
    OwnerIsFirst(w.registration, step.change, step.facts);
    var next := Propose(w.registration, step.change, step.facts).next;
    assert w'.registration.nonces == next.nonces && w'.registration.owner == next.owner;
    forall i | 0 <= i < |w'.registration.nonces| ensures w'.registration.nonces[i].nonce in w'.issued {
      assert Issued(next.nonces, next.nonces[i].nonce);
    }
  }

  lemma OfferedLater(offers: seq<Offer>, more: seq<Offer>, token: string, at: int)
    requires Offered(offers, token, at)
    ensures Offered(offers + more, token, at)
  {
    var i :| 0 <= i < |offers| && offers[i].token == token && at < offers[i].until;
    assert (offers + more)[i] == offers[i];
  }

  lemma GrantedLater(grants: seq<EnrollmentNonce>, more: seq<EnrollmentNonce>, nonce: string, owner: int, at: int)
    requires Granted(grants, nonce, owner, at)
    ensures Granted(grants + more, nonce, owner, at)
  {
    var i :| 0 <= i < |grants| && grants[i].nonce == nonce && grants[i].issuedBy == owner && at < grants[i].expiresAt;
    assert (grants + more)[i] == grants[i];
  }

  /** What a change does to the open claim and to the capabilities. */
  lemma ChangeHistory(configured: set<int>, r: Registration, change: Registrations.Change, facts: Facts)
    requires ValidRegistration(configured, r) && Propose(r, change, facts).Commit?
    ensures var next := Propose(r, change, facts).next;
      && (next.claim != "" ==>
            if change.EnsureClaim? then next.claim == change.claim && next.claimExpires == facts.now + change.lifetime
            else next.claim == r.claim && next.claimExpires == r.claimExpires)
      && (change.ClaimOwner? ==> change.claim != "" && change.claim == r.claim && facts.now < r.claimExpires)
    ensures var next := Propose(r, change, facts).next;
      && (forall n | n in next.nonces ::
            n in r.nonces || (change.IssueNonce? && n == EnrollmentNonce(change.nonce, change.issuer, facts.now + change.lifetime)))
      && (change.Enroll? ==> Usable(r, change.nonce, facts.now))
  {
    if change.Enroll? { EnrolledExactlyWhen(configured, r, change.gid, change.actor, change.title, change.nonce, facts); }
    if change.IssueNonce? { IssuedExactlyWhen(r, change.issuer, change.nonce, change.lifetime, facts); }
  }

  lemma UsedWasGranted(w: World, configured: set<int>, nonce: string, at: int)
    requires HistoryOK(w) && ValidRegistration(configured, w.registration) && Usable(w.registration, nonce, at)
    ensures Granted(w.grants, nonce, w.registration.owner, at)
  {
    var n :| n in w.registration.nonces && n.nonce == nonce && n.issuedBy == w.registration.owner && at < n.expiresAt;
    var i :| 0 <= i < |w.grants| && w.grants[i] == n;
    assert w.grants[i].issuedBy != 0;
  }

  lemma ClaimsStayOffered(w: World, offers: seq<Offer>, claims: seq<Claim>)
    requires HistoryOK(w)
    requires forall c | c in claims :: w.registration.claim != "" && c.token == w.registration.claim && c.at < w.registration.claimExpires
    ensures forall i | 0 <= i < |w.claims + claims| :: Offered(w.offers + offers, (w.claims + claims)[i].token, (w.claims + claims)[i].at)
  {
    forall c | c in w.claims + claims ensures Offered(w.offers, c.token, c.at) {
      if c in claims {
        var j :| 0 <= j < |w.offers| && w.offers[j] == Offer(w.registration.claim, w.registration.claimExpires);
        assert w.offers[j].until == w.registration.claimExpires;
      }
    }
    forall c | c in w.claims + claims ensures Offered(w.offers + offers, c.token, c.at) { OfferedLater(w.offers, offers, c.token, c.at); }
  }

  lemma SpentStayGranted(w: World, grants: seq<EnrollmentNonce>, spent: seq<Spent>)
    requires HistoryOK(w) && forall u | u in spent :: Granted(w.grants, u.nonce, u.owner, u.at)
    ensures forall i | 0 <= i < |w.spent + spent| ::
      Granted(w.grants + grants, (w.spent + spent)[i].nonce, (w.spent + spent)[i].owner, (w.spent + spent)[i].at)
  {
    forall u | u in w.spent + spent ensures Granted(w.grants + grants, u.nonce, u.owner, u.at) {
      GrantedLater(w.grants, grants, u.nonce, u.owner, u.at);
    }
  }

  /** The lists of the world after a committed change, as what it adds to them. */
  lemma ChangeAdds(configured: set<int>, w: World, step: Step)
    requires step.Change? && Possible(w, step) && Commits(configured, w, step)
    ensures var w' := After(configured, w, step); var (change, now) := (step.change, step.facts.now);
      && w'.offers == w.offers + (if change.EnsureClaim? then [Offer(change.claim, now + change.lifetime)] else [])
      && w'.claims == w.claims + (if change.ClaimOwner? then [Claim(change.user, change.claim, now)] else [])
      && w'.grants == w.grants + (if change.IssueNonce? then [EnrollmentNonce(change.nonce, change.issuer, now + change.lifetime)] else [])
      && w'.spent == w.spent + (if change.Enroll? then [Spent(change.nonce, change.gid, w.registration.owner, now)] else [])
  {
  }

  /** The record after it, whether or not that counts as a change. */
  lemma ChangeRecords(configured: set<int>, w: World, step: Step)
    requires ViewsOK(w) && step.Change? && Possible(w, step) && Commits(configured, w, step)
    ensures Propose(w.registration, step.change, step.facts).Commit?
    ensures var next := Propose(w.registration, step.change, step.facts).next;
      After(configured, w, step).registration == next.(revision := After(configured, w, step).registration.revision)
  {
    CommitSeesCurrent(configured, w, step);
  }

  lemma ChangeKeepsHistory(configured: set<int>, w: World, step: Step)
    requires ViewsOK(w) && HistoryOK(w) && ValidRegistration(configured, w.registration)
    requires step.Change? && Possible(w, step) && Commits(configured, w, step)
    ensures HistoryOK(After(configured, w, step))
  {
    var (r, change, facts) := (w.registration, step.change, step.facts);
    ChangeAdds(configured, w, step);
    ChangeRecords(configured, w, step);
    ChangeHistory(configured, r, change, facts);
    assert change.Enroll? ==> Granted(w.grants, change.nonce, r.owner, facts.now) by {
      if change.Enroll? { UsedWasGranted(w, configured, change.nonce, facts.now); }
    }
    ClaimsStayOffered(w, if change.EnsureClaim? then [Offer(change.claim, facts.now + change.lifetime)] else [],
                      if change.ClaimOwner? then [Claim(change.user, change.claim, facts.now)] else []);
    SpentStayGranted(w, if change.IssueNonce? then [EnrollmentNonce(change.nonce, change.issuer, facts.now + change.lifetime)] else [],
                     if change.Enroll? then [Spent(change.nonce, change.gid, r.owner, facts.now)] else []);
  }

  lemma ChangeKeepsViews(configured: set<int>, w: World, step: Step)
    requires ViewsOK(w) && LocksOK(w) && step.Change? && Possible(w, step)
    ensures ViewsOK(After(configured, w, step)) && LocksOK(After(configured, w, step))
  {
  }

  lemma ChangeStep(configured: set<int>, w: World, step: Step)
    requires Inv(configured, w) && step.Change? && Possible(w, step)
    ensures Inv(configured, After(configured, w, step))
  {
    ChangeKeepsViews(configured, w, step);
    if Commits(configured, w, step) {
      ChangeKeepsRecord(configured, w, step);
      ChangeKeepsJudgments(configured, w, step);
      ChangeKeepsNonces(configured, w, step);
      ChangeKeepsHistory(configured, w, step);
    }
  }

  lemma StepKeepsInv(configured: set<int>, w: World, step: Step)
    requires Inv(configured, w) && Possible(w, step)
    ensures Inv(configured, After(configured, w, step))
  {
    if step.Change? { ChangeStep(configured, w, step); }
  }

  // ---- Runs ----

  ghost predicate Runs(configured: set<int>, w: World, steps: seq<Step>, w': World)
    decreases |steps|
  {
    if steps == [] then w' == w
    else Possible(w, steps[0]) && Runs(configured, After(configured, w, steps[0]), steps[1..], w')
  }

  /** A valid record, nobody at work, and what is outstanding counted as issued and offered. */
  function Start(r: Registration): World {
    World(r, map[], map[], set i | 0 <= i < |r.nonces| :: r.nonces[i].nonce, r.nonces, [],
          if r.claim == "" then [] else [Offer(r.claim, r.claimExpires)], [], [])
  }

  lemma {:induction false} RunsKeepInv(configured: set<int>, w: World, steps: seq<Step>, w': World)
    requires Inv(configured, w) && Runs(configured, w, steps, w')
    ensures Inv(configured, w')
    decreases |steps|
  {
    if steps != [] {
      StepKeepsInv(configured, w, steps[0]);
      RunsKeepInv(configured, After(configured, w, steps[0]), steps[1..], w');
    }
  }

  /** In every interleaving of any number of threads: the record stays valid, so no group is ever
      both pending and awaiting leave; `LeaveChat` is never called for a group that is configured,
      or registered at that moment; no nonce is spent twice, whichever groups race for it, and none comes back; and
      at most one user ever claims the bot. */
  lemma RegistrationIsSafe(configured: set<int>, r: Registration, steps: seq<Step>, w: World)
    requires ValidRegistration(configured, r) && PendingActors(r) && Runs(configured, Start(r), steps, w)
    ensures ValidRegistration(configured, w.registration)
    ensures forall g :: !(Awaiting(w.registration.pending, g) && Leaving(w.registration.leaves, g))
    ensures forall i | 0 <= i < |w.left| :: !w.left[i].registered && !w.left[i].support && w.left[i].gid !in configured
    ensures forall i, j | 0 <= i < j < |w.spent| :: w.spent[i].nonce != w.spent[j].nonce
    ensures forall i | 0 <= i < |w.spent| :: !Issued(w.registration.nonces, w.spent[i].nonce)
    ensures |w.claims| <= 1 && (w.claims != [] ==> w.registration.owner == w.claims[0].user)
  {
    RunsKeepInv(configured, Start(r), steps, w);
  }

  /** Whoever has become the owner showed a token that had been offered, by the record at the start or
      by a committed `EnsureClaim` since, and had not expired; and every capability used had been
      granted by the owner of that moment, and had not expired. */
  lemma ClaimsWereOffered(configured: set<int>, r: Registration, steps: seq<Step>, w: World)
    requires ValidRegistration(configured, r) && PendingActors(r) && Runs(configured, Start(r), steps, w)
    ensures forall c | c in w.claims ::
      exists o :: o in w.offers && o.token == c.token != "" && c.at < o.until
    ensures forall o | o in w.offers ::
      (o.token == r.claim && o.until == r.claimExpires) || Opened(configured, Start(r), steps, w, o)
    ensures forall u | u in w.spent ::
      exists g :: g in w.grants && g.nonce == u.nonce && g.issuedBy == u.owner != 0 && u.at < g.expiresAt
  {
    RunsKeepInv(configured, Start(r), steps, w);
    OffersWereOpened(configured, Start(r), steps, w);
    forall c | c in w.claims ensures exists o :: o in w.offers && o.token == c.token != "" && c.at < o.until {
      assert Offered(w.offers, c.token, c.at);
      var i :| 0 <= i < |w.offers| && w.offers[i].token == c.token && c.at < w.offers[i].until;
      assert w.offers[i] in w.offers;
    }
    forall u | u in w.spent ensures exists g :: g in w.grants && g.nonce == u.nonce && g.issuedBy == u.owner != 0 && u.at < g.expiresAt {
      assert Granted(w.grants, u.nonce, u.owner, u.at);
      var i :| 0 <= i < |w.grants| && w.grants[i].nonce == u.nonce && w.grants[i].issuedBy == u.owner && u.at < w.grants[i].expiresAt;
      assert w.grants[i] in w.grants;
    }
  }

  /** Somewhere in the run a committed `EnsureClaim` made this offer, while there was no owner. */
  ghost predicate Opened(configured: set<int>, w: World, steps: seq<Step>, w': World, o: Offer)
    requires Runs(configured, w, steps, w')
    decreases |steps|
  {
    steps != [] && (Opens(configured, w, steps[0], o) || Opened(configured, After(configured, w, steps[0]), steps[1..], w', o))
  }

  ghost predicate Opens(configured: set<int>, w: World, step: Step, o: Offer) {
    && step.Change? && step.change.EnsureClaim? && Commits(configured, w, step) && w.registration.owner == 0
    && o == Offer(step.change.claim, step.facts.now + step.change.lifetime)
  }

  lemma OfferIsOpened(configured: set<int>, w: World, step: Step, o: Offer)
    requires Inv(configured, w) && Possible(w, step) && o in After(configured, w, step).offers
    ensures o in w.offers || Opens(configured, w, step, o)
  {
    if step.Change? && Commits(configured, w, step) { CommitSeesCurrent(configured, w, step); }
  }

  lemma {:induction false} OffersWereOpened(configured: set<int>, w: World, steps: seq<Step>, w': World)
    requires Inv(configured, w) && Runs(configured, w, steps, w')
    ensures forall o | o in w'.offers :: o in w.offers || Opened(configured, w, steps, w', o)
    decreases |steps|
  {
    if steps != [] {
      var w1 := After(configured, w, steps[0]);
      StepKeepsInv(configured, w, steps[0]);
      OffersWereOpened(configured, w1, steps[1..], w');
      forall o | o in w'.offers ensures o in w.offers || Opened(configured, w, steps, w', o) {
        if o in w1.offers { OfferIsOpened(configured, w, steps[0], o); }
      }
    }
  }

  /** An owner, once there, stays. */
  lemma {:induction false} OwnerStays(configured: set<int>, w: World, steps: seq<Step>, w': World)
    requires Inv(configured, w) && Runs(configured, w, steps, w') && w.registration.owner != 0
    ensures w'.registration.owner == w.registration.owner && w'.claims == w.claims
    decreases |steps|
  {
    if steps != [] {
      var step := steps[0];
      StepKeepsInv(configured, w, step);
      if step.Change? && Commits(configured, w, step) {
        CommitSeesCurrent(configured, w, step);
        OwnerIsFirst(w.registration, step.change, step.facts);
      }
      OwnerStays(configured, After(configured, w, step), steps[1..], w');
    }
  }

  // ---- What a thread gets done ----

  /** A change read and made with nobody in between is committed, if the record it asks for is valid and
      reaches the disk, and otherwise nothing is; and no other thread notices. */
  lemma UndisturbedChangeCommits(configured: set<int>, w: World, t: nat, change: Registrations.Change, facts: Facts, written: bool)
    requires GroupOf(change).None? || ThreadOf(w, t).lock == GroupOf(change)
    requires Genuine(change, facts.now) && (change.IssueNonce? ==> change.nonce !in w.issued)
    ensures Possible(w, Step.View(t)) && Possible(After(configured, w, Step.View(t)), Change(t, change, facts, written))
    ensures var w' := After(configured, After(configured, w, Step.View(t)), Change(t, change, facts, written));
      && w'.registration == (match Propose(w.registration, change, facts)
           case Commit(next) => if written && ValidRegistration(configured, next) then Committed(w, next) else w.registration
           case _ => w.registration)
      && (forall u | u != t :: ThreadOf(w', u) == ThreadOf(w, u)) && w'.holder == w.holder
  {
    assert ThreadOf(After(configured, w, Step.View(t)), t).view == Some(w.registration);
  }

  /** What was read before another thread changed the record is committed by nobody. */
  lemma StaleChangeIsDropped(configured: set<int>, w: World, other: Step, step: Step)
    requires Inv(configured, w) && Possible(w, other) && other.Change? && step.Change? && step.t != other.t
    requires After(configured, w, other).registration != w.registration
    ensures !Commits(configured, After(configured, w, other), step)
  {
    var view := ThreadOf(w, step.t).view;
    assert ThreadOf(After(configured, w, other), step.t).view == view;
    assert After(configured, w, other).registration.revision == w.registration.revision + 1;
    assert step.t !in w.threads ==> view.None?;
  }

  /** A free lock can be taken by whoever holds none; until it is given back nobody else can, and then
      anybody. */
  lemma LockIsTakenAndGivenBack(configured: set<int>, w: World, t: nat, u: nat, gid: int)
    requires ThreadOf(w, t).lock.None? && gid !in w.holder && u != t && ThreadOf(w, u).lock.None?
    ensures Possible(w, Lock(t, gid))
    ensures var w1 := After(configured, w, Lock(t, gid));
      && ThreadOf(w1, t).lock == Some(gid) && !Possible(w1, Lock(u, gid)) && Possible(w1, Unlock(t))
      && Possible(After(configured, w1, Unlock(t)), Lock(u, gid)) && ThreadOf(After(configured, w1, Unlock(t)), t).lock.None?
  {
  }

  /** The thread that holds a group's lock leaves it exactly when the group is neither configured nor
      registered nor needed for others. */
  lemma UnknownGroupIsLeft(configured: set<int>, w: World, t: nat, support: bool)
    requires ThreadOf(w, t).lock.Some?
    ensures var gid := ThreadOf(w, t).lock.value;
      && Possible(w, Judge(t, support))
      && (Possible(After(configured, w, Judge(t, support)), Leave(t)) <==>
            gid !in configured && !Registered(w.registration, gid) && !support)
      && (Possible(After(configured, w, Judge(t, support)), Leave(t)) ==>
            After(configured, After(configured, w, Judge(t, support)), Leave(t)).left == w.left + [Departure(gid, false, false)])
  {
  }
}

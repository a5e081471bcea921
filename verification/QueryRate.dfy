/** The rate limit on private lookups: so many per user in any minute. Times are nanoseconds. */
module QueryRate {
  import opened Sets

  const WINDOW := 60_000_000_000
  const MAP_MAX := 10000

  datatype User = User(id: int)

  // ---- One user's hits ----

  function Put<T>(s: seq<T>, more: bool, x: T): seq<T> { if more then s + [x] else s }

  /** The hits after `cutoff`, in order. */
  function Live(hits: seq<int>, cutoff: int): seq<int> {
    if hits == [] then []
    else Put(Live(hits[..|hits| - 1], cutoff), hits[|hits| - 1] > cutoff, hits[|hits| - 1])
  }

  predicate Rising(hits: seq<int>) { forall i, j | 0 <= i < j < |hits| :: hits[i] <= hits[j] }

  /** The filter of `queryRateOK`, which writes over the slice it reads: no live hit is lost to that. */
  method FilterInPlace(hits: array<int>, cutoff: int) returns (kept: nat)
    modifies hits
    ensures kept <= hits.Length && hits[..kept] == Live(old(hits[..]), cutoff)
  {
    kept := 0;
    var i := 0;
    while i < hits.Length
      invariant 0 <= kept <= i <= hits.Length
      invariant hits[..kept] == Live(old(hits[..])[..i], cutoff)
      invariant forall k | i <= k < hits.Length :: hits[k] == old(hits[k])
    {
      assert old(hits[..])[..i + 1][..i] == old(hits[..])[..i];
      if hits[i] > cutoff {
        hits[kept] := hits[i];
        kept := kept + 1;
      }
      i := i + 1;
    }
    assert old(hits[..])[..i] == old(hits[..]);
  }

  lemma {:induction false} LiveTwice(hits: seq<int>, early: int, late: int)
    requires early <= late
    ensures Live(Live(hits, early), late) == Live(hits, late)
  {
    if hits != [] {
      var front, last := hits[..|hits| - 1], hits[|hits| - 1];
      LiveTwice(front, early, late);
      if last > early {
        LiveJoined(Live(front, early), last, late);
      }
    }
  }

  lemma LiveJoined(hits: seq<int>, last: int, cutoff: int)
    ensures Live(hits + [last], cutoff) == Put(Live(hits, cutoff), last > cutoff, last)
  {
    assert (hits + [last])[..|hits|] == hits;
  }

  lemma {:induction false} LiveOfOld(hits: seq<int>, cutoff: int)
    requires forall i | 0 <= i < |hits| :: hits[i] <= cutoff
    ensures Live(hits, cutoff) == []
  {
    if hits != [] { LiveOfOld(hits[..|hits| - 1], cutoff); }
  }

  lemma {:induction false} LiveIsRising(hits: seq<int>, cutoff: int)
    requires Rising(hits)
    ensures Rising(Live(hits, cutoff))
    ensures forall i | 0 <= i < |Live(hits, cutoff)| :: Live(hits, cutoff)[i] > cutoff && hits != [] && Live(hits, cutoff)[i] <= hits[|hits| - 1]
  {
    if hits != [] { LiveIsRising(hits[..|hits| - 1], cutoff); }
  }

  lemma {:induction false} LiveShrinks(hits: seq<int>, early: int, late: int)
    requires early <= late
    ensures |Live(hits, late)| <= |Live(hits, early)|
  {
    if hits != [] { LiveShrinks(hits[..|hits| - 1], early, late); }
  }

  // ---- The map of all users ----

  function Hits(m: map<User, seq<int>>, user: User): seq<int> { if user in m then m[user] else [] }

  predicate Stale(hits: seq<int>, cutoff: int) { hits == [] || hits[|hits| - 1] <= cutoff }

  function Evicted(m: map<User, seq<int>>, cutoff: int): map<User, seq<int>> { map u | u in m && !Stale(m[u], cutoff) :: m[u] }

  /** Whether a request is let through. */
  predicate Passes(m: map<User, seq<int>>, user: User, now: int, limit: nat) { |Live(Hits(m, user), now - WINDOW)| < limit }

  /** The map with the request's user brought up to date. */
  function Noted(m: map<User, seq<int>>, user: User, now: int, limit: nat): map<User, seq<int>> {
    m[user := Put(Live(Hits(m, user), now - WINDOW), Passes(m, user, now, limit), now)]
  }

  predicate Crowded(m: map<User, seq<int>>) { |m| > MAP_MAX }

  /** Too many users even without the stale ones: everything is forgotten. */
  predicate Wipes(m: map<User, seq<int>>, user: User, now: int, limit: nat) {
    var noted := Noted(m, user, now, limit);
    Passes(m, user, now, limit) && Crowded(noted) && Crowded(Evicted(noted, now - WINDOW))
  }

  /** The map after a request. */
  function After(m: map<User, seq<int>>, user: User, now: int, limit: nat): map<User, seq<int>> {
    var noted := Noted(m, user, now, limit);
    if !Passes(m, user, now, limit) || !Crowded(noted) then noted
    else if Wipes(m, user, now, limit) then map[]
    else Evicted(noted, now - WINDOW)
  }

  lemma OnlyFreshLeft(m: map<User, seq<int>>, left: map<User, seq<int>>, cutoff: int)
    requires forall u | u in m :: u in left <==> !Stale(m[u], cutoff)
    requires forall u | u in left :: u in m && left[u] == m[u]
    ensures left == Evicted(m, cutoff)
  {
    assert left.Keys == Evicted(m, cutoff).Keys;
  }

  class RateLimiter {
    var queryHits: map<User, seq<int>>

    constructor ()
      ensures queryHits == map[]
    {
      queryHits := map[];
    }

    /** `queryRateOK`. */
    method QueryRateOK(user: User, now: int, limit: nat) returns (ok: bool)
      modifies this
      ensures ok == Passes(old(queryHits), user, now, limit)
      ensures queryHits == After(old(queryHits), user, now, limit)
    {
      var cutoff := now - WINDOW;
      var hits := if user in queryHits then queryHits[user] else [];
      var buffer := new int[|hits|](i requires 0 <= i < |hits| => hits[i]);
      assert buffer[..] == hits;
      var n := FilterInPlace(buffer, cutoff);
      var kept := buffer[..n];
      if |kept| >= limit {
        queryHits := queryHits[user := kept];
        return false;
      }
      queryHits := queryHits[user := kept + [now]];
      if |queryHits| > MAP_MAX {
        EvictStale(cutoff);
        if |queryHits| > MAP_MAX {
          queryHits := map[];
        }
      }
      return true;
    }

    method EvictStale(cutoff: int)
      modifies this
      ensures queryHits == Evicted(old(queryHits), cutoff)
    {
      ghost var m := queryHits;
      var todo := queryHits.Keys;
      while todo != {}
        invariant todo <= m.Keys && queryHits.Keys <= m.Keys
        invariant forall u | u in m && u !in todo :: u in queryHits <==> !Stale(m[u], cutoff)
        invariant forall u | u in todo :: u in queryHits
        invariant forall u | u in queryHits :: u in m && queryHits[u] == m[u]
        decreases |todo|
      {
        var u := Pick(todo);
        assert u in m && u in queryHits;
        if Stale(queryHits[u], cutoff) {
          queryHits := queryHits - {u};
        }
        todo := todo - {u};
      }
      OnlyFreshLeft(m, queryHits, cutoff);
    }
  }

  // ---- Runs ----

  datatype Request = Request(user: User, at: int)

  /** The accepted hits of one user. */
  function Of(accepted: seq<Request>, user: User): seq<int> {
    if accepted == [] then []
    else Put(Of(accepted[..|accepted| - 1], user), accepted[|accepted| - 1].user == user, accepted[|accepted| - 1].at)
  }

  /** The rule in words: so many in any minute, and ten thousand users are a crowd. */
  const MINUTE := 60_000_000_000
  const CROWD := 10_000

  /** The limit by the whole history: fewer than `limit` accepted in the last window. */
  predicate Deserves(accepted: seq<Request>, r: Request, limit: nat) { |Live(Of(accepted, r.user), r.at - MINUTE)| < limit }

  /** What the limiter accepts of a series of requests, and the map it ends with. */
  function Accepted(requests: seq<Request>, limit: nat): seq<Request> {
    if requests == [] then []
    else
      var (r, before) := (requests[|requests| - 1], requests[..|requests| - 1]);
      Put(Accepted(before, limit), Passes(MapAfter(before, limit), r.user, r.at, limit), r)
  }

  function MapAfter(requests: seq<Request>, limit: nat): map<User, seq<int>> {
    if requests == [] then map[]
    else
      var (r, before) := (requests[|requests| - 1], requests[..|requests| - 1]);
      After(MapAfter(before, limit), r.user, r.at, limit)
  }

  function LastTime(requests: seq<Request>, otherwise: int): int {
    if requests == [] then otherwise else requests[|requests| - 1].at
  }

  /** Time does not run backwards, and no request wiped the map. */
  predicate Orderly(requests: seq<Request>, limit: nat) {
    requests == [] ||
    var (r, before) := (requests[|requests| - 1], requests[..|requests| - 1]);
    Orderly(before, limit) && LastTime(before, r.at) <= r.at && !Wipes(MapAfter(before, limit), r.user, r.at, limit)
  }

  /** A user's kept hits and all accepted ones agree on what is live, now and so at any later time. */
  predicate Agrees(hits: seq<int>, all: seq<int>, now: int) {
    && Rising(hits) && (forall i | 0 <= i < |hits| :: hits[i] <= now)
    && Live(hits, now - WINDOW) == Live(all, now - WINDOW)
  }

  lemma AgreesLater(hits: seq<int>, all: seq<int>, now: int, later: int)
    requires Agrees(hits, all, now) && now <= later
    ensures Agrees(hits, all, later)
  {
    LiveTwice(hits, now - WINDOW, later - WINDOW);
    LiveTwice(all, now - WINDOW, later - WINDOW);
  }

  lemma StillRising(live: seq<int>, now: int, more: bool)
    requires Rising(live) && forall i | 0 <= i < |live| :: live[i] <= now
    ensures Rising(Put(live, more, now)) && forall i | 0 <= i < |Put(live, more, now)| :: Put(live, more, now)[i] <= now
  {
  }

  lemma LiveOncePut(hits: seq<int>, more: bool, now: int, cutoff: int)
    requires cutoff < now
    ensures Live(Put(hits, more, now), cutoff) == Put(Live(hits, cutoff), more, now)
  {
    LiveJoined(hits, now, cutoff);
  }

  lemma AgreesOnceNoted(hits: seq<int>, all: seq<int>, now: int, more: bool)
    requires Agrees(hits, all, now)
    ensures Agrees(Put(Live(hits, now - WINDOW), more, now), Put(all, more, now), now)
  {
    var live := Live(hits, now - WINDOW);
    LiveTwice(hits, now - WINDOW, now - WINDOW);
    LiveIsRising(hits, now - WINDOW);
    StillRising(live, now, more);
    LiveOncePut(live, more, now, now - WINDOW);
    LiveOncePut(all, more, now, now - WINDOW);
  }

  lemma AgreesOnceEvicted(hits: seq<int>, all: seq<int>, now: int)
    requires Agrees(hits, all, now) && Stale(hits, now - WINDOW)
    ensures Agrees([], all, now)
  {
    LiveOfOld(hits, now - WINDOW);
  }

  /** The map answers for every user as the history does. */
  ghost predicate Faithful(m: map<User, seq<int>>, accepted: seq<Request>, now: int) {
    forall u: User :: Agrees(Hits(m, u), Of(accepted, u), now)
  }

  lemma OfJoined(accepted: seq<Request>, r: Request, user: User)
    ensures Of(accepted + [r], user) == Put(Of(accepted, user), r.user == user, r.at)
  {
    assert (accepted + [r])[..|accepted|] == accepted;
  }

  function With(accepted: seq<Request>, r: Request, limit: nat): seq<Request> {
    Put(accepted, Deserves(accepted, r, limit), r)
  }

  lemma NotedUser(m: map<User, seq<int>>, accepted: seq<Request>, r: Request, limit: nat, user: User)
    requires Agrees(Hits(m, user), Of(accepted, user), r.at)
    requires Passes(m, r.user, r.at, limit) == Deserves(accepted, r, limit)
    ensures Agrees(Hits(Noted(m, r.user, r.at, limit), user), Of(With(accepted, r, limit), user), r.at)
  {
    var more := Deserves(accepted, r, limit);
    OfJoined(accepted, r, user);
    if user == r.user {
      AgreesOnceNoted(Hits(m, user), Of(accepted, user), r.at, more);
      assert Hits(Noted(m, r.user, r.at, limit), user) == Put(Live(Hits(m, user), r.at - WINDOW), more, r.at);
      assert Of(With(accepted, r, limit), user) == Put(Of(accepted, user), more, r.at);
    } else {
      assert Hits(Noted(m, r.user, r.at, limit), user) == Hits(m, user);
      assert Of(With(accepted, r, limit), user) == Of(accepted, user);
    }
  }

  lemma NotedIsFaithful(m: map<User, seq<int>>, accepted: seq<Request>, before: int, r: Request, limit: nat)
    requires Faithful(m, accepted, before) && before <= r.at
    ensures Passes(m, r.user, r.at, limit) == Deserves(accepted, r, limit)
    ensures Faithful(Noted(m, r.user, r.at, limit), With(accepted, r, limit), r.at)
  {
    AgreesLater(Hits(m, r.user), Of(accepted, r.user), before, r.at);
    forall u: User ensures Agrees(Hits(Noted(m, r.user, r.at, limit), u), Of(With(accepted, r, limit), u), r.at) {
      AgreesLater(Hits(m, u), Of(accepted, u), before, r.at);
      NotedUser(m, accepted, r, limit, u);
    }
  }

  /** Dropping stale users never changes a later answer. */
  lemma EvictionIsInvisible(m: map<User, seq<int>>, accepted: seq<Request>, now: int)
    requires Faithful(m, accepted, now)
    ensures Faithful(Evicted(m, now - WINDOW), accepted, now)
  {
    forall u: User ensures Agrees(Hits(Evicted(m, now - WINDOW), u), Of(accepted, u), now) {
      if Stale(Hits(m, u), now - WINDOW) { AgreesOnceEvicted(Hits(m, u), Of(accepted, u), now); }
    }
  }

  /** One request: the right verdict, and a faithful map again unless it is wiped. */
  lemma StepIsFaithful(m: map<User, seq<int>>, accepted: seq<Request>, before: int, r: Request, limit: nat)
    requires Faithful(m, accepted, before) && before <= r.at
    ensures Passes(m, r.user, r.at, limit) == Deserves(accepted, r, limit)
    ensures !Wipes(m, r.user, r.at, limit) ==> Faithful(After(m, r.user, r.at, limit), With(accepted, r, limit), r.at)
  {
    NotedIsFaithful(m, accepted, before, r, limit);
    EvictionIsInvisible(Noted(m, r.user, r.at, limit), With(accepted, r, limit), r.at);
  }

  lemma {:induction false} RunIsFaithful(requests: seq<Request>, limit: nat, otherwise: int)
    requires Orderly(requests, limit)
    ensures Faithful(MapAfter(requests, limit), Accepted(requests, limit), LastTime(requests, otherwise))
    decreases |requests|
  {
    if requests != [] {
      var n := |requests| - 1;
      var (before, r) := (requests[..n], requests[n]);
      RunIsFaithful(before, limit, r.at);
      StepIsFaithful(MapAfter(before, limit), Accepted(before, limit), LastTime(before, r.at), r, limit);
    }
  }

  /** Every verdict of a run is the one the whole history gives. */
  lemma VerdictsAreDeserved(requests: seq<Request>, limit: nat, r: Request)
    requires Orderly(requests, limit) && LastTime(requests, r.at) <= r.at
    ensures Passes(MapAfter(requests, limit), r.user, r.at, limit) <==> Deserves(Accepted(requests, limit), r, limit)
  {
    RunIsFaithful(requests, limit, r.at);
    StepIsFaithful(MapAfter(requests, limit), Accepted(requests, limit), LastTime(requests, r.at), r, limit);
  }

  /** The hits accepted of `user` in the window that starts after `start`. */
  function InWindow(accepted: seq<Request>, user: User, start: int): seq<int> { UpTo(Live(Of(accepted, user), start), start + MINUTE) }

  function UpTo(hits: seq<int>, end: int): seq<int> {
    if hits == [] then []
    else Put(UpTo(hits[..|hits| - 1], end), hits[|hits| - 1] <= end, hits[|hits| - 1])
  }

  lemma {:induction false} UpToShrinks(hits: seq<int>, end: int)
    ensures |UpTo(hits, end)| <= |hits|
  {
    if hits != [] { UpToShrinks(hits[..|hits| - 1], end); }
  }

  lemma UpToJoined(hits: seq<int>, last: int, end: int)
    ensures UpTo(hits + [last], end) == Put(UpTo(hits, end), last <= end, last)
  {
    assert (hits + [last])[..|hits|] == hits;
  }

  lemma OneMoreInWindow(accepted: seq<Request>, r: Request, limit: nat, user: User, start: int)
    requires |InWindow(accepted, user, start)| <= limit
    ensures |InWindow(With(accepted, r, limit), user, start)| <= limit
  {
    if Deserves(accepted, r, limit) {
      OfJoined(accepted, r, user);
      if user == r.user {
        var hits := Of(accepted, user);
        LiveJoined(hits, r.at, start);
        UpToJoined(Live(hits, start), r.at, start + WINDOW);
        if start < r.at <= start + WINDOW {
          LiveShrinks(hits, r.at - WINDOW, start);
          UpToShrinks(Live(hits, start), start + WINDOW);
        }
      }
    }
  }

  // ---- When the map is wiped ----

  /** Who was let through after `cutoff`. */
  function Active(accepted: seq<Request>, cutoff: int): set<User> { set q | q in accepted && q.at > cutoff :: q.user }

  lemma {:induction false} FreshIsLive(hits: seq<int>, cutoff: int)
    requires Rising(hits)
    ensures Live(hits, cutoff) == [] <==> Stale(hits, cutoff)
  {
    if Stale(hits, cutoff) { LiveOfOld(hits, cutoff); }
  }

  lemma {:induction false} LiveIsActive(accepted: seq<Request>, user: User, cutoff: int)
    ensures Live(Of(accepted, user), cutoff) != [] <==> user in Active(accepted, cutoff)
  {
    if accepted != [] {
      var front, last := accepted[..|accepted| - 1], accepted[|accepted| - 1];
      LiveIsActive(front, user, cutoff);
      assert accepted == front + [last];
      LiveJoined(Of(front, user), last.at, cutoff);
    }
  }

  lemma EvictedIsActive(m: map<User, seq<int>>, accepted: seq<Request>, now: int)
    requires Faithful(m, accepted, now)
    ensures Evicted(m, now - WINDOW).Keys == Active(accepted, now - WINDOW)
  {
    var kept := Evicted(m, now - WINDOW).Keys;
    forall u | u in kept ensures u in Active(accepted, now - WINDOW) { KeptIsActive(m, accepted, now, u); }
    forall u | u in Active(accepted, now - WINDOW) ensures u in kept { KeptIsActive(m, accepted, now, u); }
  }

  lemma KeptIsActive(m: map<User, seq<int>>, accepted: seq<Request>, now: int, u: User)
    requires Faithful(m, accepted, now)
    ensures u in Evicted(m, now - WINDOW) <==> u in Active(accepted, now - WINDOW)
  {
    assert Agrees(Hits(m, u), Of(accepted, u), now);
    FreshIsLive(Hits(m, u), now - WINDOW);
    LiveIsActive(accepted, u, now - WINDOW);
  }

  lemma EvictionShrinks(m: map<User, seq<int>>, cutoff: int)
    ensures |Evicted(m, cutoff)| <= |m|
  {
    var kept := Evicted(m, cutoff);
    SubsetSize(kept.Keys, m.Keys);
  }

  lemma WipingIsCrowding(m: map<User, seq<int>>, accepted: seq<Request>, before: int, r: Request, limit: nat)
    requires Faithful(m, accepted, before) && before <= r.at
    ensures Wipes(m, r.user, r.at, limit) <==>
            Deserves(accepted, r, limit) && |Active(With(accepted, r, limit), r.at - MINUTE)| > CROWD
  {
    var noted := Noted(m, r.user, r.at, limit);
    assert Passes(m, r.user, r.at, limit) == Deserves(accepted, r, limit) && Faithful(noted, With(accepted, r, limit), r.at) by {
      NotedIsFaithful(m, accepted, before, r, limit);
    }
    EvictionCrowds(noted, With(accepted, r, limit), r.at);
  }

  lemma EvictionCrowds(m: map<User, seq<int>>, accepted: seq<Request>, now: int)
    requires Faithful(m, accepted, now)
    ensures Crowded(Evicted(m, now - WINDOW)) <==> |Active(accepted, now - WINDOW)| > MAP_MAX
    ensures Crowded(Evicted(m, now - WINDOW)) ==> Crowded(m)
  {
    EvictedIsActive(m, accepted, now);
    EvictionShrinks(m, now - WINDOW);
  }

  /** After an orderly run, a request wipes the map exactly when it is let through and then more than
      ten thousand users have been within the last minute. */
  lemma WipesExactlyWhenCrowded(requests: seq<Request>, limit: nat, r: Request)
    requires Orderly(requests, limit) && LastTime(requests, r.at) <= r.at
    ensures Wipes(MapAfter(requests, limit), r.user, r.at, limit) <==>
            Deserves(Accepted(requests, limit), r, limit)
            && |Active(With(Accepted(requests, limit), r, limit), r.at - MINUTE)| > CROWD
  {
    RunIsFaithful(requests, limit, r.at);
    WipingIsCrowding(MapAfter(requests, limit), Accepted(requests, limit), LastTime(requests, r.at), r, limit);
  }
}

/** When the rate limit holds: the condition on the requests alone, and what happens without it. */
module QueryCrowds {
  import opened QueryRate

  /** What the whole history allows of a series of requests. */
  function Granted(requests: seq<Request>, limit: nat): seq<Request> {
    if requests == [] then []
    else With(Granted(requests[..|requests| - 1], limit), requests[|requests| - 1], limit)
  }

  /** Letting `r` through makes too many users active within the last minute. */
  predicate Crowds(accepted: seq<Request>, r: Request, limit: nat) {
    Deserves(accepted, r, limit) && |Active(With(accepted, r, limit), r.at - MINUTE)| > CROWD
  }

  /** Time does not run backwards, and never are more than ten thousand users let through within a
      minute. */
  predicate Calm(requests: seq<Request>, limit: nat) {
    requests == [] ||
    var (r, before) := (requests[|requests| - 1], requests[..|requests| - 1]);
    Calm(before, limit) && LastTime(before, r.at) <= r.at && !Crowds(Granted(before, limit), r, limit)
  }

  /** The map is never wiped exactly when the requests are calm; and then what is let through is what
      the whole history allows. */
  lemma {:induction false} NeverWipedExactlyWhenCalm(requests: seq<Request>, limit: nat)
    ensures Orderly(requests, limit) <==> Calm(requests, limit)
    ensures Calm(requests, limit) ==> Accepted(requests, limit) == Granted(requests, limit)
    decreases |requests|
  {
    if requests != [] {
      var (r, before) := (requests[|requests| - 1], requests[..|requests| - 1]);
      NeverWipedExactlyWhenCalm(before, limit);
      if Calm(before, limit) && LastTime(before, r.at) <= r.at {
        WipesExactlyWhenCrowded(before, limit, r);
        VerdictsAreDeserved(before, limit, r);
      }
    }
  }

  lemma {:induction false} GrantedWithinLimit(requests: seq<Request>, limit: nat, user: User, start: int)
    ensures |InWindow(Granted(requests, limit), user, start)| <= limit
    decreases |requests|
  {
    if requests != [] {
      var (r, before) := (requests[|requests| - 1], requests[..|requests| - 1]);
      GrantedWithinLimit(before, limit, user, start);
      OneMoreInWindow(Granted(before, limit), r, limit, user, start);
    }
  }

  /** In any window of a minute, wherever it starts, at most `limit` requests of a user are let through. */
  lemma AtMostLimitPerWindow(requests: seq<Request>, limit: nat, user: User, start: int)
    requires Calm(requests, limit)
    ensures |InWindow(Accepted(requests, limit), user, start)| <= limit
  {
    NeverWipedExactlyWhenCalm(requests, limit);
    GrantedWithinLimit(requests, limit, user, start);
  }

  // ---- After a crowd ----

  lemma {:induction false} UpToAll(hits: seq<int>, end: int)
    requires forall i | 0 <= i < |hits| :: hits[i] <= end
    ensures UpTo(hits, end) == hits
  {
    if hits != [] { UpToAll(hits[..|hits| - 1], end); }
  }

  lemma {:induction false} LiveIsEarlier(hits: seq<int>, cutoff: int, end: int)
    requires forall i | 0 <= i < |hits| :: hits[i] <= end
    ensures forall i | 0 <= i < |Live(hits, cutoff)| :: Live(hits, cutoff)[i] <= end
  {
    if hits != [] { LiveIsEarlier(hits[..|hits| - 1], cutoff, end); }
  }

  lemma {:induction false} OfIsEarlier(requests: seq<Request>, limit: nat, user: User, end: int)
    requires forall i | 0 <= i < |requests| :: requests[i].at <= end
    ensures forall i | 0 <= i < |Of(Accepted(requests, limit), user)| :: Of(Accepted(requests, limit), user)[i] <= end
    decreases |requests|
  {
    if requests != [] {
      OfIsEarlier(requests[..|requests| - 1], limit, user, end);
      OfJoined(Accepted(requests[..|requests| - 1], limit), requests[|requests| - 1], user);
    }
  }

  lemma Snoc(requests: seq<Request>, r: Request, limit: nat)
    ensures Granted(requests + [r], limit) == With(Granted(requests, limit), r, limit)
    ensures MapAfter(requests + [r], limit) == After(MapAfter(requests, limit), r.user, r.at, limit)
    ensures Accepted(requests + [r], limit)
         == Put(Accepted(requests, limit), Passes(MapAfter(requests, limit), r.user, r.at, limit), r)
    ensures Calm(requests + [r], limit) <==>
            Calm(requests, limit) && LastTime(requests, r.at) <= r.at && !Crowds(Granted(requests, limit), r, limit)
  {
    assert (requests + [r])[..|requests|] == requests;
  }

  /** A request that crowds the map has everyone forgotten, so that whoever comes next passes. */
  lemma CrowdIsForgotten(requests: seq<Request>, last: Request, limit: nat)
    requires Calm(requests, limit) && LastTime(requests, last.at) <= last.at && Crowds(Granted(requests, limit), last, limit)
    ensures MapAfter(requests + [last], limit) == map[] && limit > 0
    ensures Accepted(requests + [last], limit) == Granted(requests, limit) + [last]
  {
    Snoc(requests, last, limit);
    NeverWipedExactlyWhenCalm(requests, limit);
    WipesExactlyWhenCrowded(requests, limit, last);
    VerdictsAreDeserved(requests, limit, last);
  }

  /** Time does not run backwards. */
  predicate Timely(requests: seq<Request>) {
    requests == [] ||
    var (r, before) := (requests[|requests| - 1], requests[..|requests| - 1]);
    Timely(before) && LastTime(before, r.at) <= r.at
  }

  lemma {:induction false} TimelyBounds(requests: seq<Request>, otherwise: int)
    requires Timely(requests)
    ensures forall i | 0 <= i < |requests| :: requests[i].at <= LastTime(requests, otherwise)
  {
    if requests != [] { TimelyBounds(requests[..|requests| - 1], requests[|requests| - 1].at); }
  }

  /** What is let through and not forgotten again: at every crowd everything is. */
  function Remembered(requests: seq<Request>, limit: nat): seq<Request> {
    if requests == [] then []
    else
      var (r, earlier) := (requests[|requests| - 1], Remembered(requests[..|requests| - 1], limit));
      if Crowds(earlier, r, limit) then [] else With(earlier, r, limit)
  }

  lemma StepRemembers(m: map<User, seq<int>>, earlier: seq<Request>, before: int, r: Request, limit: nat)
    requires Faithful(m, earlier, before) && before <= r.at
    ensures Faithful(After(m, r.user, r.at, limit), if Crowds(earlier, r, limit) then [] else With(earlier, r, limit), r.at)
  {
    WipingIsCrowding(m, earlier, before, r, limit);
    if !Crowds(earlier, r, limit) { StepIsFaithful(m, earlier, before, r, limit); }
  }

  /** However many crowds there were, the map knows what has been let through since the last one. */
  lemma {:induction false} MapRemembers(requests: seq<Request>, limit: nat, otherwise: int)
    requires Timely(requests)
    ensures Faithful(MapAfter(requests, limit), Remembered(requests, limit), LastTime(requests, otherwise))
    decreases |requests|
  {
    if requests != [] {
      var (r, before) := (requests[|requests| - 1], requests[..|requests| - 1]);
      MapRemembers(before, limit, r.at);
      StepRemembers(MapAfter(before, limit), Remembered(before, limit), LastTime(before, r.at), r, limit);
    }
  }

  /** At any moment of any run, crowds or not: the next request passes exactly when its user has been
      let through fewer times than the limit since the last crowd, within the last minute; and it then
      exceeds the limit exactly when the user had reached it counting what was forgotten. */
  lemma ExceededExactlyWhen(requests: seq<Request>, limit: nat, next: Request)
    requires Timely(requests) && LastTime(requests, next.at) <= next.at
    ensures var passes := Deserves(Remembered(requests, limit), next, limit);
      && Accepted(requests + [next], limit) == Put(Accepted(requests, limit), passes, next)
      && (passes ==>
            (|InWindow(Accepted(requests + [next], limit), next.user, next.at - MINUTE)| > limit <==>
               !Deserves(Accepted(requests, limit), next, limit)))
  {
    MapRemembers(requests, limit, next.at);
    StepIsFaithful(MapAfter(requests, limit), Remembered(requests, limit), LastTime(requests, next.at), next, limit);
    Snoc(requests, next, limit);
    TimelyBounds(requests, next.at);
    OfIsEarlier(requests, limit, next.user, next.at);
    NextIsCounted(Accepted(requests, limit), limit, next);
  }

  /** While the requests are calm nothing is forgotten. */
  lemma {:induction false} CalmRemembers(requests: seq<Request>, limit: nat)
    requires Calm(requests, limit)
    ensures Timely(requests) && Remembered(requests, limit) == Granted(requests, limit)
    decreases |requests|
  {
    if requests != [] { CalmRemembers(requests[..|requests| - 1], limit); }
  }

  lemma NextIsCounted(accepted: seq<Request>, limit: nat, next: Request)
    requires forall i | 0 <= i < |Of(accepted, next.user)| :: Of(accepted, next.user)[i] <= next.at
    ensures |InWindow(accepted + [next], next.user, next.at - MINUTE)| > limit <==> !Deserves(accepted, next, limit)
  {
    OfJoined(accepted, next, next.user);
    HitIsCounted(Of(accepted, next.user), next.at);
  }

  lemma HitIsCounted(hits: seq<int>, at: int)
    requires forall i | 0 <= i < |hits| :: hits[i] <= at
    ensures |UpTo(Live(hits + [at], at - MINUTE), at)| == |Live(hits, at - MINUTE)| + 1
  {
    LiveJoined(hits, at, at - MINUTE);
    LiveIsEarlier(hits, at - MINUTE, at);
    UpToAll(Live(hits, at - MINUTE) + [at], at);
  }

  // ---- A run that exceeds the limit ----

  /** One user reaches the limit. */
  function Firsts(k: nat): seq<Request> { if k == 0 then [] else Firsts(k - 1) + [Request(User(0), 0)] }

  /** Then others come, once each. */
  function Crowd(limit: nat, n: nat): seq<Request> {
    if n == 0 then Firsts(limit) else Crowd(limit, n - 1) + [Request(User(n), 0)]
  }

  function UsersTo(n: nat): set<User> { if n == 0 then {User(0)} else UsersTo(n - 1) + {User(n)} }

  lemma {:induction false} UsersCounted(n: nat)
    ensures |UsersTo(n)| == n + 1 && forall u: User :: u in UsersTo(n) <==> 0 <= u.id <= n
  {
    if n > 0 { UsersCounted(n - 1); }
  }

  lemma ActiveJoined(accepted: seq<Request>, r: Request, cutoff: int)
    requires r.at > cutoff
    ensures Active(accepted + [r], cutoff) == Active(accepted, cutoff) + {r.user}
  {
    var (a, b) := (Active(accepted + [r], cutoff), Active(accepted, cutoff) + {r.user});
    forall u | u in a ensures u in b {
      var q :| q in accepted + [r] && q.at > cutoff && q.user == u;
      assert q in accepted || q == r;
    }
    forall u | u in b ensures u in a {
      if u == r.user { assert r in accepted + [r]; }
      else { var q :| q in accepted && q.at > cutoff && q.user == u; assert q in accepted + [r]; }
    }
  }

  lemma NoCrowd(before: seq<Request>, r: Request, limit: nat)
    requires Deserves(before, r, limit) && |Active(before + [r], r.at - MINUTE)| <= CROWD
    ensures With(before, r, limit) == before + [r] && !Crowds(before, r, limit)
  {
  }

  lemma CalmStep(before: seq<Request>, r: Request, limit: nat)
    requires Calm(before, limit) && Granted(before, limit) == before && LastTime(before, r.at) <= r.at
    requires With(before, r, limit) == before + [r] && !Crowds(before, r, limit)
    ensures Calm(before + [r], limit) && Granted(before + [r], limit) == before + [r]
  {
    Snoc(before, r, limit);
  }

  /** All at one time, and one hit of `user` more. */
  lemma HitsStep(before: seq<Request>, r: Request, user: User, hits: nat)
    requires r.at == 0 && |Live(Of(before, user), -MINUTE)| == hits
    ensures |Live(Of(before + [r], user), -MINUTE)| == if r.user == user then hits + 1 else hits
  {
    OfJoined(before, r, user);
    LiveJoined(Of(before, user), 0, -MINUTE);
  }

  lemma {:induction false} FirstsAreGranted(k: nat, limit: nat)
    requires k <= limit
    ensures Calm(Firsts(k), limit) && Granted(Firsts(k), limit) == Firsts(k)
    ensures |Live(Of(Firsts(k), User(0)), -MINUTE)| == k && Active(Firsts(k), -MINUTE) == if k == 0 then {} else UsersTo(0)
  {
    if k > 0 {
      var (before, r) := (Firsts(k - 1), Request(User(0), 0));
      FirstsAreGranted(k - 1, limit);
      HitsStep(before, r, User(0), k - 1);
      ActiveJoined(before, r, -MINUTE);
      NoCrowd(before, r, limit);
      CalmStep(before, r, limit);
    }
  }

  lemma {:induction false} NoHits(limit: nat, n: nat, u: User)
    requires u.id > n
    ensures Of(Crowd(limit, n), u) == []
  {
    if n > 0 {
      NoHits(limit, n - 1, u);
      OfJoined(Crowd(limit, n - 1), Request(User(n), 0), u);
    } else {
      NoHitsOfFirsts(limit, u);
    }
  }

  lemma {:induction false} NoHitsOfFirsts(k: nat, u: User)
    requires u.id > 0
    ensures Of(Firsts(k), u) == []
  {
    if k > 0 {
      NoHitsOfFirsts(k - 1, u);
      OfJoined(Firsts(k - 1), Request(User(0), 0), u);
    }
  }

  lemma {:induction false} CrowdIsGranted(limit: nat, n: nat)
    requires limit >= 1 && n < CROWD
    ensures Calm(Crowd(limit, n), limit) && Granted(Crowd(limit, n), limit) == Crowd(limit, n)
    ensures |Live(Of(Crowd(limit, n), User(0)), -MINUTE)| == limit && Active(Crowd(limit, n), -MINUTE) == UsersTo(n)
  {
    if n == 0 {
      FirstsAreGranted(limit, limit);
    } else {
      var (before, r) := (Crowd(limit, n - 1), Request(User(n), 0));
      CrowdIsGranted(limit, n - 1);
      HitsStep(before, r, User(0), limit);
      assert Active(before + [r], -MINUTE) == UsersTo(n) by { ActiveJoined(before, r, -MINUTE); }
      assert Calm(before + [r], limit) && Granted(before + [r], limit) == before + [r] by {
        AllAtOnce(limit, n - 1);
        RoomForOneMore(before, r, limit, n);
        CalmStep(before, r, limit);
      }
    }
  }

  lemma RoomForOneMore(before: seq<Request>, r: Request, limit: nat, n: nat)
    requires limit >= 1 && 1 <= n < CROWD && before == Crowd(limit, n - 1) && r == Request(User(n), 0)
    requires Active(before + [r], -MINUTE) == UsersTo(n)
    ensures With(before, r, limit) == before + [r] && !Crowds(before, r, limit)
  {
    NewcomerIsDeserving(limit, n);
    UsersCounted(n);
    NoCrowd(before, r, limit);
  }

  lemma NewcomerIsDeserving(limit: nat, n: nat)
    requires limit >= 1 && n >= 1
    ensures Deserves(Crowd(limit, n - 1), Request(User(n), 0), limit)
  {
    NoHits(limit, n - 1, User(n));
  }

  lemma {:induction false} AllAtOnce(limit: nat, n: nat)
    ensures forall i | 0 <= i < |Crowd(limit, n)| :: Crowd(limit, n)[i].at == 0
  {
    if n > 0 { AllAtOnce(limit, n - 1); } else { FirstsAtOnce(limit); }
  }

  lemma {:induction false} FirstsAtOnce(k: nat)
    ensures forall i | 0 <= i < |Firsts(k)| :: Firsts(k)[i].at == 0
  {
    if k > 0 { FirstsAtOnce(k - 1); }
  }

  /** Whoever was turned away before a crowd passes after it, and exceeds the limit. */
  lemma OneTooMany(before: seq<Request>, last: Request, limit: nat, next: Request)
    requires Calm(before, limit) && Granted(before, limit) == before && LastTime(before, last.at) <= last.at <= next.at
    requires Crowds(before, last, limit) && next.user != last.user && !Deserves(before, next, limit)
    ensures |InWindow(Accepted(before + [last] + [next], limit), next.user, next.at - MINUTE)| > limit
  {
    NothingRemembered(before, last, limit);
    FirstStaysLimited(before, last, limit, next);
    CrowdIsForgotten(before, last, limit);
    ExceededExactlyWhen(before + [last], limit, next);
  }

  /** For every limit: one user uses it up, ten thousand others come once each, and the first one is
      let through once more within the same minute. */
  lemma LimitCanBeExceeded(limit: nat) returns (requests: seq<Request>)
    requires limit >= 1
    ensures forall i | 0 <= i < |requests| :: requests[i].at == 0
    ensures |InWindow(Accepted(requests, limit), User(0), -MINUTE)| > limit
  {
    var (before, last, next) := (Crowd(limit, CROWD - 1), Request(User(CROWD), 0), Request(User(0), 0));
    AllAtOnce(limit, CROWD - 1);
    LastOneCrowds(limit);
    OneTooMany(before, last, limit, next);
    requests := before + [last] + [next];
  }

  lemma NothingRemembered(before: seq<Request>, last: Request, limit: nat)
    requires Calm(before, limit) && LastTime(before, last.at) <= last.at && Crowds(Granted(before, limit), last, limit)
    ensures Timely(before + [last]) && Remembered(before + [last], limit) == []
  {
    CalmRemembers(before, limit);
    assert (before + [last])[..|before|] == before;
  }

  lemma LastOneCrowds(limit: nat)
    requires limit >= 1
    ensures var before := Crowd(limit, CROWD - 1);
      && Calm(before, limit) && Granted(before, limit) == before && |Live(Of(before, User(0)), -MINUTE)| == limit
      && Crowds(before, Request(User(CROWD), 0), limit)
  {
    var (before, last) := (Crowd(limit, CROWD - 1), Request(User(CROWD), 0));
    CrowdIsGranted(limit, CROWD - 1);
    NewcomerIsDeserving(limit, CROWD);
    ActiveJoined(before, last, -MINUTE);
    UsersCounted(CROWD);
  }

  lemma FirstStaysLimited(before: seq<Request>, last: Request, limit: nat, next: Request)
    requires Calm(before, limit) && Granted(before, limit) == before && LastTime(before, last.at) <= last.at
    requires Crowds(before, last, limit)
    requires next.user != last.user && !Deserves(before, next, limit)
    ensures !Deserves(Accepted(before + [last], limit), next, limit)
  {
    CrowdIsForgotten(before, last, limit);
    StillLimited(before, last, limit, next);
  }

  lemma SameHits(a: seq<Request>, b: seq<Request>, next: Request, limit: nat)
    requires Of(a, next.user) == Of(b, next.user)
    ensures Deserves(a, next, limit) <==> Deserves(b, next, limit)
  {
  }

  lemma StillLimited(before: seq<Request>, last: Request, limit: nat, next: Request)
    requires next.user != last.user && !Deserves(before, next, limit)
    ensures !Deserves(before + [last], next, limit)
  {
    OfJoined(before, last, next.user);
    SameHits(before + [last], before, next, limit);
  }
}

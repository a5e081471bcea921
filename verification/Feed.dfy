/** The bug feed: a durable cursor that follows a growing list of bugs. */
module Feed {
  import opened Sets

  const BATCH_LIMIT := 100
  const TRACKED_MAX := 200

  datatype Bug = Bug(id: int, matching: bool, resolved: bool)

  /** How posting one bug ended: sent, refused for good, or not delivered this time. */
  datatype Sending = Posted(messageID: int) | Rejected | Failed

  datatype Event = Delivered(id: int) | Filtered(id: int) | Skipped(id: int)

  // ---- Collecting a batch ----

  predicate Ascending(bugs: seq<Bug>) { forall i, j | 0 <= i < j < |bugs| :: bugs[i].id <= bugs[j].id }
  predicate Distinct(bugs: seq<Bug>) { forall i, j | 0 <= i < j < |bugs| :: bugs[i].id != bugs[j].id }
  predicate Has(bugs: seq<Bug>, id: int) { exists i :: 0 <= i < |bugs| && bugs[i].id == id }

  /** Same bugs, in the same numbers. */
  ghost predicate Permutes(a: seq<Bug>, b: seq<Bug>) { multiset(a) == multiset(b) && forall id :: Has(a, id) <==> Has(b, id) }

  /** Sorting by id, one insertion at a time. */
  method Sort(bugs: seq<Bug>) returns (sorted: seq<Bug>)
    ensures Ascending(sorted) && Permutes(sorted, bugs) && |sorted| == |bugs|
    ensures Distinct(bugs) ==> Distinct(sorted)
  {
    sorted := [];
    var i := 0;
    while i < |bugs|
      invariant 0 <= i <= |bugs| && |sorted| == i && Ascending(sorted) && Permutes(sorted, bugs[..i])
      invariant Distinct(bugs[..i]) ==> Distinct(sorted)
    {
      assert bugs[..i + 1] == bugs[..i] + [bugs[i]];
      assert Distinct(bugs[..i + 1]) ==> Distinct(bugs[..i]) && !Has(bugs[..i], bugs[i].id) by { NotYet(bugs[..i + 1]); }
      HasWith(bugs[..i], bugs[i]);
      sorted := Insert(sorted, bugs[i]);
      i := i + 1;
    }
    assert bugs[..i] == bugs;
  }

  method Insert(sorted: seq<Bug>, b: Bug) returns (inserted: seq<Bug>)
    requires Ascending(sorted)
    ensures Ascending(inserted) && multiset(inserted) == multiset(sorted) + multiset{b} && |inserted| == |sorted| + 1
    ensures forall id :: Has(inserted, id) <==> Has(sorted, id) || b.id == id
    ensures Distinct(sorted) && !Has(sorted, b.id) ==> Distinct(inserted)
  {
    var j := 0;
    while j < |sorted| && sorted[j].id <= b.id
      invariant 0 <= j <= |sorted| && forall k | 0 <= k < j :: sorted[k].id <= b.id
    {
      j := j + 1;
    }
    inserted := sorted[..j] + [b] + sorted[j..];
    assert multiset(inserted) == multiset(sorted) + multiset{b} by { assert sorted == sorted[..j] + sorted[j..]; }
    InsertedHas(sorted, inserted, j, b);
    InsertedInOrder(sorted, inserted, j, b);
  }

  lemma InsertedInOrder(sorted: seq<Bug>, inserted: seq<Bug>, j: nat, b: Bug)
    requires j <= |sorted| && inserted == sorted[..j] + [b] + sorted[j..] && Ascending(sorted)
    requires (forall k | 0 <= k < j :: sorted[k].id <= b.id) && (j < |sorted| ==> b.id < sorted[j].id)
    ensures Ascending(inserted) && (Distinct(sorted) && !Has(sorted, b.id) ==> Distinct(inserted))
  {
    forall i, k | 0 <= i < k < |inserted|
      ensures inserted[i].id <= inserted[k].id && (Distinct(sorted) && !Has(sorted, b.id) ==> inserted[i].id != inserted[k].id)
    {
      var before, after := if i < j then i else i - 1, if k < j then k else k - 1;
      assert i != j ==> inserted[i] == sorted[before];
      assert k != j ==> inserted[k] == sorted[after];
    }
  }

  lemma InsertedHas(sorted: seq<Bug>, inserted: seq<Bug>, j: nat, b: Bug)
    requires j <= |sorted| && inserted == sorted[..j] + [b] + sorted[j..]
    ensures forall id :: Has(inserted, id) <==> Has(sorted, id) || b.id == id
  {
    assert inserted[j] == b;
    forall id | Has(sorted, id) ensures Has(inserted, id) {
      var i :| 0 <= i < |sorted| && sorted[i].id == id;
      assert inserted[if i < j then i else i + 1].id == id;
    }
  }

  lemma NotYet(bugs: seq<Bug>)
    requires bugs != []
    ensures Distinct(bugs) ==> Distinct(bugs[..|bugs| - 1]) && !Has(bugs[..|bugs| - 1], bugs[|bugs| - 1].id)
  {
  }

  lemma HasWith(bugs: seq<Bug>, b: Bug)
    ensures forall id :: Has(bugs + [b], id) <==> Has(bugs, id) || b.id == id
  {
    assert (bugs + [b])[|bugs|] == b;
    forall id | Has(bugs, id) ensures Has(bugs + [b], id) {
      var i :| 0 <= i < |bugs| && bugs[i].id == id;
      assert (bugs + [b])[i].id == id;
    }
  }

  /** The ids of `batch` beyond `after`. */
  function Wanted(batch: seq<Bug>, after: int): set<int> { set b | b in batch && b.id > after :: b.id }

  /** The smallest `limit` of the wanted ids, in order, each with a bug of the batch. */
  ghost predicate FirstOf(bugs: seq<Bug>, wanted: set<int>, limit: nat) {
    && Ascending(bugs) && Distinct(bugs) && |bugs| == (if |wanted| < limit then |wanted| else limit)
    && (forall i | 0 <= i < |bugs| :: bugs[i].id in wanted)
    && (forall id, i | id in wanted && !Has(bugs, id) && 0 <= i < |bugs| :: bugs[i].id < id)
  }

  /** One bug for every wanted id. */
  ghost predicate OneEach(kept: seq<Bug>, wanted: set<int>, batch: seq<Bug>) {
    && Distinct(kept) && |wanted| == |kept| && (forall b | b in kept :: b in batch)
    && (forall id :: id in wanted <==> Has(kept, id))
  }

  lemma WantedWith(batch: seq<Bug>, i: nat, after: int)
    requires i < |batch|
    ensures Wanted(batch[..i + 1], after) == Wanted(batch[..i], after) + if batch[i].id > after then {batch[i].id} else {}
  {
    assert batch[..i + 1] == batch[..i] + [batch[i]];
  }

  lemma OneMore(kept: seq<Bug>, wanted: set<int>, batch: seq<Bug>, bug: Bug)
    requires OneEach(kept, wanted, batch) && bug in batch && bug.id !in wanted
    ensures OneEach(kept + [bug], wanted + {bug.id}, batch)
  {
    HasWith(kept, bug);
  }

  method Unseen(after: int, batch: seq<Bug>) returns (kept: seq<Bug>)
    ensures OneEach(kept, Wanted(batch, after), batch)
  {
    var seen: set<int> := {};
    kept := [];
    var i := 0;
    while i < |batch|
      invariant 0 <= i <= |batch| && OneEach(kept, seen, batch) && seen == Wanted(batch[..i], after)
    {
      WantedWith(batch, i, after);
      if batch[i].id > after && batch[i].id !in seen {
        OneMore(kept, seen, batch, batch[i]);
        seen := seen + {batch[i].id};
        kept := kept + [batch[i]];
      }
      i := i + 1;
    }
    assert batch[..i] == batch;
  }

  /** `collectRecentBugs`: duplicates and old bugs go, the rest is ordered, and cut to one batch; with
      no cursor yet, only the newest bug is wanted. */
  method Collect(after: int, batch: seq<Bug>) returns (bugs: seq<Bug>)
    ensures forall b | b in bugs :: b in batch
    ensures after != 0 ==> FirstOf(bugs, Wanted(batch, after), 100)
    ensures after == 0 ==> |bugs| == if Wanted(batch, after) == {} then 0 else 1
    ensures after == 0 ==> forall i | 0 <= i < |bugs| :: bugs[i].id in Wanted(batch, after)
    ensures after == 0 ==> forall id, i | id in Wanted(batch, after) && 0 <= i < |bugs| :: id <= bugs[i].id
  {
    var kept := Unseen(after, batch);
    bugs := Sort(kept);
    SortedInBatch(bugs, kept, batch);
    if after == 0 {
      NewestIsLast(bugs, Wanted(batch, after));
      if |bugs| > 1 {
        bugs := [bugs[|bugs| - 1]];
      }
      return;
    }
    PrefixIsFirst(bugs, Wanted(batch, after), if |bugs| > BATCH_LIMIT then BATCH_LIMIT else |bugs|);
    if |bugs| > BATCH_LIMIT {
      bugs := bugs[..BATCH_LIMIT];
    } else {
      assert bugs[..|bugs|] == bugs;
    }
  }

  lemma SortedInBatch(sorted: seq<Bug>, kept: seq<Bug>, batch: seq<Bug>)
    requires Permutes(sorted, kept) && forall b | b in kept :: b in batch
    ensures forall b | b in sorted :: b in batch
  {
    forall b | b in sorted ensures b in batch { assert b in multiset(sorted); }
  }

  lemma NewestIsLast(sorted: seq<Bug>, wanted: set<int>)
    requires Ascending(sorted) && |sorted| == |wanted| && forall id :: id in wanted <==> Has(sorted, id)
    ensures sorted == [] <==> wanted == {}
    ensures sorted != [] ==> sorted[|sorted| - 1].id in wanted && forall id | id in wanted :: id <= sorted[|sorted| - 1].id
  {
    if sorted != [] { assert Has(sorted, sorted[|sorted| - 1].id); }
  }

  lemma PrefixIsFirst(sorted: seq<Bug>, wanted: set<int>, n: nat)
    requires Ascending(sorted) && Distinct(sorted) && |sorted| == |wanted| && forall id :: id in wanted <==> Has(sorted, id)
    requires n == (if |wanted| < BATCH_LIMIT then |wanted| else BATCH_LIMIT)
    ensures FirstOf(sorted[..n], wanted, BATCH_LIMIT)
  {
    var bugs := sorted[..n];
    forall i | 0 <= i < n ensures bugs[i].id in wanted { assert Has(sorted, sorted[i].id); }
    forall id, i | id in wanted && !Has(bugs, id) && 0 <= i < n ensures bugs[i].id < id {
      var j :| 0 <= j < |sorted| && sorted[j].id == id;
      assert forall k | 0 <= k < n :: Has(bugs, sorted[k].id) by {
        forall k | 0 <= k < n ensures Has(bugs, sorted[k].id) { assert bugs[k] == sorted[k]; }
      }
    }
  }

  // ---- Posting a batch ----

  /** What handling a bug comes to. */
  function Handled(b: Bug, sending: Sending): Event {
    if !b.matching then Filtered(b.id) else if sending.Posted? then Delivered(b.id) else Skipped(b.id)
  }

  /** One pass over a sorted batch: the new cursor and what was done, in order. A bug that could not
      be delivered stops it; so does a full batch. */
  function Pass(bugs: seq<Bug>, cursor: int, processed: nat, send: int -> Sending): (int, seq<Event>) {
    if bugs == [] then (cursor, [])
    else
      var b := bugs[0];
      if b.id <= cursor then Pass(bugs[1..], cursor, processed, send)
      else if processed >= BATCH_LIMIT || (b.matching && send(b.id).Failed?) then (cursor, [])
      else
        var rest := Pass(bugs[1..], b.id, processed + 1, send);
        (rest.0, [Handled(b, send(b.id))] + rest.1)
  }

  /** What is on record of a bug is what became of it: a matching one was posted or turned down for
      good, any other passed over. */
  predicate Tells(e: Event, b: Bug, send: int -> Sending) {
    && e.id == b.id
    && (e.Delivered? <==> b.matching && send(b.id).Posted?)
    && (e.Skipped? <==> b.matching && send(b.id).Rejected?)
    && (e.Filtered? <==> !b.matching)
  }

  /** Nothing is on record that did not happen, and no bug that failed. */
  lemma {:induction false} PassTells(bugs: seq<Bug>, cursor: int, processed: nat, send: int -> Sending)
    ensures forall e | e in Pass(bugs, cursor, processed, send).1 :: exists b :: b in bugs && Tells(e, b, send)
    decreases |bugs|
  {
    if bugs != [] {
      var b, rest := bugs[0], bugs[1..];
      assert b in bugs && forall x | x in rest :: x in bugs;
      if b.id <= cursor {
        PassTells(rest, cursor, processed, send);
      } else if processed < BATCH_LIMIT && !(b.matching && send(b.id).Failed?) {
        PassTells(rest, b.id, processed + 1, send);
        var later, first := Pass(rest, b.id, processed + 1, send).1, Handled(b, send(b.id));
        assert Pass(bugs, cursor, processed, send).1 == [first] + later && Tells(first, b, send);
        forall e | e in [first] + later ensures exists b' :: b' in bugs && Tells(e, b', send) {
          if e == first { assert Tells(e, b, send); }
        }
      }
    }
  }

  predicate Rising(events: seq<Event>) { forall i, j | 0 <= i < j < |events| :: events[i].id < events[j].id }
  predicate Done(events: seq<Event>, id: int) { exists i :: 0 <= i < |events| && events[i].id == id }

  /** Handled are, in ascending order and once each, exactly the bugs between the old cursor and the
      new one, and what stopped the pass is a bug that failed, or a full batch. */
  ghost predicate ExactPass(bugs: seq<Bug>, cursor: int, processed: nat, send: int -> Sending, cursor': int, events: seq<Event>) {
    && cursor <= cursor' && (cursor' == cursor || Has(bugs, cursor')) && Rising(events)
    && (forall id :: Done(events, id) <==> Has(bugs, id) && cursor < id <= cursor')
    && (forall id | Has(bugs, id) && id > cursor' ::
          processed + |events| >= 100 || exists b :: b in bugs && b.id <= id && b.matching && send(b.id).Failed?)
  }

  lemma ExactSkipping(
    b: Bug, bugs: seq<Bug>, cursor: int, processed: nat, send: int -> Sending, cursor': int, events: seq<Event>)
    requires b.id <= cursor && ExactPass(bugs, cursor, processed, send, cursor', events)
    ensures ExactPass([b] + bugs, cursor, processed, send, cursor', events)
  {
    HasAfter(b, bugs);
    forall x | x in bugs ensures x in [b] + bugs {}
  }

  lemma ExactStopping(b: Bug, bugs: seq<Bug>, cursor: int, processed: nat, send: int -> Sending)
    requires b.id > cursor && (forall id | Has(bugs, id) :: b.id <= id)
    requires processed >= BATCH_LIMIT || (b.matching && send(b.id).Failed?)
    ensures ExactPass([b] + bugs, cursor, processed, send, cursor, [])
  {
    HasAfter(b, bugs);
    assert b in [b] + bugs;
  }

  lemma ExactHandling(
    b: Bug, bugs: seq<Bug>, cursor: int, processed: nat, send: int -> Sending, e: Event, cursor': int, events: seq<Event>)
    requires b.id > cursor && e.id == b.id && (forall id | Has(bugs, id) :: b.id <= id)
    requires ExactPass(bugs, b.id, processed + 1, send, cursor', events)
    ensures ExactPass([b] + bugs, cursor, processed, send, cursor', [e] + events)
  {
    HasAfter(b, bugs);
    DoneAfter(e, events);
    forall x | x in bugs ensures x in [b] + bugs {}
  }

  lemma {:induction false} PassIsExact(bugs: seq<Bug>, cursor: int, processed: nat, send: int -> Sending)
    requires Ascending(bugs)
    ensures var (cursor', events) := Pass(bugs, cursor, processed, send); ExactPass(bugs, cursor, processed, send, cursor', events)
  {
    if bugs != [] {
      var b, rest := bugs[0], bugs[1..];
      assert bugs == [b] + rest;
      forall id | Has(rest, id) ensures b.id <= id {}
      if b.id <= cursor {
        PassIsExact(rest, cursor, processed, send);
        var (cursor', events) := Pass(rest, cursor, processed, send);
        ExactSkipping(b, rest, cursor, processed, send, cursor', events);
      } else if processed >= BATCH_LIMIT || (b.matching && send(b.id).Failed?) {
        ExactStopping(b, rest, cursor, processed, send);
      } else {
        PassIsExact(rest, b.id, processed + 1, send);
        var (cursor', events) := Pass(rest, b.id, processed + 1, send);
        ExactHandling(b, rest, cursor, processed, send, Handled(b, send(b.id)), cursor', events);
      }
    }
  }

  lemma HasAfter(b: Bug, bugs: seq<Bug>)
    ensures forall id :: Has([b] + bugs, id) <==> b.id == id || Has(bugs, id)
  {
    assert ([b] + bugs)[0] == b;
    forall id | Has(bugs, id) ensures Has([b] + bugs, id) {
      var i :| 0 <= i < |bugs| && bugs[i].id == id;
      assert ([b] + bugs)[i + 1].id == id;
    }
  }

  lemma DoneAfter(e: Event, events: seq<Event>)
    ensures forall id :: Done([e] + events, id) <==> e.id == id || Done(events, id)
    ensures Rising(events) && (forall id | Done(events, id) :: e.id < id) ==> Rising([e] + events)
  {
    assert ([e] + events)[0] == e;
    forall id | Done(events, id) ensures Done([e] + events, id) {
      var i :| 0 <= i < |events| && events[i].id == id;
      assert ([e] + events)[i + 1].id == id;
    }
    forall i | 0 <= i < |events| ensures Done(events, events[i].id) {}
  }

  // ---- Many polls ----

  /** What is upstream, where the feed stands, and everything it has done so far. */
  datatype World = World(visible: set<int>, cursor: int, log: seq<Event>)

  /** One poll: what is upstream by then, the answer to the query, and how sending went. */
  datatype Poll = Poll(visible: set<int>, fetched: bool, bugs: seq<Bug>, send: int -> Sending)

  /** Bugs only appear, and above all earlier ones; a fetch answers with a batch of the lowest bugs
      beyond the cursor, in order. */
  ghost predicate Possible(w: World, p: Poll) {
    && w.visible <= p.visible && (forall v, u | v in p.visible && v !in w.visible && u in w.visible :: u < v)
    && (p.fetched ==> Answers(p.bugs, p.visible, w.cursor))
  }

  /** From wherever the feed has caught up such a run goes on: upstream may gain any higher bug, and the
      cursor reaches it unless it has to be sent and that fails. */
  lemma UpstreamCanGrow(w: World, id: int, matching: bool, resolved: bool, send: int -> Sending)
    requires forall v | v in w.visible :: v < id
    requires w.cursor in w.visible && forall v | v in w.visible :: v <= w.cursor
    ensures Possible(w, Poll(w.visible + {id}, false, [], send))
    ensures Possible(w, Poll(w.visible + {id}, true, [Bug(id, matching, resolved)], send))
    ensures After(w, Poll(w.visible + {id}, true, [Bug(id, matching, resolved)], send)).cursor
            == if matching && send(id).Failed? then w.cursor else id
  {
    var b := Bug(id, matching, resolved);
    assert [b][1..] == [] && forall v :: Has([b], v) <==> v == id by { assert [b][0] == b; }
    assert w.cursor < id && Pass([], id, 1, send) == (id, []);
    assert Pass([b], w.cursor, 0, send).0 == if matching && send(id).Failed? then w.cursor else id;
  }

  ghost predicate Answers(bugs: seq<Bug>, visible: set<int>, cursor: int) {
    && Ascending(bugs) && (forall id | Has(bugs, id) :: id in visible)
    && (forall v, id | v in visible && v > cursor && !Has(bugs, v) && Has(bugs, id) :: id < v)
  }

  /** When upstream answers with its lowest bugs beyond the cursor, in any order and with any repeats,
      the collected batch is such an answer. */
  lemma CollectedAnswers(batch: seq<Bug>, bugs: seq<Bug>, visible: set<int>, cursor: int)
    requires FirstOf(bugs, Wanted(batch, cursor), 100)
    requires forall b | b in batch :: b.id in visible
    requires forall v, b | v in visible && v > cursor && !Has(batch, v) && b in batch :: b.id < v
    ensures Answers(bugs, visible, cursor)
  {
    forall v, id | v in visible && v > cursor && !Has(bugs, v) && Has(bugs, id) ensures id < v {
      var i :| 0 <= i < |bugs| && bugs[i].id == id;
      if Has(batch, v) {
        var j :| 0 <= j < |batch| && batch[j].id == v;
        assert batch[j] in batch && v in Wanted(batch, cursor);
      }
    }
  }

  function After(w: World, p: Poll): World {
    if !p.fetched then w.(visible := p.visible)
    else
      var (cursor, events) := Pass(p.bugs, w.cursor, 0, p.send);
      World(p.visible, cursor, w.log + events)
  }

  ghost predicate Runs(w: World, polls: seq<Poll>, w': World)
    decreases |polls|
  {
    if polls == [] then w' == w else Possible(w, polls[0]) && Runs(After(w, polls[0]), polls[1..], w')
  }

  /** Everything between the baseline and the cursor is done, once and in order, and nothing else. */
  ghost predicate Exact(w: World, baseline: int) {
    && w.cursor in w.visible && baseline <= w.cursor && Rising(w.log)
    && (forall id :: Done(w.log, id) <==> id in w.visible && baseline < id <= w.cursor)
  }

  lemma DoneJoined(a: seq<Event>, b: seq<Event>)
    ensures forall id :: Done(a + b, id) <==> Done(a, id) || Done(b, id)
    ensures Rising(a) && Rising(b) && (forall i, j | 0 <= i < |a| && 0 <= j < |b| :: a[i].id < b[j].id) ==> Rising(a + b)
  {
    forall id | Done(a, id) ensures Done(a + b, id) {
      var i :| 0 <= i < |a| && a[i].id == id;
      assert (a + b)[i].id == id;
    }
    forall id | Done(b, id) ensures Done(a + b, id) {
      var i :| 0 <= i < |b| && b[i].id == id;
      assert (a + b)[|a| + i].id == id;
    }
  }

  lemma PollStaysExact(w: World, p: Poll, baseline: int)
    requires Exact(w, baseline) && Possible(w, p)
    ensures Exact(After(w, p), baseline)
  {
    var w' := After(w, p);
    assert forall id | id in p.visible && id <= w.cursor :: id in w.visible;
    if p.fetched {
      PassIsExact(p.bugs, w.cursor, 0, p.send);
      var events := Pass(p.bugs, w.cursor, 0, p.send).1;
      DoneJoined(w.log, events);
      assert forall i | 0 <= i < |w.log| :: Done(w.log, w.log[i].id);
      assert forall i | 0 <= i < |events| :: Done(events, events[i].id);
      assert w'.cursor == w.cursor || Has(p.bugs, w'.cursor);
      assert forall id :: Done(events, id) <==> id in p.visible && w.cursor < id <= w'.cursor;
    }
  }

  lemma {:induction false} RunsStayExact(w: World, polls: seq<Poll>, w': World, baseline: int)
    requires Exact(w, baseline) && Runs(w, polls, w')
    ensures Exact(w', baseline)
    decreases |polls|
  {
    if polls != [] {
      PollStaysExact(w, polls[0], baseline);
      RunsStayExact(After(w, polls[0]), polls[1..], w', baseline);
    }
  }

  /** Over any polls of an upstream that only grows upward, from the baseline recorded first: the
      bugs above the baseline and up to the cursor are exactly those posted, filtered or rejected
      for good, each of them once and in ascending order; so none is posted twice and the cursor
      never passes one that was not delivered. */
  lemma CursorFollowsUpstream(visible: set<int>, baseline: int, polls: seq<Poll>, w: World)
    requires baseline in visible && (forall v | v in visible :: v <= baseline)
    requires Runs(World(visible, baseline, []), polls, w)
    ensures forall id :: Done(w.log, id) <==> id in w.visible && baseline < id <= w.cursor
    ensures forall i, j | 0 <= i < j < |w.log| :: w.log[i].id < w.log[j].id
  {
    RunsStayExact(World(visible, baseline, []), polls, w, baseline);
  }

  ghost predicate Happened(e: Event, polls: seq<Poll>) {
    exists p, b :: p in polls && p.fetched && b in p.bugs && Tells(e, b, p.send)
  }

  /** Whatever a run has on record as posted was posted in one of its polls, and so for what was turned
      down or passed over. */
  lemma {:induction false} LogHappened(w: World, polls: seq<Poll>, w': World)
    requires Runs(w, polls, w')
    ensures forall e | e in w'.log :: e in w.log || Happened(e, polls)
    decreases |polls|
  {
    if polls != [] {
      var p, w1 := polls[0], After(w, polls[0]);
      LogHappened(w1, polls[1..], w');
      PassTells(p.bugs, w.cursor, 0, p.send);
      forall e | e in w'.log ensures e in w.log || Happened(e, polls) {
        if e !in w1.log {
          var q, b :| q in polls[1..] && q.fetched && b in q.bugs && Tells(e, b, q.send);
          assert q in polls;
        }
      }
    }
  }

  // ---- The state of one feed ----

  datatype Tracked = Tracked(messageID: int, resolved: bool)

  /** What may be evicted next: a resolved bug while there is one, the lowest of its kind. */
  predicate NextOut(tracked: map<int, Tracked>, id: int) {
    && id in tracked
    && (!tracked[id].resolved ==> forall j | j in tracked :: !tracked[j].resolved)
    && (forall j | j in tracked && tracked[j].resolved == tracked[id].resolved :: id <= j)
  }

  /** Resolved bugs go before open ones, lower ones before higher. */
  predicate GoesBefore(tracked: map<int, Tracked>, i: int, j: int)
    requires i in tracked && j in tracked
  {
    if tracked[i].resolved != tracked[j].resolved then tracked[i].resolved else i < j
  }

  /** Room for one more of two hundred, and nothing given up that something kept should have gone before. */
  ghost predicate MakesRoom(tracked: map<int, Tracked>, kept: map<int, Tracked>) {
    && kept.Keys <= tracked.Keys && (forall id | id in kept :: kept[id] == tracked[id])
    && |kept| == (if |tracked| < 200 then |tracked| else 199)
    && (forall i, j | i in tracked && i !in kept && j in kept :: GoesBefore(tracked, i, j))
  }

  /** What following a posted bug does to the map; a message without an id is not followed. */
  ghost predicate Tracks(tracked: map<int, Tracked>, b: Bug, messageID: int, tracked': map<int, Tracked>) {
    if messageID == 0 then tracked' == tracked
    else exists kept :: MakesRoom(tracked, kept) && tracked' == kept[b.id := Tracked(messageID, b.resolved)]
  }

  /** One handled bug is followed exactly when it was posted. */
  ghost predicate TracksOne(tracked: map<int, Tracked>, b: Bug, sending: Sending, tracked': map<int, Tracked>) {
    if b.matching && sending.Posted? then Tracks(tracked, b, sending.messageID, tracked') else tracked' == tracked
  }

  ghost predicate TracksAll(tracked: map<int, Tracked>, handled: seq<Bug>, send: int -> Sending, tracked': map<int, Tracked>) {
    if handled == [] then tracked' == tracked
    else
      var n := |handled| - 1;
      exists before ::
        TracksAll(tracked, handled[..n], send, before) && TracksOne(before, handled[n], send(handled[n].id), tracked')
  }

  lemma OneMoreTracked(
    tracked: map<int, Tracked>, handled: seq<Bug>, before: map<int, Tracked>, b: Bug, send: int -> Sending, tracked': map<int, Tracked>)
    requires TracksAll(tracked, handled, send, before) && TracksOne(before, b, send(b.id), tracked')
    ensures TracksAll(tracked, handled + [b], send, tracked')
  {
    assert (handled + [b])[..|handled|] == handled;
  }

  /** The bugs that were handled, in order. */
  predicate Recorded(events: seq<Event>, handled: seq<Bug>, send: int -> Sending) {
    |events| == |handled| && forall i | 0 <= i < |events| :: Tells(events[i], handled[i], send)
  }

  predicate Follows(b: Bug, send: int -> Sending, t: Tracked) {
    b.matching && send(b.id).Posted? && t == Tracked(send(b.id).messageID, b.resolved)
  }

  /** What is followed was followed before, or was posted, as it was posted; and at most two hundred bugs
      stay at most two hundred. */
  lemma {:induction false} FollowedWasPosted(
    tracked: map<int, Tracked>, handled: seq<Bug>, send: int -> Sending, tracked': map<int, Tracked>)
    requires TracksAll(tracked, handled, send, tracked')
    ensures forall id | id in tracked' ::
      (id in tracked && tracked'[id] == tracked[id]) || exists b :: b in handled && b.id == id && Follows(b, send, tracked'[id])
    ensures |tracked| <= 200 ==> |tracked'| <= 200
    decreases |handled|
  {
    if handled != [] {
      var n := |handled| - 1;
      var b := handled[n];
      var before :|
        TracksAll(tracked, handled[..n], send, before) && TracksOne(before, b, send(b.id), tracked');
      FollowedWasPosted(tracked, handled[..n], send, before);
      if b.matching && send(b.id).Posted? && send(b.id).messageID != 0 {
        var kept :| MakesRoom(before, kept) && tracked' == kept[b.id := Tracked(send(b.id).messageID, b.resolved)];
        Larger(kept, b, send(b.id).messageID);
      }
      forall id | id in tracked' && !(id in tracked && tracked'[id] == tracked[id])
        ensures exists b' :: b' in handled && b'.id == id && Follows(b', send, tracked'[id])
      {
        if id in before && tracked'[id] == before[id] {
          var b' :| b' in handled[..n] && b'.id == id && Follows(b', send, before[id]);
          assert b' in handled;
        } else {
          assert b in handled && Follows(b, send, tracked'[id]);
        }
      }
    }
  }

  /** As long as there is room nothing is given up: every posted bug is followed, and so is, unchanged,
      whatever was followed before and not posted anew. */
  lemma {:induction false} PostedIsFollowed(
    tracked: map<int, Tracked>, handled: seq<Bug>, send: int -> Sending, tracked': map<int, Tracked>)
    requires TracksAll(tracked, handled, send, tracked') && |tracked| + |handled| <= 200
    requires forall i, j | 0 <= i < j < |handled| :: handled[i].id < handled[j].id
    ensures |tracked'| <= |tracked| + |handled|
    ensures forall b | b in handled && b.matching && send(b.id).Posted? && send(b.id).messageID != 0 ::
      b.id in tracked' && Follows(b, send, tracked'[b.id])
    ensures forall id | id in tracked && (forall b | b in handled :: b.id != id) :: id in tracked' && tracked'[id] == tracked[id]
    decreases |handled|
  {
    if handled != [] {
      var n := |handled| - 1;
      var last := handled[n];
      var before :|
        TracksAll(tracked, handled[..n], send, before) && TracksOne(before, last, send(last.id), tracked');
      PostedIsFollowed(tracked, handled[..n], send, before);
      assert last in handled;
      assert forall b | b in handled :: b in handled[..n] || b == last;
      assert forall b | b in handled[..n] :: b.id != last.id;
      if last.matching && send(last.id).Posted? && send(last.id).messageID != 0 {
        var kept :| MakesRoom(before, kept) && tracked' == kept[last.id := Tracked(send(last.id).messageID, last.resolved)];
        AllKept(before, kept);
        Larger(kept, last, send(last.id).messageID);
      }
    }
  }

  lemma AllKept(tracked: map<int, Tracked>, kept: map<int, Tracked>)
    requires MakesRoom(tracked, kept) && |tracked| < 200
    ensures kept == tracked
  {
    assert tracked.Keys == kept.Keys + (tracked.Keys - kept.Keys);
    assert |kept| == |kept.Keys| && |tracked| == |tracked.Keys|;
    assert kept.Keys == tracked.Keys;
    assert forall id | id in tracked :: id in kept.Keys && kept[id] == tracked[id];
  }

  /** The lowest bug of its kind outside `todo`, 0 when there is none. */
  predicate Lowest(tracked: map<int, Tracked>, best: int, resolved: bool, todo: set<int>) {
    && (best == 0 ==> forall j | j in tracked && j !in todo :: tracked[j].resolved != resolved)
    && (best != 0 ==> best in tracked && tracked[best].resolved == resolved)
    && (best != 0 ==> forall j | j in tracked && j !in todo && tracked[j].resolved == resolved :: best <= j)
  }

  lemma LowestSteps(tracked: map<int, Tracked>, best: int, resolved: bool, todo: set<int>, id: int)
    requires Lowest(tracked, best, resolved, todo) && id in todo && id in tracked && id != 0
    ensures Lowest(tracked, if tracked[id].resolved == resolved && (best == 0 || id < best) then id else best, resolved, todo - {id})
  {
  }

  lemma LowestIsNextOut(tracked: map<int, Tracked>, bestResolved: int, bestOpen: int)
    requires Lowest(tracked, bestResolved, true, {}) && Lowest(tracked, bestOpen, false, {})
    ensures if bestResolved != 0 then NextOut(tracked, bestResolved)
            else if bestOpen != 0 then NextOut(tracked, bestOpen) else tracked == map[]
  {
    if bestResolved == 0 && bestOpen == 0 {
      assert forall j :: j !in tracked;
    }
  }

  lemma Smaller(tracked: map<int, Tracked>, id: int)
    requires id in tracked
    ensures |tracked - {id}| == |tracked| - 1
  {
    assert (tracked - {id}).Keys == tracked.Keys - {id};
    assert |tracked.Keys - {id}| == |tracked.Keys| - 1;
  }

  lemma Larger(tracked: map<int, Tracked>, b: Bug, messageID: int)
    ensures |tracked[b.id := Tracked(messageID, b.resolved)]| <= |tracked| + 1
  {
    assert tracked[b.id := Tracked(messageID, b.resolved)].Keys == tracked.Keys + {b.id};
  }

  class FeedState {
    var lastBugID: int
    var tracked: map<int, Tracked>

    constructor ()
      ensures lastBugID == 0 && tracked == map[]
    {
      lastBugID, tracked := 0, map[];
    }

    /** `evictOne`. */
    method EvictOne() returns (evicted: bool, evict: int)
      requires forall id | id in tracked :: id > 0
      modifies `tracked
      ensures evicted ==> NextOut(old(tracked), evict) && tracked == old(tracked) - {evict}
      ensures !evicted ==> tracked == old(tracked) == map[]
    {
      ghost var before := tracked;
      var bestResolved, bestOpen := 0, 0;
      var todo := tracked.Keys;
      while todo != {}
        invariant tracked == before && todo <= before.Keys
        invariant Lowest(before, bestResolved, true, todo) && Lowest(before, bestOpen, false, todo)
        decreases |todo|
      {
        var id := Pick(todo);
        assert id in before.Keys;
        assert id in before && id > 0;
        LowestSteps(before, bestResolved, true, todo, id);
        LowestSteps(before, bestOpen, false, todo, id);
        if tracked[id].resolved {
          if bestResolved == 0 || id < bestResolved {
            bestResolved := id;
          }
        } else if bestOpen == 0 || id < bestOpen {
          bestOpen := id;
        }
        todo := todo - {id};
      }
      LowestIsNextOut(before, bestResolved, bestOpen);
      evict := if bestResolved != 0 then bestResolved else bestOpen;
      evicted := evict != 0;
      if evicted {
        tracked := tracked - {evict};
      }
    }

    /** `trackBug`. */
    method TrackBug(b: Bug, messageID: int)
      requires (forall id | id in tracked :: id > 0) && b.id > 0
      modifies `tracked
      ensures Tracks(old(tracked), b, messageID, tracked)
      ensures forall id | id in tracked :: id > 0
    {
      if messageID == 0 {
        return;
      }
      while |tracked| >= TRACKED_MAX
        invariant tracked.Keys <= old(tracked).Keys && forall id | id in tracked :: tracked[id] == old(tracked)[id]
        invariant |tracked| >= if |old(tracked)| < 200 then |old(tracked)| else 199
        invariant |old(tracked)| < 200 ==> tracked == old(tracked)
        invariant forall i, j | i in old(tracked) && i !in tracked && j in tracked :: GoesBefore(old(tracked), i, j)
        decreases |tracked|
      {
        ghost var before := tracked;
        var evicted, evict := EvictOne();
        if !evicted {
          break;
        }
        Smaller(before, evict);
      }
      assert MakesRoom(old(tracked), tracked);
      tracked := tracked[b.id := Tracked(messageID, b.resolved)];
    }

    /** The bug part of `postFeedItems`: a first run records where to start, every other one makes a
        pass over the batch. */
    method PostBugs(bugs: seq<Bug>, send: int -> Sending)
      returns (ghost sorted: seq<Bug>, ghost events: seq<Event>, ghost handled: seq<Bug>)
      requires (forall id | id in tracked :: id > 0) && (forall i | 0 <= i < |bugs| :: bugs[i].id > 0)
      modifies this
      ensures Ascending(sorted) && Permutes(sorted, bugs)
      ensures bugs == [] ==> lastBugID == old(lastBugID)
      ensures bugs != [] && old(lastBugID) == 0 ==>
        events == [] && Has(bugs, lastBugID) && forall i | 0 <= i < |bugs| :: bugs[i].id <= lastBugID
      ensures bugs != [] && old(lastBugID) != 0 ==> (lastBugID, events) == Pass(sorted, old(lastBugID), 0, send)
      ensures Recorded(events, handled, send) && TracksAll(old(tracked), handled, send, tracked)
      ensures forall id | id in tracked :: id > 0
    {
      var ordered := Sort(bugs);
      sorted, events, handled := ordered, [], [];
      forall i | 0 <= i < |ordered| ensures ordered[i].id > 0 { assert Has(ordered, ordered[i].id) && Has(bugs, ordered[i].id); }
      if bugs == [] {
        return;
      }
      if lastBugID == 0 {
        var latest := bugs[0].id;
        var i := 1;
        while i < |bugs|
          invariant 1 <= i <= |bugs| && Has(bugs, latest) && forall j | 0 <= j < i :: bugs[j].id <= latest
        {
          if bugs[i].id > latest {
            latest := bugs[i].id;
          }
          i := i + 1;
        }
        lastBugID := latest;
        return;
      }
      events, handled := Follow(ordered, send);
    }

    /** The loop of a later run: one pass over the sorted batch. */
    method Follow(ordered: seq<Bug>, send: int -> Sending) returns (ghost events: seq<Event>, ghost handled: seq<Bug>)
      requires (forall id | id in tracked :: id > 0) && (forall i | 0 <= i < |ordered| :: ordered[i].id > 0)
      modifies this
      ensures (lastBugID, events) == Pass(ordered, old(lastBugID), 0, send)
      ensures Recorded(events, handled, send) && TracksAll(old(tracked), handled, send, tracked)
      ensures forall id | id in tracked :: id > 0
    {
      events, handled := [], [];
      var processed := 0;
      var i := 0;
      ghost var rest := Pass(ordered, lastBugID, 0, send);
      assert ordered[0..] == ordered && events + rest.1 == rest.1;
      while i < |ordered|
        invariant 0 <= i <= |ordered| && processed == |events|
        invariant forall id | id in tracked :: id > 0
        invariant rest == Pass(ordered[i..], lastBugID, processed, send)
        invariant Pass(ordered, old(lastBugID), 0, send) == (rest.0, events + rest.1)
        invariant Recorded(events, handled, send) && TracksAll(old(tracked), handled, send, tracked)
      {
        var b := ordered[i];
        assert ordered[i..][1..] == ordered[i + 1..];
        i := i + 1;
        if b.id <= lastBugID {
          continue;
        }
        if processed >= BATCH_LIMIT {
          break;
        }
        ghost var before := tracked;
        var done := Post(b, send);
        if !done {
          break;
        }
        assert TracksAll(old(tracked), handled + [b], send, tracked) by { OneMoreTracked(old(tracked), handled, before, b, send, tracked); }
        ghost var event := Handled(b, send(b.id));
        handled := handled + [b];
        lastBugID := b.id;
        processed := processed + 1;
        assert rest.1 == [event] + rest.1[1..] && events + rest.1 == events + [event] + rest.1[1..];
        events := events + [event];
        rest := Pass(ordered[i..], lastBugID, processed, send);
      }
      assert rest == (lastBugID, []) && events + [] == events;
    }

    /** One bug: posted and tracked, passed over, or still to be delivered. */
    method Post(b: Bug, send: int -> Sending) returns (handled: bool)
      requires b.id > 0 && forall id | id in tracked :: id > 0
      modifies `tracked
      ensures handled <==> !(b.matching && send(b.id).Failed?)
      ensures TracksOne(old(tracked), b, send(b.id), tracked)
      ensures forall id | id in tracked :: id > 0
    {
      if b.matching {
        match send(b.id)
        case Failed => return false;
        case Rejected =>
        case Posted(messageID) => TrackBug(b, messageID);
      }
      return true;
    }
  }
}

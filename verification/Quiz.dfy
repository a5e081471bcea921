/** The shuffling of a quiz question's options. */
module Quiz {
  import opened Persistence

  datatype Question = Question(text: string, options: seq<string>, answer: int)

  /** `order` and `places` undo one another: the options are rearranged, none lost or repeated. */
  ghost predicate Rearranges(order: seq<int>, places: seq<int>, n: nat) {
    && |order| == |places| == n
    && (forall k | 0 <= k < n :: 0 <= order[k] < n && places[order[k]] == k)
    && (forall v | 0 <= v < n :: 0 <= places[v] < n && order[places[v]] == v)
  }

  /** `shuffledQuestion`; the random picks fall as they may. */
  method ShuffledQuestion(q: Question)
    returns (options: seq<string>, correct: int, ghost order: seq<int>, ghost places: seq<int>)
    ensures Rearranges(order, places, |q.options|) && |options| == |q.options|
    ensures forall k | 0 <= k < |options| :: options[k] == q.options[order[k]]
    ensures 0 <= q.answer < |q.options| ==> 0 <= correct < |options| && order[correct] == q.answer
    ensures !(0 <= q.answer < |q.options|) ==> correct == 0
  {
    var n := |q.options|;
    var shuffled := new int[n](i => i);
    places := seq(n, i => i);
    order := shuffled[..];
    var i := n - 1;
    while i > 0
      invariant -1 <= i < n && order == shuffled[..] && Rearranges(order, places, n)
    {
      var j: nat :| j <= i;
      SwapKeeps(order, places, i, j);
      places := places[order[i] := j][order[j] := i];
      shuffled[i], shuffled[j] := shuffled[j], shuffled[i];
      order := order[i := order[j]][j := order[i]];
      assert order == shuffled[..];
      i := i - 1;
    }
    options, correct := [], 0;
    var newPos := 0;
    while newPos < n
      invariant 0 <= newPos <= n == shuffled.Length && |options| == newPos && order == shuffled[..]
      invariant forall k | 0 <= k < newPos :: options[k] == q.options[order[k]]
      invariant 0 <= q.answer < n ==> if places[q.answer] < newPos then correct == places[q.answer] else correct == 0
      invariant !(0 <= q.answer < n) ==> correct == 0
    {
      var orig := shuffled[newPos];
      options := options + [q.options[orig]];
      if orig == q.answer {
        correct := newPos;
      }
      newPos := newPos + 1;
    }
  }

  lemma SwapKeeps(order: seq<int>, places: seq<int>, i: nat, j: nat)
    requires Rearranges(order, places, |order|) && i < |order| && j < |order|
    ensures Rearranges(order[i := order[j]][j := order[i]], places[order[i] := j][order[j] := i], |order|)
  {
  }

  /** So whatever the picks, the applicant can win, and wins with the right option. */
  lemma ShuffledIsWinnable(q: Question, options: seq<string>, correct: int, order: seq<int>, places: seq<int>)
    requires |q.options| >= 2 && 0 <= q.answer < |q.options|
    requires Rearranges(order, places, |q.options|) && |options| == |q.options|
    requires forall k | 0 <= k < |options| :: options[k] == q.options[order[k]]
    requires 0 <= correct < |options| && order[correct] == q.answer
    ensures Winnable(Quizzed(options, correct)) && options[correct] == q.options[q.answer]
    ensures forall o :: o in options <==> o in q.options
  {
    forall o | o in q.options ensures o in options {
      var v :| 0 <= v < |q.options| && q.options[v] == o;
      assert options[places[v]] == o;
    }
  }
}

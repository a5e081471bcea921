/** Which version of a package to show for a distribution family: the best of its newest numbered
    release, and of its rolling channel when that is ahead. */
module Channels {
  import opened Tiers
  import opened VersionOrder

  /** Nothing precedes itself; preceding, and preceding neither way, carry over. */
  ghost predicate WeakOrder(lt: (string, string) -> bool) {
    && (forall a, b :: !(lt(a, b) && lt(b, a)))
    && (forall a, b, c :: lt(a, b) && lt(b, c) ==> lt(a, c))
    && (forall a, b, c :: !lt(a, b) && !lt(b, c) ==> !lt(a, c))
  }

  lemma BothAreWeakOrders()
    ensures WeakOrder(Less) && WeakOrder(Better)
  {
    forall a, b, c
      ensures !(Less(a, b) && Less(b, a)) && (Less(a, b) && Less(b, c) ==> Less(a, c))
           && (!Less(a, b) && !Less(b, c) ==> !Less(a, c))
    {
      LessIsStrictWeakOrder(a, b, c);
    }
    forall a, b, c
      ensures !(Better(a, b) && Better(b, a)) && (Better(a, b) && Better(b, c) ==> Better(a, c))
           && (!Better(a, b) && !Better(b, c) ==> !Better(a, c))
    {
      BetterIsStrictWeakOrder(a, b, c);
    }
  }

  // ---- The newest of some rows ----

  datatype Row = Row(version: string, repo: string)

  predicate Versioned(rows: seq<Row>) { forall i | 0 <= i < |rows| :: rows[i].version != "" }

  /** The best so far, "" before the first. */
  function BestFrom(rows: seq<Row>, best: Row, better: (string, string) -> bool): Row {
    if rows == [] then best
    else BestFrom(rows[1..], if best.version == "" || better(best.version, rows[0].version) then rows[0] else best, better)
  }

  const NO_ROW := Row("", "")

  function Newest(rows: seq<Row>): Row { BestFrom(rows, NO_ROW, Better) }

  /** `newestRow`. */
  method NewestRow(rows: seq<Row>) returns (best: Row)
    ensures best == Newest(rows)
  {
    best := NO_ROW;
    var i := 0;
    while i < |rows|
      invariant 0 <= i <= |rows| && Newest(rows) == BestFrom(rows[i..], best, Better)
    {
      if best.version == "" || Better(best.version, rows[i].version) {
        best := rows[i];
      }
      i := i + 1;
    }
  }

  lemma {:induction false} BestFromIsBest(rows: seq<Row>, best: Row, better: (string, string) -> bool)
    requires WeakOrder(better) && Versioned(rows)
    ensures var r := BestFrom(rows, best, better);
      && (r == best || r in rows) && (rows != [] || best.version != "" ==> r.version != "")
      && (best.version != "" ==> !better(r.version, best.version))
      && forall i | 0 <= i < |rows| :: !better(r.version, rows[i].version)
  {
    var r := BestFrom(rows, best, better);
    if rows == [] {
      assert !better(r.version, best.version);
    } else {
      var next := if best.version == "" || better(best.version, rows[0].version) then rows[0] else best;
      BestFromIsBest(rows[1..], next, better);
      var v := rows[0].version;
      assert better(r.version, best.version) && better(best.version, v) ==> better(r.version, v);
      assert next == best ==> !better(r.version, rows[0].version);
      forall i | 0 <= i < |rows| ensures !better(r.version, rows[i].version) {
        if i > 0 { assert rows[i] == rows[1..][i - 1]; }
      }
    }
  }

  /** For rows that name their versions, in any order, the newest row is one none is better than. */
  lemma NewestIsMaximal(rows: seq<Row>)
    requires rows != [] && Versioned(rows)
    ensures Newest(rows) in rows
    ensures forall i | 0 <= i < |rows| :: !Better(Newest(rows).version, rows[i].version)
  {
    BothAreWeakOrders();
    BestFromIsBest(rows, NO_ROW, Better);
  }

  /** What is shown for such rows, by the versions alone: a real release if there is one, and then none
      above it; otherwise a date, the last one; and only among live and transitional versions one of
      those. */
  lemma NewestByKind(rows: seq<Row>)
    requires rows != [] && Versioned(rows)
    ensures var v := Newest(rows).version;
      && (Real(v) <==> exists i :: 0 <= i < |rows| && Real(rows[i].version))
      && (Pseudo(v) <==> forall i | 0 <= i < |rows| :: Pseudo(rows[i].version))
      && (forall i | 0 <= i < |rows| && SameKind(v, rows[i].version) :: !Less(v, rows[i].version))
  {
    NewestIsMaximal(rows);
    var v := Newest(rows).version;
    forall i | 0 <= i < |rows|
      ensures (Real(rows[i].version) ==> Real(v)) && (Pseudo(v) ==> Pseudo(rows[i].version))
      ensures SameKind(v, rows[i].version) ==> !Less(v, rows[i].version)
    {
      assert !Better(v, rows[i].version);
      BetterExactlyWhen(v, rows[i].version);
    }
  }

  predicate SameKind(v: string, w: string) { (Real(v) && Real(w)) || (Dated(v) && Dated(w)) || (Pseudo(v) && Pseudo(w)) }

  /** What `OnPkgs` lists for a family: of the packages found, those that name a version. The newest
      row and the channels are only ever taken from such a list. */
  method Listed(packages: seq<Row>, familyOf: string -> string, family: string) returns (rows: seq<Row>)
    ensures Versioned(rows)
    ensures forall r :: r in rows <==> r in packages && familyOf(r.repo) == family != "" && r.version != ""
  {
    rows := [];
    var i := 0;
    while i < |packages|
      invariant 0 <= i <= |packages| && Versioned(rows)
      invariant forall r :: r in rows <==> r in packages[..i] && familyOf(r.repo) == family != "" && r.version != ""
    {
      assert packages[..i + 1] == packages[..i] + [packages[i]];
      if familyOf(packages[i].repo) == family != "" && packages[i].version != "" {
        rows := rows + [packages[i]];
      }
      i := i + 1;
    }
    assert packages[..i] == packages;
  }

  // ---- The channels of a family ----

  datatype Line = Line(version: string, release: string)

  predicate Rolling(name: string) {
    name in {"", "unstable", "testing", "rawhide", "edge", "sid", "devel", "cauldron", "current"}
  }

  lemma RollingNames(name: string)
    ensures Rolling(name) <==>
      || name == "" || name == "unstable" || name == "testing" || name == "rawhide" || name == "edge" || name == "sid"
      || name == "devel" || name == "cauldron" || name == "current"
  {
  }

  /** How a family's rows are read: the release a repository stands for, the releases that are
      excluded as unreleased or dead, and the two orders. */
  datatype Family = Family(
    releaseOf: string -> string, excluded: string -> bool,
    less: (string, string) -> bool, better: (string, string) -> bool)

  ghost predicate Ordered(f: Family) { WeakOrder(f.less) && WeakOrder(f.better) }

  predicate InRolling(f: Family, row: Row) { Rolling(f.releaseOf(row.repo)) && !f.excluded(f.releaseOf(row.repo)) }
  predicate InNumbered(f: Family, row: Row) { !Rolling(f.releaseOf(row.repo)) && !f.excluded(f.releaseOf(row.repo)) }

  function LineOf(f: Family, row: Row): Line { Line(row.version, f.releaseOf(row.repo)) }

  ghost predicate NoneRolling(f: Family, rows: seq<Row>) { forall i | 0 <= i < |rows| :: !InRolling(f, rows[i]) }
  ghost predicate NoneNumbered(f: Family, rows: seq<Row>) { forall i | 0 <= i < |rows| :: !InNumbered(f, rows[i]) }

  /** `line` is an eligible rolling row none is better than. */
  ghost predicate BestRolling(f: Family, rows: seq<Row>, line: Line) {
    && (exists i :: 0 <= i < |rows| && InRolling(f, rows[i]) && line == LineOf(f, rows[i]))
    && (forall i | 0 <= i < |rows| && InRolling(f, rows[i]) :: !f.better(line.version, rows[i].version))
  }

  /** `line` names a release no eligible release exceeds, and the best version within that release. */
  ghost predicate BestNumbered(f: Family, rows: seq<Row>, line: Line) {
    && (exists i :: 0 <= i < |rows| && InNumbered(f, rows[i]) && line == LineOf(f, rows[i]))
    && (forall i | 0 <= i < |rows| && InNumbered(f, rows[i]) ::
          && !f.less(line.release, f.releaseOf(rows[i].repo))
          && (f.releaseOf(rows[i].repo) == line.release ==> !f.better(line.version, rows[i].version)))
  }

  /** No eligible rolling version is better than `line`'s. */
  ghost predicate NoneAhead(f: Family, rows: seq<Row>, line: Line) {
    forall i | 0 <= i < |rows| && InRolling(f, rows[i]) :: !f.better(line.version, rows[i].version)
  }

  ghost predicate RollingSoFar(f: Family, rows: seq<Row>, line: Line) {
    if line.version == "" then NoneRolling(f, rows) else BestRolling(f, rows, line)
  }

  ghost predicate NumberedSoFar(f: Family, rows: seq<Row>, line: Line) {
    if line.version == "" then line.release == "" && NoneNumbered(f, rows)
    else line.release != "" && BestNumbered(f, rows, line)
  }

  method NewestRolling(f: Family, rows: seq<Row>) returns (line: Line)
    requires Ordered(f) && Versioned(rows)
    ensures RollingSoFar(f, rows, line)
  {
    line := Line("", "");
    var i := 0;
    while i < |rows|
      invariant 0 <= i <= |rows| && RollingSoFar(f, rows[..i], line)
    {
      var release := f.releaseOf(rows[i].repo);
      RollingStep(f, rows[..i], rows[i], line);
      assert rows[..i + 1] == rows[..i] + [rows[i]];
      if Rolling(release) && !f.excluded(release) && (line.version == "" || f.better(line.version, rows[i].version)) {
        line := Line(rows[i].version, release);
      }
      i := i + 1;
    }
    assert rows[..i] == rows;
  }

  lemma RollingStep(f: Family, rows: seq<Row>, row: Row, line: Line)
    requires Ordered(f) && row.version != "" && RollingSoFar(f, rows, line)
    ensures RollingSoFar(f, rows + [row],
      if InRolling(f, row) && (line.version == "" || f.better(line.version, row.version)) then LineOf(f, row) else line)
  {
    var all := rows + [row];
    assert all[|rows|] == row && forall i | 0 <= i < |rows| :: all[i] == rows[i];
    assert !f.better(row.version, row.version);
    forall i | 0 <= i < |rows| && InRolling(f, rows[i]) && InRolling(f, row) && line.version != "" && f.better(line.version, row.version)
      ensures !f.better(row.version, rows[i].version)
    {
      assert !f.better(line.version, rows[i].version);
    }
  }

  method NewestNumbered(f: Family, rows: seq<Row>) returns (line: Line)
    requires Ordered(f) && Versioned(rows)
    ensures NumberedSoFar(f, rows, line)
  {
    line := Line("", "");
    var i := 0;
    while i < |rows|
      invariant 0 <= i <= |rows| && NumberedSoFar(f, rows[..i], line)
    {
      var row := rows[i];
      var release := f.releaseOf(row.repo);
      assert rows[..i + 1] == rows[..i] + [row];
      if Rolling(release) || f.excluded(release) {
        NumberedKept(f, rows[..i], row, line);
      } else if line.release == "" || f.less(line.release, release) {
        NumberedReplaced(f, rows[..i], row, line);
        line := Line(row.version, release);
      } else if release == line.release && f.better(line.version, row.version) {
        NumberedImproved(f, rows[..i], row, line);
        line := line.(version := row.version);
      } else {
        NumberedKept(f, rows[..i], row, line);
      }
      i := i + 1;
    }
    assert rows[..i] == rows;
  }

  /** A newer release takes over with whatever version it has: no row of it came before. */
  lemma NumberedReplaced(f: Family, rows: seq<Row>, row: Row, line: Line)
    requires Ordered(f) && row.version != "" && InNumbered(f, row) && NumberedSoFar(f, rows, line)
    requires line.release == "" || f.less(line.release, f.releaseOf(row.repo))
    ensures NumberedSoFar(f, rows + [row], LineOf(f, row))
  {
    var all := rows + [row];
    var release := f.releaseOf(row.repo);
    assert all[|rows|] == row && forall i | 0 <= i < |rows| :: all[i] == rows[i];
    assert !f.better(row.version, row.version) && !f.less(release, release);
    forall i | 0 <= i < |rows| && InNumbered(f, rows[i])
      ensures !f.less(release, f.releaseOf(rows[i].repo)) && f.releaseOf(rows[i].repo) != release
    {
      assert !f.less(line.release, f.releaseOf(rows[i].repo));
    }
  }

  lemma NumberedImproved(f: Family, rows: seq<Row>, row: Row, line: Line)
    requires Ordered(f) && row.version != "" && InNumbered(f, row) && line.release != "" && NumberedSoFar(f, rows, line)
    requires f.releaseOf(row.repo) == line.release && f.better(line.version, row.version)
    ensures NumberedSoFar(f, rows + [row], LineOf(f, row))
  {
    var all := rows + [row];
    assert all[|rows|] == row && forall i | 0 <= i < |rows| :: all[i] == rows[i];
    assert !f.better(row.version, row.version) && !f.less(line.release, line.release);
    forall i | 0 <= i < |rows| && InNumbered(f, rows[i]) && f.releaseOf(rows[i].repo) == line.release
      ensures !f.better(row.version, rows[i].version)
    {
      assert !f.better(line.version, rows[i].version);
    }
  }

  lemma NumberedKept(f: Family, rows: seq<Row>, row: Row, line: Line)
    requires NumberedSoFar(f, rows, line)
    requires InNumbered(f, row) ==>
      line.release != "" && !f.less(line.release, f.releaseOf(row.repo))
      && (f.releaseOf(row.repo) == line.release ==> !f.better(line.version, row.version))
    ensures NumberedSoFar(f, rows + [row], line)
  {
    var all := rows + [row];
    assert forall i | 0 <= i < |rows| :: all[i] == rows[i];
  }

  /** `familyChannels`: one line or two. Two exactly when there is a numbered release and a rolling
      version strictly better than its best; one numbered line when nothing rolling is ahead of it;
      the rolling line alone without a numbered release; and the newest row of all when everything
      is excluded. */
  method FamilyChannels(rows: seq<Row>, releaseOf: string -> string, excluded: string -> bool) returns (lines: seq<Line>)
    requires Versioned(rows)
    ensures |lines| <= 2 && (lines == [] <==> rows == [])
    ensures var f := Family(releaseOf, excluded, Less, Better);
      && (|lines| == 2 ==> BestRolling(f, rows, lines[0]) && BestNumbered(f, rows, lines[1]) && Better(lines[1].version, lines[0].version))
      && (|lines| == 1 && !NoneNumbered(f, rows) ==> BestNumbered(f, rows, lines[0]) && NoneAhead(f, rows, lines[0]))
      && (|lines| == 1 && NoneNumbered(f, rows) && !NoneRolling(f, rows) ==> BestRolling(f, rows, lines[0]))
      && (|lines| == 1 && NoneNumbered(f, rows) && NoneRolling(f, rows) ==> lines[0] == LineOf(f, Newest(rows)))
  {
    if rows == [] {
      return [];
    }
    var f := Family(releaseOf, excluded, Less, Better);
    BothAreWeakOrders();
    var rolling := NewestRolling(f, rows);
    var numbered := NewestNumbered(f, rows);
    lines := Chosen(f, rows, rolling, numbered);
  }

  /** The last decision of `familyChannels`. */
  method Chosen(f: Family, rows: seq<Row>, rolling: Line, numbered: Line) returns (lines: seq<Line>)
    requires Ordered(f) && f.better == Better && rows != []
    requires RollingSoFar(f, rows, rolling) && NumberedSoFar(f, rows, numbered)
    ensures 1 <= |lines| <= 2
    ensures |lines| == 2 ==> BestRolling(f, rows, lines[0]) && BestNumbered(f, rows, lines[1]) && f.better(lines[1].version, lines[0].version)
    ensures |lines| == 1 && !NoneNumbered(f, rows) ==> BestNumbered(f, rows, lines[0]) && NoneAhead(f, rows, lines[0])
    ensures |lines| == 1 && NoneNumbered(f, rows) && !NoneRolling(f, rows) ==> BestRolling(f, rows, lines[0])
    ensures |lines| == 1 && NoneNumbered(f, rows) && NoneRolling(f, rows) ==> lines[0] == LineOf(f, Newest(rows))
  {
    if numbered.version == "" && rolling.version == "" {
      var newest := NewestRow(rows);
      return [Line(newest.version, f.releaseOf(newest.repo))];
    }
    if numbered.version == "" {
      return [rolling];
    }
    if rolling.version == "" || !f.better(numbered.version, rolling.version) {
      return [numbered];
    }
    return [rolling, numbered];
  }
}

/** What the numbers of a version compare as: the dotted part, read as a list of numbers, decides
    before anything that follows it. */
module DottedVersions {
  import opened Lexicographic
  import opened VersionOrder

  // ---- Fields ----

  predicate PlainField(f: string) { '.' !in f && '-' !in f }

  /** One separator, a dot or a dash, between any two fields. */
  predicate Separates(seps: string, fields: seq<string>) {
    && |fields| == |seps| + 1 && (forall i | 0 <= i < |fields| :: PlainField(fields[i]))
    && (forall i | 0 <= i < |seps| :: seps[i] == '.' || seps[i] == '-')
  }

  /** The fields with the separators between them. */
  function Joined(fields: seq<string>, seps: string): string
    requires |fields| == |seps| + 1
  {
    if seps == "" then fields[0] else fields[0] + [seps[0]] + Joined(fields[1..], seps[1..])
  }

  function NonEmpty(fields: seq<string>): seq<string> {
    if fields == [] then [] else if fields[0] == "" then NonEmpty(fields[1..]) else [fields[0]] + NonEmpty(fields[1..])
  }

  lemma {:induction false} FieldsRead(f: string, rest: string, part: string)
    requires PlainField(f)
    ensures Fields(f + rest, part) == Fields(rest, part + f)
    decreases |f|
  {
    if f == "" {
      assert f + rest == rest && part + f == part;
    } else {
      assert (f + rest)[1..] == f[1..] + rest && (part + [f[0]]) + f[1..] == part + f;
      FieldsRead(f[1..], rest, part + [f[0]]);
    }
  }

  /** `splitVer`: text made of fields between dots and dashes is split into those fields, in order, the
      empty ones left out. */
  lemma {:induction false} FieldsAreTheFields(fields: seq<string>, seps: string)
    requires Separates(seps, fields)
    ensures Fields(Joined(fields, seps), "") == NonEmpty(fields)
    decreases |seps|
  {
    var f := fields[0];
    if seps == "" {
      assert f + "" == f && "" + f == f;
      FieldsRead(f, "", "");
      assert fields[1..] == [] && NonEmpty(fields[1..]) == [];
    } else {
      var rest := Joined(fields[1..], seps[1..]);
      assert f + [seps[0]] + rest == f + ([seps[0]] + rest) && "" + f == f;
      assert ([seps[0]] + rest)[1..] == rest;
      FieldsRead(f, [seps[0]] + rest, "");
      FieldsAreTheFields(fields[1..], seps[1..]);
    }
  }

  /** And every text is made that way. */
  lemma {:induction false} EveryTextIsJoined(s: string) returns (fields: seq<string>, seps: string)
    ensures Separates(seps, fields) && Joined(fields, seps) == s
  {
    if s == "" {
      fields, seps := [""], "";
    } else {
      var fs, ss := EveryTextIsJoined(s[1..]);
      if s[0] == '.' || s[0] == '-' {
        fields, seps := [""] + fs, [s[0]] + ss;
        assert fields[1..] == fs && seps[1..] == ss;
      } else {
        fields, seps := [[s[0]] + fs[0]] + fs[1..], ss;
        assert fields[1..] == fs[1..];
      }
    }
  }

  // ---- Dotted numbers ----

  /** Components of digits, of any length. */
  predicate Components(ns: seq<string>) { ns != [] && AllDecimal(ns) && forall i | 0 <= i < |ns| :: ns[i] != "" }
  predicate AllDecimal(ns: seq<string>) { forall i | 0 <= i < |ns| :: Decimal(ns[i]) }

  function Dots(n: nat): string { seq(n, _ => '.') }

  function Dotted(ns: seq<string>): string
    requires ns != []
  {
    Joined(ns, Dots(|ns| - 1))
  }

  function Numbers(ns: seq<string>): seq<nat>
    requires AllDecimal(ns)
  {
    seq(|ns|, i requires 0 <= i < |ns| => NumberOf(ns[i]))
  }

  /** The first difference decides; without one the shorter list comes first. */
  predicate Before(a: seq<nat>, b: seq<nat>) {
    b != [] && (a == [] || a[0] < b[0] || (a[0] == b[0] && Before(a[1..], b[1..])))
  }

  lemma NumberIsOnePiece(n: string)
    requires n != "" && Decimal(n)
    ensures Pieces(n) == [Piece(1, NumberOf(n))]
  {
    assert n[..|n|] == n && n[|n|..] == "";
    RunIs(n, |n|);
    assert Pieces("") == [];
  }

  lemma ComponentsCompare(m: string, n: string)
    requires m != "" && Decimal(m) && n != "" && Decimal(n)
    ensures CompareToken(m, n) == CompareInt(NumberOf(m), NumberOf(n))
  {
    NumberIsOnePiece(m);
    NumberIsOnePiece(n);
    var p, q := Piece(1, NumberOf(m)), Piece(1, NumberOf(n));
    assert [p][1..] == [] && [q][1..] == [];
    assert Lex([p], [q], ComparePiece) == if ComparePiece(p, q) != 0 then ComparePiece(p, q) else Lex([], [], ComparePiece);
  }

  lemma {:induction false} NumbersCompare(ms: seq<string>, ns: seq<string>)
    requires (ms == [] || Components(ms)) && (ns == [] || Components(ns))
    ensures Lex(ms, ns, CompareToken) < 0 <==> Before(Numbers(ms), Numbers(ns))
    ensures Lex(ms, ns, CompareToken) == 0 <==> Numbers(ms) == Numbers(ns)
    decreases |ms|
  {
    if ms != [] && ns != [] {
      ComponentsCompare(ms[0], ns[0]);
      NumbersCompare(ms[1..], ns[1..]);
      FirstAndRest(ms);
      FirstAndRest(ns);
    }
  }

  lemma FirstAndRest(ns: seq<string>)
    requires AllDecimal(ns) && ns != []
    ensures AllDecimal(ns[1..]) && Numbers(ns)[0] == NumberOf(ns[0]) && Numbers(ns)[1..] == Numbers(ns[1..])
    ensures Numbers(ns) == [NumberOf(ns[0])] + Numbers(ns[1..])
  {
  }

  lemma {:induction false} AllKept(ns: seq<string>)
    requires forall i | 0 <= i < |ns| :: ns[i] != ""
    ensures NonEmpty(ns) == ns
  {
    if ns != [] { AllKept(ns[1..]); }
  }

  lemma {:induction false} JoinedHolds(fields: seq<string>, seps: string, c: char)
    requires |fields| == |seps| + 1
    ensures c in Joined(fields, seps) ==> c in seps || exists i :: 0 <= i < |fields| && c in fields[i]
  {
    if seps != "" {
      JoinedHolds(fields[1..], seps[1..], c);
      assert forall i | 0 <= i < |fields[1..]| :: fields[1..][i] == fields[i + 1];
    }
  }

  lemma DottedIsPlain(ns: seq<string>)
    requires Components(ns)
    ensures '_' !in Dotted(ns) && '-' !in Dotted(ns) && Fields(Dotted(ns), "") == ns
  {
    JoinedHolds(ns, Dots(|ns| - 1), '_');
    JoinedHolds(ns, Dots(|ns| - 1), '-');
    assert forall i | 0 <= i < |ns| :: PlainField(ns[i]) && '_' !in ns[i];
    FieldsAreTheFields(ns, Dots(|ns| - 1));
    AllKept(ns);
  }

  /** What may follow the numbers: nothing, suffixes, or a revision. */
  predicate Tail(t: string) { t == "" || t[0] == '_' || (|t| > 2 && t[..2] == "-r" && Decimal(t[2..])) }

  lemma {:induction false} SplitFirst(x: string, t: string)
    requires '_' !in x && (t == "" || t[0] == '_')
    ensures Split(x + t, '_')[0] == x
  {
    if x == "" {
      assert x + t == t;
    } else {
      assert (x + t)[1..] == x[1..] + t;
      SplitFirst(x[1..], t);
      assert [x[0]] + x[1..] == x;
    }
  }

  lemma StemOfTail(x: string, t: string) returns (rest: string)
    requires '-' !in x && Tail(t)
    ensures Stem(x + t) == x + rest && (rest == "" || rest[0] == '_')
  {
    var v := x + t;
    if HasRevision(v) {
      var i := LastDashR(v);
      assert i >= |x| by { assert forall k | 0 <= k < |x| :: v[k] in x; }
      rest := t[..i - |x|];
      assert v[..i] == x + rest;
    } else {
      rest := t;
      if t != "" && t[0] != '_' {
        assert t == "-r" + t[2..] && x + t == x + "-r" + t[2..];
        RevisionParses(x, t[2..]);
      }
    }
    if t != "" && t[0] != '_' && HasRevision(v) {
      RevisionAtEnd(x, t);
      assert rest == "";
    }
  }

  lemma RevisionAtEnd(x: string, t: string)
    requires |t| > 2 && t[..2] == "-r" && Decimal(t[2..])
    ensures LastDashR(x + t) == |x|
  {
    var v := x + t;
    assert v[|x|] == '-' && v[|x| + 1] == 'r';
    assert forall k | |x| + 2 <= k < |v| :: v[k] == t[2..][k - |x| - 2];
  }

  /** The base of a version is what stands before its suffixes and its revision. */
  lemma BaseIsTheNumbers(ns: seq<string>, t: string)
    requires Components(ns) && Tail(t)
    ensures Parse(Dotted(ns) + t).base == ns
  {
    DottedIsPlain(ns);
    var rest := StemOfTail(Dotted(ns), t);
    SplitFirst(Dotted(ns), rest);
  }

  /** Whatever follows, the numbers decide where they differ: 1.9 before 1.10 before 2.0, with any
      suffixes and revisions. */
  lemma NumbersDecide(ms: seq<string>, s: string, ns: seq<string>, t: string)
    requires Components(ms) && Components(ns) && Tail(s) && Tail(t) && Numbers(ms) != Numbers(ns)
    ensures Less(Dotted(ms) + s, Dotted(ns) + t) <==> Before(Numbers(ms), Numbers(ns))
  {
    BaseIsTheNumbers(ms, s);
    BaseIsTheNumbers(ns, t);
    NumbersCompare(ms, ns);
  }

  /** Versions of numbers alone are ordered as the lists of their numbers. */
  lemma DottedOrder(ms: seq<string>, ns: seq<string>)
    requires Components(ms) && Components(ns)
    ensures Less(Dotted(ms), Dotted(ns)) <==> Before(Numbers(ms), Numbers(ns))
  {
    assert Dotted(ms) + "" == Dotted(ms) && Dotted(ns) + "" == Dotted(ns);
    if Numbers(ms) != Numbers(ns) {
      NumbersDecide(ms, "", ns, "");
    } else {
      DottedParses(ms);
      DottedParses(ns);
      NumbersCompare(ms, ns);
      NotBeforeItself(Numbers(ms));
    }
  }

  lemma {:induction false} NotBeforeItself(a: seq<nat>)
    ensures !Before(a, a)
  {
    if a != [] { NotBeforeItself(a[1..]); }
  }

  lemma DottedParses(ns: seq<string>)
    requires Components(ns)
    ensures Parse(Dotted(ns)) == Version(ns, [], "")
  {
    var v := Dotted(ns);
    DottedIsPlain(ns);
    assert !HasRevision(v) by { assert forall k | 0 <= k < |v| :: v[k] in v; }
    SplitWhole(v);
  }

  lemma TwoComponents(m: string, n: string)
    requires m != "" && Decimal(m) && n != "" && Decimal(n)
    ensures Components([m, n]) && Dotted([m, n]) == m + "." + n && Numbers([m, n]) == [NumberOf(m), NumberOf(n)]
  {
    assert Dots(1) == "." && "."[1..] == "" && [m, n][1..] == [n];
    assert Joined([n], "") == n;
    assert Joined([m, n], ".") == m + ['.'] + Joined([n], "");
  }

  lemma SmallNumbers()
    ensures NumberOf("0") == 0 && NumberOf("1") == 1 && NumberOf("2") == 2 && NumberOf("5") == 5 && NumberOf("9") == 9
    ensures NumberOf("10") == 10
  {
    assert Pow10(0) == 1 && Pow10(1) == 10 && "10"[1..] == "0";
  }

  lemma NumbersAreNotText()
    ensures Less("1.9", "1.10") && Less("1.10", "2.0") && Less("1.5", "2.0") && !Less("2.0", "1.5")
  {
    SmallNumbers();
    TwoComponents("1", "9");
    TwoComponents("1", "10");
    TwoComponents("1", "5");
    TwoComponents("2", "0");
    assert "1" + "." + "9" == "1.9" && "1" + "." + "10" == "1.10" && "1" + "." + "5" == "1.5" && "2" + "." + "0" == "2.0";
    TwoBefore("1", "9", "1", "10");
    TwoBefore("1", "10", "2", "0");
    TwoBefore("1", "5", "2", "0");
    TwoBefore("2", "0", "1", "5");
  }

  lemma PairsBefore(a: nat, b: nat, c: nat, d: nat)
    ensures Before([a, b], [c, d]) <==> a < c || (a == c && b < d)
  {
    assert [a, b][1..] == [b] && [c, d][1..] == [d];
    assert [b][1..] == [] && [d][1..] == [] && !Before([], []);
    assert Before([b], [d]) <==> b < d;
  }

  lemma TwoBefore(a: string, b: string, c: string, d: string)
    requires a != "" && Decimal(a) && b != "" && Decimal(b) && c != "" && Decimal(c) && d != "" && Decimal(d)
    ensures Less(a + "." + b, c + "." + d) <==>
            NumberOf(a) < NumberOf(c) || (NumberOf(a) == NumberOf(c) && NumberOf(b) < NumberOf(d))
  {
    TwoComponents(a, b);
    TwoComponents(c, d);
    PairsBefore(NumberOf(a), NumberOf(b), NumberOf(c), NumberOf(d));
    DottedOrder([a, b], [c, d]);
  }
}

/** The order of Gentoo version strings behind every "newest" answer. Strings stand for byte
    strings: the source compares bytes. */
module VersionOrder {
  import opened Lexicographic

  // ---- Numbers of any length ----

  predicate IsDigit(c: char) { '0' <= c <= '9' }
  predicate Decimal(s: string) { forall i | 0 <= i < |s| :: IsDigit(s[i]) }

  function Digit(c: char): nat
    requires IsDigit(c)
  {
    c as int - '0' as int
  }

  function Pow10(n: nat): (p: nat)
    ensures p > 0
  {
    if n == 0 then 1 else 10 * Pow10(n - 1)
  }

  function NumberOf(s: string): nat
    requires Decimal(s)
  {
    if s == "" then 0 else Digit(s[0]) * Pow10(|s| - 1) + NumberOf(s[1..])
  }

  function TrimZeros(s: string): string { if s != "" && s[0] == '0' then TrimZeros(s[1..]) else s }

  function CompareBytes(a: string, b: string): int {
    if a == "" && b == "" then 0 else if a == "" then -1 else if b == "" then 1
    else if a[0] != b[0] then CompareInt(a[0] as int, b[0] as int)
    else CompareBytes(a[1..], b[1..])
  }

  /** `cmpNum`: by length once leading zeros are gone, then byte by byte. */
  function CmpNum(a: string, b: string): int {
    var x, y := TrimZeros(a), TrimZeros(b);
    if |x| != |y| then CompareInt(|x|, |y|) else CompareBytes(x, y)
  }

  lemma Scaled(d: nat, e: nat, p: nat, x: nat, y: nat)
    requires x < p && d < e
    ensures d * p + x < e * p + y
  {
    assert (d + 1) * p <= e * p;
  }

  lemma {:induction false} NumberIsBelow(s: string)
    requires Decimal(s)
    ensures NumberOf(s) < Pow10(|s|)
  {
    if s != "" {
      NumberIsBelow(s[1..]);
      Scaled(Digit(s[0]), 10, Pow10(|s| - 1), NumberOf(s[1..]), 0);
    }
  }

  lemma {:induction false} TrimKeepsNumber(s: string)
    requires Decimal(s)
    ensures Decimal(TrimZeros(s)) && NumberOf(TrimZeros(s)) == NumberOf(s)
    ensures TrimZeros(s) != "" ==> TrimZeros(s)[0] != '0'
  {
    if s != "" && s[0] == '0' { TrimKeepsNumber(s[1..]); }
  }

  lemma {:induction false} Pow10Grows(m: nat, n: nat)
    requires m <= n
    ensures Pow10(m) <= Pow10(n)
  {
    if m < n { Pow10Grows(m, n - 1); }
  }

  lemma LeadingDigitCounts(s: string)
    requires Decimal(s) && s != "" && s[0] != '0'
    ensures NumberOf(s) >= Pow10(|s| - 1)
  {
    var d, p := Digit(s[0]), Pow10(|s| - 1);
    assert d * p >= 1 * p;
  }

  lemma LongerIsGreater(a: string, b: string)
    requires Decimal(a) && Decimal(b) && |a| < |b| && b[0] != '0'
    ensures NumberOf(a) < NumberOf(b)
  {
    NumberIsBelow(a);
    Pow10Grows(|a|, |b| - 1);
    LeadingDigitCounts(b);
  }

  lemma {:induction false} BytesCompareNumbers(a: string, b: string)
    requires Decimal(a) && Decimal(b) && |a| == |b|
    ensures CompareBytes(a, b) == CompareInt(NumberOf(a), NumberOf(b))
  {
    if a != "" {
      NumberIsBelow(a[1..]);
      NumberIsBelow(b[1..]);
      BytesCompareNumbers(a[1..], b[1..]);
      if Digit(a[0]) < Digit(b[0]) { Scaled(Digit(a[0]), Digit(b[0]), Pow10(|a| - 1), NumberOf(a[1..]), NumberOf(b[1..])); }
      if Digit(b[0]) < Digit(a[0]) { Scaled(Digit(b[0]), Digit(a[0]), Pow10(|a| - 1), NumberOf(b[1..]), NumberOf(a[1..])); }
    }
  }

  /** `cmpNum` compares the numbers, of any length and with any leading zeros. */
  lemma CmpNumIsNumeric(a: string, b: string)
    requires Decimal(a) && Decimal(b)
    ensures CmpNum(a, b) == CompareInt(NumberOf(a), NumberOf(b))
  {
    var x, y := TrimZeros(a), TrimZeros(b);
    TrimKeepsNumber(a);
    TrimKeepsNumber(b);
    if |x| < |y| { LongerIsGreater(x, y); }
    else if |y| < |x| { LongerIsGreater(y, x); }
    else { BytesCompareNumbers(x, y); }
  }

  // ---- Tokens ----

  /** A token is read as digit runs, which count as numbers, and single bytes. Every number sorts
      after the bytes below '0' and before those above '9'. */
  datatype Piece = Piece(rank: int, value: int)

  function ComparePiece(p: Piece, q: Piece): int {
    if p.rank != q.rank then CompareInt(p.rank, q.rank) else CompareInt(p.value, q.value)
  }

  /** The number of leading digits. */
  function Run(s: string): (n: nat)
    ensures n <= |s| && Decimal(s[..n]) && (n < |s| ==> !IsDigit(s[n]))
  {
    if s == "" || !IsDigit(s[0]) then 0 else 1 + Run(s[1..])
  }

  function Pieces(s: string): seq<Piece>
    decreases |s|
  {
    if s == "" then []
    else if IsDigit(s[0]) then [Piece(1, NumberOf(s[..Run(s)]))] + Pieces(s[Run(s)..])
    else [Piece(if s[0] < '0' then 0 else 2, s[0] as int)] + Pieces(s[1..])
  }

  function CompareToken(a: string, b: string): int { Lex(Pieces(a), Pieces(b), ComparePiece) }

  lemma PiecesAreLawful()
    ensures Lawful(ComparePiece)
  {
  }

  lemma RunIs(s: string, n: nat)
    requires n <= |s| && Decimal(s[..n]) && (n < |s| ==> !IsDigit(s[n]))
    ensures Run(s) == n
  {
    if n > 0 {
      assert s[..n][0] == s[0] && s[1..][..n - 1] == s[..n][1..];
      RunIs(s[1..], n - 1);
    }
  }

  lemma RunsCompare(a: string, b: string)
    requires a != "" && b != "" && IsDigit(a[0]) && IsDigit(b[0])
    ensures var c := CmpNum(a[..Run(a)], b[..Run(b)]);
      CompareToken(a, b) == if c != 0 then c else CompareToken(a[Run(a)..], b[Run(b)..])
  {
    CmpNumIsNumeric(a[..Run(a)], b[..Run(b)]);
    assert Pieces(a)[1..] == Pieces(a[Run(a)..]) && Pieces(b)[1..] == Pieces(b[Run(b)..]);
  }

  lemma BytesCompare(a: string, b: string)
    requires a != "" && b != "" && !(IsDigit(a[0]) && IsDigit(b[0]))
    ensures CompareToken(a, b) ==
      if a[0] != b[0] then CompareInt(a[0] as int, b[0] as int) else CompareToken(a[1..], b[1..])
  {
    if a[0] == b[0] {
      assert Pieces(a)[1..] == Pieces(a[1..]) && Pieces(b)[1..] == Pieces(b[1..]);
    }
  }

  /** The end of the digit run that starts at `i`. */
  method RunEnd(s: string, i: nat) returns (j: nat)
    requires i < |s| && IsDigit(s[i])
    ensures i < j <= |s| && j - i == Run(s[i..])
  {
    j := i;
    while j < |s| && IsDigit(s[j])
      invariant i <= j <= |s| && forall k | i <= k < j :: IsDigit(s[k])
    {
      j := j + 1;
    }
    RunIs(s[i..], j - i);
  }

  lemma RunsCompareAt(a: string, i: nat, i': nat, b: string, j: nat, j': nat)
    requires i < i' <= |a| && IsDigit(a[i]) && i' - i == Run(a[i..])
    requires j < j' <= |b| && IsDigit(b[j]) && j' - j == Run(b[j..])
    ensures var c := CmpNum(a[i..i'], b[j..j']);
      CompareToken(a[i..], b[j..]) == if c != 0 then c else CompareToken(a[i'..], b[j'..])
  {
    SliceOfRest(a, i, i');
    SliceOfRest(b, j, j');
    RunsCompare(a[i..], b[j..]);
  }

  lemma SliceOfRest(s: string, i: nat, j: nat)
    requires i <= j <= |s|
    ensures s[i..][..j - i] == s[i..j] && s[i..][j - i..] == s[j..]
  {
  }

  lemma BytesCompareAt(a: string, i: nat, b: string, j: nat)
    requires i < |a| && j < |b| && !(IsDigit(a[i]) && IsDigit(b[j]))
    ensures CompareToken(a[i..], b[j..]) ==
      if a[i] != b[j] then (if a[i] < b[j] then -1 else 1) else CompareToken(a[i + 1..], b[j + 1..])
  {
    BytesCompare(a[i..], b[j..]);
    assert a[i..][1..] == a[i + 1..] && b[j..][1..] == b[j + 1..];
  }

  /** `cmpToken`: the loop over two indices computes the lexicographic order of the pieces. */
  method CmpToken(a: string, b: string) returns (c: int)
    ensures c == CompareToken(a, b)
  {
    var i, j := 0, 0;
    while i < |a| && j < |b|
      invariant 0 <= i <= |a| && 0 <= j <= |b|
      invariant CompareToken(a, b) == CompareToken(a[i..], b[j..])
      decreases |a| - i
    {
      if IsDigit(a[i]) && IsDigit(b[j]) {
        var i' := RunEnd(a, i);
        var j' := RunEnd(b, j);
        RunsCompareAt(a, i, i', b, j, j');
        c := CmpNum(a[i..i'], b[j..j']);
        if c != 0 {
          return;
        }
        i, j := i', j';
      } else {
        BytesCompareAt(a, i, b, j);
        if a[i] != b[j] {
          return if a[i] < b[j] then -1 else 1;
        }
        i, j := i + 1, j + 1;
      }
    }
    assert |a| - i == 0 || |b| - j == 0;
    PiecesEmpty(a[i..]);
    PiecesEmpty(b[j..]);
    return if |a| - i < |b| - j then -1 else if |a| - i > |b| - j then 1 else 0;
  }

  lemma PiecesEmpty(s: string)
    ensures Pieces(s) == [] <==> s == ""
  {
  }

  // ---- Versions ----

  datatype Suffix = Suffix(rank: int, number: string, raw: string)
  datatype Version = Version(base: seq<string>, suffixes: seq<Suffix>, revision: string)

  const NO_SUFFIX := Suffix(0, "", "")

  /** Known suffixes carry a number, unknown ones the bytes they are made of. */
  predicate GoodSuffix(s: Suffix) { Decimal(s.number) && (s.raw != "" ==> s.rank == 2) && (s.rank == 2 ==> s.number == "") }
  predicate GoodVersion(v: Version) { Decimal(v.revision) && forall i | 0 <= i < |v.suffixes| :: GoodSuffix(v.suffixes[i]) }

  function CompareSuffix(s: Suffix, t: Suffix): int {
    if s.rank != t.rank then CompareInt(s.rank, t.rank)
    else if s.raw != "" || t.raw != "" then CompareToken(s.raw, t.raw)
    else CmpNum(s.number, t.number)
  }

  function SuffixAt(ss: seq<Suffix>, i: nat): Suffix { if i < |ss| then ss[i] else NO_SUFFIX }

  /** The suffixes from the `i`-th on, the shorter list padded with "no suffix". */
  function CompareSuffixes(ss: seq<Suffix>, ts: seq<Suffix>, i: nat): int
    decreases if |ss| > |ts| then |ss| - i else |ts| - i
  {
    if i >= |ss| && i >= |ts| then 0
    else
      var c := CompareSuffix(SuffixAt(ss, i), SuffixAt(ts, i));
      if c != 0 then c else CompareSuffixes(ss, ts, i + 1)
  }

  function CompareVersion(v: Version, w: Version): int {
    var base := Lex(v.base, w.base, CompareToken);
    var suffixes := CompareSuffixes(v.suffixes, w.suffixes, 0);
    if base != 0 then base else if suffixes != 0 then suffixes else CmpNum(v.revision, w.revision)
  }

  lemma TokensAreLawful()
    ensures Lawful(CompareToken)
  {
    PiecesAreLawful();
    forall a, b ensures -1 <= CompareToken(a, b) <= 1 && CompareToken(b, a) == -CompareToken(a, b) {
      LexOrders(Pieces(a), Pieces(b), [], ComparePiece);
    }
    forall a, b, c | CompareToken(a, b) <= 0 && CompareToken(b, c) <= 0 ensures CompareToken(a, c) <= 0 {
      LexOrders(Pieces(a), Pieces(b), Pieces(c), ComparePiece);
    }
  }

  lemma SuffixOrders(s: Suffix, t: Suffix, u: Suffix)
    requires GoodSuffix(s) && GoodSuffix(t) && GoodSuffix(u)
    ensures -1 <= CompareSuffix(s, t) <= 1 && CompareSuffix(t, s) == -CompareSuffix(s, t)
    ensures CompareSuffix(s, t) <= 0 && CompareSuffix(t, u) <= 0 ==> CompareSuffix(s, u) <= 0
    ensures CompareSuffix(s, t) < 0 && CompareSuffix(t, u) <= 0 ==> CompareSuffix(s, u) < 0
    ensures CompareSuffix(s, t) <= 0 && CompareSuffix(t, u) < 0 ==> CompareSuffix(s, u) < 0
    ensures CompareSuffix(s, s) == 0
  {
    CmpNumIsNumeric(s.number, t.number);
    CmpNumIsNumeric(t.number, s.number);
    CmpNumIsNumeric(t.number, u.number);
    CmpNumIsNumeric(s.number, u.number);
    CmpNumIsNumeric(s.number, s.number);
    TokensAreLawful();
    LawfulIsWeakOrder(CompareToken, s.raw, t.raw, u.raw);
    assert CompareToken("", "") == 0;
  }

  /** How much of three lists is left from `i` on. */
  function Left3(ss: seq<Suffix>, ts: seq<Suffix>, us: seq<Suffix>, i: nat): nat {
    var n := if |ss| >= |ts| && |ss| >= |us| then |ss| else if |ts| >= |us| then |ts| else |us|;
    if n > i then n - i else 0
  }

  lemma {:induction false} SuffixesOrder(ss: seq<Suffix>, ts: seq<Suffix>, us: seq<Suffix>, i: nat)
    requires forall k | 0 <= k < |ss| :: GoodSuffix(ss[k])
    requires forall k | 0 <= k < |ts| :: GoodSuffix(ts[k])
    requires forall k | 0 <= k < |us| :: GoodSuffix(us[k])
    ensures var c, d, e := CompareSuffixes(ss, ts, i), CompareSuffixes(ts, us, i), CompareSuffixes(ss, us, i);
      && -1 <= c <= 1 && CompareSuffixes(ts, ss, i) == -c
      && (c <= 0 && d <= 0 ==> e <= 0) && (c < 0 && d <= 0 ==> e < 0) && (c <= 0 && d < 0 ==> e < 0)
    decreases Left3(ss, ts, us, i)
  {
    SuffixOrders(SuffixAt(ss, i), SuffixAt(ts, i), SuffixAt(us, i));
    SuffixOrders(SuffixAt(ts, i), SuffixAt(ss, i), SuffixAt(us, i));
    SuffixOrders(NO_SUFFIX, NO_SUFFIX, NO_SUFFIX);
    if i < |ss| || i < |ts| || i < |us| {
      SuffixesOrder(ss, ts, us, i + 1);
      PaddingIsEqual(ss, ts, i);
      PaddingIsEqual(ts, us, i);
      PaddingIsEqual(ss, us, i);
      PaddingIsEqual(ts, ss, i);
    }
  }

  /** Past the end of both lists there is nothing to tell apart. */
  lemma PaddingIsEqual(ss: seq<Suffix>, ts: seq<Suffix>, i: nat)
    ensures CompareSuffixes(ss, ts, i) ==
      var c := CompareSuffix(SuffixAt(ss, i), SuffixAt(ts, i)); if c != 0 then c else CompareSuffixes(ss, ts, i + 1)
  {
    if i >= |ss| && i >= |ts| { assert CompareSuffix(NO_SUFFIX, NO_SUFFIX) == 0; }
  }

  lemma VersionsOrder(u: Version, v: Version, w: Version)
    requires GoodVersion(u) && GoodVersion(v) && GoodVersion(w)
    ensures -1 <= CompareVersion(u, v) <= 1 && CompareVersion(v, u) == -CompareVersion(u, v)
    ensures CompareVersion(u, v) <= 0 && CompareVersion(v, w) <= 0 ==> CompareVersion(u, w) <= 0
  {
    TokensAreLawful();
    LexIsLawful(CompareToken);
    LawfulIsWeakOrder((a: seq<string>, b: seq<string>) => Lex(a, b, CompareToken), u.base, v.base, w.base);
    LexOrders(u.base, v.base, w.base, CompareToken);
    SuffixesOrder(u.suffixes, v.suffixes, w.suffixes, 0);
    CmpNumIsNumeric(u.revision, v.revision);
    CmpNumIsNumeric(v.revision, u.revision);
    CmpNumIsNumeric(v.revision, w.revision);
    CmpNumIsNumeric(u.revision, w.revision);
  }

  // ---- Version strings ----

  /** Where the last "-r" starts, or -1. */
  function LastDashR(v: string): (i: int)
    ensures -1 <= i && (i >= 0 ==> i + 2 <= |v| && v[i] == '-' && v[i + 1] == 'r')
    ensures forall k | i < k && 0 <= k < |v| - 1 :: !(v[k] == '-' && v[k + 1] == 'r')
  {
    if |v| < 2 then -1
    else if v[|v| - 2] == '-' && v[|v| - 1] == 'r' then |v| - 2
    else LastDashR(v[..|v| - 1])
  }

  predicate HasRevision(v: string) {
    var i := LastDashR(v);
    i >= 0 && v[i + 2..] != "" && Decimal(v[i + 2..])
  }

  function Split(s: string, sep: char): (parts: seq<string>)
    ensures |parts| >= 1
  {
    if s == "" then [""]
    else
      var rest := Split(s[1..], sep);
      if s[0] == sep then [""] + rest else [[s[0]] + rest[0]] + rest[1..]
  }

  /** The parts between dots and dashes, empty ones dropped; `part` is the one being read. */
  function Fields(s: string, part: string): seq<string> {
    if s == "" then (if part == "" then [] else [part])
    else if s[0] in {'.', '-'} then (if part == "" then [] else [part]) + Fields(s[1..], "")
    else Fields(s[1..], part + [s[0]])
  }

  predicate Named(token: string, name: string) { name <= token && Decimal(token[|name|..]) }

  function ParseSuffix(token: string): (s: Suffix)
    ensures GoodSuffix(s)
  {
    if Named(token, "alpha") then Suffix(-4, token[5..], "")
    else if Named(token, "beta") then Suffix(-3, token[4..], "")
    else if Named(token, "pre") then Suffix(-2, token[3..], "")
    else if Named(token, "rc") then Suffix(-1, token[2..], "")
    else if Named(token, "p") then Suffix(1, token[1..], "")
    else Suffix(2, "", token)
  }

  function ParseSuffixes(tokens: seq<string>): (ss: seq<Suffix>)
    ensures |ss| == |tokens| && forall i | 0 <= i < |ss| :: ss[i] == ParseSuffix(tokens[i])
  {
    if tokens == [] then [] else [ParseSuffix(tokens[0])] + ParseSuffixes(tokens[1..])
  }

  /** Everything but the revision. */
  function Stem(v: string): string { if HasRevision(v) then v[..LastDashR(v)] else v }

  function Parse(v: string): (parsed: Version)
    ensures GoodVersion(parsed)
  {
    var parts := Split(Stem(v), '_');
    Version(Fields(parts[0], ""), ParseSuffixes(parts[1..]), if HasRevision(v) then v[LastDashR(v) + 2..] else "")
  }

  /** `verLess`. */
  predicate Less(a: string, b: string) { CompareVersion(Parse(a), Parse(b)) < 0 }

  method CompareBase(a: seq<string>, b: seq<string>) returns (c: int)
    ensures (c < 0 <==> Lex(a, b, CompareToken) < 0) && (c > 0 <==> Lex(a, b, CompareToken) > 0)
  {
    var i := 0;
    while i < |a| && i < |b|
      invariant 0 <= i <= |a| && i <= |b| && Lex(a, b, CompareToken) == Lex(a[i..], b[i..], CompareToken)
    {
      c := CmpToken(a[i], b[i]);
      if c != 0 {
        return;
      }
      i := i + 1;
    }
    return |a| - |b|;
  }

  method CmpSuffix(s: Suffix, t: Suffix) returns (c: int)
    ensures c == CompareSuffix(s, t)
  {
    if s.rank != t.rank {
      return if s.rank < t.rank then -1 else 1;
    }
    if s.raw != "" || t.raw != "" {
      c := CmpToken(s.raw, t.raw);
    } else {
      c := CmpNum(s.number, t.number);
    }
  }

  /** The loop over both lists of suffixes, the shorter one padded. */
  method CmpSuffixes(ss: seq<Suffix>, ts: seq<Suffix>) returns (c: int)
    ensures c == CompareSuffixes(ss, ts, 0)
  {
    var n := if |ss| < |ts| then |ts| else |ss|;
    var i := 0;
    while i < n
      invariant 0 <= i <= n && CompareSuffixes(ss, ts, 0) == CompareSuffixes(ss, ts, i)
    {
      c := CmpSuffix(SuffixAt(ss, i), SuffixAt(ts, i));
      if c != 0 {
        return;
      }
      i := i + 1;
    }
    return 0;
  }

  /** The layers of the comparison, one after the other. */
  method VerLess(a: string, b: string) returns (less: bool)
    ensures less == Less(a, b)
  {
    var v, w := Parse(a), Parse(b);
    var c := CompareBase(v.base, w.base);
    if c != 0 {
      return c < 0;
    }
    c := CmpSuffixes(v.suffixes, w.suffixes);
    if c != 0 {
      return c < 0;
    }
    return CmpNum(v.revision, w.revision) < 0;
  }

  /** `verLess` is a strict weak order on all strings: nothing is less than itself, it is
      transitive, and so is being neither less nor greater. */
  lemma LessIsStrictWeakOrder(a: string, b: string, c: string)
    ensures !Less(a, a) && !(Less(a, b) && Less(b, a))
    ensures Less(a, b) && Less(b, c) ==> Less(a, c)
    ensures !Less(a, b) && !Less(b, c) ==> !Less(a, c)
  {
    VersionsOrder(Parse(a), Parse(b), Parse(c));
    VersionsOrder(Parse(c), Parse(b), Parse(a));
    VersionsOrder(Parse(a), Parse(a), Parse(a));
    VersionsOrder(Parse(b), Parse(a), Parse(c));
    VersionsOrder(Parse(b), Parse(c), Parse(a));
    VersionsOrder(Parse(c), Parse(a), Parse(b));
  }

  // ---- Suffixes and revisions of one version ----

  predicate Plain(t: string) { '_' !in t && '-' !in t }

  lemma {:induction false} SplitAppends(x: string, t: string)
    requires '_' !in t
    ensures Split(x + "_" + t, '_') == Split(x, '_') + [t]
  {
    if x == "" {
      assert x + "_" + t == "_" + t;
      assert ("_" + t)[1..] == t;
      SplitWhole(t);
    } else {
      SplitAppends(x[1..], t);
      assert (x + "_" + t)[1..] == x[1..] + "_" + t;
    }
  }

  lemma {:induction false} SplitWhole(t: string)
    requires '_' !in t
    ensures Split(t, '_') == [t]
  {
    if t != "" { SplitWhole(t[1..]); assert [t[0]] + t[1..] == t; }
  }

  lemma SuffixedHasNoRevision(x: string, t: string)
    requires Plain(t)
    ensures !HasRevision(x + "_" + t)
  {
    var v := x + "_" + t;
    var i := LastDashR(v);
    assert v[|x|] == '_' && forall k | |x| < k < |v| :: v[k] == t[k - |x| - 1];
    if i >= 0 {
      assert i + 2 <= |x|;
      assert v[i + 2..][|x| - i - 2] == '_';
    }
  }

  lemma ParseSuffixesAppend(ts: seq<string>, t: string)
    ensures ParseSuffixes(ts + [t]) == ParseSuffixes(ts) + [ParseSuffix(t)]
  {
  }

  /** The version that everything up to a further suffix makes: what ended in a revision has none any
      more, the revision is part of the last field or suffix. */
  function Extended(x: string): Version {
    var parts := Split(x, '_');
    Version(Fields(parts[0], ""), ParseSuffixes(parts[1..]), "")
  }

  /** A further suffix is one more at the end of the list. */
  lemma ParseSuffixed(x: string, t: string)
    requires Plain(t)
    ensures Parse(x + "_" + t) == Extended(x).(suffixes := Extended(x).suffixes + [ParseSuffix(t)])
    ensures GoodVersion(Extended(x)) && (!HasRevision(x) ==> Extended(x) == Parse(x))
  {
    SuffixedHasNoRevision(x, t);
    SplitAppends(x, t);
    var parts := Split(x, '_');
    assert (parts + [t])[1..] == parts[1..] + [t];
    ParseSuffixesAppend(parts[1..], t);
  }

  lemma {:induction false} LastSuffixDecides(ss: seq<Suffix>, s: Suffix, t: Suffix, i: nat)
    requires i <= |ss| && GoodSuffix(s) && GoodSuffix(t) && forall k | 0 <= k < |ss| :: GoodSuffix(ss[k])
    ensures CompareSuffixes(ss + [s], ss + [t], i) == CompareSuffix(s, t)
    ensures CompareSuffixes(ss + [s], ss, i) == CompareSuffix(s, NO_SUFFIX)
    decreases |ss| - i
  {
    SuffixOrders(SuffixAt(ss, i), NO_SUFFIX, NO_SUFFIX);
    if i < |ss| {
      assert (ss + [s])[i] == ss[i] && (ss + [t])[i] == ss[i];
      LastSuffixDecides(ss, s, t, i + 1);
    } else {
      assert CompareSuffixes(ss + [s], ss + [t], i + 1) == 0 && CompareSuffixes(ss + [s], ss, i + 1) == 0;
    }
  }

  lemma SameBase(v: Version)
    ensures Lex(v.base, v.base, CompareToken) == 0 && CmpNum(v.revision, v.revision) == 0
  {
    TokensAreLawful();
    LexOrders(v.base, v.base, [], CompareToken);
    SameBytes(TrimZeros(v.revision));
  }

  lemma {:induction false} SameBytes(s: string)
    ensures CompareBytes(s, s) == 0
  {
    if s != "" { SameBytes(s[1..]); }
  }

  lemma SuffixSign(s: string)
    ensures CompareSuffix(ParseSuffix(s), NO_SUFFIX) < 0 <==> ParseSuffix(s).rank < 0
    ensures CompareSuffix(ParseSuffix(s), NO_SUFFIX) > 0 <==> ParseSuffix(s).rank > 0
  {
  }

  lemma Mirrored(v: Version, w: Version)
    requires GoodVersion(v) && GoodVersion(w)
    ensures CompareVersion(v, w) < 0 <==> CompareVersion(w, v) > 0
  {
    VersionsOrder(v, w, v);
  }

  lemma SuffixBeside(x: string, s: string, t: string)
    requires Plain(s) && Plain(t)
    ensures CompareVersion(Parse(x + "_" + s), Parse(x + "_" + t)) == CompareSuffix(ParseSuffix(s), ParseSuffix(t))
    ensures CompareVersion(Parse(x + "_" + s), Extended(x)) == CompareSuffix(ParseSuffix(s), NO_SUFFIX)
  {
    var v := Extended(x);
    ParseSuffixed(x, s);
    ParseSuffixed(x, t);
    SameBase(v);
    LastSuffixDecides(v.suffixes, ParseSuffix(s), ParseSuffix(t), 0);
  }

  lemma NotNamed(token: string, other: string, i: nat)
    requires i < |other| && (i < |token| ==> token[i] != other[i])
    ensures !Named(token, other)
  {
  }

  lemma IsNamed(name: string, n: string)
    requires Decimal(n)
    ensures Named(name + n, name) && (name + n)[|name|..] == n
    ensures Plain(name) ==> Plain(name + n)
  {
    var token := name + n;
    assert token[|name|..] == n;
    assert forall i | |name| <= i < |token| :: token[i] == n[i - |name|];
  }

  lemma NamedSuffixes(n: string)
    requires Decimal(n)
    ensures ParseSuffix("alpha" + n) == Suffix(-4, n, "") && ParseSuffix("beta" + n) == Suffix(-3, n, "")
    ensures ParseSuffix("pre" + n) == Suffix(-2, n, "") && ParseSuffix("rc" + n) == Suffix(-1, n, "")
    ensures ParseSuffix("p" + n) == Suffix(1, n, "")
    ensures Plain("alpha" + n) && Plain("beta" + n) && Plain("pre" + n) && Plain("rc" + n) && Plain("p" + n)
  {
    IsNamed("alpha", n);
    IsNamed("beta", n);
    NotNamed("beta" + n, "alpha", 0);
    IsNamed("pre", n);
    NotNamed("pre" + n, "alpha", 0);
    NotNamed("pre" + n, "beta", 0);
    IsNamed("rc", n);
    NotNamed("rc" + n, "alpha", 0);
    NotNamed("rc" + n, "beta", 0);
    NotNamed("rc" + n, "pre", 0);
    PatchSuffix(n);
  }

  lemma PatchSuffix(n: string)
    requires Decimal(n)
    ensures ParseSuffix("p" + n) == Suffix(1, n, "") && Plain("p" + n)
  {
    var token := "p" + n;
    IsNamed("p", n);
    assert 1 < |token| ==> token[1] == n[0];
    NotNamed(token, "alpha", 0);
    NotNamed(token, "beta", 0);
    NotNamed(token, "pre", 1);
    NotNamed(token, "rc", 0);
  }

  // ---- Revisions ----

  lemma RevisionParses(y: string, m: string)
    requires m != "" && Decimal(m)
    ensures HasRevision(y + "-r" + m) && Stem(y + "-r" + m) == y
    ensures !HasRevision(y) ==> Parse(y + "-r" + m) == Parse(y).(revision := m)
  {
    var v := y + "-r" + m;
    assert v[|y|] == '-' && v[|y| + 1] == 'r' && v[|y| + 2..] == m;
    assert forall k | |y| + 2 <= k < |v| :: v[k] == m[k - |y| - 2];
    assert LastDashR(v) == |y|;
    assert v[..|y|] == y;
  }

  lemma {:induction false} LastSuffixDecidesNothing(ss: seq<Suffix>, i: nat)
    requires i <= |ss| && forall k | 0 <= k < |ss| :: GoodSuffix(ss[k])
    ensures CompareSuffixes(ss, ss, i) == 0
    decreases |ss| - i
  {
    if i < |ss| {
      SuffixOrders(ss[i], ss[i], ss[i]);
      LastSuffixDecidesNothing(ss, i + 1);
    }
  }

  // ---- A suffix after a revision ----

  lemma {:induction false} FieldsAppend(s: string, part: string, t: string)
    requires t != "" && forall i | 0 <= i < |t| :: t[i] !in {'.', '-'}
    ensures Fields(s + "-" + t, part) == Fields(s, part) + [t]
    decreases |s|
  {
    if s == "" {
      assert s + "-" + t == "-" + t && ("-" + t)[1..] == t;
      FieldsWhole(t, "");
      assert "" + t == t;
    } else {
      assert (s + "-" + t)[1..] == s[1..] + "-" + t;
      FieldsAppend(s[1..], if s[0] in {'.', '-'} then "" else part + [s[0]], t);
    }
  }

  lemma {:induction false} FieldsWhole(t: string, part: string)
    requires part + t != "" && forall i | 0 <= i < |t| :: t[i] !in {'.', '-'}
    ensures Fields(t, part) == [part + t]
  {
    if t == "" {
      assert part + t == part;
    } else {
      assert part + t == (part + [t[0]]) + t[1..];
      FieldsWhole(t[1..], part + [t[0]]);
    }
  }

  lemma {:induction false} PiecesAppend(s: string, t: string)
    requires t != "" && !IsDigit(t[0])
    ensures Pieces(s + t) == Pieces(s) + Pieces(t)
    decreases |s|
  {
    if s == "" {
      assert s + t == t;
    } else if IsDigit(s[0]) {
      var n := Run(s);
      assert (s + t)[..n] == s[..n] && (s + t)[n..] == s[n..] + t;
      RunIs(s + t, n);
      PiecesAppend(s[n..], t);
    } else {
      assert (s + t)[1..] == s[1..] + t;
      PiecesAppend(s[1..], t);
    }
  }

  lemma LongerTokenIsGreater(s: string, t: string)
    requires t != "" && !IsDigit(t[0])
    ensures CompareToken(s, s + t) < 0
  {
    PiecesAppend(s, t);
    LexSkips(Pieces(s), [], Pieces(t), ComparePiece);
    assert Pieces(s) + [] == Pieces(s);
  }

  lemma SplitCons(c: char, y: string, sep: char)
    ensures var rest := Split(y, sep); Split([c] + y, sep) == if c == sep then [""] + rest else [[c] + rest[0]] + rest[1..]
  {
    assert ([c] + y)[1..] == y;
  }

  /** Adding to the last part, seen from the first. */
  lemma LastPartGrows(c: char, rest: seq<string>, t: string)
    requires rest != []
    ensures var grown := rest[..|rest| - 1] + [rest[|rest| - 1] + t];
      var (cut, joined) := ([""] + rest, [[c] + rest[0]] + rest[1..]);
      && cut[..|rest|] + [cut[|rest|] + t] == [""] + grown
      && joined[..|rest| - 1] + [joined[|rest| - 1] + t] == [[c] + grown[0]] + grown[1..]
  {
    if |rest| == 1 { assert [c] + (rest[0] + t) == [c] + rest[0] + t; }
  }

  lemma {:induction false} SplitExtends(y: string, t: string)
    requires '_' !in t
    ensures var parts := Split(y, '_'); Split(y + t, '_') == parts[..|parts| - 1] + [parts[|parts| - 1] + t]
  {
    if y == "" {
      assert y + t == t;
      SplitWhole(t);
    } else {
      assert y + t == [y[0]] + (y[1..] + t) && y == [y[0]] + y[1..];
      SplitCons(y[0], y[1..] + t, '_');
      SplitCons(y[0], y[1..], '_');
      SplitExtends(y[1..], t);
      LastPartGrows(y[0], Split(y[1..], '_'), t);
    }
  }

  lemma {:induction false} FirstDifferenceDecides(ss: seq<Suffix>, s: Suffix, more: seq<Suffix>, i: nat)
    requires i < |ss| && GoodSuffix(s) && forall k | 0 <= k < |ss| :: GoodSuffix(ss[k])
    requires CompareSuffix(s, ss[|ss| - 1]) > 0
    ensures CompareSuffixes(ss[..|ss| - 1] + [s] + more, ss, i) > 0
    decreases |ss| - i
  {
    var ts := ss[..|ss| - 1] + [s] + more;
    if i < |ss| - 1 {
      assert ts[i] == ss[i];
      SuffixOrders(ss[i], ss[i], ss[i]);
      FirstDifferenceDecides(ss, s, more, i + 1);
    } else {
      assert ts[i] == s;
    }
  }

  /** After a revision a suffix no longer makes an earlier version: what was the revision is read as
      one more part of the version, and the whole sorts later. */
  lemma SuffixAfterRevision(x: string, t: string)
    requires HasRevision(x) && Plain(t)
    ensures Less(x, x + "_" + t)
  {
    var (y, m) := CutRevision(x);
    SplitExtends(y, "-r" + m);
    SuffixedHasNoRevision(x, t);
    SplitAppends(x, t);
    RevisionJoins(y, m, x + "_" + t, [t]);
    Mirrored(Parse(x), Parse(x + "_" + t));
  }

  /** So does a second revision. */
  lemma RevisionAfterRevision(x: string, n: string)
    requires HasRevision(x) && n != "" && Decimal(n)
    ensures Less(x, x + "-r" + n)
  {
    var (y, m) := CutRevision(x);
    SplitExtends(y, "-r" + m);
    RevisionParses(x, n);
    RevisionJoins(y, m, x + "-r" + n, []);
    Mirrored(Parse(x), Parse(x + "-r" + n));
  }

  /** A version that ends in a revision, taken apart. */
  function CutRevision(x: string): (cut: (string, string))
    requires HasRevision(x)
    ensures x == cut.0 + "-r" + cut.1 && x == cut.0 + ("-r" + cut.1) && Stem(x) == cut.0
    ensures cut.1 != "" && Decimal(cut.1)
  {
    (x[..LastDashR(x)], x[LastDashR(x) + 2..])
  }

  /** What ends in a revision sorts before anything that goes on after that revision. */
  lemma RevisionJoins(y: string, m: string, z: string, more: seq<string>)
    requires m != "" && Decimal(m) && Joined(y, m, z, more)
    requires HasRevision(y + "-r" + m) && Stem(y + "-r" + m) == y
    ensures CompareVersion(Parse(z), Parse(y + "-r" + m)) > 0
  {
    if |Split(y, '_')| == 1 { RevisionJoinsBase(y, m, z, more); } else { RevisionJoinsSuffix(y, m, z, more); }
  }

  /** The parts of `z` are those of `y`, the revision joined to the last, and then some more. */
  predicate Joined(y: string, m: string, z: string, more: seq<string>) {
    var parts := Split(y, '_');
    Split(Stem(z), '_') == parts[..|parts| - 1] + [parts[|parts| - 1] + ("-r" + m)] + more
  }

  lemma RevisionJoinsBase(y: string, m: string, z: string, more: seq<string>)
    requires m != "" && Decimal(m) && Joined(y, m, z, more) && |Split(y, '_')| == 1
    requires HasRevision(y + "-r" + m) && Stem(y + "-r" + m) == y
    ensures CompareVersion(Parse(z), Parse(y + "-r" + m)) > 0
  {
    var last := Split(y, '_')[0];
    BaseIsFirstPart(y + "-r" + m, last, []);
    BaseIsFirstPart(z, last + ("-r" + m), more);
    RevisionIsField(last, m);
    LongerBaseIsLater(Parse(y + "-r" + m), Parse(z), "r" + m);
  }

  lemma BaseIsFirstPart(x: string, first: string, more: seq<string>)
    requires Split(Stem(x), '_') == [first] + more
    ensures Parse(x).base == Fields(first, "")
  {
  }

  lemma RevisionIsField(last: string, m: string)
    requires Decimal(m)
    ensures Fields(last + ("-r" + m), "") == Fields(last, "") + ["r" + m]
  {
    assert last + ("-r" + m) == last + "-" + ("r" + m);
    FieldsAppend(last, "", "r" + m);
  }

  lemma LongerBaseIsLater(v: Version, w: Version, field: string)
    requires w.base == v.base + [field]
    ensures CompareVersion(w, v) > 0
  {
    ReflexiveTokens();
    LexSkips(v.base, [field], [], CompareToken);
    assert v.base + [] == v.base;
  }

  lemma RevisionJoinsSuffix(y: string, m: string, z: string, more: seq<string>)
    requires m != "" && Decimal(m) && Joined(y, m, z, more) && |Split(y, '_')| > 1
    requires HasRevision(y + "-r" + m) && Stem(y + "-r" + m) == y
    ensures CompareVersion(Parse(z), Parse(y + "-r" + m)) > 0
  {
    var parts := Split(y, '_');
    var last := parts[|parts| - 1];
    var v, w, middle := Parse(y + "-r" + m), Parse(z), ParseSuffixes(parts[1..|parts| - 1]);
    JoinedSuffixes(y, m, z, more);
    RevisedSuffixIsLater(last, m);
    GreaterSuffixIsLater(v, w, middle, ParseSuffix(last), ParseSuffix(last + ("-r" + m)), ParseSuffixes(more));
  }

  lemma JoinedSuffixes(y: string, m: string, z: string, more: seq<string>)
    requires Joined(y, m, z, more) && |Split(y, '_')| > 1 && Stem(y + "-r" + m) == y
    ensures var (v, w, parts) := (Parse(y + "-r" + m), Parse(z), Split(y, '_'));
      var (middle, last) := (ParseSuffixes(parts[1..|parts| - 1]), parts[|parts| - 1]);
      && w.base == v.base && v.suffixes == middle + [ParseSuffix(last)] + []
      && w.suffixes == middle + [ParseSuffix(last + ("-r" + m))] + ParseSuffixes(more)
  {
    var parts := Split(y, '_');
    var last := parts[|parts| - 1];
    SuffixesAreParsed(y + "-r" + m, parts, last, []);
    SuffixesAreParsed(z, parts, last + ("-r" + m), more);
  }

  lemma SuffixesAreParsed(x: string, parts: seq<string>, last: string, more: seq<string>)
    requires |parts| > 1 && Split(Stem(x), '_') == parts[..|parts| - 1] + [last] + more
    ensures Parse(x).base == Fields(parts[0], "")
    ensures Parse(x).suffixes == ParseSuffixes(parts[1..|parts| - 1]) + [ParseSuffix(last)] + ParseSuffixes(more)
  {
    var middle := parts[1..|parts| - 1];
    assert (parts[..|parts| - 1] + [last] + more)[1..] == middle + [last] + more;
    ParseSuffixesSplit(middle + [last], more);
    ParseSuffixesSplit(middle, [last]);
  }

  lemma GreaterSuffixIsLater(v: Version, w: Version, ss: seq<Suffix>, s: Suffix, t: Suffix, more: seq<Suffix>)
    requires w.base == v.base && v.suffixes == ss + [s] + [] && w.suffixes == ss + [t] + more
    requires GoodVersion(v) && GoodSuffix(t) && CompareSuffix(t, s) > 0
    ensures CompareVersion(w, v) > 0
  {
    SameBase(v);
    assert v.suffixes[..|ss|] == ss && v.suffixes[|ss|] == s;
    FirstDifferenceDecides(v.suffixes, t, more, 0);
  }

  lemma ReflexiveTokens()
    ensures forall x :: CompareToken(x, x) == 0
  {
    TokensAreLawful();
    forall x ensures CompareToken(x, x) == 0 { LawfulIsWeakOrder(CompareToken, x, x, x); }
  }

  lemma ParseSuffixesSplit(ts: seq<string>, us: seq<string>)
    ensures ParseSuffixes(ts + us) == ParseSuffixes(ts) + ParseSuffixes(us)
  {
  }

  lemma RevisedSuffixIsLater(q: string, m: string)
    ensures var s := ParseSuffix(q + ("-r" + m));
      s == Suffix(2, "", q + ("-r" + m)) && CompareSuffix(s, ParseSuffix(q)) > 0
  {
    var token := q + ("-r" + m);
    assert token[|q|] == '-';
    LongerTokenIsGreater(q, "-r" + m);
    TokensAreLawful();
    forall name | name in {"alpha", "beta", "pre", "rc", "p"} ensures !Named(token, name) {
      if name <= token && |name| <= |q| { assert token[|name|..][|q| - |name|] == '-'; }
    }
  }

  // ---- What a suffix or a revision does to any version ----

  /** Of one version with one more suffix each, the suffixes decide. Against the version itself the
      suffix's sign does, unless that ends in a revision: then it comes first. */
  lemma SuffixDecides(x: string, s: string, t: string)
    requires Plain(s) && Plain(t)
    ensures Less(x + "_" + s, x + "_" + t) <==> CompareSuffix(ParseSuffix(s), ParseSuffix(t)) < 0
    ensures Less(x + "_" + s, x) <==> !HasRevision(x) && ParseSuffix(s).rank < 0
    ensures Less(x, x + "_" + s) <==> HasRevision(x) || ParseSuffix(s).rank > 0
  {
    SuffixBeside(x, s, t);
    SuffixSign(s);
    if HasRevision(x) { SuffixAfterRevision(x, s); } else { ParseSuffixed(x, s); }
    Mirrored(Parse(x), Parse(x + "_" + s));
  }

  /** alpha < beta < pre < rc < p for any version, whatever their numbers, and within one of them the
      numbers decide; the version itself comes before p, and after rc unless it ends in a revision. */
  lemma PreReleasesComeFirst(x: string, m: string, n: string)
    requires Decimal(m) && Decimal(n)
    ensures Less(x + "_" + ("alpha" + m), x + "_" + ("beta" + n)) && Less(x + "_" + ("beta" + m), x + "_" + ("pre" + n))
    ensures Less(x + "_" + ("pre" + m), x + "_" + ("rc" + n)) && Less(x + "_" + ("rc" + m), x + "_" + ("p" + n))
    ensures Less(x, x + "_" + ("p" + n)) && (Less(x + "_" + ("rc" + m), x) <==> !HasRevision(x))
    ensures Less(x + "_" + ("rc" + m), x + "_" + ("rc" + n)) <==> NumberOf(m) < NumberOf(n)
  {
    NamedSuffixes(m);
    NamedSuffixes(n);
    CmpNumIsNumeric(m, n);
    SuffixDecides(x, "alpha" + m, "beta" + n);
    SuffixDecides(x, "beta" + m, "pre" + n);
    SuffixDecides(x, "pre" + m, "rc" + n);
    SuffixDecides(x, "rc" + m, "rc" + n);
    SuffixDecides(x, "rc" + m, "p" + n);
    SuffixDecides(x, "p" + n, "p" + n);
  }

  /** None of the five names, with or without a number. */
  ghost predicate Unknown(t: string) {
    forall n | Decimal(n) :: t != "alpha" + n && t != "beta" + n && t != "pre" + n && t != "rc" + n && t != "p" + n
  }

  lemma NamedIsWritten(t: string, name: string)
    ensures Named(t, name) ==> exists n :: Decimal(n) && t == name + n
  {
    if Named(t, name) { assert t == name + t[|name|..]; }
  }

  lemma UnknownIsRaw(t: string)
    requires Unknown(t)
    ensures ParseSuffix(t) == Suffix(2, "", t)
  {
    NamedIsWritten(t, "alpha");
    NamedIsWritten(t, "beta");
    NamedIsWritten(t, "pre");
    NamedIsWritten(t, "rc");
    NamedIsWritten(t, "p");
  }

  /** Any other suffix comes after the version and after all of these, and two of them compare as
      tokens do. */
  lemma UnknownSuffixesComeLast(x: string, t: string, u: string, n: string)
    requires Plain(t) && Plain(u) && Unknown(t) && Unknown(u) && Decimal(n)
    ensures Less(x, x + "_" + t) && Less(x + "_" + ("p" + n), x + "_" + t)
    ensures Less(x + "_" + t, x + "_" + u) <==> CompareToken(t, u) < 0
  {
    UnknownIsRaw(t);
    UnknownIsRaw(u);
    NamedSuffixes(n);
    SuffixDecides(x, t, u);
    SuffixDecides(x, "p" + n, t);
    assert CompareToken("", "") == 0;
  }

  /** A pre-release suffix makes a version earlier exactly when the version has no revision. */
  lemma PreReleaseIsEarlierExactlyWhen(x: string, t: string)
    requires Plain(t) && ParseSuffix(t).rank < 0
    ensures Less(x + "_" + t, x) <==> !HasRevision(x)
  {
    SuffixDecides(x, t, t);
  }

  /** So an alpha of a revised version is not earlier than it, but one of the version is. */
  lemma RevisedAlphaIsNotEarlier()
    ensures !Less("1-r1" + "_" + "alpha", "1-r1") && Less("1" + "_" + "alpha", "1")
  {
    NamedSuffixes("");
    assert "alpha" + "" == "alpha";
    RevisionParses("1", "1");
    assert "1" + "-r" + "1" == "1-r1";
    PreReleaseIsEarlierExactlyWhen("1-r1", "alpha");
    PreReleaseIsEarlierExactlyWhen("1", "alpha");
  }

  /** Revisions of any version sort by number; the version itself comes first, unless the number is
      zero and it had no revision already. */
  lemma RevisionDecides(x: string, m: string, n: string)
    requires m != "" && Decimal(m) && n != "" && Decimal(n)
    ensures Less(x + "-r" + m, x + "-r" + n) <==> NumberOf(m) < NumberOf(n)
    ensures Less(x, x + "-r" + m) <==> HasRevision(x) || NumberOf(m) > 0
    ensures !Less(x + "-r" + m, x)
  {
    RevisionsBeside(x, m, n);
    if HasRevision(x) { RevisionAfterRevision(x, m); } else { FirstRevision(x, m); }
    Mirrored(Parse(x + "-r" + m), Parse(x));
  }

  lemma FirstRevision(x: string, m: string)
    requires !HasRevision(x) && m != "" && Decimal(m)
    ensures Less(x, x + "-r" + m) <==> NumberOf(m) > 0
    ensures !Less(x + "-r" + m, x)
  {
    var v := Parse(x);
    RevisionParses(x, m);
    SameBase(v);
    LastSuffixDecidesNothing(v.suffixes, 0);
    CmpNumIsNumeric("", m);
    CmpNumIsNumeric(m, "");
  }

  lemma RevisionsBeside(x: string, m: string, n: string)
    requires m != "" && Decimal(m) && n != "" && Decimal(n)
    ensures Less(x + "-r" + m, x + "-r" + n) <==> NumberOf(m) < NumberOf(n)
  {
    RevisionParses(x, m);
    RevisionParses(x, n);
    var v := Extended(x);
    assert Parse(x + "-r" + m) == v.(revision := m) && Parse(x + "-r" + n) == v.(revision := n) by {
      assert (x + "-r" + m)[|x| + 2..] == m && (x + "-r" + n)[|x| + 2..] == n;
    }
    SameBase(v);
    LastSuffixDecidesNothing(v.suffixes, 0);
    CmpNumIsNumeric(m, n);
  }
}

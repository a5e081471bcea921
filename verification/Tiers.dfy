/** The three classes of version a distribution may report, and what they make of "newest": real
    releases, then dates, then live-source and transitional versions, whatever their numbers. */
module Tiers {
  import opened VersionOrder

  // ---- Live-source versions ----

  /** Live-source versions such as 9999 and 9.9999: nines and dots, and at least one nine. */
  predicate AllNines(v: string) { '9' in v && forall c | c in v :: c == '9' || c == '.' }

  /** `allNines`. */
  method IsAllNines(v: string) returns (nines: bool)
    ensures nines == AllNines(v)
  {
    var nine := false;
    var i := 0;
    while i < |v|
      invariant 0 <= i <= |v| && nine == ('9' in v[..i]) && forall c | c in v[..i] :: c == '9' || c == '.'
    {
      assert v[..i + 1] == v[..i] + [v[i]];
      if v[i] == '9' {
        nine := true;
      } else if v[i] != '.' {
        assert v[i] in v;
        return false;
      }
      i := i + 1;
    }
    assert v[..i] == v;
    return nine;
  }

  // ---- Transition stubs ----

  function Lower(c: char): char { if 'A' <= c <= 'Z' then c + 32 as char else c }
  function Lowered(s: string): string { seq(|s|, i requires 0 <= i < |s| => Lower(s[i])) }

  /** Digits, "snap" in any case, digits. */
  predicate SnapVersion(v: string) { exists i :: 0 <= i <= |v| - 6 && SnapAt(v, i) }

  predicate SnapAt(v: string, i: nat)
    requires i + 6 <= |v|
  {
    IsDigit(v[i]) && Lowered(v[i + 1..i + 5]) == "snap" && IsDigit(v[i + 5])
  }

  /** Wherever it stands in the version, and whatever its case. */
  lemma SnapAnywhere(before: string, d: char, word: string, e: char, after: string)
    requires IsDigit(d) && IsDigit(e) && Lowered(word) == "snap"
    ensures SnapVersion(before + [d] + word + [e] + after)
  {
    var v := before + [d] + word + [e] + after;
    assert |word| == |Lowered(word)| == 4;
    assert v[|before| + 1..|before| + 5] == word && v[|before|] == d && v[|before| + 5] == e;
    assert SnapAt(v, |before|);
  }

  lemma SnapSomewhere(v: string) returns (before: string, d: char, word: string, e: char, after: string)
    requires SnapVersion(v)
    ensures v == before + [d] + word + [e] + after && IsDigit(d) && IsDigit(e) && Lowered(word) == "snap"
  {
    var i :| 0 <= i <= |v| - 6 && SnapAt(v, i);
    before, d, word, e, after := v[..i], v[i], v[i + 1..i + 5], v[i + 5], v[i + 6..];
  }

  /** Lower case by the alphabet. */
  lemma LowerIsByLetter(i: nat)
    requires i < 26
    ensures Lower("ABCDEFGHIJKLMNOPQRSTUVWXYZ"[i]) == "abcdefghijklmnopqrstuvwxyz"[i]
    ensures Lower("abcdefghijklmnopqrstuvwxyz"[i]) == "abcdefghijklmnopqrstuvwxyz"[i]
  {
  }

  lemma LowerElsewhere(c: char)
    requires c < 'A' || c > 'Z'
    ensures Lower(c) == c
  {
  }

  // ---- Dates ----

  /** Eight digits that can be a day. */
  predicate BareDate(v: string) {
    && |v| == 8 && Decimal(v)
    && 1990 <= NumberOf(v[..4]) <= 2100 && 1 <= NumberOf(v[4..6]) <= 12 && 1 <= NumberOf(v[6..]) <= 31
  }

  /** Such a day, or four, two and two digits between equal separators, with anything after them. */
  predicate DateSnapshot(v: string) {
    || BareDate(v)
    || (|v| >= 10 && v[4] in {'-', '.'} && v[7] == v[4] && Decimal(v[..4] + v[5..7] + v[8..10]))
  }

  lemma {:induction false} DecimalValue(s: string)
    requires Decimal(s) && s != ""
    ensures NumberOf(s) == 10 * NumberOf(s[..|s| - 1]) + Digit(s[|s| - 1])
  {
    if |s| > 1 {
      DecimalValue(s[1..]);
      assert s[1..][..|s| - 2] == s[..|s| - 1][1..];
      assert Pow10(|s| - 1) == 10 * Pow10(|s| - 2);
      assert Digit(s[0]) * Pow10(|s| - 1) == 10 * (Digit(s[0]) * Pow10(|s| - 2));
    } else {
      assert s[1..] == "" && Pow10(0) == 1;
    }
  }

  lemma TwoDigits(s: string)
    requires Decimal(s) && |s| == 2
    ensures NumberOf(s) == Digit(s[0]) * 10 + Digit(s[1])
  {
    DecimalValue(s);
    DecimalValue(s[..1]);
  }

  lemma FourDigits(s: string)
    requires Decimal(s) && |s| == 4
    ensures NumberOf(s) == Digit(s[0]) * 1000 + Digit(s[1]) * 100 + Digit(s[2]) * 10 + Digit(s[3])
  {
    DecimalValue(s);
    DecimalValue(s[..3]);
    assert s[..3][..2] == s[..2];
    TwoDigits(s[..2]);
  }

  /** `bareDate`. */
  method IsBareDate(v: string) returns (date: bool)
    ensures date == BareDate(v)
  {
    if |v| != 8 {
      return false;
    }
    var i := 0;
    while i < 8
      invariant 0 <= i <= 8 && forall k | 0 <= k < i :: IsDigit(v[k])
    {
      if v[i] < '0' || v[i] > '9' {
        return false;
      }
      i := i + 1;
    }
    var y := Digit(v[0]) * 1000 + Digit(v[1]) * 100 + Digit(v[2]) * 10 + Digit(v[3]);
    var m := Digit(v[4]) * 10 + Digit(v[5]);
    var d := Digit(v[6]) * 10 + Digit(v[7]);
    FourDigits(v[..4]);
    TwoDigits(v[4..6]);
    TwoDigits(v[6..]);
    return y >= 1990 && y <= 2100 && m >= 1 && m <= 12 && d >= 1 && d <= 31;
  }

  /** `dateSnapshot`. */
  method IsDateSnapshot(v: string) returns (date: bool)
    ensures date == DateSnapshot(v)
  {
    date := IsBareDate(v);
    if date {
      return;
    }
    if |v| < 10 {
      return false;
    }
    var sep := v[4];
    if (sep != '-' && sep != '.') || v[7] != sep {
      return false;
    }
    var digits := v[..4] + v[5..7] + v[8..10];
    assert forall k | 0 <= k < 10 && k != 4 && k != 7 :: v[k] == digits[if k < 4 then k else if k < 7 then k - 1 else k - 2];
    assert forall k | 0 <= k < 8 :: digits[k] == v[if k < 4 then k else if k < 6 then k + 1 else k + 2];
    var i := 0;
    while i < 10
      invariant 0 <= i <= 10 && forall k | 0 <= k < i && k != 4 && k != 7 :: IsDigit(v[k])
    {
      if i != 4 && i != 7 && (v[i] < '0' || v[i] > '9') {
        assert !IsDigit(v[i]);
        return false;
      }
      i := i + 1;
    }
    return true;
  }

  // ---- Tiers ----

  /** `verTier`. */
  function Tier(v: string): int {
    if AllNines(v) || SnapVersion(v) then 2 else if DateSnapshot(v) then 1 else 0
  }

  /** `betterVer`: the better tier wins; within a tier the version order. */
  predicate Better(cur: string, cand: string) {
    if Tier(cur) != Tier(cand) then Tier(cand) < Tier(cur) else Less(cur, cand)
  }

  /** Live-source or transitional. */
  predicate Pseudo(v: string) { AllNines(v) || SnapVersion(v) }
  predicate Dated(v: string) { !Pseudo(v) && DateSnapshot(v) }
  predicate Real(v: string) { !Pseudo(v) && !DateSnapshot(v) }

  /** A version is better when it is real and the other is not, or a date and the other live or
      transitional, or of the same kind and later by the version order; and in no other case. */
  lemma BetterExactlyWhen(cur: string, cand: string)
    ensures Better(cur, cand) <==>
      || (Real(cand) && !Real(cur))
      || (Dated(cand) && Pseudo(cur))
      || (((Real(cur) && Real(cand)) || (Dated(cur) && Dated(cand)) || (Pseudo(cur) && Pseudo(cand))) && Less(cur, cand))
  {
  }

  /** "Better" is a strict weak order as well. */
  lemma BetterIsStrictWeakOrder(a: string, b: string, c: string)
    ensures !Better(a, a) && !(Better(a, b) && Better(b, a))
    ensures Better(a, b) && Better(b, c) ==> Better(a, c)
    ensures !Better(a, b) && !Better(b, c) ==> !Better(a, c)
  {
    LessIsStrictWeakOrder(a, b, c);
  }
}

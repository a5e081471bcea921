/** The callback codec of the settings panel. Strings are sequences of bytes; the 64-bit operations
    of the program are written out over mathematical integers. */
module Callback {
  import opened Options

  const LIMIT := 64
  const TWO_TO_63 := 0x8000_0000_0000_0000
  const TWO_TO_64 := 0x1_0000_0000_0000_0000

  predicate IsInt64(v: int) { -TWO_TO_63 <= v < TWO_TO_63 }
  type Int64 = v: int | IsInt64(v)
  predicate IsUint64(v: int) { 0 <= v < TWO_TO_64 }

  // ---- Hexadecimal ----

  predicate IsHex(c: char) { '0' <= c <= '9' || 'a' <= c <= 'f' }

  function Digit(c: char): (d: nat)
    requires IsHex(c)
    ensures d < 16 && (d == 0 <==> c == '0') && HexChar(d) == c
  {
    if c <= '9' then (c - '0') as int else (c - 'a') as int + 10
  }

  function HexChar(d: nat): (c: char)
    requires d < 16
    ensures IsHex(c) && (c == '0' <==> d == 0)
  {
    if d < 10 then '0' + d as char else 'a' + (d - 10) as char
  }

  lemma DigitUndoesHexChar(d: nat)
    requires d < 16
    ensures Digit(HexChar(d)) == d
  {
  }

  lemma HexDigits(d: nat)
    requires d < 16
    ensures HexChar(d) == "0123456789abcdef"[d] && Digit("0123456789abcdef"[d]) == d
  {
    DigitUndoesHexChar(d);
  }

  predicate AllHex(s: string) { forall i | 0 <= i < |s| :: IsHex(s[i]) }

  /** One to sixteen lower-case digits: 64 bits always hold such a number, see `ParseFits`. */
  predicate HexValue(s: string) { 1 <= |s| <= 16 && AllHex(s) }

  /** `strconv.FormatUint` in base 16. */
  function Format(n: nat): string {
    if n < 16 then [HexChar(n)] else Format(n / 16) + [HexChar(n % 16)]
  }

  /** `strconv.ParseUint` in base 16. */
  function Parse(s: string): nat
    requires AllHex(s)
  {
    if s == [] then 0 else 16 * Parse(s[..|s| - 1]) + Digit(s[|s| - 1])
  }

  function Power(k: nat): nat { if k == 0 then 1 else 16 * Power(k - 1) }

  lemma SixteenDigits()
    ensures Power(16) == TWO_TO_64
  {
    assert Power(4) == 0x1_0000;
    assert Power(8) == 0x1_0000_0000;
    assert Power(12) == 0x1_0000_0000_0000;
  }

  lemma {:induction false} ParseFits(s: string)
    requires AllHex(s)
    ensures Parse(s) < Power(|s|)
  {
    if s != [] { ParseFits(s[..|s| - 1]); }
  }

  lemma {:induction false} FormatIsShort(n: nat, k: nat)
    requires k >= 1 && n < Power(k)
    ensures 1 <= |Format(n)| <= k
  {
    if n >= 16 {
      assert Power(1) == 16 * Power(0);
      FormatIsShort(n / 16, k - 1);
    } else {
      assert |Format(n)| == 1;
    }
  }

  lemma {:induction false} ParseUndoesFormat(n: nat)
    ensures AllHex(Format(n)) && Format(n) != [] && Parse(Format(n)) == n
    ensures Format(n)[0] == '0' <==> n == 0
  {
    DigitUndoesHexChar(n % 16);
    if n >= 16 {
      ParseUndoesFormat(n / 16);
      assert Format(n)[..|Format(n)| - 1] == Format(n / 16);
    } else {
      assert Format(n)[..0] == [];
    }
  }

  predicate NoLeadingZero(s: string) { |s| == 1 || (s != [] && s[0] != '0') }

  lemma FormatOneMore(high: nat, low: nat)
    requires low < 16
    ensures Format(16 * high + low) == (if high == 0 then [HexChar(low)] else Format(high) + [HexChar(low)])
  {
    assert (16 * high + low) / 16 == high && (16 * high + low) % 16 == low;
  }

  lemma LeadingZeros(front: string, last: char, zero: bool, formatted: string)
    requires front != [] && formatted != [] && (formatted[0] == '0' <==> zero)
    requires formatted == front <==> NoLeadingZero(front)
    ensures (if zero then [last] else formatted + [last]) == front + [last] <==> NoLeadingZero(front + [last])
  {
    assert (formatted + [last])[..|formatted|] == formatted && (front + [last])[..|front|] == front;
    assert (front + [last])[0] == front[0];
  }

  /** Formatting what was parsed gives the digits back exactly when they had no leading zero. */
  lemma {:induction false} FormatUndoesParse(s: string)
    requires AllHex(s) && s != []
    ensures Format(Parse(s)) == s <==> NoLeadingZero(s)
  {
    var front, last := s[..|s| - 1], s[|s| - 1];
    var high, low := Parse(front), Digit(last);
    assert s == front + [last];
    FormatOneMore(high, low);
    if front != [] {
      FormatUndoesParse(front);
      ParseUndoesFormat(high);
      LeadingZeros(front, last, high == 0, Format(high));
    }
  }

  // ---- Signed numbers ----

  /** `value >> 63`, then the reinterpretation as 64 unsigned bits: all zeros or all ones. */
  function SignBits(v: int): int { if v < 0 then TWO_TO_64 - 1 else 0 }

  function AsUint64(v: int): int { if v < 0 then v + TWO_TO_64 else v }

  /** Exclusive or with all zeros or all ones: unchanged, or every bit turned over. */
  function FlipUnsigned(u: int, mask: int): int { if mask == 0 then u else TWO_TO_64 - 1 - u }
  function FlipSigned(v: int, mask: int): int { if mask == 0 then v else -1 - v }

  /** The zig-zag step of `encodeSigned`. */
  function ZigZag(v: int): int { FlipUnsigned(2 * AsUint64(v) % TWO_TO_64, SignBits(v)) }

  /** The last step of `decodeSigned`. */
  function UnZigZag(z: int): int { FlipSigned(z / 2, -(z % 2)) }

  lemma ZigZagIsABijection(v: int)
    ensures IsInt64(v) ==> IsUint64(ZigZag(v)) && UnZigZag(ZigZag(v)) == v
    ensures IsUint64(v) ==> IsInt64(UnZigZag(v)) && ZigZag(UnZigZag(v)) == v
  {
  }

  /** Non-negative numbers become the even ones, negative numbers the odd ones. */
  lemma ZigZagIs(v: int)
    requires IsInt64(v)
    ensures ZigZag(v) == if v >= 0 then 2 * v else -2 * v - 1
  {
  }

  function EncodeSigned(v: int): string
    requires IsInt64(v)
  {
    ZigZagIsABijection(v);
    Format(ZigZag(v))
  }

  function DecodeSigned(s: string): Option<int> {
    if HexValue(s) then Some(UnZigZag(Parse(s))) else None
  }

  lemma SignedRoundTrip(v: int)
    requires IsInt64(v)
    ensures HexValue(EncodeSigned(v)) && DecodeSigned(EncodeSigned(v)) == Some(v)
  {
    ZigZagIsABijection(v);
    SixteenDigits();
    FormatIsShort(ZigZag(v), 16);
    ParseUndoesFormat(ZigZag(v));
  }

  lemma DecodedIsInt64(s: string)
    requires HexValue(s)
    ensures IsInt64(DecodeSigned(s).value)
    ensures EncodeSigned(DecodeSigned(s).value) == s <==> NoLeadingZero(s)
  {
    ParseFits(s);
    SixteenDigits();
    PowerGrows(|s|, 16);
    ZigZagIsABijection(Parse(s));
    FormatUndoesParse(s);
  }

  lemma {:induction false} PowerGrows(i: nat, j: nat)
    requires i <= j
    ensures 1 <= Power(i) <= Power(j)
  {
    if i > 0 { PowerGrows(i - 1, j - 1); } else if j > 0 { PowerGrows(0, j - 1); }
  }

  // ---- Fields ----

  predicate Plain(s: string) { forall i | 0 <= i < |s| :: s[i] != ':' }

  function Join(parts: seq<string>): string
    requires parts != []
  {
    if |parts| == 1 then parts[0] else parts[0] + [':'] + Join(parts[1..])
  }

  /** `strings.Split` at the colons. */
  function Split(s: string): (parts: seq<string>)
    ensures parts != []
  {
    if s == [] then [[]]
    else
      var rest := Split(s[1..]);
      if s[0] == ':' then [[]] + rest else [[s[0]] + rest[0]] + rest[1..]
  }

  lemma {:induction false} SplitFirst(part: string, rest: string)
    requires Plain(part)
    ensures Split(part) == [part] && Split(part + [':'] + rest) == [part] + Split(rest)
  {
    if part == [] {
      assert part + [':'] + rest == [':'] + rest && ([':'] + rest)[1..] == rest;
    } else {
      var whole := part + [':'] + rest;
      assert whole[1..] == part[1..] + [':'] + rest;
      SplitFirst(part[1..], rest);
      assert part == [part[0]] + part[1..];
    }
  }

  lemma {:induction false} SplitUndoesJoin(parts: seq<string>)
    requires parts != [] && forall i | 0 <= i < |parts| :: Plain(parts[i])
    ensures Split(Join(parts)) == parts
  {
    SplitFirst(parts[0], if |parts| == 1 then [] else Join(parts[1..]));
    if |parts| > 1 { SplitUndoesJoin(parts[1..]); }
  }

  lemma {:induction false} JoinUndoesSplit(s: string)
    ensures Join(Split(s)) == s
    ensures forall i | 0 <= i < |Split(s)| :: Plain(Split(s)[i])
  {
    if s != [] {
      JoinUndoesSplit(s[1..]);
      var rest := Split(s[1..]);
      assert s == [s[0]] + s[1..];
      if s[0] == ':' {
        assert Split(s)[1..] == rest;
        assert Join(Split(s)) == [] + [':'] + Join(rest);
      } else {
        assert Split(s)[1..] == rest[1..];
        assert |rest| > 1 ==> Join(Split(s)) == [s[0]] + rest[0] + [':'] + Join(rest[1..]);
        assert Plain(rest[0]);
      }
    }
  }

  // ---- Transitions ----

  /** What a button may carry: nothing (written `_`), one of a few words, a list index, a page. */
  datatype Rule = Blank | OneOf(words: seq<string>) | Index | Page

  predicate Accepts(rule: Rule, value: string) {
    match rule
    case Blank => value == "_"
    case OneOf(words) => value in words
    case Index => HexValue(value)
    case Page => HexValue(value) && Parse(value) <= 0x7FFF_FFFF
  }

  /** A field is two bytes, a word one or two, and neither holds a colon. */
  predicate Tidy(field: string, rule: Option<Rule>) { rule.Some? ==> |field| == 2 && Plain(field) && TidyRule(rule.value) }

  predicate TidyRule(rule: Rule) {
    rule.OneOf? ==> forall i | 0 <= i < |rule.words| :: 1 <= |rule.words[i]| <= 2 && Plain(rule.words[i])
  }

  predicate Named(screen: string) { |screen| == 2 && Plain(screen) && Known(screen) }

  const SCREENS := ["gl", "gh", "rt", "ls", "li", "vp", "md", "ct", "qb", "qd", "fb", "fd", "ch", "cf", "in"]

  predicate Known(screen: string) { screen in SCREENS }

  /** Wherever a button goes is a screen again. */
  predicate LeadsToScreens(rule: Option<Rule>) {
    rule.Some? ==> rule.value.OneOf? && forall i | 0 <= i < |rule.value.words| :: Known(rule.value.words[i])
  }

  function One(field: string, name: string, rule: Rule): Option<Rule> { if field == name then Some(rule) else None }
  function Any(field: string, names: seq<string>, rule: Rule): Option<Rule> { if field in names then Some(rule) else None }
  function Or(rule: Option<Rule>, other: Option<Rule>): Option<Rule> { if rule.Some? then rule else other }
  function Go(field: string, screens: seq<string>): Option<Rule> { One(field, "go", OneOf(screens)) }

  /** The group list and a group's home. */
  function Homes(screen: string, field: string): (rule: Option<Rule>)
    ensures Tidy(field, rule) && (rule.Some? ==> Named(screen)) && (field == "go" ==> LeadsToScreens(rule))
  {
    if screen == "gl" then Or(Go(field, ["gh"]), Or(One(field, "pg", Page), Any(field, ["rf", "cl"], Blank)))
    else if screen == "gh" then Or(Go(field, ["gl", "rt", "ls", "md", "vp", "ct"]), Any(field, ["rf", "cl"], Blank))
    else None
  }

  /** A group's runtime settings. */
  function Runtime(screen: string, field: string): (rule: Option<Rule>)
    ensures Tidy(field, rule) && (rule.Some? ==> Named(screen)) && (field == "go" ==> LeadsToScreens(rule))
  {
    if screen == "rt" then
      Or(Or(One(field, "df", OneOf(["g", "d", "b"])), One(field, "vm", OneOf(["k", "q", "m"]))),
         Or(Or(One(field, "lg", OneOf(["z", "h", "e"])), Any(field, ["en", "ns", "bd", "ld", "lt"], Blank)), Go(field, ["gh"])))
    else None
  }

  /** The lists, verification parameters and moderation. */
  function Lists(screen: string, field: string): (rule: Option<Rule>)
    ensures Tidy(field, rule) && (rule.Some? ==> Named(screen)) && (field == "go" ==> LeadsToScreens(rule))
  {
    if screen == "ls" then Or(Any(field, ["cw", "tg", "kc"], Blank), Go(field, ["gh"]))
    else if screen == "vp" then Or(Any(field, ["to", "mf", "rc", "vi", "pr"], Blank), Go(field, ["gh"]))
    else if screen == "md" then Or(Any(field, ["as", "ms", "wl", "rx", "al", "ac"], Blank), Go(field, ["gh"]))
    else None
  }

  /** One list. */
  function AList(screen: string, field: string): (rule: Option<Rule>)
    ensures Tidy(field, rule) && (rule.Some? ==> Named(screen)) && (field == "go" ==> LeadsToScreens(rule))
  {
    if screen == "li" then
      Or(Or(One(field, "ca", OneOf(["cw", "tg", "kc"])), Any(field, ["cw", "tg", "kc"], Index)), Or(One(field, "pg", Page), Go(field, ["ls"])))
    else None
  }

  /** Challenge content. */
  function Contents(screen: string, field: string): (rule: Option<Rule>)
    ensures Tidy(field, rule) && (rule.Some? ==> Named(screen)) && (field == "go" ==> LeadsToScreens(rule))
  {
    if screen == "ct" then Go(field, ["gh", "qb", "fb", "ch"])
    else if screen == "qb" then Or(Or(One(field, "qq", Index), One(field, "ca", Blank)), Or(One(field, "pg", Page), Go(field, ["ct"])))
    else if screen == "qd" then Or(Any(field, ["ok", "dl"], Index), Any(field, ["qq", "qo", "sv", "rm", "cn"], Blank))
    else if screen == "fb" then Or(Or(One(field, "fq", Index), Any(field, ["ca", "rb"], Blank)), Or(One(field, "pg", Page), Go(field, ["ct"])))
    else if screen == "fd" then Or(One(field, "dl", Index), Any(field, ["fq", "fa", "sv", "rm", "cn"], Blank))
    else None
  }

  /** The channel, confirmations and text input. */
  function Prompts(screen: string, field: string): (rule: Option<Rule>)
    ensures Tidy(field, rule) && (rule.Some? ==> Named(screen)) && (field == "go" ==> LeadsToScreens(rule))
  {
    if screen == "ch" then Or(Any(field, ["ci", "iu", "dl", "ds"], Blank), Go(field, ["ct"]))
    else if screen == "cf" then Any(field, ["ok", "cn"], Blank)
    else if screen == "in" then One(field, "cn", Blank)
    else None
  }

  /** `callbackTransitions`. */
  function Transition(screen: string, field: string): (rule: Option<Rule>)
    ensures Tidy(field, rule) && (rule.Some? ==> Named(screen)) && (field == "go" ==> LeadsToScreens(rule))
  {
    Or(Or(Homes(screen, field), Or(Runtime(screen, field), Or(Lists(screen, field), AList(screen, field)))), Or(Contents(screen, field), Prompts(screen, field)))
  }

  // ---- The table ----

  function Fields(screen: string): map<string, Rule> {
    if screen == "gl" then map["go" := OneOf(["gh"]), "pg" := Page, "rf" := Blank, "cl" := Blank]
    else if screen == "gh" then map["go" := OneOf(["gl", "rt", "ls", "md", "vp", "ct"]), "rf" := Blank, "cl" := Blank]
    else if screen == "rt" then
      map["en" := Blank, "df" := OneOf(["g", "d", "b"]), "vm" := OneOf(["k", "q", "m"]), "ns" := Blank, "bd" := Blank,
          "ld" := Blank, "lt" := Blank, "lg" := OneOf(["z", "h", "e"]), "go" := OneOf(["gh"])]
    else if screen == "ls" then map["cw" := Blank, "tg" := Blank, "kc" := Blank, "go" := OneOf(["gh"])]
    else if screen == "li" then
      map["ca" := OneOf(["cw", "tg", "kc"]), "cw" := Index, "tg" := Index, "kc" := Index, "pg" := Page, "go" := OneOf(["ls"])]
    else if screen == "vp" then
      map["to" := Blank, "mf" := Blank, "rc" := Blank, "vi" := Blank, "pr" := Blank, "go" := OneOf(["gh"])]
    else if screen == "md" then
      map["as" := Blank, "ms" := Blank, "wl" := Blank, "rx" := Blank, "al" := Blank, "ac" := Blank, "go" := OneOf(["gh"])]
    else MoreFields(screen)
  }

  function MoreFields(screen: string): map<string, Rule> {
    if screen == "ct" then map["go" := OneOf(["gh", "qb", "fb", "ch"])]
    else if screen == "qb" then map["qq" := Index, "ca" := Blank, "pg" := Page, "go" := OneOf(["ct"])]
    else if screen == "qd" then
      map["qq" := Blank, "qo" := Blank, "ok" := Index, "dl" := Index, "sv" := Blank, "rm" := Blank, "cn" := Blank]
    else if screen == "fb" then map["fq" := Index, "ca" := Blank, "pg" := Page, "rb" := Blank, "go" := OneOf(["ct"])]
    else if screen == "fd" then map["fq" := Blank, "fa" := Blank, "dl" := Index, "sv" := Blank, "rm" := Blank, "cn" := Blank]
    else if screen == "ch" then map["ci" := Blank, "iu" := Blank, "dl" := Blank, "ds" := Blank, "go" := OneOf(["ct"])]
    else if screen == "cf" then map["ok" := Blank, "cn" := Blank]
    else if screen == "in" then map["cn" := Blank]
    else map[]
  }

  function LookUp(fields: map<string, Rule>, field: string): Option<Rule> { if field in fields then Some(fields[field]) else None }

  /** The lines of the table, screen by screen. */
  lemma HomesRows(screen: string, field: string)
    requires screen == "gl" || screen == "gh"
    ensures Transition(screen, field) == LookUp(Fields(screen), field)
  {
  }

  lemma RuntimeRow(field: string)
    ensures Transition("rt", field) == LookUp(Fields("rt"), field)
  {
  }

  lemma ListsRows(screen: string, field: string)
    requires screen == "ls" || screen == "vp" || screen == "md"
    ensures Transition(screen, field) == LookUp(Fields(screen), field)
  {
  }

  lemma AListRow(field: string)
    ensures Transition("li", field) == LookUp(Fields("li"), field)
  {
  }

  lemma ContentsRows(screen: string, field: string)
    requires screen == "ct" || screen == "qb" || screen == "qd"
    ensures Transition(screen, field) == LookUp(Fields(screen), field)
  {
  }

  lemma MoreContentsRows(screen: string, field: string)
    requires screen == "fb" || screen == "fd"
    ensures Transition(screen, field) == LookUp(Fields(screen), field)
  {
  }

  lemma PromptsRows(screen: string, field: string)
    requires screen == "ch" || screen == "cf" || screen == "in"
    ensures Transition(screen, field) == LookUp(Fields(screen), field)
  {
  }

  lemma NoOtherRows(screen: string, field: string)
    requires !Known(screen)
    ensures Transition(screen, field) == LookUp(Fields(screen), field)
  {
  }

  /** Entry by entry, the rules are those of the table, and there are no others. */
  lemma TransitionTable(screen: string, field: string)
    ensures Transition(screen, field) == LookUp(Fields(screen), field)
  {
    if screen == "gl" || screen == "gh" { HomesRows(screen, field); }
    else if screen == "rt" { RuntimeRow(field); }
    else if screen == "ls" || screen == "vp" || screen == "md" { ListsRows(screen, field); }
    else if screen == "li" { AListRow(field); }
    else if screen == "ct" || screen == "qb" || screen == "qd" { ContentsRows(screen, field); }
    else if screen == "fb" || screen == "fd" { MoreContentsRows(screen, field); }
    else if screen == "ch" || screen == "cf" || screen == "in" { PromptsRows(screen, field); }
    else { NoOtherRows(screen, field); }
  }

  /** A screen is known exactly when the table has a line for it. */
  lemma KnownScreens(screen: string)
    ensures Known(screen) <==> Fields(screen) != map[]
  {
    var field := if screen in ["qd", "fd", "cf", "in"] then "cn" else "go";
    assert Known(screen) ==> field in Fields(screen);
  }

  /** What the rules let through, for numbers as they are written. */
  lemma RulesAccept(value: string, n: nat, words: seq<string>)
    ensures Accepts(Blank, value) <==> value == "_"
    ensures Accepts(OneOf(words), value) <==> exists i :: 0 <= i < |words| && words[i] == value
    ensures Accepts(Index, Format(n)) <==> n < 18_446_744_073_709_551_616
    ensures Accepts(Page, Format(n)) <==> n < 2_147_483_648
  {
    ParseUndoesFormat(n);
    SixteenDigits();
    if n < TWO_TO_64 { FormatIsShort(n, 16); }
    if |Format(n)| <= 16 {
      ParseFits(Format(n));
      PowerGrows(|Format(n)|, 16);
    }
  }

  // ---- The codec ----

  datatype Data = Data(token: string, screen: string, group: Int64, field: string, value: string)

  datatype Error = BadGrammar | BadToken | BadGroup | UnknownScreen | BadTransition | TooLong
  datatype Result<T> = Ok(value: T) | Err(error: Error)

  predicate ValidToken(token: string) { |token| == 16 && AllHex(token) }

  predicate Allowed(screen: string, field: string, value: string) {
    Transition(screen, field).Some? && Accepts(Transition(screen, field).value, value)
  }

  predicate Valid(d: Data) { ValidToken(d.token) && Allowed(d.screen, d.field, d.value) }

  function Parts(d: Data): seq<string> { ["p1", d.token, d.screen, EncodeSigned(d.group), d.field, d.value] }

  /** `encodeCallback`. */
  function Encode(d: Data): Result<string> {
    if !ValidToken(d.token) then Err(BadToken)
    else if !Known(d.screen) then Err(UnknownScreen)
    else if !Allowed(d.screen, d.field, d.value) then Err(BadTransition)
    else
      var encoded := Join(Parts(d));
      if |encoded| > LIMIT then Err(TooLong) else Ok(encoded)
  }

  /** `parseCallback`. */
  function Decode(encoded: string): Result<Data> {
    var parts := Split(encoded);
    if |parts| != 6 || parts[0] != "p1" then Err(BadGrammar)
    else if !ValidToken(parts[1]) then Err(BadToken)
    else if !HexValue(parts[3]) then Err(BadGroup)
    else if !Known(parts[2]) then Err(UnknownScreen)
    else if !Allowed(parts[2], parts[4], parts[5]) then Err(BadTransition)
    else if |encoded| > LIMIT then Err(TooLong)
    else
      DecodedIsInt64(parts[3]);
      Ok(Data(parts[1], parts[2], DecodeSigned(parts[3]).value, parts[4], parts[5]))
  }

  lemma HexIsPlain(s: string)
    requires AllHex(s)
    ensures Plain(s)
  {
  }

  lemma AcceptedIsShort(rule: Rule, value: string)
    requires Accepts(rule, value) && TidyRule(rule)
    ensures 1 <= |value| <= 16 && Plain(value)
  {
    if rule.Index? || rule.Page? { HexIsPlain(value); }
    if rule.OneOf? {
      var i :| 0 <= i < |rule.words| && rule.words[i] == value;
    }
  }

  lemma JoinSix(a: string, b: string, c: string, d: string, e: string, f: string)
    ensures |Join([a, b, c, d, e, f])| == |a| + |b| + |c| + |d| + |e| + |f| + 5
  {
    assert |Join([e, f])| == |e| + 1 + |f| by { assert [e, f][1..] == [f]; }
    assert |Join([d, e, f])| == |d| + 1 + |Join([e, f])| by { assert [d, e, f][1..] == [e, f]; }
    assert |Join([c, d, e, f])| == |c| + 1 + |Join([d, e, f])| by { assert [c, d, e, f][1..] == [d, e, f]; }
    assert |Join([b, c, d, e, f])| == |b| + 1 + |Join([c, d, e, f])| by { assert [b, c, d, e, f][1..] == [c, d, e, f]; }
    assert [a, b, c, d, e, f][1..] == [b, c, d, e, f];
  }

  /** Valid data always encodes, in at most 59 bytes, and parses back to itself. */
  lemma ParseUndoesEncode(d: Data)
    requires Valid(d)
    ensures Encode(d).Ok? && |Encode(d).value| <= 59 && Decode(Encode(d).value) == Ok(d)
  {
    AcceptedIsShort(Transition(d.screen, d.field).value, d.value);
    SignedRoundTrip(d.group);
    HexIsPlain(d.token);
    HexIsPlain(EncodeSigned(d.group));
    JoinSix("p1", d.token, d.screen, EncodeSigned(d.group), d.field, d.value);
    SplitUndoesJoin(Parts(d));
  }

  /** Only valid data encodes: the length is never the reason to refuse. */
  lemma EncodesExactlyTheValid(d: Data)
    ensures Encode(d).Ok? <==> Valid(d)
    ensures Encode(d) != Err(TooLong)
  {
    if Valid(d) { ParseUndoesEncode(d); }
  }

  lemma PartsOfEncoding(d: Data)
    requires Valid(d)
    ensures Encode(d).Ok? && Split(Encode(d).value) == Parts(d)
  {
    ParseUndoesEncode(d);
    AcceptedIsShort(Transition(d.screen, d.field).value, d.value);
    SignedRoundTrip(d.group);
    HexIsPlain(d.token);
    HexIsPlain(EncodeSigned(d.group));
    SplitUndoesJoin(Parts(d));
  }

  lemma PartsAgreeExactlyWhen(encoded: string)
    requires Decode(encoded).Ok?
    ensures Valid(Decode(encoded).value)
    ensures Parts(Decode(encoded).value) == Split(encoded) <==> NoLeadingZero(Split(encoded)[3])
  {
    var d, parts := Decode(encoded).value, Split(encoded);
    DecodedIsInt64(parts[3]);
    assert Parts(d)[3] == EncodeSigned(d.group);
    if NoLeadingZero(parts[3]) {
      assert parts == Parts(d);
    }
  }

  /** Whatever parses is valid data; encoding it again gives a form that parses to the same, and the
      same bytes exactly when the group was written without a leading zero. */
  lemma EncodeUndoesParse(encoded: string)
    requires Decode(encoded).Ok?
    ensures var d := Decode(encoded).value;
      && Valid(d) && Encode(d).Ok? && Decode(Encode(d).value) == Ok(d)
      && (Encode(d) == Ok(encoded) <==> NoLeadingZero(Split(encoded)[3]))
  {
    var d := Decode(encoded).value;
    PartsAgreeExactlyWhen(encoded);
    ParseUndoesEncode(d);
    PartsOfEncoding(d);
    JoinUndoesSplit(encoded);
  }

  /** Nothing parses too long either: that check never decides. */
  lemma ParseNeverMeetsTheLimit(encoded: string)
    ensures Decode(encoded) != Err(TooLong)
  {
    var parts := Split(encoded);
    if |parts| == 6 && parts[0] == "p1" && ValidToken(parts[1]) && HexValue(parts[3]) && Allowed(parts[2], parts[4], parts[5]) {
      AcceptedIsShort(Transition(parts[2], parts[4]).value, parts[5]);
      JoinUndoesSplit(encoded);
      JoinSix(parts[0], parts[1], parts[2], parts[3], parts[4], parts[5]);
      assert parts == [parts[0], parts[1], parts[2], parts[3], parts[4], parts[5]];
    }
  }

  /** What a callback has to look like: six fields, a token of sixteen digits, a group of at most
      sixteen, and a value the table allows. */
  lemma ParsesExactlyWhen(encoded: string)
    ensures Decode(encoded).Ok? <==> ShapeOK(Split(encoded)) && LineOK(Split(encoded))
    ensures Decode(encoded).Ok? ==> Carries(Decode(encoded).value, Split(encoded))
  {
    var parts := Split(encoded);
    ParseNeverMeetsTheLimit(encoded);
    if |parts| == 6 { TransitionTable(parts[2], parts[4]); }
  }

  predicate ShapeOK(parts: seq<string>) {
    && |parts| == 6 && parts[0] == "p1"
    && |parts[1]| == 16 && AllHex(parts[1])
    && 1 <= |parts[3]| <= 16 && AllHex(parts[3])
  }

  predicate LineOK(parts: seq<string>)
    requires ShapeOK(parts)
  {
    parts[4] in Fields(parts[2]) && Accepts(Fields(parts[2])[parts[4]], parts[5])
  }

  /** Token, screen, field and value as they were sent, and the number the group's digits stand for. */
  predicate Carries(d: Data, parts: seq<string>)
    requires ShapeOK(parts)
  {
    && d.token == parts[1] && d.screen == parts[2] && d.field == parts[4] && d.value == parts[5]
    && Parse(parts[3]) == (if d.group >= 0 then 2 * d.group else -2 * d.group - 1)
  }

  /** Of several faults the first is reported: token, then group, then screen, then field and value. */
  lemma FirstFaultIsReported(encoded: string)
    requires |Split(encoded)| == 6 && Split(encoded)[0] == "p1"
    ensures var parts := Split(encoded);
      var tokenOK, groupOK := |parts[1]| == 16 && AllHex(parts[1]), 1 <= |parts[3]| <= 16 && AllHex(parts[3]);
      && (Decode(encoded) == Err(BadToken) <==> !tokenOK)
      && (Decode(encoded) == Err(BadGroup) <==> tokenOK && !groupOK)
      && (Decode(encoded) == Err(UnknownScreen) <==> tokenOK && groupOK && Fields(parts[2]) == map[])
  {
    KnownScreens(Split(encoded)[2]);
    TransitionTable(Split(encoded)[2], Split(encoded)[4]);
  }
}

/** Sparse per-group overrides over a complete baseline: what a group's settings come to, which
    overrides are allowed, and which are left out when they are stored. */
module Settings {
  import opened Options

  datatype Field =
    | Enabled | DeliveryMode | VerifyMode | NameSpoiler | BanSeconds | LookupTTLSeconds | LookupAutoDeleteEnabled
    | TimeoutSeconds | VerifyMaxFails | VerifyRetrySeconds | MuteSeconds | VerifyInvited | WarnLimit | AntispamEnabled
    | ChannelWhitelist | TrustedMemberGroupIDs | KnownChatIDs | RequiredChannelID | ChannelDisplay | ChannelInviteURL
    | Questions | FallbackQuestions | FallbackBuiltin | Lang

  datatype Question = Question(prompt: string, options: seq<string>, answer: int)
  datatype ShortQuestion = ShortQuestion(prompt: string, answers: seq<string>)

  datatype Value =
    | Flag(on: bool) | Number(n: int) | Text(text: string) | Chats(ids: seq<int>)
    | Quiz(questions: seq<Question>) | Shorts(shorts: seq<ShortQuestion>)

  predicate HasType(f: Field, v: Value) {
    match f
    case Enabled => v.Flag? case NameSpoiler => v.Flag? case LookupAutoDeleteEnabled => v.Flag?
    case VerifyInvited => v.Flag? case AntispamEnabled => v.Flag? case FallbackBuiltin => v.Flag?
    case DeliveryMode => v.Text? case VerifyMode => v.Text? case ChannelDisplay => v.Text?
    case ChannelInviteURL => v.Text? case Lang => v.Text?
    case ChannelWhitelist => v.Chats? case TrustedMemberGroupIDs => v.Chats? case KnownChatIDs => v.Chats?
    case Questions => v.Quiz? case FallbackQuestions => v.Shorts?
    case _ => v.Number?
  }

  /** The override record of one group: fields that are absent follow the baseline. */
  type Overrides = map<Field, Value>

  ghost predicate IsComplete(base: Overrides) { forall f: Field :: f in base && HasType(f, base[f]) }

  function On(v: Value): bool { v.Flag? && v.on }
  function Num(v: Value): int { if v.Number? then v.n else 0 }
  function Str(v: Value): string { if v.Text? then v.text else "" }
  function IDs(v: Value): seq<int> { if v.Chats? then v.ids else [] }
  function Quizzes(v: Value): seq<Question> { if v.Quiz? then v.questions else [] }
  function Fallbacks(v: Value): seq<ShortQuestion> { if v.Shorts? then v.shorts else [] }

  /** An effective value, and whether it comes from an override. */
  datatype Setting = Setting(value: Value, runtime: bool)

  function Resolve(base: Overrides, o: Overrides, f: Field): Setting {
    if f in o then Setting(o[f], true) else if f in base then Setting(base[f], false) else Setting(Flag(false), false)
  }

  /** Built-in fallback questions hide the custom ones. */
  function Effective(base: Overrides, o: Overrides, f: Field): Setting {
    if f.FallbackQuestions? && On(Resolve(base, o, FallbackBuiltin).value) then
      Setting(Shorts([]), FallbackBuiltin in o)
    else Resolve(base, o, f)
  }

  // ---- Which overrides are accepted ----

  const BAN_MAX: int := 366 * 86400

  function ClampBan(seconds: int): int {
    if seconds <= 0 then 0 else if seconds < 30 then 30 else if seconds > BAN_MAX then 0 else seconds
  }

  predicate Space(c: char) {
    c in {'\t', '\n', '\U{0B}', '\U{0C}', '\r', ' ', '\U{85}', '\U{A0}', '\U{1680}', '\U{2028}', '\U{2029}',
          '\U{202F}', '\U{205F}', '\U{3000}'} || '\U{2000}' <= c <= '\U{200A}'
  }

  predicate Blank(s: string) { forall i | 0 <= i < |s| :: Space(s[i]) }

  predicate GoodQuestions(qs: seq<Question>) {
    forall i | 0 <= i < |qs| :: !Blank(qs[i].prompt) && |qs[i].options| >= 2 && 0 <= qs[i].answer < |qs[i].options|
  }

  predicate GoodFallbacks(qs: seq<ShortQuestion>) {
    |qs| > 0 && forall i | 0 <= i < |qs| :: !Blank(qs[i].prompt) && |qs[i].answers| > 0
                                            && forall j | 0 <= j < |qs[i].answers| :: !Blank(qs[i].answers[j])
  }

  predicate GoodIDs(ids: seq<int>) {
    (forall i | 0 <= i < |ids| :: ids[i] != 0) && (forall i, j | 0 <= i < j < |ids| :: ids[i] != ids[j])
  }

  /** Fields a baseline may hold in any form, but an override may not. */
  predicate GoodOverride(f: Field, v: Value) {
    HasType(f, v) &&
    match f
    case BanSeconds => Num(v) == ClampBan(Num(v))
    case LookupTTLSeconds => Num(v) > 0
    case MuteSeconds => Num(v) > 0 && Num(v) == ClampBan(Num(v))
    case WarnLimit => Num(v) > 0
    case TimeoutSeconds => 30 <= Num(v) <= 1800
    case ChannelWhitelist => GoodIDs(IDs(v))
    case TrustedMemberGroupIDs => GoodIDs(IDs(v))
    case KnownChatIDs => GoodIDs(IDs(v))
    case Questions => GoodQuestions(Quizzes(v))
    case _ => true
  }

  predicate Reachable(base: Overrides, o: Overrides) {
    Num(Resolve(base, o, RequiredChannelID).value) == 0 || Str(Resolve(base, o, ChannelInviteURL).value) != "" ||
    "@" <= Str(Resolve(base, o, ChannelDisplay).value)
  }

  predicate ModesOK(base: Overrides, o: Overrides) {
    && Str(Effective(base, o, DeliveryMode).value) in {"group", "dm", "both"}
    && Str(Effective(base, o, VerifyMode).value) in {"quiz", "kernel", "mixed"}
    && Str(Effective(base, o, Lang).value) in {"zh", "zh-Hant", "en"}
  }

  predicate OverridesOK(o: Overrides) { forall f | f in o && !f.FallbackQuestions? :: GoodOverride(f, o[f]) }

  predicate ChannelOK(base: Overrides, o: Overrides) {
    RequiredChannelID in o || ChannelDisplay in o || ChannelInviteURL in o ==> Reachable(base, o)
  }

  predicate FallbacksOK(base: Overrides, o: Overrides) {
    if On(Effective(base, o, FallbackBuiltin).value) then FallbackQuestions !in o
    else GoodFallbacks(Fallbacks(Effective(base, o, FallbackQuestions).value))
  }

  /** `validateEffectiveGroup`. */
  predicate ValidGroup(base: Overrides, o: Overrides) {
    ModesOK(base, o) && OverridesOK(o) && ChannelOK(base, o) && FallbacksOK(base, o)
  }

  // ---- What is stored ----

  /** `compactGroupOverrides`: an override that only repeats the baseline is left out. */
  function Compact(base: Overrides, o: Overrides): (c: Overrides) {
    map f | f in o && !(f in base && o[f] == base[f]) :: o[f]
  }

  lemma CompactResolves(base: Overrides, o: Overrides, f: Field)
    ensures Resolve(base, Compact(base, o), f).value == Resolve(base, o, f).value
    ensures Resolve(base, Compact(base, o), f).runtime ==> Resolve(base, o, f).runtime
  {
  }

  /** Leaving those out changes no effective value, the fallback questions included. */
  lemma CompactKeepsEffective(base: Overrides, o: Overrides, f: Field)
    ensures Effective(base, Compact(base, o), f).value == Effective(base, o, f).value
  {
    CompactResolves(base, o, f);
    CompactResolves(base, o, FallbackBuiltin);
  }

  lemma CompactSays(base: Overrides, o: Overrides)
    ensures ModesOK(base, Compact(base, o)) <==> ModesOK(base, o)
    ensures Reachable(base, Compact(base, o)) <==> Reachable(base, o)
    ensures Effective(base, Compact(base, o), FallbackBuiltin).value == Effective(base, o, FallbackBuiltin).value
    ensures Effective(base, Compact(base, o), FallbackQuestions).value == Effective(base, o, FallbackQuestions).value
  {
    forall f ensures Effective(base, Compact(base, o), f).value == Effective(base, o, f).value {
      CompactKeepsEffective(base, o, f);
    }
    CompactResolves(base, o, RequiredChannelID);
    CompactResolves(base, o, ChannelInviteURL);
    CompactResolves(base, o, ChannelDisplay);
  }

  /** Overrides that are accepted are accepted in the form they are stored in. */
  lemma CompactStaysValid(base: Overrides, o: Overrides)
    requires ValidGroup(base, o)
    ensures ValidGroup(base, Compact(base, o))
  {
    CompactSays(base, o);
  }

  /** The stored form holds exactly the overrides that change the raw value of a field, so equal
      resolved values are stored alike, and storing twice changes nothing. */
  lemma CompactIsCanonical(base: Overrides, o: Overrides, o': Overrides)
    requires IsComplete(base)
    ensures Compact(base, o) == Compact(base, o') <==>
      forall f :: Resolve(base, o, f).value == Resolve(base, o', f).value
    ensures Compact(base, Compact(base, o)) == Compact(base, o)
  {
    forall f ensures Resolve(base, Compact(base, o), f).value == Resolve(base, o, f).value
                  && Resolve(base, Compact(base, o'), f).value == Resolve(base, o', f).value {
      CompactResolves(base, o, f);
      CompactResolves(base, o', f);
    }
    if forall f :: Resolve(base, o, f).value == Resolve(base, o', f).value {
      forall f ensures (f in Compact(base, o) <==> f in Compact(base, o'))
                    && (f in Compact(base, o) ==> Compact(base, o)[f] == Compact(base, o')[f]) {
        assert Resolve(base, o, f).value == Resolve(base, o', f).value;
      }
    }
  }

  /** An override that says what the baseline says. */
  predicate Repeats(base: Overrides, o: Overrides, f: Field) { f in o && f in base && o[f] == base[f] }

  predicate ChannelField(f: Field) { f.RequiredChannelID? || f.ChannelDisplay? || f.ChannelInviteURL? }

  /** Compaction can make acceptable what was not, by leaving out what would be refused as an override
      although the baseline may say it. Where the stored form is acceptable, the overrides themselves
      were refused exactly for such a repetition: of a value no override may have, of custom fallback
      questions beside the built-in ones, or of an unreachable channel that nothing else touches. */
  lemma CompactMendsExactlyWhen(base: Overrides, o: Overrides)
    requires ValidGroup(base, Compact(base, o))
    ensures !ValidGroup(base, o) <==>
      (exists f :: Repeats(base, o, f) && RefusedRepetition(base, Compact(base, o), f))
  {
    CompactSays(base, o);
    if !ValidGroup(base, o) { var _ := RefusedFor(base, o); }
    if f :| Repeats(base, o, f) && RefusedRepetition(base, Compact(base, o), f) {
      if ChannelField(f) && !Reachable(base, o) { assert !ChannelOK(base, o); }
    }
  }

  /** A repetition that overrides with an acceptable stored form are refused for. */
  lemma RefusedFor(base: Overrides, o: Overrides) returns (f: Field)
    requires ValidGroup(base, Compact(base, o)) && !ValidGroup(base, o)
    ensures Repeats(base, o, f) && RefusedRepetition(base, Compact(base, o), f)
  {
    CompactSays(base, o);
    if !OverridesOK(o) {
      f :| f in o && !f.FallbackQuestions? && !GoodOverride(f, o[f]);
      assert f !in Compact(base, o);
    } else if !FallbacksOK(base, o) {
      f := FallbackQuestions;
    } else {
      f := if RequiredChannelID in o then RequiredChannelID else if ChannelDisplay in o then ChannelDisplay else ChannelInviteURL;
    }
  }

  predicate RefusedRepetition(base: Overrides, c: Overrides, f: Field)
    requires f in base
  {
    || (!f.FallbackQuestions? && !GoodOverride(f, base[f]))
    || (f.FallbackQuestions? && On(Effective(base, c, FallbackBuiltin).value))
    || (ChannelField(f) && !Reachable(base, c))
  }

  // ---- The verification window ----

  const POST_JOIN_SECONDS := 600
  const MAX_SECONDS: int := 9_223_372_036

  function Duration(seconds: int): int { if -MAX_SECONDS <= seconds <= MAX_SECONDS then seconds * 1_000_000_000 else 0 }

  /** `gateTimeout`: who waits inside gets a longer default, unless an administrator chose a time. */
  function GateWindow(base: Overrides, o: Overrides, inside: bool): int {
    var setting := Effective(base, o, TimeoutSeconds);
    Duration(if inside && !setting.runtime then POST_JOIN_SECONDS else Num(setting.value))
  }

  /** Compaction forgets that a time was chosen when it is the baseline's. The window survives exactly
      for applicants outside, for any other choice, and when the baseline is the longer default. */
  lemma GateWindowSurvivesExactlyWhen(base: Overrides, o: Overrides, inside: bool)
    ensures GateWindow(base, Compact(base, o), inside) == GateWindow(base, o, inside) <==>
      (inside && Repeats(base, o, TimeoutSeconds) ==> Num(base[TimeoutSeconds]) == POST_JOIN_SECONDS)
  {
    CompactResolves(base, o, TimeoutSeconds);
  }

  /** Five minutes chosen for a member inside, where config.json says five minutes: ten once stored. */
  lemma ChosenWindowIsForgotten() returns (base: Overrides, o: Overrides)
    ensures OverridesOK(o) && Repeats(base, o, TimeoutSeconds)
    ensures GateWindow(base, o, true) == Duration(300) && GateWindow(base, Compact(base, o), true) == Duration(600)
  {
    base, o := map[TimeoutSeconds := Number(300)], map[TimeoutSeconds := Number(300)];
    assert Compact(base, o) == map[];
  }
}

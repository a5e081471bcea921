/** The checks on a group's settings as the program makes them, one after the other, and what each field
    comes to and may be set to. */
module SettingsCheck {
  import opened Options
  import opened Settings

  // ---- What a field comes to ----

  /** A value is read back as it was written. */
  lemma ValuesRead(b: bool, n: int, t: string, ids: seq<int>, qs: seq<Question>, shorts: seq<ShortQuestion>)
    ensures On(Flag(b)) == b && Num(Number(n)) == n && Str(Text(t)) == t
    ensures IDs(Chats(ids)) == ids && Quizzes(Quiz(qs)) == qs && Fallbacks(Shorts(shorts)) == shorts
  {
  }

  /** A field is its override where there is one, and the baseline's value otherwise; only the custom
      fallback questions are hidden, exactly while the built-in ones are on. */
  lemma EffectiveIs(base: Overrides, o: Overrides, f: Field)
    requires IsComplete(base)
    ensures var builtin := (if FallbackBuiltin in o then o[FallbackBuiltin] else base[FallbackBuiltin]) == Flag(true);
      Effective(base, o, f) ==
        if f == FallbackQuestions && builtin then Setting(Shorts([]), FallbackBuiltin in o)
        else if f in o then Setting(o[f], true) else Setting(base[f], false)
  {
    assert HasType(FallbackBuiltin, base[FallbackBuiltin]);
  }

  /** How long an applicant has: what an administrator chose, ten minutes inside, or what config.json
      says; nothing for a number that does not fit. */
  lemma WindowIs(base: Overrides, o: Overrides, inside: bool)
    requires IsComplete(base)
    ensures var seconds := if TimeoutSeconds in o then Num(o[TimeoutSeconds]) else if inside then 600 else Num(base[TimeoutSeconds]);
      GateWindow(base, o, inside) == if -9_223_372_036 <= seconds <= 9_223_372_036 then seconds * 1_000_000_000 else 0
  {
  }

  // ---- What an override may be ----

  /** Telegram's range for a timed ban: thirty seconds to 366 days, or none. */
  lemma TimedBan(seconds: int)
    ensures ClampBan(seconds) == seconds <==> seconds == 0 || 30 <= seconds <= 31_622_400
    ensures 0 < seconds < 30 ==> ClampBan(seconds) == 30
    ensures seconds < 0 || seconds > 31_622_400 ==> ClampBan(seconds) == 0
  {
  }

  /** `validateIDs`. */
  method CheckIDs(ids: seq<int>) returns (ok: bool)
    ensures ok == GoodIDs(ids)
  {
    var seen: set<int> := {};
    var i := 0;
    while i < |ids|
      invariant 0 <= i <= |ids| && GoodIDs(ids[..i]) && forall id :: id in seen <==> id in ids[..i]
    {
      assert ids[..i + 1] == ids[..i] + [ids[i]];
      if ids[i] == 0 {
        return false;
      }
      if ids[i] in seen {
        return false;
      }
      seen := seen + {ids[i]};
      i := i + 1;
    }
    assert ids[..i] == ids;
    return true;
  }

  /** White space by code point. */
  lemma SpaceByCode(c: char)
    ensures Space(c) <==>
      || 9 <= c as int <= 13 || c as int in {0x20, 0x85, 0xA0, 0x1680, 0x2028, 0x2029, 0x202F, 0x205F, 0x3000}
      || 0x2000 <= c as int <= 0x200A
  {
  }

  /** Nothing is left of the text once it is trimmed. */
  method TrimsToNothing(s: string) returns (blank: bool)
    ensures blank == Blank(s)
  {
    var i := 0;
    while i < |s|
      invariant 0 <= i <= |s| && forall k | 0 <= k < i :: Space(s[k])
    {
      if !Space(s[i]) {
        return false;
      }
      i := i + 1;
    }
    return true;
  }

  /** `validateQuestions`. */
  method CheckQuestions(qs: seq<Question>) returns (ok: bool)
    ensures ok == GoodQuestions(qs)
  {
    var i := 0;
    while i < |qs|
      invariant 0 <= i <= |qs| && GoodQuestions(qs[..i])
    {
      assert qs[..i + 1] == qs[..i] + [qs[i]];
      var blank := TrimsToNothing(qs[i].prompt);
      if blank {
        return false;
      }
      if |qs[i].options| < 2 {
        return false;
      }
      if qs[i].answer < 0 || qs[i].answer >= |qs[i].options| {
        return false;
      }
      i := i + 1;
    }
    assert qs[..i] == qs;
    return true;
  }

  method CheckAnswers(answers: seq<string>) returns (ok: bool)
    ensures ok <==> forall j | 0 <= j < |answers| :: !Blank(answers[j])
  {
    var j := 0;
    while j < |answers|
      invariant 0 <= j <= |answers| && forall k | 0 <= k < j :: !Blank(answers[k])
    {
      var blank := TrimsToNothing(answers[j]);
      if blank {
        return false;
      }
      j := j + 1;
    }
    return true;
  }

  /** `validateFallbackQuestions`. */
  method CheckFallbacks(qs: seq<ShortQuestion>) returns (ok: bool)
    ensures ok == GoodFallbacks(qs)
  {
    if |qs| == 0 {
      return false;
    }
    var i := 0;
    while i < |qs|
      invariant 0 <= i <= |qs|
      invariant forall k | 0 <= k < i :: !Blank(qs[k].prompt) && |qs[k].answers| > 0 && forall j | 0 <= j < |qs[k].answers| :: !Blank(qs[k].answers[j])
    {
      var blank := TrimsToNothing(qs[i].prompt);
      if blank || |qs[i].answers| == 0 {
        return false;
      }
      var fine := CheckAnswers(qs[i].answers);
      if !fine {
        return false;
      }
      i := i + 1;
    }
    return true;
  }

  ghost predicate Typed(o: Overrides) { forall f | f in o :: HasType(f, o[f]) }

  /** The numbers among the overrides. */
  method CheckNumbers(base: Overrides, o: Overrides) returns (ok: bool)
    requires Typed(o)
    ensures ok <==> forall f | f in o && f in {BanSeconds, LookupTTLSeconds, MuteSeconds, WarnLimit, TimeoutSeconds} :: GoodOverride(f, o[f])
  {
    var ban, ttl, mute := Effective(base, o, BanSeconds), Effective(base, o, LookupTTLSeconds), Effective(base, o, MuteSeconds);
    var warns, timeout := Effective(base, o, WarnLimit), Effective(base, o, TimeoutSeconds);
    if ban.runtime && Num(ban.value) != ClampBan(Num(ban.value)) {
      assert BanSeconds in o && !GoodOverride(BanSeconds, o[BanSeconds]);
      return false;
    }
    if ttl.runtime && Num(ttl.value) <= 0 {
      assert LookupTTLSeconds in o && !GoodOverride(LookupTTLSeconds, o[LookupTTLSeconds]);
      return false;
    }
    if mute.runtime && (Num(mute.value) <= 0 || Num(mute.value) != ClampBan(Num(mute.value))) {
      assert MuteSeconds in o && !GoodOverride(MuteSeconds, o[MuteSeconds]);
      return false;
    }
    if warns.runtime && Num(warns.value) <= 0 {
      assert WarnLimit in o && !GoodOverride(WarnLimit, o[WarnLimit]);
      return false;
    }
    if timeout.runtime && (Num(timeout.value) < 30 || Num(timeout.value) > 1800) {
      assert TimeoutSeconds in o && !GoodOverride(TimeoutSeconds, o[TimeoutSeconds]);
      return false;
    }
    return true;
  }

  /** The lists among them. */
  method CheckLists(base: Overrides, o: Overrides) returns (ok: bool)
    requires Typed(o)
    ensures ok <==> forall f | f in o && f in {ChannelWhitelist, TrustedMemberGroupIDs, KnownChatIDs, Questions} :: GoodOverride(f, o[f])
  {
    if ChannelWhitelist in o {
      ok := CheckIDs(IDs(o[ChannelWhitelist]));
      if !ok { return; }
    }
    if TrustedMemberGroupIDs in o {
      ok := CheckIDs(IDs(o[TrustedMemberGroupIDs]));
      if !ok { return; }
    }
    if KnownChatIDs in o {
      ok := CheckIDs(IDs(o[KnownChatIDs]));
      if !ok { return; }
    }
    if Questions in o {
      ok := CheckQuestions(Quizzes(o[Questions]));
      if !ok { return; }
    }
    return true;
  }

  /** `validateEffectiveGroup`. */
  method ValidateGroup(base: Overrides, o: Overrides) returns (ok: bool)
    requires IsComplete(base) && Typed(o)
    ensures ok == ValidGroup(base, o)
  {
    var delivery, mode, lang := Effective(base, o, DeliveryMode), Effective(base, o, VerifyMode), Effective(base, o, Lang);
    var delivered, verified, said := Str(delivery.value), Str(mode.value), Str(lang.value);
    if delivered != "group" && delivered != "dm" && delivered != "both" {
      return false;
    }
    if verified != "quiz" && verified != "kernel" && verified != "mixed" {
      return false;
    }
    if said != "zh" && said != "zh-Hant" && said != "en" {
      return false;
    }
    var numbers := CheckNumbers(base, o);
    var lists := CheckLists(base, o);
    assert OverridesOK(o) == (numbers && lists) by {
      forall f | f in o && !f.FallbackQuestions? ensures numbers && lists ==> GoodOverride(f, o[f]) { OnlyChecked(f, o[f]); }
    }
    if !numbers || !lists {
      return false;
    }
    var channel, display, url :=
      Effective(base, o, RequiredChannelID), Effective(base, o, ChannelDisplay), Effective(base, o, ChannelInviteURL);
    if channel.runtime || display.runtime || url.runtime {
      if Num(channel.value) != 0 && Str(url.value) == "" && (Str(display.value) == "" || Str(display.value)[0] != '@') {
        return false;
      }
    }
    var builtin := Effective(base, o, FallbackBuiltin);
    if On(builtin.value) {
      return FallbackQuestions !in o;
    }
    ok := CheckFallbacks(Fallbacks(Effective(base, o, FallbackQuestions).value));
  }

  /** No other field is restricted. */
  lemma OnlyChecked(f: Field, v: Value)
    requires HasType(f, v)
    ensures GoodOverride(f, v) || f in {BanSeconds, LookupTTLSeconds, MuteSeconds, WarnLimit, TimeoutSeconds,
                                        ChannelWhitelist, TrustedMemberGroupIDs, KnownChatIDs, Questions}
  {
  }
}

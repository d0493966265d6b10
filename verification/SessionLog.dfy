/**
 * The session summary: printed by `log_summary` of crates/gpapi/src/session.rs, read by the three
 * unanchored patterns of `parseSessionInfo` in GpclientOutputParser.swift.
 */
module SessionLog {
  import opened Options
  import opened Decimal

  datatype Info = Info(lifetime: Option<nat>, expires: Option<nat>, prior: Option<nat>, allowExtend: bool)

  /** A number with its reading for people, or `none`. */
  function Shown(n: Option<nat>, human: string): string {
    if n.Some? then ToDecimal(n.value) + " (" + human + ")" else "none"
  }

  function Flag(b: bool): string {
    if b then "true" else "false"
  }

  const HEAD := "VPN session info: lifetime_secs"
  const LABELS := [", user_expires", ", lifetime_warning_prior", ", allow_extend_session"]

  /** Four fields: `a` and so on run up to the `=` of each, `t` is the last value. */
  function Line(a: string, b: string, c: string, d: string, t: string): string {
    a + "=" + (b + "=" + (c + "=" + (d + "=" + t)))
  }

  function Values(info: Info, h: seq<string>): (v: seq<string>)
    requires |h| == 3
    ensures |v| == 3
  {
    [Shown(info.lifetime, h[0]), Shown(info.expires, h[1]), Shown(info.prior, h[2])]
  }

  /** `h` holds the readings for people. */
  function SummaryLine(info: Info, h: seq<string>): string
    requires |h| == 3
  {
    var v := Values(info, h);
    Line(HEAD, v[0] + LABELS[0], v[1] + LABELS[1], v[2] + LABELS[2], Flag(info.allowExtend))
  }

  // ---------- leftmost search ----------

  predicate StartsWith(s: string, p: string) {
    |p| <= |s| && s[..|p|] == p
  }

  predicate EndsWith(s: string, p: string) {
    |p| <= |s| && s[|s| - |p|..] == p
  }

  /** What follows each place where `key=` stands, from left to right. */
  function After(s: string, key: string): seq<string> {
    if s == "" then []
    else
      (if StartsWith(s, key + "=") then [s[|key| + 1..]] else []) + After(s[1..], key)
  }

  /** `key=(\d+)`: the digits at the first place that has one. */
  function FirstNumber(places: seq<string>): Option<string> {
    if places == [] then None
    else if places[0] != "" && IsDigit(places[0][0]) then Some(LeadingDigits(places[0]))
    else FirstNumber(places[1..])
  }

  function LeadingDigits(s: string): (d: string)
    ensures AllDigits(d)
  {
    if s == "" || !IsDigit(s[0]) then "" else [s[0]] + LeadingDigits(s[1..])
  }

  /** `key=(true|false)` */
  function FirstFlag(places: seq<string>): Option<bool> {
    if places == [] then None
    else if StartsWith(places[0], "true") then Some(true)
    else if StartsWith(places[0], "false") then Some(false)
    else FirstFlag(places[1..])
  }

  /** `Int(text)`, which has 64 bits. */
  function Int64(digits: Option<string>): Option<nat>
    requires digits.Some? ==> AllDigits(digits.value)
  {
    if digits.Some? && Value(digits.value) <= 0x7FFF_FFFF_FFFF_FFFF then Some(Value(digits.value)) else None
  }

  /** `TimeInterval(text)`, exact for 32-bit values. */
  function Seconds(digits: Option<string>): Option<nat>
    requires digits.Some? ==> AllDigits(digits.value)
  {
    if digits.Some? then Some(Value(digits.value)) else None
  }

  lemma {:induction false} FirstNumberIsDigits(places: seq<string>)
    ensures FirstNumber(places).Some? ==> AllDigits(FirstNumber(places).value)
  {
    if places != [] {
      FirstNumberIsDigits(places[1..]);
    }
  }

  datatype Event = SessionInfo(lifetime: Option<nat>, expires: Option<nat>, allowExtend: bool)

  function ParseSessionInfo(message: string): Event {
    FirstNumberIsDigits(After(message, "lifetime_secs"));
    FirstNumberIsDigits(After(message, "user_expires"));
    SessionInfo(
      Int64(FirstNumber(After(message, "lifetime_secs"))),
      Seconds(FirstNumber(After(message, "user_expires"))),
      FirstFlag(After(message, "allow_extend_session")) == Some(true))
  }

  // ---------- one `=` at a time ----------

  lemma StartOfPiece(head: string, rest: string, key: string)
    requires key != "" && '=' !in key && '=' !in head
    ensures StartsWith(head + "=" + rest, key + "=") <==> head == key
  {
    var s, p := head + "=" + rest, key + "=";
    assert p[|key|] == '=' && s[|head|] == '=';
    forall j | 0 <= j < |head| ensures s[j] != '=' {
      assert s[j] == head[j];
    }
    forall j | 0 <= j < |key| ensures p[j] != '=' {
      assert p[j] == key[j];
    }
    if StartsWith(s, p) {
      assert forall i | 0 <= i < |p| :: s[..|p|][i] == s[i];
      assert s[..|head|] == head && p[..|key|] == key;
    }
    assert head == key ==> s[..|p|] == p;
  }

  lemma {:induction false} AfterPiece(head: string, rest: string, key: string)
    requires key != "" && '=' !in key && '=' !in head
    ensures After(head + "=" + rest, key) == (if EndsWith(head, key) then [rest] else []) + After(rest, key)
  {
    var s, p := head + "=" + rest, key + "=";
    assert p[0] == key[0] && p[|key|] == '=' && s[|head|] == '=';
    if head == "" {
      assert s[1..] == rest;
      StartOfPiece(head, rest, key);
    } else {
      assert s[1..] == head[1..] + "=" + rest;
      AfterPiece(head[1..], rest, key);
      StartOfPiece(head, rest, key);
      assert |key| < |head| ==> head[|head| - |key|..] == head[1..][|head| - 1 - |key|..];
      assert s[|head| + 1..] == rest;
    }
  }

  lemma {:induction false} AfterLast(s: string, key: string)
    requires '=' !in s
    ensures After(s, key) == []
  {
    if s != "" {
      assert (key + "=")[|key|] == '=';
      AfterLast(s[1..], key);
    }
  }

  // ---------- the four fields ----------

  predicate NoEquals(h: seq<string>) {
    |h| == 3 && forall i | 0 <= i < 3 :: '=' !in h[i]
  }

  lemma {:induction false} DigitsHaveNoEquals(s: string)
    requires AllDigits(s)
    ensures '=' !in s
  {
  }

  lemma ShownHasNoEquals(n: Option<nat>, human: string)
    requires '=' !in human
    ensures '=' !in Shown(n, human)
  {
    if n.Some? {
      DigitsHaveNoEquals(ToDecimal(n.value));
    }
  }

  lemma Places(a: string, b: string, c: string, d: string, t: string, key: string)
    requires '=' !in a && '=' !in b && '=' !in c && '=' !in d && '=' !in t && '=' !in key && key != ""
    ensures After(Line(a, b, c, d, t), key)
         == (if EndsWith(a, key) then [b + "=" + (c + "=" + (d + "=" + t))] else [])
          + ((if EndsWith(b, key) then [c + "=" + (d + "=" + t)] else [])
          + ((if EndsWith(c, key) then [d + "=" + t] else [])
          + (if EndsWith(d, key) then [t] else [])))
  {
    AfterLast(t, key);
    AfterPiece(d, t, key);
    AfterPiece(c, d + "=" + t, key);
    AfterPiece(b, c + "=" + (d + "=" + t), key);
    AfterPiece(a, b + "=" + (c + "=" + (d + "=" + t)), key);
  }

  /** The last two characters tell the four labels apart. */
  predicate SameEnd(name: string, key: string) {
    |name| >= 2 && |key| >= 2 && name[|name| - 2..] == key[|key| - 2..]
  }

  lemma OtherLabel(value: string, name: string, key: string)
    requires |name| >= 2 && |key| >= 2 && !SameEnd(name, key)
    ensures !EndsWith(value + name, key)
  {
    var head := value + name;
    assert head[|head| - 2..] == name[|name| - 2..];
    if |key| <= |head| {
      var tail := head[|head| - |key|..];
      assert tail[|key| - 2..] == head[|head| - 2..];
    }
  }

  lemma OwnLabel(value: string, name: string, key: string)
    requires EndsWith(name, key)
    ensures EndsWith(value + name, key)
  {
    assert (value + name)[|value + name| - |key|..] == name[|name| - |key|..];
  }

  lemma NotOwn(name: string, key: string)
    requires |name| >= 2 && |key| >= 2 && !SameEnd(name, key)
    ensures !EndsWith(name, key)
  {
    OtherLabel("", name, key);
    assert "" + name == name;
  }

  predicate Plain(s: string) {
    '=' !in s
  }

  lemma PlainSum(a: string, b: string)
    requires Plain(a) && Plain(b)
    ensures Plain(a + b)
  {
  }

  lemma SumsArePlain(v: seq<string>, l: seq<string>)
    requires |v| == |l| == 3 && forall i | 0 <= i < 3 :: Plain(v[i]) && Plain(l[i])
    ensures Plain(v[0] + l[0]) && Plain(v[1] + l[1]) && Plain(v[2] + l[2])
  {
    PlainSum(v[0], l[0]);
    PlainSum(v[1], l[1]);
    PlainSum(v[2], l[2]);
  }

  /** Only the first label ends with the key. */
  lemma FirstPlace(a: string, v: seq<string>, l: seq<string>, t: string, key: string)
    requires |v| == |l| == 3 && Plain(a) && Plain(t) && Plain(key) && |key| >= 2
    requires forall i | 0 <= i < 3 :: Plain(v[i]) && Plain(l[i]) && |l[i]| >= 2
    requires EndsWith(a, key) && !SameEnd(l[0], key) && !SameEnd(l[1], key) && !SameEnd(l[2], key)
    ensures After(Line(a, v[0] + l[0], v[1] + l[1], v[2] + l[2], t), key)
         == [v[0] + l[0] + "=" + (v[1] + l[1] + "=" + (v[2] + l[2] + "=" + t))]
  {
    SumsArePlain(v, l);
    OtherLabel(v[0], l[0], key);
    OtherLabel(v[1], l[1], key);
    OtherLabel(v[2], l[2], key);
    Places(a, v[0] + l[0], v[1] + l[1], v[2] + l[2], t, key);
  }

  lemma SecondPlace(a: string, v: seq<string>, l: seq<string>, t: string, key: string)
    requires |v| == |l| == 3 && Plain(a) && Plain(t) && Plain(key) && |key| >= 2 && |a| >= 2
    requires forall i | 0 <= i < 3 :: Plain(v[i]) && Plain(l[i]) && |l[i]| >= 2
    requires EndsWith(l[0], key) && !SameEnd(a, key) && !SameEnd(l[1], key) && !SameEnd(l[2], key)
    ensures After(Line(a, v[0] + l[0], v[1] + l[1], v[2] + l[2], t), key)
         == [v[1] + l[1] + "=" + (v[2] + l[2] + "=" + t)]
  {
    SumsArePlain(v, l);
    NotOwn(a, key);
    OwnLabel(v[0], l[0], key);
    OtherLabel(v[1], l[1], key);
    OtherLabel(v[2], l[2], key);
    Places(a, v[0] + l[0], v[1] + l[1], v[2] + l[2], t, key);
  }

  lemma LastPlace(a: string, v: seq<string>, l: seq<string>, t: string, key: string)
    requires |v| == |l| == 3 && Plain(a) && Plain(t) && Plain(key) && |key| >= 2 && |a| >= 2
    requires forall i | 0 <= i < 3 :: Plain(v[i]) && Plain(l[i]) && |l[i]| >= 2
    requires EndsWith(l[2], key) && !SameEnd(a, key) && !SameEnd(l[0], key) && !SameEnd(l[1], key)
    ensures After(Line(a, v[0] + l[0], v[1] + l[1], v[2] + l[2], t), key) == [t]
  {
    SumsArePlain(v, l);
    NotOwn(a, key);
    OwnLabel(v[2], l[2], key);
    OtherLabel(v[0], l[0], key);
    OtherLabel(v[1], l[1], key);
    Places(a, v[0] + l[0], v[1] + l[1], v[2] + l[2], t, key);
  }

  lemma LabelsArePlain()
    ensures Plain(HEAD) && Plain(LABELS[0]) && Plain(LABELS[1]) && Plain(LABELS[2])
  {
  }

  lemma KeysArePlain()
    ensures Plain("lifetime_secs") && Plain("user_expires") && Plain("allow_extend_session")
  {
  }

  lemma LifetimeLabel()
    ensures EndsWith(HEAD, "lifetime_secs") && !SameEnd(LABELS[0], "lifetime_secs")
    ensures !SameEnd(LABELS[1], "lifetime_secs") && !SameEnd(LABELS[2], "lifetime_secs")
  {
    assert HEAD == "VPN session info: " + "lifetime_secs";
  }

  lemma ExpiresLabel()
    ensures EndsWith(LABELS[0], "user_expires") && !SameEnd(HEAD, "user_expires")
    ensures !SameEnd(LABELS[1], "user_expires") && !SameEnd(LABELS[2], "user_expires")
  {
    assert LABELS[0] == ", " + "user_expires";
  }

  lemma ExtendLabel()
    ensures EndsWith(LABELS[2], "allow_extend_session") && !SameEnd(HEAD, "allow_extend_session")
    ensures !SameEnd(LABELS[0], "allow_extend_session") && !SameEnd(LABELS[1], "allow_extend_session")
  {
    assert LABELS[2] == ", " + "allow_extend_session";
  }

  lemma {:induction false} DigitsThenOther(d: string, t: string)
    requires AllDigits(d) && (t == "" || !IsDigit(t[0]))
    ensures LeadingDigits(d + t) == d
  {
    if d != "" {
      assert (d + t)[1..] == d[1..] + t;
      DigitsThenOther(d[1..], t);
    } else {
      assert d + t == t;
    }
  }

  lemma Regroup(d: string, a: string, b: string, c: string)
    ensures d + a + b + c == d + (a + b + c)
  {
  }

  lemma NumberIsCaptured(d: string, t: string)
    requires d != "" && AllDigits(d) && t != "" && !IsDigit(t[0])
    ensures FirstNumber([d + t]) == Some(d)
  {
    DigitsThenOther(d, t);
    assert (d + t)[0] == d[0];
  }

  /** A shown number is captured as printed; `none` is not a number. */
  lemma ShownIsCaptured(n: Option<nat>, human: string, name: string, more: string)
    ensures FirstNumber([Shown(n, human) + name + "=" + more]) == if n.Some? then Some(ToDecimal(n.value)) else None
  {
    if n.Some? {
      var d, a := ToDecimal(n.value), " (" + human + ")";
      Regroup(d, " (", human, ")");
      Regroup(d, a, name + "=", more);
      assert d + a + name + "=" + more == d + a + (name + "=") + more;
      NumberIsCaptured(d, a + (name + "=") + more);
    } else {
      var s := "none" + name + "=" + more;
      assert s[0] == 'n';
    }
  }

  lemma ValuesArePlain(info: Info, h: seq<string>)
    requires NoEquals(h)
    ensures forall i | 0 <= i < 3 :: Plain(Values(info, h)[i])
    ensures Plain(Flag(info.allowExtend))
  {
    ShownHasNoEquals(info.lifetime, h[0]);
    ShownHasNoEquals(info.expires, h[1]);
    ShownHasNoEquals(info.prior, h[2]);
  }

  lemma LifetimeReadsBack(info: Info, h: seq<string>)
    requires NoEquals(h)
    ensures FirstNumber(After(SummaryLine(info, h), "lifetime_secs"))
         == if info.lifetime.Some? then Some(ToDecimal(info.lifetime.value)) else None
  {
    var v := Values(info, h);
    ValuesArePlain(info, h);
    LabelsArePlain();
    KeysArePlain();
    LifetimeLabel();
    FirstPlace(HEAD, v, LABELS, Flag(info.allowExtend), "lifetime_secs");
    ShownIsCaptured(info.lifetime, h[0], LABELS[0],
                    v[1] + LABELS[1] + "=" + (v[2] + LABELS[2] + "=" + Flag(info.allowExtend)));
  }

  lemma ExpiresReadsBack(info: Info, h: seq<string>)
    requires NoEquals(h)
    ensures FirstNumber(After(SummaryLine(info, h), "user_expires"))
         == if info.expires.Some? then Some(ToDecimal(info.expires.value)) else None
  {
    var v := Values(info, h);
    ValuesArePlain(info, h);
    LabelsArePlain();
    KeysArePlain();
    ExpiresLabel();
    SecondPlace(HEAD, v, LABELS, Flag(info.allowExtend), "user_expires");
    ShownIsCaptured(info.expires, h[1], LABELS[1], v[2] + LABELS[2] + "=" + Flag(info.allowExtend));
  }

  lemma FlagIsRead(b: bool)
    ensures FirstFlag([Flag(b)]) == Some(b)
  {
    assert "false"[..4][0] == 'f' && "true"[0] == 't';
  }

  lemma FlagReadsBack(info: Info, h: seq<string>)
    requires NoEquals(h)
    ensures FirstFlag(After(SummaryLine(info, h), "allow_extend_session")) == Some(info.allowExtend)
  {
    ValuesArePlain(info, h);
    LabelsArePlain();
    KeysArePlain();
    ExtendLabel();
    LastPlace(HEAD, Values(info, h), LABELS, Flag(info.allowExtend), "allow_extend_session");
    FlagIsRead(info.allowExtend);
  }

  lemma LabelsAre()
    ensures HEAD + "=" == "VPN session info: lifetime_secs="
    ensures LABELS[0] + "=" == ", user_expires=" && LABELS[1] + "=" == ", lifetime_warning_prior="
    ensures LABELS[2] + "=" == ", allow_extend_session="
  {
  }

  lemma InOrder(a: string, v: string, b: string, w: string, c: string, x: string, d: string, t: string)
    ensures Line(a, v + b, w + c, x + d, t)
         == (a + "=") + v + (b + "=") + w + (c + "=") + x + (d + "=") + t
  {
    assert Line(a, v + b, w + c, x + d, t) == a + "=" + v + b + "=" + w + c + "=" + x + d + "=" + t;
  }

  ghost predicate ShownAs(text: string, n: Option<nat>, human: string) {
    if n.None? then text == "none" else exists d :: Numeral(d, n.value) && text == d + " (" + human + ")"
  }

  lemma ShownText(n: Option<nat>, human: string)
    ensures ShownAs(Shown(n, human), n, human)
  {
    if n.Some? {
      ValueOfDecimal(n.value);
      NoLeadingZero(n.value);
      assert Numeral(ToDecimal(n.value), n.value);
    }
  }

  /** The text of the summary: four labelled values, a number with its reading or `none`. */
  lemma SummaryText(info: Info, h: seq<string>) returns (v: seq<string>)
    requires |h| == 3
    ensures |v| == 3
    ensures ShownAs(v[0], info.lifetime, h[0]) && ShownAs(v[1], info.expires, h[1]) && ShownAs(v[2], info.prior, h[2])
    ensures SummaryLine(info, h)
         == "VPN session info: lifetime_secs=" + v[0] + ", user_expires=" + v[1] + ", lifetime_warning_prior=" + v[2]
            + ", allow_extend_session=" + if info.allowExtend then "true" else "false"
  {
    v := Values(info, h);
    ShownText(info.lifetime, h[0]);
    ShownText(info.expires, h[1]);
    ShownText(info.prior, h[2]);
    LabelsAre();
    InOrder(HEAD, v[0], LABELS[0], v[1], LABELS[1], v[2], LABELS[2], Flag(info.allowExtend));
  }

  /** Lifetime, expiry and the extension flag come back; a missing number comes back missing. */
  lemma SummaryRoundTrip(info: Info, h: seq<string>)
    requires NoEquals(h)
    requires info.lifetime.Some? ==> info.lifetime.value <= U32_MAX
    requires info.expires.Some? ==> info.expires.value <= U32_MAX
    ensures ParseSessionInfo(SummaryLine(info, h)) == SessionInfo(info.lifetime, info.expires, info.allowExtend)
  {
    LifetimeReadsBack(info, h);
    ExpiresReadsBack(info, h);
    FlagReadsBack(info, h);
    if info.lifetime.Some? {
      ValueOfDecimal(info.lifetime.value);
    }
    if info.expires.Some? {
      ValueOfDecimal(info.expires.value);
    }
  }
}

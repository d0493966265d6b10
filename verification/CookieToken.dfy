/**
 * The gateway cookie token: printed by crates/gpapi/src/gateway/login.rs, read back as a form by
 * crates/gpapi/src/gateway/session.rs. Texts are byte strings, one character a byte.
 */
module CookieToken {
  import opened Options

  predicate IsBytes(s: string) {
    forall i | 0 <= i < |s| :: s[i] as int < 256
  }

  // ---------- percent-encoding (RFC 3986, sections 2.1 and 2.3) ----------

  predicate Unreserved(c: char) {
    'A' <= c <= 'Z' || 'a' <= c <= 'z' || '0' <= c <= '9' || c == '-' || c == '.' || c == '_' || c == '~'
  }

  function HexDigit(n: nat): char
    requires n < 16
  {
    "0123456789ABCDEF"[n]
  }

  function HexValue(c: char): Option<nat> {
    if '0' <= c <= '9' then Some(c as nat - '0' as nat)
    else if 'A' <= c <= 'F' then Some(c as nat - 'A' as nat + 10)
    else if 'a' <= c <= 'f' then Some(c as nat - 'a' as nat + 10)
    else None
  }

  function EncodeByte(c: char): string
    requires c as int < 256
  {
    if Unreserved(c) then [c] else ['%', HexDigit(c as nat / 16), HexDigit(c as nat % 16)]
  }

  function Encode(s: string): string
    requires IsBytes(s)
  {
    if s == "" then "" else EncodeByte(s[0]) + Encode(s[1..])
  }

  // ---------- the form reader (WHATWG URL Standard, section 5.1) ----------

  predicate Escape(s: string) {
    |s| >= 3 && s[0] == '%' && HexValue(s[1]).Some? && HexValue(s[2]).Some?
  }

  function FormDecode(s: string): string {
    if s == "" then ""
    else if Escape(s) then
      [(16 * HexValue(s[1]).value + HexValue(s[2]).value) as char] + FormDecode(s[3..])
    else [if s[0] == '+' then ' ' else s[0]] + FormDecode(s[1..])
  }

  /** The first occurrence of `c`, or the end. */
  function Find(s: string, c: char): (i: nat)
    ensures i <= |s| && c !in s[..i] && (i < |s| ==> s[i] == c)
  {
    if s == "" || s[0] == c then 0
    else
      var i := 1 + Find(s[1..], c);
      assert s[..i] == [s[0]] + s[1..][..i - 1];
      i
  }

  type Pair = (string, string)

  function ReadPair(piece: string): Pair {
    var i := Find(piece, '=');
    if i < |piece| then (FormDecode(piece[..i]), FormDecode(piece[i + 1..])) else (FormDecode(piece), "")
  }

  /** Pieces between ampersands; empty ones are skipped. */
  function ReadPairs(s: string): seq<Pair>
    decreases |s|
  {
    if s == "" then []
    else
      var i := Find(s, '&');
      var rest := if i < |s| then ReadPairs(s[i + 1..]) else [];
      if i == 0 then rest else [ReadPair(s[..i])] + rest
  }

  /** A later pair wins. */
  function ToMap(pairs: seq<Pair>): map<string, string> {
    if pairs == [] then map[] else
      var last := pairs[|pairs| - 1];
      ToMap(pairs[..|pairs| - 1])[last.0 := last.1]
  }

  function ParseForm(s: string): map<string, string> {
    ToMap(ReadPairs(s))
  }

  function Lookup(form: map<string, string>, key: string): Option<string> {
    if key in form then Some(form[key]) else None
  }

  // ---------- the printer ----------

  datatype Field = Field(index: nat, key: string, required: bool)

  const FIELDS: seq<Field> := [
    Field(1, "authcookie", true), Field(2, "persistent-cookie", false), Field(3, "portal", false),
    Field(4, "user", true), Field(7, "domain", false), Field(15, "preferred-ip", false),
    Field(18, "preferred-ipv6", false)]

  datatype LoginError = Undecodable(index: nat) | Missing(key: string)

  predicate Blank(arg: string) {
    arg == "" || arg == "(null)" || arg == "-1"
  }

  /** `decode` is the percent-decoder applied to login arguments; it may refuse. */
  type Decoder = string -> Option<string>

  /** The argument as the token keeps it. */
  function Kept(args: seq<string>, index: nat, decode: Decoder): Option<string> {
    if index < |args| && !Blank(args[index]) then decode(args[index]) else None
  }

  predicate Refuses(args: seq<string>, index: nat, decode: Decoder) {
    index < |args| && !Blank(args[index]) && decode(args[index]).None?
  }

  function ReadArgs(args: seq<string>, fields: seq<Field>, decode: Decoder): Result<seq<Pair>, LoginError> {
    if fields == [] then Ok([])
    else
      var field := fields[0];
      var value := Kept(args, field.index, decode);
      if Refuses(args, field.index, decode) then Err(Undecodable(field.index))
      else if field.required && value.None? then Err(Missing(field.key))
      else
        match ReadArgs(args, fields[1..], decode)
        case Err(e) => Err(e)
        case Ok(rest) => Ok((if value.Some? then [(field.key, value.value)] else []) + rest)
  }

  predicate Printable(pairs: seq<Pair>) {
    forall i | 0 <= i < |pairs| :: IsBytes(pairs[i].1)
  }

  function Print(pairs: seq<Pair>): string
    requires Printable(pairs)
  {
    if pairs == [] then ""
    else
      var first := pairs[0].0 + "=" + Encode(pairs[0].1);
      if |pairs| == 1 then first else first + "&" + Print(pairs[1..])
  }

  /** What the decoder accepts is text. */
  predicate Bytewise(args: seq<string>, decode: Decoder) {
    forall i | 0 <= i < |args| && decode(args[i]).Some? :: IsBytes(decode(args[i]).value)
  }

  lemma {:induction false} ReadArgsPrintable(args: seq<string>, fields: seq<Field>, decode: Decoder)
    requires Bytewise(args, decode) && ReadArgs(args, fields, decode).Ok?
    ensures Printable(ReadArgs(args, fields, decode).value)
  {
    if fields != [] {
      ReadArgsPrintable(args, fields[1..], decode);
    }
  }

  /** The token and the pairs it is made from. */
  function BuildGatewayToken(args: seq<string>, computer: string, decode: Decoder): Result<string, LoginError>
    requires Bytewise(args, decode) && IsBytes(computer)
  {
    match ReadArgs(args, FIELDS, decode)
    case Err(e) => Err(e)
    case Ok(pairs) =>
      ReadArgsPrintable(args, FIELDS, decode);
      Ok(Print(pairs + [("computer", computer)]))
  }

  // ---------- one value ----------

  lemma DecodeOne(c: char, t: string)
    requires c as int < 256
    ensures FormDecode(EncodeByte(c) + t) == [c] + FormDecode(t)
  {
    var s := EncodeByte(c) + t;
    if Unreserved(c) {
      assert s[0] == c && s[1..] == t;
    } else {
      var hi, lo := c as nat / 16, c as nat % 16;
      assert s[0] == '%' && s[1] == HexDigit(hi) && s[2] == HexDigit(lo) && s[3..] == t;
      assert HexValue(s[1]) == Some(hi) && HexValue(s[2]) == Some(lo);
    }
  }

  /** Percent-encoding loses nothing. */
  lemma {:induction false} DecodeEncoded(s: string)
    requires IsBytes(s)
    ensures FormDecode(Encode(s)) == s
  {
    if s != "" {
      DecodeEncoded(s[1..]);
      DecodeOne(s[0], Encode(s[1..]));
    }
  }

  /** Unreserved text is printed as it is. */
  lemma {:induction false} PlainEncodes(s: string)
    requires IsBytes(s) && forall i | 0 <= i < |s| :: Unreserved(s[i])
    ensures Encode(s) == s
  {
    if s != "" {
      PlainEncodes(s[1..]);
    }
  }

  /** Any other byte is a percent sign and two digits, its value in upper-case base 16. */
  lemma OthersAreEscaped(c: char)
    requires c as int < 256 && !Unreserved(c)
    ensures IsBytes([c]) && |Encode([c])| == 3 && Encode([c])[0] == '%'
    ensures forall i | 1 <= i < 3 :: '0' <= Encode([c])[i] <= '9' || 'A' <= Encode([c])[i] <= 'F'
    ensures HexValue(Encode([c])[1]) == Some(c as nat / 16) && HexValue(Encode([c])[2]) == Some(c as nat % 16)
  {
    assert [c][1..] == "" && EncodeByte(c) + "" == EncodeByte(c);
    assert Encode([c]) == EncodeByte(c) + Encode("");
    HexDigitReads(c as nat / 16);
    HexDigitReads(c as nat % 16);
  }

  lemma HexDigitReads(n: nat)
    requires n < 16
    ensures HexValue(HexDigit(n)) == Some(n)
    ensures '0' <= HexDigit(n) <= '9' || 'A' <= HexDigit(n) <= 'F'
  {
  }

  predicate Safe(s: string) {
    forall i | 0 <= i < |s| :: Unreserved(s[i]) || s[i] == '%'
  }

  lemma {:induction false} EncodedIsSafe(s: string)
    requires IsBytes(s)
    ensures Safe(Encode(s))
  {
    if s != "" {
      EncodedIsSafe(s[1..]);
      forall n: nat | n < 16 ensures Unreserved(HexDigit(n)) {
      }
    }
  }

  predicate Plain(key: string) {
    key != "" && forall i | 0 <= i < |key| :: Unreserved(key[i])
  }

  lemma {:induction false} PlainDecodes(key: string)
    requires forall i | 0 <= i < |key| :: Unreserved(key[i])
    ensures FormDecode(key) == key
  {
    if key != "" {
      PlainDecodes(key[1..]);
    }
  }

  // ---------- one pair, and the pairs ----------

  lemma FindAt(a: string, c: char, b: string)
    requires c !in a
    ensures Find(a + [c] + b, c) == |a|
  {
    var s := a + [c] + b;
    var i := Find(s, c);
    assert s[|a|] == c;
    forall j | 0 <= j < |a| ensures s[j] != c {
      assert s[j] == a[j];
    }
    forall j | 0 <= j < i ensures s[j] != c {
      assert s[j] == s[..i][j];
    }
  }

  lemma FindNone(a: string, c: char)
    requires c !in a
    ensures Find(a, c) == |a|
  {
  }

  lemma PairReadsBack(pair: Pair)
    requires Plain(pair.0) && IsBytes(pair.1)
    ensures ReadPair(pair.0 + "=" + Encode(pair.1)) == pair
  {
    var value := Encode(pair.1);
    FindAt(pair.0, '=', value);
    var piece := pair.0 + "=" + value;
    assert piece == pair.0 + ['='] + value;
    assert piece[..|pair.0|] == pair.0 && piece[|pair.0| + 1..] == value;
    PlainDecodes(pair.0);
    DecodeEncoded(pair.1);
  }

  predicate PlainKeys(pairs: seq<Pair>) {
    forall i | 0 <= i < |pairs| :: Plain(pairs[i].0)
  }

  lemma NoAmpersand(pair: Pair)
    requires Plain(pair.0) && IsBytes(pair.1)
    ensures '&' !in pair.0 + "=" + Encode(pair.1)
  {
    EncodedIsSafe(pair.1);
  }

  lemma ReadPairsCons(first: string, rest: string)
    requires first != "" && '&' !in first
    ensures ReadPairs(first + "&" + rest) == [ReadPair(first)] + ReadPairs(rest)
  {
    var all := first + "&" + rest;
    FindAt(first, '&', rest);
    assert all == first + ['&'] + rest;
    assert all[..|first|] == first && all[|first| + 1..] == rest;
  }

  lemma ReadPairsOne(first: string)
    requires first != "" && '&' !in first
    ensures ReadPairs(first) == [ReadPair(first)]
  {
    FindNone(first, '&');
    assert first[..|first|] == first;
  }

  /** The form reader undoes the printer, pair by pair. */
  lemma {:induction false} PairsReadBack(pairs: seq<Pair>)
    requires Printable(pairs) && PlainKeys(pairs)
    ensures ReadPairs(Print(pairs)) == pairs
  {
    if pairs != [] {
      var first := pairs[0].0 + "=" + Encode(pairs[0].1);
      PairReadsBack(pairs[0]);
      NoAmpersand(pairs[0]);
      if |pairs| == 1 {
        ReadPairsOne(first);
      } else {
        ReadPairsCons(first, Print(pairs[1..]));
        PairsReadBack(pairs[1..]);
      }
    }
  }

  // ---------- the map ----------

  lemma {:induction false} MapOfCons(first: Pair, rest: seq<Pair>, key: string)
    ensures Lookup(ToMap([first] + rest), key)
         == if Lookup(ToMap(rest), key).Some? then Lookup(ToMap(rest), key)
            else if key == first.0 then Some(first.1) else None
  {
    var all := [first] + rest;
    if rest == [] {
      assert all[..0] == [];
    } else {
      var n := |rest| - 1;
      assert all[..|all| - 1] == [first] + rest[..n];
      MapOfCons(first, rest[..n], key);
    }
  }

  predicate DistinctKeys(fields: seq<Field>) {
    forall i, j | 0 <= i < j < |fields| :: fields[i].key != fields[j].key
  }

  /** The pairs hold each kept argument under its key, and nothing else. */
  lemma {:induction false} ReadArgsLookup(args: seq<string>, fields: seq<Field>, decode: Decoder, key: string)
    requires DistinctKeys(fields) && ReadArgs(args, fields, decode).Ok?
    ensures var form := ToMap(ReadArgs(args, fields, decode).value);
            && (forall i | 0 <= i < |fields| :: key == fields[i].key ==>
                  Lookup(form, key) == Kept(args, fields[i].index, decode))
            && ((forall i | 0 <= i < |fields| :: key != fields[i].key) ==> key !in form)
  {
    if fields != [] {
      var rest := ReadArgs(args, fields[1..], decode).value;
      ReadArgsLookup(args, fields[1..], decode, key);
      var value := Kept(args, fields[0].index, decode);
      if value.Some? {
        MapOfCons((fields[0].key, value.value), rest, key);
      } else {
        assert [] + rest == rest;
      }
      assert forall i | 0 < i < |fields| :: fields[i] == fields[1..][i - 1];
      assert forall i | 0 <= i < |fields| - 1 :: fields[1..][i] == fields[i + 1];
    }
  }

  lemma {:induction false} ReadArgsPlain(args: seq<string>, fields: seq<Field>, decode: Decoder)
    requires ReadArgs(args, fields, decode).Ok? && forall i | 0 <= i < |fields| :: Plain(fields[i].key)
    ensures PlainKeys(ReadArgs(args, fields, decode).value)
  {
    if fields != [] {
      assert Plain(fields[0].key);
      ReadArgsPlain(args, fields[1..], decode);
    }
  }

  lemma FieldsAreProper()
    ensures DistinctKeys(FIELDS) && forall i | 0 <= i < |FIELDS| :: Plain(FIELDS[i].key) && FIELDS[i].key != "computer"
    ensures Plain("computer")
  {
  }

  lemma TokenPairs(args: seq<string>, computer: string, decode: Decoder)
    requires Bytewise(args, decode) && IsBytes(computer) && BuildGatewayToken(args, computer, decode).Ok?
    ensures ReadArgs(args, FIELDS, decode).Ok?
    ensures ParseForm(BuildGatewayToken(args, computer, decode).value)
         == ToMap(ReadArgs(args, FIELDS, decode).value)["computer" := computer]
  {
    var pairs := ReadArgs(args, FIELDS, decode).value;
    var all := pairs + [("computer", computer)];
    FieldsAreProper();
    ReadArgsPrintable(args, FIELDS, decode);
    ReadArgsPlain(args, FIELDS, decode);
    PairsReadBack(all);
    assert all[..|all| - 1] == pairs;
  }

  lemma TokenLookup(args: seq<string>, computer: string, decode: Decoder, token: string)
    requires Bytewise(args, decode) && IsBytes(computer) && BuildGatewayToken(args, computer, decode) == Ok(token)
    ensures forall i | 0 <= i < |FIELDS| ::
              Lookup(ParseForm(token), FIELDS[i].key) == Kept(args, FIELDS[i].index, decode)
    ensures Lookup(ParseForm(token), "computer") == Some(computer)
    ensures forall key | key in ParseForm(token) ::
              key == "computer" || exists i :: 0 <= i < |FIELDS| && FIELDS[i].key == key
  {
    TokenPairs(args, computer, decode);
    FieldsAreProper();
    forall i | 0 <= i < |FIELDS|
      ensures Lookup(ParseForm(token), FIELDS[i].key) == Kept(args, FIELDS[i].index, decode) {
      ReadArgsLookup(args, FIELDS, decode, FIELDS[i].key);
    }
    forall key | key in ParseForm(token) && key != "computer"
      ensures exists i :: 0 <= i < |FIELDS| && FIELDS[i].key == key {
      ReadArgsLookup(args, FIELDS, decode, key);
    }
  }

  /** The login arguments a form holds, key by key, the portal aside. */
  predicate SaysLogin(form: map<string, string>, args: seq<string>, computer: string, decode: Decoder) {
    && Lookup(form, "authcookie") == Kept(args, 1, decode)
    && Lookup(form, "persistent-cookie") == Kept(args, 2, decode)
    && Lookup(form, "user") == Kept(args, 4, decode)
    && Lookup(form, "domain") == Kept(args, 7, decode)
    && Lookup(form, "preferred-ip") == Kept(args, 15, decode)
    && Lookup(form, "preferred-ipv6") == Kept(args, 18, decode)
    && Lookup(form, "computer") == Some(computer)
  }

  lemma FieldsAre()
    ensures |FIELDS| == 7
    ensures FIELDS[0] == Field(1, "authcookie", true) && FIELDS[1] == Field(2, "persistent-cookie", false)
    ensures FIELDS[2] == Field(3, "portal", false) && FIELDS[3] == Field(4, "user", true)
    ensures FIELDS[4] == Field(7, "domain", false) && FIELDS[5] == Field(15, "preferred-ip", false)
    ensures FIELDS[6] == Field(18, "preferred-ipv6", false)
  {
  }

  lemma KeptMeans(args: seq<string>, index: nat, decode: Decoder, value: string)
    ensures Kept(args, index, decode) == Some(value) <==>
              index < |args| && args[index] != "" && args[index] != "(null)" && args[index] != "-1"
              && decode(args[index]) == Some(value)
  {
  }

  /**
   * Reading the token back as a form gives exactly what login kept: each listed argument that is
   * present and not blank, decoded, under its key; the computer name; no other key.
   */
  lemma TokenRoundTrip(args: seq<string>, computer: string, decode: Decoder, token: string)
    requires Bytewise(args, decode) && IsBytes(computer) && BuildGatewayToken(args, computer, decode) == Ok(token)
    ensures SaysLogin(ParseForm(token), args, computer, decode)
    ensures Lookup(ParseForm(token), "portal") == Kept(args, 3, decode)
    ensures forall key | key in ParseForm(token) ::
              key in ["authcookie", "persistent-cookie", "portal", "user", "domain", "preferred-ip",
                      "preferred-ipv6", "computer"]
  {
    TokenLookup(args, computer, decode, token);
    FieldsAre();
    forall key | key in ParseForm(token)
      ensures key in ["authcookie", "persistent-cookie", "portal", "user", "domain", "preferred-ip",
                      "preferred-ipv6", "computer"] {
      if key != "computer" {
        var i :| 0 <= i < |FIELDS| && FIELDS[i].key == key;
        OneOfEight(i);
      }
    }
  }

  lemma OneOfEight(i: nat)
    requires i < |FIELDS|
    ensures FIELDS[i].key in ["authcookie", "persistent-cookie", "portal", "user", "domain", "preferred-ip",
                              "preferred-ipv6", "computer"]
  {
  }

  lemma {:induction false} ReadArgsSucceeds(args: seq<string>, fields: seq<Field>, decode: Decoder)
    ensures ReadArgs(args, fields, decode).Ok? <==>
              forall i | 0 <= i < |fields| ::
                !Refuses(args, fields[i].index, decode)
                && (fields[i].required ==> Kept(args, fields[i].index, decode).Some?)
  {
    if fields != [] {
      ReadArgsSucceeds(args, fields[1..], decode);
      assert forall i | 0 < i < |fields| :: fields[i] == fields[1..][i - 1];
      assert forall i | 0 <= i < |fields| - 1 :: fields[1..][i] == fields[i + 1];
    }
  }

  /** A token is made exactly when both required arguments are there and nothing is undecodable. */
  lemma TokenIsMadeIff(args: seq<string>, computer: string, decode: Decoder)
    requires Bytewise(args, decode) && IsBytes(computer)
    ensures BuildGatewayToken(args, computer, decode).Ok? <==>
              Kept(args, 1, decode).Some? && Kept(args, 4, decode).Some?
              && forall i | i in [2, 3, 7, 15, 18] :: !Refuses(args, i, decode)
  {
    ReadArgsSucceeds(args, FIELDS, decode);
    forall i | i in [2, 3, 7, 15, 18] ensures exists j :: 0 <= j < |FIELDS| && FIELDS[j].index == i {
      assert FIELDS[1].index == 2 && FIELDS[2].index == 3 && FIELDS[4].index == 7
          && FIELDS[5].index == 15 && FIELDS[6].index == 18;
    }
    assert FIELDS[0].index == 1 && FIELDS[3].index == 4;
  }

  predicate Fine(args: seq<string>, field: Field, decode: Decoder) {
    !Refuses(args, field.index, decode) && (field.required ==> Kept(args, field.index, decode).Some?)
  }

  lemma {:induction false} FirstFault(args: seq<string>, fields: seq<Field>, decode: Decoder) returns (i: nat)
    requires ReadArgs(args, fields, decode).Err?
    ensures i < |fields| && !Fine(args, fields[i], decode)
    ensures forall j | 0 <= j < i :: Fine(args, fields[j], decode)
    ensures ReadArgs(args, fields, decode).error
         == if Refuses(args, fields[i].index, decode) then Undecodable(fields[i].index) else Missing(fields[i].key)
  {
    if Fine(args, fields[0], decode) {
      i := FirstFault(args, fields[1..], decode);
      assert forall j | 0 <= j < |fields| - 1 :: fields[1..][j] == fields[j + 1];
      i := i + 1;
    } else {
      i := 0;
    }
  }

  /** Without a token the error is the first fault in order: which argument, or which required key. */
  lemma TokenError(args: seq<string>, computer: string, decode: Decoder)
    requires Bytewise(args, decode) && IsBytes(computer) && BuildGatewayToken(args, computer, decode).Err?
    ensures BuildGatewayToken(args, computer, decode).error
         == if Refuses(args, 1, decode) then Undecodable(1)
            else if Kept(args, 1, decode).None? then Missing("authcookie")
            else if Refuses(args, 2, decode) then Undecodable(2)
            else if Refuses(args, 3, decode) then Undecodable(3)
            else if Refuses(args, 4, decode) then Undecodable(4)
            else if Kept(args, 4, decode).None? then Missing("user")
            else if Refuses(args, 7, decode) then Undecodable(7)
            else if Refuses(args, 15, decode) then Undecodable(15)
            else Undecodable(18)
  {
    FieldsAre();
    var i := FirstFault(args, FIELDS, decode);
    assert i > 0 ==> Fine(args, FIELDS[0], decode);
    assert i > 1 ==> Fine(args, FIELDS[1], decode);
    assert i > 2 ==> Fine(args, FIELDS[2], decode);
    assert i > 3 ==> Fine(args, FIELDS[3], decode);
    assert i > 4 ==> Fine(args, FIELDS[4], decode);
    assert i > 5 ==> Fine(args, FIELDS[5], decode);
  }

  // ---------- the extend-session form ----------

  const EXTEND_MESSAGE := "User Session Extension"
  const EXTEND_COMMENT := "User extends the login lifetime"

  /** Four keys set, every other one as it was. */
  predicate Extends(base: map<string, string>, form: map<string, string>, portal: string, timestamp: string) {
    var added := map["portal" := portal, "timestamp" := timestamp, "message" := EXTEND_MESSAGE,
                     "comment" := EXTEND_COMMENT];
    && form.Keys == base.Keys + added.Keys
    && forall key | key in form :: form[key] == if key in added then added[key] else base[key]
  }

  method BuildExtendSessionForm(cookie: string, portal: string, timestamp: string)
      returns (form: map<string, string>)
    ensures Extends(ParseForm(cookie), form, portal, timestamp)
  {
    form := ParseForm(cookie);
    form := form["portal" := portal];
    form := form["timestamp" := timestamp];
    form := form["message" := EXTEND_MESSAGE];
    form := form["comment" := EXTEND_COMMENT];
  }

  lemma ExtendedLookup(base: map<string, string>, form: map<string, string>, portal: string, timestamp: string,
        key: string)
    requires Extends(base, form, portal, timestamp) && key !in ["portal", "timestamp", "message", "comment"]
    ensures Lookup(form, key) == Lookup(base, key)
  {
    assert key !in map["portal" := portal, "timestamp" := timestamp, "message" := EXTEND_MESSAGE,
                       "comment" := EXTEND_COMMENT];
  }

  lemma ExtendedPortal(base: map<string, string>, form: map<string, string>, portal: string, timestamp: string)
    requires Extends(base, form, portal, timestamp)
    ensures Lookup(form, "portal") == Some(portal)
  {
  }

  lemma AddedTexts(base: map<string, string>, form: map<string, string>, portal: string, timestamp: string)
    requires Extends(base, form, portal, timestamp)
    ensures Lookup(form, "timestamp") == Some(timestamp)
    ensures Lookup(form, "message") == Some("User Session Extension")
    ensures Lookup(form, "comment") == Some("User extends the login lifetime")
  {
  }

  lemma LoginKeysAreNotAdded(key: string)
    requires key in ["authcookie", "persistent-cookie", "user", "domain", "preferred-ip", "preferred-ipv6", "computer"]
    ensures key !in ["portal", "timestamp", "message", "comment"]
  {
  }

  /** From login to renewal: of what the token says, only the portal is overridden. */
  lemma ExtensionKeepsLogin(args: seq<string>, computer: string, decode: Decoder, token: string, portal: string,
        timestamp: string, form: map<string, string>)
    requires Bytewise(args, decode) && IsBytes(computer) && BuildGatewayToken(args, computer, decode) == Ok(token)
    requires Extends(ParseForm(token), form, portal, timestamp)
    ensures SaysLogin(form, args, computer, decode)
    ensures Lookup(form, "portal") == Some(portal) && Lookup(form, "timestamp") == Some(timestamp)
    ensures Lookup(form, "message") == Some("User Session Extension")
    ensures Lookup(form, "comment") == Some("User extends the login lifetime")
  {
    TokenRoundTrip(args, computer, decode, token);
    ExtendedPortal(ParseForm(token), form, portal, timestamp);
    AddedTexts(ParseForm(token), form, portal, timestamp);
    KeepsLogin(ParseForm(token), form, portal, timestamp);
  }

  lemma KeepsLogin(base: map<string, string>, form: map<string, string>, portal: string, timestamp: string)
    requires Extends(base, form, portal, timestamp)
    ensures Lookup(form, "authcookie") == Lookup(base, "authcookie")
    ensures Lookup(form, "persistent-cookie") == Lookup(base, "persistent-cookie")
    ensures Lookup(form, "user") == Lookup(base, "user") && Lookup(form, "domain") == Lookup(base, "domain")
    ensures Lookup(form, "preferred-ip") == Lookup(base, "preferred-ip")
    ensures Lookup(form, "preferred-ipv6") == Lookup(base, "preferred-ipv6")
    ensures Lookup(form, "computer") == Lookup(base, "computer")
  {
    forall key | key in ["authcookie", "persistent-cookie", "user", "domain", "preferred-ip", "preferred-ipv6",
                         "computer"]
      ensures Lookup(form, key) == Lookup(base, key) {
      LoginKeysAreNotAdded(key);
      ExtendedLookup(base, form, portal, timestamp, key);
    }
  }
}

/** `tunnelCommand` of GpclientCommand.swift, and its agreement with the helper's validator. */
module CommandBuilder {
  import opened Options
  import opened Decimal
  import opened RequestGrammar
  import opened RequestValidator

  datatype AuthMethod = Credentials | BrowserSSO | ClientCertificate

  /** The fields of `ConnectionProfile` a tunnel command depends on. */
  datatype Profile = Profile(
    portal: string,
    selectedGatewayServer: Option<string>,
    username: string,
    authMethod: AuthMethod,
    certificatePath: Option<string>,
    sslKeyPath: Option<string>,
    disableIPv6: bool,
    noDTLS: bool,
    ignoreTLSErrors: bool,
    fixOpenSSL: bool,
    mtu: int,
    forceDPD: int,
    reconnectTimeout: int,
    enableHIP: bool,
    customHIPScriptPath: Option<string>,
    asGateway: bool,
    vpncScriptPath: Option<string>)

  datatype CommandLine = CommandLine(executable: string, arguments: seq<string>, stdin: Option<string>)

  /** Some, unless missing or empty. */
  function NonEmpty(value: Option<string>): Option<string> {
    if value.Some? && value.value != "" then value else None
  }

  /** Whether a flag is emitted, and with what value. */
  datatype Presence = Omitted | Bare | With(value: string)

  function FlagIf(given: bool): Presence {
    if given then Bare else Omitted
  }

  function ValueIf(value: Option<string>): Presence {
    if value.Some? then With(value.value) else Omitted
  }

  function NumberIf(n: int): Presence {
    if n > 0 then With(ToDecimal(n)) else Omitted
  }

  function User(profile: Profile, authResult: Option<string>): Option<string> {
    if authResult.None? && !profile.authMethod.BrowserSSO? && profile.username != "" then
      Some(profile.username)
    else None
  }

  predicate SendsPassword(profile: Profile, password: Option<string>, authResult: Option<string>) {
    authResult.None? && profile.authMethod.Credentials? && NonEmpty(password).Some?
  }

  function Gateway(profile: Profile): Option<string> {
    if profile.asGateway then None else NonEmpty(profile.selectedGatewayServer)
  }

  function HipScript(profile: Profile, hipScriptPath: Option<string>): Option<string> {
    NonEmpty(if hipScriptPath.Some? then hipScriptPath else profile.customHIPScriptPath)
  }

  function Timeout(profile: Profile): int {
    if profile.reconnectTimeout == 300 then 0 else profile.reconnectTimeout
  }

  /** The flags in the order the builder emits them: global ones, then the subcommand's. */
  const GLOBAL_NAMES: seq<string> := ["--log-format", "--fix-openssl", "--ignore-tls-errors"]

  const REST_NAMES: seq<string> := [
    "--as-gateway", "--gateway", "--auto-gateway",
    "--cookie-on-stdin", "--user", "--passwd-on-stdin",
    "--certificate", "--sslkey", "--script", "--hip",
    "--disable-ipv6", "--no-dtls", "--mtu", "--force-dpd", "--reconnect-timeout"]

  function Globals(profile: Profile): (s: seq<Presence>)
    ensures |s| == 3
  {
    [With("json"), FlagIf(profile.fixOpenSSL), FlagIf(profile.ignoreTLSErrors)]
  }

  /** One entry for each of REST_NAMES. */
  function Rest(profile: Profile, password: Option<string>, authResult: Option<string>, hipScriptPath: Option<string>)
    : (s: seq<Presence>)
    ensures |s| == 15
  {
    var hip := HipScript(profile, hipScriptPath);
    [FlagIf(profile.asGateway),
     ValueIf(Gateway(profile)),
     FlagIf(!profile.asGateway && Gateway(profile).None?),
     FlagIf(authResult.Some?),
     ValueIf(User(profile, authResult)),
     FlagIf(SendsPassword(profile, password, authResult)),
     ValueIf(NonEmpty(profile.certificatePath)),
     ValueIf(NonEmpty(profile.sslKeyPath)),
     ValueIf(NonEmpty(profile.vpncScriptPath)),
     if !profile.enableHIP then Omitted else if hip.Some? then With(hip.value) else Bare,
     FlagIf(profile.disableIPv6),
     FlagIf(profile.noDTLS),
     NumberIf(profile.mtu),
     NumberIf(profile.forceDPD),
     NumberIf(Timeout(profile))]
  }

  function Emit(name: string, presence: Presence): seq<Item> {
    match presence
    case Omitted => []
    case Bare => [Item(name, None)]
    case With(v) => [Item(name, Some(v))]
  }

  /** The flags present among the first `k` names. */
  function Pick(names: seq<string>, presences: seq<Presence>, k: nat): seq<Item>
    requires k <= |names| == |presences|
  {
    if k == 0 then [] else Pick(names, presences, k - 1) + Emit(names[k - 1], presences[k - 1])
  }

  /** The request the builder means. */
  function TunnelRequest(profile: Profile, password: Option<string>, authResult: Option<string>,
          hipScriptPath: Option<string>)
    : Request
  {
    NamesAre();
    Connect(Pick(GLOBAL_NAMES, Globals(profile), 3),
            profile.portal,
            Pick(REST_NAMES, Rest(profile, password, authResult, hipScriptPath), 15))
  }

  lemma NamesAre()
    ensures |GLOBAL_NAMES| == 3 && |REST_NAMES| == 15
    ensures GLOBAL_NAMES[0] == "--log-format" && GLOBAL_NAMES[1] == "--fix-openssl"
        && GLOBAL_NAMES[2] == "--ignore-tls-errors"
    ensures REST_NAMES[0] == "--as-gateway" && REST_NAMES[1] == "--gateway" && REST_NAMES[2] == "--auto-gateway"
    ensures REST_NAMES[3] == "--cookie-on-stdin" && REST_NAMES[4] == "--user" && REST_NAMES[5] == "--passwd-on-stdin"
    ensures REST_NAMES[6] == "--certificate" && REST_NAMES[7] == "--sslkey" && REST_NAMES[8] == "--script"
    ensures REST_NAMES[9] == "--hip" && REST_NAMES[10] == "--disable-ipv6" && REST_NAMES[11] == "--no-dtls"
    ensures REST_NAMES[12] == "--mtu" && REST_NAMES[13] == "--force-dpd" && REST_NAMES[14] == "--reconnect-timeout"
  {
  }

  /** The flag table agrees with the builder: no value, or one, after each flag. */
  lemma GlobalTable(k: nat)
    requires k < |GLOBAL_NAMES|
    ensures GLOBAL_NAMES[k] in ALLOWED_TUNNEL_FLAGS && GLOBAL_NAMES[k] in GLOBAL_FLAGS && Dashed(GLOBAL_NAMES[k])
    ensures GLOBAL_NAMES[k] != HIP
    ensures ALLOWED_TUNNEL_FLAGS[GLOBAL_NAMES[k]] == if k == 0 then 1 else 0
  {
    NamesAre();
    GlobalsAreNotHip();
  }

  lemma RestTable(k: nat)
    requires k < |REST_NAMES|
    ensures REST_NAMES[k] in ALLOWED_TUNNEL_FLAGS && Dashed(REST_NAMES[k])
    ensures REST_NAMES[k] == HIP <==> k == 9
    ensures ALLOWED_TUNNEL_FLAGS[REST_NAMES[k]] == if k in {1, 4, 6, 7, 8, 12, 13, 14} then 1 else 0
  {
    NamesAre();
  }

  function Code(flag: string): (nat, char)
  {
    (|flag|, if |flag| > 3 then flag[3] else ' ')
  }

  lemma GlobalCodes()
    ensures |GLOBAL_NAMES| == 3
    ensures Code(GLOBAL_NAMES[0]) == (12, 'o') && Code(GLOBAL_NAMES[1]) == (13, 'i')
        && Code(GLOBAL_NAMES[2]) == (19, 'g')
  {
  }

  lemma RestCodes()
    ensures |REST_NAMES| == 15
    ensures Code(REST_NAMES[0]) == (12, 's') && Code(REST_NAMES[1]) == (9, 'a') && Code(REST_NAMES[2]) == (14, 'u')
    ensures Code(REST_NAMES[3]) == (17, 'o') && Code(REST_NAMES[4]) == (6, 's') && Code(REST_NAMES[5]) == (17, 'a')
    ensures Code(REST_NAMES[6]) == (13, 'e') && Code(REST_NAMES[7]) == (8, 's') && Code(REST_NAMES[8]) == (8, 'c')
    ensures Code(REST_NAMES[9]) == (5, 'i') && Code(REST_NAMES[10]) == (14, 'i') && Code(REST_NAMES[11]) == (9, 'o')
    ensures Code(REST_NAMES[12]) == (5, 't') && Code(REST_NAMES[13]) == (11, 'o') && Code(REST_NAMES[14]) == (19, 'e')
  {
  }

  /** The builder's flags are pairwise different. */
  lemma NamesAreDistinct()
    ensures Distinct(GLOBAL_NAMES) && Distinct(REST_NAMES)
    ensures forall i, j | 0 <= i < |GLOBAL_NAMES| && 0 <= j < |REST_NAMES| :: GLOBAL_NAMES[i] != REST_NAMES[j]
  {
    GlobalCodes();
    RestCodes();
    assert forall i, j | 0 <= i < j < 3 :: Code(GLOBAL_NAMES[i]) != Code(GLOBAL_NAMES[j]);
    assert forall i, j | 0 <= i < j < 15 :: Code(REST_NAMES[i]) != Code(REST_NAMES[j]);
    assert forall i, j | 0 <= i < 3 && 0 <= j < 15 :: Code(GLOBAL_NAMES[i]) != Code(REST_NAMES[j]);
  }

  /** Where a picked flag comes from: `where[i]` is its name's position, and positions increase. */
  lemma {:induction false} PickedPositions(names: seq<string>, ps: seq<Presence>, k: nat) returns (where: seq<nat>)
    requires k <= |names| == |ps|
    ensures |where| == |Pick(names, ps, k)|
    ensures forall i | 0 <= i < |where| :: where[i] < k && Pick(names, ps, k)[i].flag == names[where[i]]
    ensures forall i, j | 0 <= i < j < |where| :: where[i] < where[j]
  {
    where := [];
    if k > 0 {
      where := PickedPositions(names, ps, k - 1);
      if !ps[k - 1].Omitted? {
        where := where + [k - 1];
      }
    }
  }

  lemma PickIsFresh(names: seq<string>, ps: seq<Presence>)
    requires |names| == |ps| && Distinct(names)
    ensures Fresh(Pick(names, ps, |names|), {})
  {
    var where := PickedPositions(names, ps, |names|);
  }

  lemma NamesApart(itemsA: seq<Item>, itemsB: seq<Item>, a: seq<string>, b: seq<string>, whereA: seq<nat>,
          whereB: seq<nat>)
    requires |whereA| == |itemsA| && |whereB| == |itemsB|
    requires forall i | 0 <= i < |itemsA| :: whereA[i] < |a| && itemsA[i].flag == a[whereA[i]]
    requires forall i | 0 <= i < |itemsB| :: whereB[i] < |b| && itemsB[i].flag == b[whereB[i]]
    requires forall i, j | 0 <= i < |a| && 0 <= j < |b| :: a[i] != b[j]
    ensures forall i | 0 <= i < |itemsB| :: itemsB[i].flag !in FlagSet(itemsA)
  {
    forall i, j | 0 <= i < |itemsB| && 0 <= j < |itemsA|
      ensures itemsB[i].flag != itemsA[j].flag
    {
      assert a[whereA[j]] != b[whereB[i]];
    }
  }

  lemma PicksAreApart(a: seq<string>, pa: seq<Presence>, b: seq<string>, pb: seq<Presence>)
    requires |a| == |pa| && |b| == |pb| && Distinct(b)
    requires forall i, j | 0 <= i < |a| && 0 <= j < |b| :: a[i] != b[j]
    ensures Fresh(Pick(b, pb, |b|), FlagSet(Pick(a, pa, |a|)))
  {
    PickIsFresh(b, pb);
    var whereA := PickedPositions(a, pa, |a|);
    var whereB := PickedPositions(b, pb, |b|);
    NamesApart(Pick(a, pa, |a|), Pick(b, pb, |b|), a, b, whereA, whereB);
  }

  lemma RequestIsDistinct(profile: Profile, password: Option<string>, authResult: Option<string>,
          hipScriptPath: Option<string>)
    ensures var r := TunnelRequest(profile, password, authResult, hipScriptPath);
            Distinct(Flags(r.globals) + Flags(r.rest))
  {
    NamesAre();
    NamesAreDistinct();
    var r := TunnelRequest(profile, password, authResult, hipScriptPath);
    PickIsFresh(GLOBAL_NAMES, Globals(profile));
    PicksAreApart(GLOBAL_NAMES, Globals(profile), REST_NAMES, Rest(profile, password, authResult, hipScriptPath));
    FreshAfterIsDistinct(r.globals, r.rest);
  }

  predicate SlotOk(p: Policy, name: string, presence: Presence, uid: nat, globalOnly: bool) {
    match presence
    case Omitted => true
    case Bare => ItemOk(p, Item(name, None), uid, globalOnly)
    case With(v) => ItemOk(p, Item(name, Some(v)), uid, globalOnly)
  }

  predicate SlotsOk(p: Policy, names: seq<string>, ps: seq<Presence>, uid: nat, globalOnly: bool)
    requires |names| == |ps|
  {
    forall k | 0 <= k < |names| :: SlotOk(p, names[k], ps[k], uid, globalOnly)
  }

  lemma AllOkAppend(p: Policy, a: seq<Item>, b: seq<Item>, uid: nat, globalOnly: bool)
    ensures AllOk(p, a + b, uid, globalOnly) <==> AllOk(p, a, uid, globalOnly) && AllOk(p, b, uid, globalOnly)
  {
    assert forall i | 0 <= i < |a| :: (a + b)[i] == a[i];
    assert forall i | 0 <= i < |b| :: (a + b)[|a| + i] == b[i];
  }

  lemma EmitOk(p: Policy, name: string, presence: Presence, uid: nat, globalOnly: bool)
    ensures AllOk(p, Emit(name, presence), uid, globalOnly) <==> SlotOk(p, name, presence, uid, globalOnly)
  {
    var items := Emit(name, presence);
    if !presence.Omitted? {
      assert |items| == 1 && items[0].flag == name;
    }
  }

  lemma {:induction false} PickOk(p: Policy, names: seq<string>, ps: seq<Presence>, k: nat, uid: nat, globalOnly: bool)
    requires k <= |names| == |ps|
    ensures AllOk(p, Pick(names, ps, k), uid, globalOnly)
       <==> forall i | 0 <= i < k :: SlotOk(p, names[i], ps[i], uid, globalOnly)
    decreases k
  {
    if k > 0 {
      PickOk(p, names, ps, k - 1, uid, globalOnly);
      EmitOk(p, names[k - 1], ps[k - 1], uid, globalOnly);
      AllOkAppend(p, Pick(names, ps, k - 1), Emit(names[k - 1], ps[k - 1]), uid, globalOnly);
    }
  }

  /** What the helper's policy asks of a profile: a check the app can make before it connects. */
  predicate Admissible(p: Policy, profile: Profile, authResult: Option<string>, hipScriptPath: Option<string>,
          uid: nat)
  {
    && p.isHostname(profile.portal)
    && (Gateway(profile).Some? ==> p.isHostname(Gateway(profile).value))
    && (User(profile, authResult).Some? ==> |profile.username| <= 256 && '\n' !in profile.username)
    && (NonEmpty(profile.certificatePath).Some? ==> OwnedFile(p, profile.certificatePath.value, uid))
    && (NonEmpty(profile.sslKeyPath).Some? ==> OwnedFile(p, profile.sslKeyPath.value, uid))
    && (NonEmpty(profile.vpncScriptPath).Some? ==>
          p.canonical(profile.vpncScriptPath.value) == p.canonical(p.vpncScriptPath))
    && (profile.enableHIP && HipScript(profile, hipScriptPath).Some? ==>
          OwnedFile(p, HipScript(profile, hipScriptPath).value, uid))
    && profile.mtu <= U32_MAX && profile.forceDPD <= U32_MAX && Timeout(profile) <= U32_MAX
  }

  /** No value the builder places after a flag, nor the portal, looks like a flag. */
  predicate NoDashedValue(profile: Profile, authResult: Option<string>, hipScriptPath: Option<string>) {
    && !Dashed(profile.portal)
    && (Gateway(profile).Some? ==> !Dashed(Gateway(profile).value))
    && (User(profile, authResult).Some? ==> !Dashed(profile.username))
    && (NonEmpty(profile.certificatePath).Some? ==> !Dashed(profile.certificatePath.value))
    && (NonEmpty(profile.sslKeyPath).Some? ==> !Dashed(profile.sslKeyPath.value))
    && (NonEmpty(profile.vpncScriptPath).Some? ==> !Dashed(profile.vpncScriptPath.value))
    && (profile.enableHIP && HipScript(profile, hipScriptPath).Some? ==>
          !Dashed(HipScript(profile, hipScriptPath).value))
  }

  predicate PlainValue(presence: Presence) {
    presence.With? ==> !Dashed(presence.value)
  }

  predicate Undashed(presences: seq<Presence>) {
    forall k | 0 <= k < |presences| :: PlainValue(presences[k])
  }

  lemma NumberIsPlain(n: int)
    ensures PlainValue(NumberIf(n))
  {
    if n > 0 {
      assert IsDigit(ToDecimal(n)[0]);
    }
  }

  lemma AllFifteen(ps: seq<Presence>)
    requires |ps| == 15
    requires PlainValue(ps[0]) && PlainValue(ps[1]) && PlainValue(ps[2]) && PlainValue(ps[3]) && PlainValue(ps[4])
    requires PlainValue(ps[5]) && PlainValue(ps[6]) && PlainValue(ps[7]) && PlainValue(ps[8]) && PlainValue(ps[9])
    requires PlainValue(ps[10]) && PlainValue(ps[11]) && PlainValue(ps[12]) && PlainValue(ps[13]) && PlainValue(ps[14])
    ensures Undashed(ps)
  {
  }

  lemma NumbersArePlain(profile: Profile, password: Option<string>, authResult: Option<string>,
          hipScriptPath: Option<string>)
    ensures var ps := Rest(profile, password, authResult, hipScriptPath);
            PlainValue(ps[12]) && PlainValue(ps[13]) && PlainValue(ps[14])
  {
    NumberIsPlain(profile.mtu);
    NumberIsPlain(profile.forceDPD);
    NumberIsPlain(Timeout(profile));
  }

  lemma ValuesArePlain(profile: Profile, password: Option<string>, authResult: Option<string>,
          hipScriptPath: Option<string>)
    requires NoDashedValue(profile, authResult, hipScriptPath)
    ensures var ps := Rest(profile, password, authResult, hipScriptPath);
            && PlainValue(ps[1]) && PlainValue(ps[4]) && PlainValue(ps[6])
            && PlainValue(ps[7]) && PlainValue(ps[8]) && PlainValue(ps[9])
  {
    var ps := Rest(profile, password, authResult, hipScriptPath);
    assert ps[1] == ValueIf(Gateway(profile)) && ps[4] == ValueIf(User(profile, authResult));
    assert ps[6] == ValueIf(NonEmpty(profile.certificatePath)) && ps[7] == ValueIf(NonEmpty(profile.sslKeyPath));
    assert ps[8] == ValueIf(NonEmpty(profile.vpncScriptPath));
  }

  lemma RestIsUndashed(profile: Profile, password: Option<string>, authResult: Option<string>,
          hipScriptPath: Option<string>)
    requires NoDashedValue(profile, authResult, hipScriptPath)
    ensures Undashed(Rest(profile, password, authResult, hipScriptPath))
  {
    NumbersArePlain(profile, password, authResult, hipScriptPath);
    ValuesArePlain(profile, password, authResult, hipScriptPath);
    AllFifteen(Rest(profile, password, authResult, hipScriptPath));
  }

  predicate Arity(presences: seq<Presence>)
  {
    && |presences| == 15
    && forall k | 0 <= k < 15 && k != 9 ::
         if k in {1, 4, 6, 7, 8, 12, 13, 14} then !presences[k].Bare? else !presences[k].With?
  }

  /** Given the right arity and no dashes, a slot is acceptable exactly when its value is. */
  lemma SlotMeaning(p: Policy, k: nat, ps: seq<Presence>, uid: nat)
    requires k < |REST_NAMES| == 15 && Arity(ps) && Undashed(ps)
    ensures SlotOk(p, REST_NAMES[k], ps[k], uid, false) <==>
              (ps[k].With? ==>
                 if k == 9 then OwnedFile(p, ps[k].value, uid) else ValueOk(p, REST_NAMES[k], ps[k].value, uid))
  {
    RestTable(k);
  }

  lemma HostValue(p: Policy, v: string, uid: nat)
    ensures ValueOk(p, "--gateway", v, uid) <==> p.isHostname(v)
    ensures ValueOk(p, "--user", v, uid) <==> v != "" && |v| <= 256 && '\n' !in v
    ensures ValueOk(p, "--script", v, uid) <==> p.canonical(v) == p.canonical(p.vpncScriptPath)
  {
  }

  lemma FileValue(p: Policy, v: string, uid: nat)
    ensures ValueOk(p, "--certificate", v, uid) <==> OwnedFile(p, v, uid)
    ensures ValueOk(p, "--sslkey", v, uid) <==> OwnedFile(p, v, uid)
  {
  }

  lemma NumberValue(p: Policy, n: nat, uid: nat)
    ensures ValueOk(p, "--mtu", ToDecimal(n), uid) <==> n <= U32_MAX
    ensures ValueOk(p, "--force-dpd", ToDecimal(n), uid) <==> n <= U32_MAX
    ensures ValueOk(p, "--reconnect-timeout", ToDecimal(n), uid) <==> n <= U32_MAX
  {
    ParsePrinted(n);
  }

  /** The value rule of each slot, given that its arity is right. */
  ghost predicate ValuesOk(p: Policy, ps: seq<Presence>, uid: nat)
    requires |ps| == 15
  {
    && (ps[1].With? ==> p.isHostname(ps[1].value))
    && (ps[4].With? ==> ps[4].value != "" && |ps[4].value| <= 256 && '\n' !in ps[4].value)
    && (ps[6].With? ==> OwnedFile(p, ps[6].value, uid))
    && (ps[7].With? ==> OwnedFile(p, ps[7].value, uid))
    && (ps[8].With? ==> p.canonical(ps[8].value) == p.canonical(p.vpncScriptPath))
    && (ps[9].With? ==> OwnedFile(p, ps[9].value, uid))
    && (ps[12].With? ==> ValueOk(p, "--mtu", ps[12].value, uid))
    && (ps[13].With? ==> ValueOk(p, "--force-dpd", ps[13].value, uid))
    && (ps[14].With? ==> ValueOk(p, "--reconnect-timeout", ps[14].value, uid))
  }

  lemma SlotsMeaning(p: Policy, ps: seq<Presence>, uid: nat)
    requires |REST_NAMES| == 15 && Arity(ps) && Undashed(ps)
    ensures SlotsOk(p, REST_NAMES, ps, uid, false) <==> ValuesOk(p, ps, uid)
  {
    forall k | 0 <= k < 15
      ensures SlotOk(p, REST_NAMES[k], ps[k], uid, false) <==> SlotRule(p, ps, k, uid)
    {
      SlotMeaning(p, k, ps, uid);
      SlotRuleIs(p, ps, k, uid);
    }
    RulesAreValuesOk(p, ps, uid);
  }

  ghost predicate SlotRule(p: Policy, ps: seq<Presence>, k: nat, uid: nat)
    requires |ps| == 15 && k < 15
  {
    ps[k].With? ==>
      var v := ps[k].value;
      if k == 1 then p.isHostname(v)
      else if k == 4 then v != "" && |v| <= 256 && '\n' !in v
      else if k == 8 then p.canonical(v) == p.canonical(p.vpncScriptPath)
      else if k == 12 then ValueOk(p, "--mtu", v, uid)
      else if k == 13 then ValueOk(p, "--force-dpd", v, uid)
      else if k == 14 then ValueOk(p, "--reconnect-timeout", v, uid)
      else OwnedFile(p, v, uid)
  }

  lemma SlotRuleIs(p: Policy, ps: seq<Presence>, k: nat, uid: nat)
    requires |REST_NAMES| == 15 && Arity(ps) && k < 15
    ensures SlotRule(p, ps, k, uid) <==>
              (ps[k].With? ==>
                 if k == 9 then OwnedFile(p, ps[k].value, uid) else ValueOk(p, REST_NAMES[k], ps[k].value, uid))
  {
    NamesAre();
    if ps[k].With? {
      HostValue(p, ps[k].value, uid);
      FileValue(p, ps[k].value, uid);
    }
  }

  lemma RulesAreValuesOk(p: Policy, ps: seq<Presence>, uid: nat)
    requires Arity(ps)
    ensures (forall k | 0 <= k < 15 :: SlotRule(p, ps, k, uid)) <==> ValuesOk(p, ps, uid)
  {
    if forall k | 0 <= k < 15 :: SlotRule(p, ps, k, uid) {
      assert SlotRule(p, ps, 1, uid) && SlotRule(p, ps, 4, uid) && SlotRule(p, ps, 6, uid);
      assert SlotRule(p, ps, 7, uid) && SlotRule(p, ps, 8, uid) && SlotRule(p, ps, 9, uid);
      assert SlotRule(p, ps, 12, uid) && SlotRule(p, ps, 13, uid) && SlotRule(p, ps, 14, uid);
    }
  }

  lemma NumberRule(p: Policy, n: int, uid: nat)
    ensures var slot := NumberIf(n);
            && ((slot.With? ==> ValueOk(p, "--mtu", slot.value, uid)) <==> n <= U32_MAX)
            && ((slot.With? ==> ValueOk(p, "--force-dpd", slot.value, uid)) <==> n <= U32_MAX)
            && ((slot.With? ==> ValueOk(p, "--reconnect-timeout", slot.value, uid)) <==> n <= U32_MAX)
  {
    if n > 0 {
      NumberValue(p, n, uid);
    }
  }

  lemma RestMeaning(p: Policy, profile: Profile, password: Option<string>, authResult: Option<string>,
                    hipScriptPath: Option<string>, uid: nat)
    requires p.isHostname(profile.portal)
    ensures ValuesOk(p, Rest(profile, password, authResult, hipScriptPath), uid)
       <==> Admissible(p, profile, authResult, hipScriptPath, uid)
  {
    var ps := Rest(profile, password, authResult, hipScriptPath);
    NumberRule(p, profile.mtu, uid);
    NumberRule(p, profile.forceDPD, uid);
    NumberRule(p, Timeout(profile), uid);
    assert ps[12] == NumberIf(profile.mtu) && ps[13] == NumberIf(profile.forceDPD)
        && ps[14] == NumberIf(Timeout(profile));
    assert ps[1] == ValueIf(Gateway(profile)) && ps[4] == ValueIf(User(profile, authResult));
    assert ps[6] == ValueIf(NonEmpty(profile.certificatePath)) && ps[7] == ValueIf(NonEmpty(profile.sslKeyPath));
    assert ps[8] == ValueIf(NonEmpty(profile.vpncScriptPath));
  }

  predicate ShapedSlot(name: string, presence: Presence, globalOnly: bool) {
    match presence
    case Omitted => true
    case Bare => Shaped(Item(name, None), globalOnly)
    case With(v) => Shaped(Item(name, Some(v)), globalOnly)
  }

  lemma {:induction false} PickShaped(names: seq<string>, ps: seq<Presence>, k: nat, globalOnly: bool)
    requires k <= |names| == |ps|
    requires forall i | 0 <= i < k :: ShapedSlot(names[i], ps[i], globalOnly)
    ensures AllShaped(Pick(names, ps, k), globalOnly)
    decreases k
  {
    if k > 0 {
      PickShaped(names, ps, k - 1, globalOnly);
    }
  }

  lemma GlobalsAreOk(p: Policy, profile: Profile, uid: nat)
    ensures AllOk(p, TunnelRequest(profile, None, None, None).globals, uid, true)
  {
    NamesAre();
    var ps := Globals(profile);
    assert "json"[0] != '-';
    forall i | 0 <= i < 3
      ensures SlotOk(p, GLOBAL_NAMES[i], ps[i], uid, true)
    {
      GlobalTable(i);
    }
    PickOk(p, GLOBAL_NAMES, ps, 3, uid, true);
  }

  lemma RestArity(profile: Profile, password: Option<string>, authResult: Option<string>, hipScriptPath: Option<string>)
    ensures Arity(Rest(profile, password, authResult, hipScriptPath))
  {
    var ps := Rest(profile, password, authResult, hipScriptPath);
    ArityFromKinds(ps);
  }

  lemma ArityFromKinds(ps: seq<Presence>)
    requires |ps| == 15
    requires !ps[1].Bare? && !ps[4].Bare? && !ps[6].Bare? && !ps[7].Bare? && !ps[8].Bare?
    requires !ps[12].Bare? && !ps[13].Bare? && !ps[14].Bare?
    requires !ps[0].With? && !ps[2].With? && !ps[3].With? && !ps[5].With? && !ps[10].With? && !ps[11].With?
    ensures Arity(ps)
  {
  }

  lemma ShapedByArity(ps: seq<Presence>, i: nat)
    requires Arity(ps) && Undashed(ps) && i < 15 == |REST_NAMES|
    ensures ShapedSlot(REST_NAMES[i], ps[i], false)
  {
    RestTable(i);
    assert PlainValue(ps[i]);
  }

  lemma RestIsShaped(profile: Profile, password: Option<string>, authResult: Option<string>,
          hipScriptPath: Option<string>)
    requires NoDashedValue(profile, authResult, hipScriptPath)
    ensures AllShaped(TunnelRequest(profile, password, authResult, hipScriptPath).rest, false)
  {
    NamesAre();
    var ps := Rest(profile, password, authResult, hipScriptPath);
    RestIsUndashed(profile, password, authResult, hipScriptPath);
    RestArity(profile, password, authResult, hipScriptPath);
    forall i | 0 <= i < 15
      ensures ShapedSlot(REST_NAMES[i], ps[i], false)
    {
      ShapedByArity(ps, i);
    }
    PickShaped(REST_NAMES, ps, 15, false);
  }

  lemma WellFormedIffAdmissible(p: Policy, profile: Profile, password: Option<string>, authResult: Option<string>,
                                hipScriptPath: Option<string>, uid: nat)
    requires NoDashedValue(profile, authResult, hipScriptPath)
    ensures WellFormed(p, TunnelRequest(profile, password, authResult, hipScriptPath), uid)
       <==> Admissible(p, profile, authResult, hipScriptPath, uid)
  {
    NamesAre();
    var ps := Rest(profile, password, authResult, hipScriptPath);
    GlobalsAreOk(p, profile, uid);
    RequestIsDistinct(profile, password, authResult, hipScriptPath);
    RestArity(profile, password, authResult, hipScriptPath);
    RestIsUndashed(profile, password, authResult, hipScriptPath);
    PickOk(p, REST_NAMES, ps, 15, uid, false);
    SlotsMeaning(p, ps, uid);
    if p.isHostname(profile.portal) {
      RestMeaning(p, profile, password, authResult, hipScriptPath, uid);
    }
  }

  /**
   * Main result. Provided no value looks like a flag, the helper accepts the
   * builder's arguments exactly when the profile meets its policy, and accepts
   * them unchanged.
   */
  lemma BuiltCommandIsAcceptedIffAdmissible(p: Policy, profile: Profile, password: Option<string>,
                                            authResult: Option<string>,
                                            hipScriptPath: Option<string>, uid: nat)
    requires NoDashedValue(profile, authResult, hipScriptPath)
    ensures var argv := Words(TunnelRequest(profile, password, authResult, hipScriptPath));
            (Verdict(p, p.gpclientPath, argv, uid) == Ok(Approved(p.gpclientPath, argv)))
            <==> Admissible(p, profile, authResult, hipScriptPath, uid)
  {
    var r := TunnelRequest(profile, password, authResult, hipScriptPath);
    WellFormedIffAdmissible(p, profile, password, authResult, hipScriptPath, uid);
    ApprovedIffDerived(p, p.gpclientPath, Words(r), uid);
    if Derives(p, Words(r), uid) {
      var other :| WellFormed(p, other, uid) && Words(other) == Words(r);
      WellFormedIsShaped(p, other, uid);
      GlobalsAreOk(p, profile, uid);
      RestIsShaped(profile, password, authResult, hipScriptPath);
      WordsAreUnambiguous(other, r);
    }
  }

  // The command itself, built by appending to a local array.

  function PresenceWords(name: string, presence: Presence): seq<string> {
    match presence
    case Omitted => []
    case Bare => [name]
    case With(v) => [name, v]
  }

  function WordsUpTo(names: seq<string>, ps: seq<Presence>, k: nat): seq<string>
    requires k <= |names| == |ps|
  {
    if k == 0 then [] else WordsUpTo(names, ps, k - 1) + PresenceWords(names[k - 1], ps[k - 1])
  }

  lemma {:induction false} RenderAppend(a: seq<Item>, b: seq<Item>)
    ensures Render(a + b) == Render(a) + Render(b)
  {
    if a == [] {
      assert a + b == b;
    } else {
      assert (a + b)[1..] == a[1..] + b;
      RenderAppend(a[1..], b);
      assert ItemWords(a[0]) + (Render(a[1..]) + Render(b)) == ItemWords(a[0]) + Render(a[1..]) + Render(b);
    }
  }

  lemma EmittedWords(name: string, presence: Presence)
    ensures Render(Emit(name, presence)) == PresenceWords(name, presence)
  {
    var items := Emit(name, presence);
    if items != [] {
      assert items[1..] == [];
    }
  }

  lemma RenderTwo(a: seq<Item>, b: seq<Item>, wordsA: seq<string>, wordsB: seq<string>)
    requires Render(a) == wordsA && Render(b) == wordsB
    ensures Render(a + b) == wordsA + wordsB
  {
    RenderAppend(a, b);
  }

  lemma {:induction false} PickedWords(names: seq<string>, ps: seq<Presence>, k: nat)
    requires k <= |names| == |ps|
    ensures Render(Pick(names, ps, k)) == WordsUpTo(names, ps, k)
  {
    if k > 0 {
      var before, last := Pick(names, ps, k - 1), Emit(names[k - 1], ps[k - 1]);
      PickedWords(names, ps, k - 1);
      EmittedWords(names[k - 1], ps[k - 1]);
      RenderTwo(before, last, WordsUpTo(names, ps, k - 1), PresenceWords(names[k - 1], ps[k - 1]));
    }
  }

  lemma BuiltWords(profile: Profile, password: Option<string>, authResult: Option<string>,
          hipScriptPath: Option<string>)
    ensures |GLOBAL_NAMES| == 3 && |REST_NAMES| == 15
    ensures Words(TunnelRequest(profile, password, authResult, hipScriptPath))
         == WordsUpTo(GLOBAL_NAMES, Globals(profile), 3) + ["connect", profile.portal]
            + WordsUpTo(REST_NAMES, Rest(profile, password, authResult, hipScriptPath), 15)
  {
    NamesAre();
    PickedWords(GLOBAL_NAMES, Globals(profile), 3);
    PickedWords(REST_NAMES, Rest(profile, password, authResult, hipScriptPath), 15);
  }

  /** What is secret never reaches the arguments: only its presence does. */
  lemma ArgumentsHideSecrets(profile: Profile, password: string, password': string, auth: string, auth': string,
                             hipScriptPath: Option<string>)
    requires password != "" && password' != ""
    ensures TunnelRequest(profile, Some(password), None, hipScriptPath)
         == TunnelRequest(profile, Some(password'), None, hipScriptPath)
    ensures TunnelRequest(profile, Some(password), Some(auth), hipScriptPath)
         == TunnelRequest(profile, Some(password'), Some(auth'), hipScriptPath)
  {
    assert Rest(profile, Some(password), None, hipScriptPath) == Rest(profile, Some(password'), None, hipScriptPath);
    assert Rest(profile, Some(password), Some(auth), hipScriptPath)
        == Rest(profile, Some(password'), Some(auth'), hipScriptPath);
  }

  /**
   * Why the dashes matter for `--hip` alone: its value is optional, so a script path
   * that spells a flag is read as that flag. The path "--no-dtls" gives the very
   * arguments of a profile with no HIP script and DTLS off, and no file is checked.
   */
  lemma DashedHipScriptIsReadAsFlag(profile: Profile, password: Option<string>, authResult: Option<string>)
    requires profile.enableHIP && !profile.disableIPv6 && !profile.noDTLS
    ensures Words(TunnelRequest(profile, password, authResult, Some("--no-dtls")))
         == Words(TunnelRequest(profile.(noDTLS := true), password, authResult, Some("")))
  {
    NamesAre();
    var other := profile.(noDTLS := true);
    var ps, qs := Rest(profile, password, authResult, Some("--no-dtls")), Rest(other, password, authResult, Some(""));
    BuiltWords(profile, password, authResult, Some("--no-dtls"));
    BuiltWords(other, password, authResult, Some(""));
    RestsDifferInThree(profile, password, authResult);
    SameWords(ps, qs);
  }

  lemma RestsDifferInThree(profile: Profile, password: Option<string>, authResult: Option<string>)
    requires profile.enableHIP && !profile.disableIPv6 && !profile.noDTLS
    ensures var ps := Rest(profile, password, authResult, Some("--no-dtls"));
            var qs := Rest(profile.(noDTLS := true), password, authResult, Some(""));
            && ps[..9] == qs[..9] && ps[12..] == qs[12..]
            && ps[9] == With("--no-dtls") && ps[10] == Omitted && ps[11] == Omitted
            && qs[9] == Bare && qs[10] == Omitted && qs[11] == Bare
  {
  }

  lemma SameWords(ps: seq<Presence>, qs: seq<Presence>)
    requires |ps| == |qs| == |REST_NAMES| == 15 && ps[..9] == qs[..9] && ps[12..] == qs[12..]
    requires ps[9] == With("--no-dtls") && ps[10] == Omitted && ps[11] == Omitted
    requires qs[9] == Bare && qs[10] == Omitted && qs[11] == Bare
    ensures WordsUpTo(REST_NAMES, ps, 15) == WordsUpTo(REST_NAMES, qs, 15)
  {
    NamesAre();
    assert forall i | 0 <= i < 9 :: ps[i] == ps[..9][i] && qs[i] == qs[..9][i];
    assert forall i | 12 <= i < 15 :: ps[i] == ps[12..][i - 12] && qs[i] == qs[12..][i - 12];
    SamePrefix(REST_NAMES, ps, qs, 9);
    ThreeMore(REST_NAMES, ps, 9);
    ThreeMore(REST_NAMES, qs, 9);
    assert ["--hip", "--no-dtls"] + [] + [] == ["--hip"] + [] + ["--no-dtls"];
    SameSuffix(REST_NAMES, ps, qs, 12, 15);
  }

  lemma ThreeMore(names: seq<string>, ps: seq<Presence>, k: nat)
    requires k + 3 <= |names| == |ps|
    ensures WordsUpTo(names, ps, k + 3)
         == WordsUpTo(names, ps, k) + (PresenceWords(names[k], ps[k]) + PresenceWords(names[k + 1], ps[k + 1])
                                       + PresenceWords(names[k + 2], ps[k + 2]))
  {
    var a, b, c := PresenceWords(names[k], ps[k]), PresenceWords(names[k + 1], ps[k + 1]),
        PresenceWords(names[k + 2], ps[k + 2]);
    assert WordsUpTo(names, ps, k + 1) == WordsUpTo(names, ps, k) + a;
    assert WordsUpTo(names, ps, k + 2) == WordsUpTo(names, ps, k + 1) + b;
    assert WordsUpTo(names, ps, k) + a + b + c == WordsUpTo(names, ps, k) + (a + b + c);
  }

  lemma {:induction false} SamePrefix(names: seq<string>, ps: seq<Presence>, qs: seq<Presence>, k: nat)
    requires k <= |names| == |ps| == |qs|
    requires forall i | 0 <= i < k :: ps[i] == qs[i]
    ensures WordsUpTo(names, ps, k) == WordsUpTo(names, qs, k)
  {
    if k > 0 {
      SamePrefix(names, ps, qs, k - 1);
    }
  }

  lemma {:induction false} SameSuffix(names: seq<string>, ps: seq<Presence>, qs: seq<Presence>, k: nat, n: nat)
    requires k <= n <= |names| == |ps| == |qs|
    requires forall i | k <= i < n :: ps[i] == qs[i]
    requires WordsUpTo(names, ps, k) == WordsUpTo(names, qs, k)
    ensures WordsUpTo(names, ps, n) == WordsUpTo(names, qs, n)
    decreases n
  {
    if k < n {
      SameSuffix(names, ps, qs, k, n - 1);
    }
  }
}

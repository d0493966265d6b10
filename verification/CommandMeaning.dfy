/**
 * What the built command says of the profile, flag by flag and in terms of the profile's own fields
 * (GpclientCommand.swift).
 */
module CommandMeaning {
  import opened Options
  import opened Decimal
  import opened RequestGrammar
  import opened CommandBuilder

  predicate Absent(items: seq<Item>, flag: string) {
    forall item | item in items :: item.flag != flag
  }

  /** The flag is given, with this value and no other. */
  predicate Only(items: seq<Item>, flag: string, value: Option<string>) {
    && Item(flag, value) in items
    && forall item | item in items :: item.flag == flag ==> item.value == value
  }

  /** The flag is given, without a value, exactly when `on`. */
  predicate Switch(items: seq<Item>, flag: string, on: bool) {
    if on then Only(items, flag, None) else Absent(items, flag)
  }

  /** The flag carries the text, unless that is missing or empty. */
  predicate Text(items: seq<Item>, flag: string, text: Option<string>) {
    if text.Some? && text.value != "" then Only(items, flag, text) else Absent(items, flag)
  }

  ghost predicate Number(items: seq<Item>, flag: string, given: bool, n: int) {
    if given then exists v :: Numeral(v, n) && Only(items, flag, Some(v)) else Absent(items, flag)
  }

  predicate SaysGlobals(g: seq<Item>, profile: Profile) {
    && Only(g, "--log-format", Some("json"))
    && Switch(g, "--fix-openssl", profile.fixOpenSSL)
    && Switch(g, "--ignore-tls-errors", profile.ignoreTLSErrors)
  }

  /** No flag but these. */
  predicate Known(r: Request)
    requires r.Connect?
  {
    && (forall item | item in r.globals ::
          item.flag in ["--log-format", "--fix-openssl", "--ignore-tls-errors"])
    && (forall item | item in r.rest ::
          item.flag in ["--as-gateway", "--gateway", "--auto-gateway",
                        "--cookie-on-stdin", "--user", "--passwd-on-stdin",
                        "--certificate", "--sslkey", "--script", "--hip",
                        "--disable-ipv6", "--no-dtls", "--mtu", "--force-dpd", "--reconnect-timeout"])
  }

  predicate SaysGateway(r: seq<Item>, profile: Profile) {
    var chosen := profile.selectedGatewayServer.Some? && profile.selectedGatewayServer.value != "";
    && Switch(r, "--as-gateway", profile.asGateway)
    && Text(r, "--gateway", if profile.asGateway then None else profile.selectedGatewayServer)
    && Switch(r, "--auto-gateway", !profile.asGateway && !chosen)
  }

  predicate SaysLogin(r: seq<Item>, profile: Profile, password: Option<string>, authResult: Option<string>) {
    && Switch(r, "--cookie-on-stdin", authResult.Some?)
    && Text(r, "--user",
            if authResult.Some? || profile.authMethod == BrowserSSO then None else Some(profile.username))
    && Switch(r, "--passwd-on-stdin",
              authResult.None? && profile.authMethod == Credentials && password.Some? && password.value != "")
  }

  predicate SaysFiles(r: seq<Item>, profile: Profile) {
    && Text(r, "--certificate", profile.certificatePath)
    && Text(r, "--sslkey", profile.sslKeyPath)
    && Text(r, "--script", profile.vpncScriptPath)
  }

  /** A report is asked for with a script, or, when that is missing or empty, with the built-in one. */
  predicate SaysHip(r: seq<Item>, profile: Profile, hipScriptPath: Option<string>) {
    if !profile.enableHIP then Absent(r, "--hip")
    else if hipScriptPath.Some? then
      Only(r, "--hip", if hipScriptPath.value != "" then hipScriptPath else None)
    else if profile.customHIPScriptPath.Some? && profile.customHIPScriptPath.value != "" then
      Only(r, "--hip", profile.customHIPScriptPath)
    else Only(r, "--hip", None)
  }

  ghost predicate SaysNetwork(r: seq<Item>, profile: Profile) {
    && Switch(r, "--disable-ipv6", profile.disableIPv6)
    && Switch(r, "--no-dtls", profile.noDTLS)
    && Number(r, "--mtu", profile.mtu > 0, profile.mtu)
    && Number(r, "--force-dpd", profile.forceDPD > 0, profile.forceDPD)
    && Number(r, "--reconnect-timeout", profile.reconnectTimeout > 0 && profile.reconnectTimeout != 300,
              profile.reconnectTimeout)
  }

  /** The request asks for exactly what the profile and the sign-in say. */
  ghost predicate Says(r: Request, profile: Profile, password: Option<string>, authResult: Option<string>,
          hipScriptPath: Option<string>)
  {
    && r.Connect? && r.server == profile.portal && Known(r)
    && SaysGlobals(r.globals, profile)
    && SaysGateway(r.rest, profile)
    && SaysLogin(r.rest, profile, password, authResult)
    && SaysFiles(r.rest, profile)
    && SaysHip(r.rest, profile, hipScriptPath)
    && SaysNetwork(r.rest, profile)
  }

  predicate SlotSays(items: seq<Item>, flag: string, presence: Presence) {
    match presence
    case Omitted => Absent(items, flag)
    case Bare => Only(items, flag, None)
    case With(v) => Only(items, flag, Some(v))
  }

  /** Among picked flags, each name says what its own slot says. */
  lemma {:induction false} PickedSlot(names: seq<string>, ps: seq<Presence>, k: nat, i: nat)
    requires k <= |names| == |ps| && i < |names| && Distinct(names)
    ensures i < k ==> SlotSays(Pick(names, ps, k), names[i], ps[i])
    ensures i >= k ==> Absent(Pick(names, ps, k), names[i])
    decreases k
  {
    if k > 0 {
      PickedSlot(names, ps, k - 1, i);
      var before, last := Pick(names, ps, k - 1), Emit(names[k - 1], ps[k - 1]);
      assert forall item :: item in before + last <==> item in before || item in last;
      if i < k - 1 {
        assert names[i] != names[k - 1];
      }
    }
  }

  lemma {:induction false} PickIsNamed(names: seq<string>, ps: seq<Presence>, k: nat, item: Item)
    requires k <= |names| == |ps| && item in Pick(names, ps, k)
    ensures item.flag in names
  {
    if item in Pick(names, ps, k - 1) {
      PickIsNamed(names, ps, k - 1, item);
    } else {
      assert item in Emit(names[k - 1], ps[k - 1]);
    }
  }

  lemma RequestIsKnown(profile: Profile, password: Option<string>, authResult: Option<string>,
          hipScriptPath: Option<string>)
    ensures Known(TunnelRequest(profile, password, authResult, hipScriptPath))
  {
    NamesAre();
    var r := TunnelRequest(profile, password, authResult, hipScriptPath);
    forall item | item in r.globals
      ensures item.flag in GLOBAL_NAMES
    {
      PickIsNamed(GLOBAL_NAMES, Globals(profile), 3, item);
    }
    forall item | item in r.rest
      ensures item.flag in REST_NAMES
    {
      PickIsNamed(REST_NAMES, Rest(profile, password, authResult, hipScriptPath), 15, item);
    }
  }

  lemma GlobalsSay(profile: Profile)
    ensures SaysGlobals(TunnelRequest(profile, None, None, None).globals, profile)
  {
    NamesAre();
    NamesAreDistinct();
    var ps := Globals(profile);
    PickedSlot(GLOBAL_NAMES, ps, 3, 0);
    PickedSlot(GLOBAL_NAMES, ps, 3, 1);
    PickedSlot(GLOBAL_NAMES, ps, 3, 2);
  }

  lemma RestSlot(profile: Profile, password: Option<string>, authResult: Option<string>,
          hipScriptPath: Option<string>, k: nat)
    requires k < 15
    ensures |REST_NAMES| == 15
    ensures SlotSays(TunnelRequest(profile, password, authResult, hipScriptPath).rest, REST_NAMES[k],
                     Rest(profile, password, authResult, hipScriptPath)[k])
  {
    NamesAre();
    NamesAreDistinct();
    PickedSlot(REST_NAMES, Rest(profile, password, authResult, hipScriptPath), 15, k);
  }

  lemma GatewaySays(profile: Profile, password: Option<string>, authResult: Option<string>,
          hipScriptPath: Option<string>)
    ensures SaysGateway(TunnelRequest(profile, password, authResult, hipScriptPath).rest, profile)
  {
    NamesAre();
    RestSlot(profile, password, authResult, hipScriptPath, 0);
    RestSlot(profile, password, authResult, hipScriptPath, 1);
    RestSlot(profile, password, authResult, hipScriptPath, 2);
  }

  lemma LoginSays(profile: Profile, password: Option<string>, authResult: Option<string>,
          hipScriptPath: Option<string>)
    ensures SaysLogin(TunnelRequest(profile, password, authResult, hipScriptPath).rest, profile, password, authResult)
  {
    NamesAre();
    RestSlot(profile, password, authResult, hipScriptPath, 3);
    RestSlot(profile, password, authResult, hipScriptPath, 4);
    RestSlot(profile, password, authResult, hipScriptPath, 5);
  }

  lemma FilesSay(profile: Profile, password: Option<string>, authResult: Option<string>,
          hipScriptPath: Option<string>)
    ensures SaysFiles(TunnelRequest(profile, password, authResult, hipScriptPath).rest, profile)
  {
    NamesAre();
    RestSlot(profile, password, authResult, hipScriptPath, 6);
    RestSlot(profile, password, authResult, hipScriptPath, 7);
    RestSlot(profile, password, authResult, hipScriptPath, 8);
  }

  lemma HipSays(profile: Profile, password: Option<string>, authResult: Option<string>,
          hipScriptPath: Option<string>)
    ensures SaysHip(TunnelRequest(profile, password, authResult, hipScriptPath).rest, profile, hipScriptPath)
  {
    NamesAre();
    RestSlot(profile, password, authResult, hipScriptPath, 9);
  }

  lemma NumberSays(items: seq<Item>, flag: string, n: int)
    requires SlotSays(items, flag, NumberIf(n))
    ensures Number(items, flag, n > 0, n)
  {
    if n > 0 {
      ValueOfDecimal(n);
      NoLeadingZero(n);
      assert Numeral(ToDecimal(n), n);
    }
  }

  lemma SwitchesSay(profile: Profile, password: Option<string>, authResult: Option<string>,
          hipScriptPath: Option<string>)
    ensures var r := TunnelRequest(profile, password, authResult, hipScriptPath).rest;
            Switch(r, "--disable-ipv6", profile.disableIPv6) && Switch(r, "--no-dtls", profile.noDTLS)
  {
    NamesAre();
    RestSlot(profile, password, authResult, hipScriptPath, 10);
    RestSlot(profile, password, authResult, hipScriptPath, 11);
  }

  lemma NumbersSay(profile: Profile, password: Option<string>, authResult: Option<string>,
          hipScriptPath: Option<string>)
    ensures var r := TunnelRequest(profile, password, authResult, hipScriptPath).rest;
            && Number(r, "--mtu", profile.mtu > 0, profile.mtu)
            && Number(r, "--force-dpd", profile.forceDPD > 0, profile.forceDPD)
            && Number(r, "--reconnect-timeout", Timeout(profile) > 0, Timeout(profile))
  {
    var r := TunnelRequest(profile, password, authResult, hipScriptPath).rest;
    NamesAre();
    RestSlot(profile, password, authResult, hipScriptPath, 12);
    RestSlot(profile, password, authResult, hipScriptPath, 13);
    RestSlot(profile, password, authResult, hipScriptPath, 14);
    NumberSays(r, "--mtu", profile.mtu);
    NumberSays(r, "--force-dpd", profile.forceDPD);
    NumberSays(r, "--reconnect-timeout", Timeout(profile));
  }

  /** Main result. For every profile and sign-in, the request built says exactly what they say. */
  lemma RequestSaysProfile(profile: Profile, password: Option<string>, authResult: Option<string>,
          hipScriptPath: Option<string>)
    ensures Says(TunnelRequest(profile, password, authResult, hipScriptPath), profile, password, authResult,
                 hipScriptPath)
  {
    RequestIsKnown(profile, password, authResult, hipScriptPath);
    GlobalsSay(profile);
    GatewaySays(profile, password, authResult, hipScriptPath);
    LoginSays(profile, password, authResult, hipScriptPath);
    FilesSay(profile, password, authResult, hipScriptPath);
    HipSays(profile, password, authResult, hipScriptPath);
    SwitchesSay(profile, password, authResult, hipScriptPath);
    NumbersSay(profile, password, authResult, hipScriptPath);
  }

  /** The helper's table holds the builder's flags and no other. */
  lemma TableIsTheBuilders(flag: string)
    ensures flag in ALLOWED_TUNNEL_FLAGS <==> flag in GLOBAL_NAMES || flag in REST_NAMES
    ensures flag in GLOBAL_FLAGS <==> flag in GLOBAL_NAMES
  {
    NamesAre();
    if flag in GLOBAL_NAMES {
      var k :| 0 <= k < |GLOBAL_NAMES| && GLOBAL_NAMES[k] == flag;
      GlobalTable(k);
    }
    if flag in REST_NAMES {
      var k :| 0 <= k < |REST_NAMES| && REST_NAMES[k] == flag;
      RestTable(k);
    }
  }
}

/**
 * `tunnelCommand` of GpclientCommand.swift and its helpers: the argument array, built by appending,
 * and the text for standard input.
 */
module CommandArguments {
  import opened Options
  import opened Decimal
  import opened RequestGrammar
  import opened CommandBuilder
  import opened CommandMeaning

  function Stdin(profile: Profile, password: Option<string>, authResult: Option<string>): Option<string> {
    if authResult.Some? then Some(authResult.value + "\n")
    else if SendsPassword(profile, password, authResult) then Some(password.value + "\n")
    else None
  }

  /** `args` holds `head` followed by the words of the first `k` names. */
  predicate Built(args: seq<string>, head: seq<string>, names: seq<string>, ps: seq<Presence>, k: nat)
    requires k <= |names| == |ps|
  {
    args == head + WordsUpTo(names, ps, k)
  }

  lemma Next(args: seq<string>, head: seq<string>, names: seq<string>, ps: seq<Presence>, k: nat)
    requires k < |names| == |ps| && Built(args, head, names, ps, k)
    ensures Built(args + PresenceWords(names[k], ps[k]), head, names, ps, k + 1)
  {
    assert head + (WordsUpTo(names, ps, k) + PresenceWords(names[k], ps[k]))
        == head + WordsUpTo(names, ps, k) + PresenceWords(names[k], ps[k]);
  }

  /** Two words for the log format, and one for each global switch that is on. */
  function GlobalWords(profile: Profile): nat {
    2 + (if profile.fixOpenSSL then 1 else 0) + (if profile.ignoreTLSErrors then 1 else 0)
  }

  lemma SwitchWords(profile: Profile, words: seq<string>)
    requires words == (if profile.fixOpenSSL then ["--fix-openssl"] else [])
                      + if profile.ignoreTLSErrors then ["--ignore-tls-errors"] else []
    ensures "--fix-openssl" in words <==> profile.fixOpenSSL
    ensures "--ignore-tls-errors" in words <==> profile.ignoreTLSErrors
  {
    assert |"--fix-openssl"| != |"--ignore-tls-errors"|;
  }

  method GlobalFlags(profile: Profile) returns (flags: seq<string>)
    ensures |GLOBAL_NAMES| == 3 && flags == WordsUpTo(GLOBAL_NAMES, Globals(profile), 3)
    ensures |flags| == GlobalWords(profile) && flags[..2] == ["--log-format", "json"]
    ensures "--fix-openssl" in flags[2..] <==> profile.fixOpenSSL
    ensures "--ignore-tls-errors" in flags[2..] <==> profile.ignoreTLSErrors
  {
    NamesAre();
    flags := ["--log-format", "json"];
    if profile.fixOpenSSL { flags := flags + ["--fix-openssl"]; }
    if profile.ignoreTLSErrors { flags := flags + ["--ignore-tls-errors"]; }
    ghost var ps := Globals(profile);
    assert WordsUpTo(GLOBAL_NAMES, ps, 1) == ["--log-format", "json"];
    assert WordsUpTo(GLOBAL_NAMES, ps, 2) == ["--log-format", "json"] + PresenceWords("--fix-openssl", ps[1]);
    assert WordsUpTo(GLOBAL_NAMES, ps, 3)
        == WordsUpTo(GLOBAL_NAMES, ps, 2) + PresenceWords("--ignore-tls-errors", ps[2]);
    SwitchWords(profile, flags[2..]);
  }

  function GatewaySelectionFlags(profile: Profile): seq<string> {
    if profile.asGateway then ["--as-gateway"]
    else if NonEmpty(profile.selectedGatewayServer).Some? then ["--gateway", profile.selectedGatewayServer.value]
    else ["--auto-gateway"]
  }

  /** Credential flags for a non-browser login, and what goes on stdin. */
  method CredentialFlags(profile: Profile, password: Option<string>) returns (flags: seq<string>, stdin: Option<string>)
    ensures flags == PresenceWords("--user", ValueIf(User(profile, None)))
                     + PresenceWords("--passwd-on-stdin", FlagIf(SendsPassword(profile, password, None)))
    ensures stdin == Stdin(profile, password, None)
    ensures stdin.Some? <==> profile.authMethod == Credentials && password.Some? && password.value != ""
    ensures stdin.Some? ==> stdin.value == password.value + "\n"
  {
    flags, stdin := [], None;
    match profile.authMethod {
      case Credentials =>
        if profile.username != "" {
          flags := flags + ["--user", profile.username];
        }
        if NonEmpty(password).Some? {
          flags := flags + ["--passwd-on-stdin"];
          stdin := Some(password.value + "\n");
        }
      case ClientCertificate =>
        if profile.username != "" {
          flags := flags + ["--user", profile.username];
        }
      case BrowserSSO =>
    }
  }

  method CertificateFlags(profile: Profile) returns (flags: seq<string>)
    ensures flags == PresenceWords("--certificate", ValueIf(NonEmpty(profile.certificatePath)))
                     + PresenceWords("--sslkey", ValueIf(NonEmpty(profile.sslKeyPath)))
  {
    flags := [];
    if profile.certificatePath.Some? && profile.certificatePath.value != "" {
      flags := flags + ["--certificate", profile.certificatePath.value];
    }
    if profile.sslKeyPath.Some? && profile.sslKeyPath.value != "" {
      flags := flags + ["--sslkey", profile.sslKeyPath.value];
    }
  }

  lemma GatewayBuilt(args: seq<string>, profile: Profile, ps: seq<Presence>)
    requires |REST_NAMES| == |ps| == 15
    requires ps[0] == FlagIf(profile.asGateway) && ps[1] == ValueIf(Gateway(profile))
    requires ps[2] == FlagIf(!profile.asGateway && Gateway(profile).None?)
    ensures Built(args + GatewaySelectionFlags(profile), args, REST_NAMES, ps, 3)
  {
    NamesAre();
    assert WordsUpTo(REST_NAMES, ps, 1) == PresenceWords("--as-gateway", ps[0]);
    assert WordsUpTo(REST_NAMES, ps, 3) == GatewaySelectionFlags(profile);
  }

  lemma TwoBuilt(args: seq<string>, head: seq<string>, names: seq<string>, ps: seq<Presence>, k: nat, more: seq<string>)
    requires k + 2 <= |names| == |ps| && Built(args, head, names, ps, k)
    requires more == PresenceWords(names[k], ps[k]) + PresenceWords(names[k + 1], ps[k + 1])
    ensures Built(args + more, head, names, ps, k + 2)
  {
    Next(args, head, names, ps, k);
    Next(args + PresenceWords(names[k], ps[k]), head, names, ps, k + 1);
    assert args + more == args + PresenceWords(names[k], ps[k]) + PresenceWords(names[k + 1], ps[k + 1]);
  }

  /** The script and HIP options. */
  method ScriptFlags(args: seq<string>, profile: Profile, hipScriptPath: Option<string>, ghost head: seq<string>,
          ghost ps: seq<Presence>)
    returns (args': seq<string>)
    requires |REST_NAMES| == |ps| == 15 && Built(args, head, REST_NAMES, ps, 8)
    requires ps[8] == ValueIf(NonEmpty(profile.vpncScriptPath))
    requires ps[9] == var hip := HipScript(profile, hipScriptPath);
                      if !profile.enableHIP then Omitted else if hip.Some? then With(hip.value) else Bare
    ensures Built(args', head, REST_NAMES, ps, 10)
  {
    NamesAre();
    Next(args, head, REST_NAMES, ps, 8);
    args' := args;
    if profile.vpncScriptPath.Some? && profile.vpncScriptPath.value != "" {
      args' := args' + ["--script", profile.vpncScriptPath.value];
    }
    Next(args', head, REST_NAMES, ps, 9);
    if profile.enableHIP {
      var script := if hipScriptPath.Some? then hipScriptPath else profile.customHIPScriptPath;
      if script.Some? && script.value != "" {
        args' := args' + ["--hip", script.value];
      } else {
        args' := args' + ["--hip"];
      }
    }
  }

  /** The network options. */
  method NetworkFlags(args: seq<string>, profile: Profile, ghost head: seq<string>, ghost ps: seq<Presence>)
    returns (args': seq<string>)
    requires |REST_NAMES| == |ps| == 15 && Built(args, head, REST_NAMES, ps, 10)
    requires ps[10] == FlagIf(profile.disableIPv6) && ps[11] == FlagIf(profile.noDTLS)
    requires ps[12] == NumberIf(profile.mtu) && ps[13] == NumberIf(profile.forceDPD)
        && ps[14] == NumberIf(Timeout(profile))
    ensures Built(args', head, REST_NAMES, ps, 15)
  {
    NamesAre();
    args' := args;
    Next(args', head, REST_NAMES, ps, 10);
    if profile.disableIPv6 { args' := args' + ["--disable-ipv6"]; }
    Next(args', head, REST_NAMES, ps, 11);
    if profile.noDTLS { args' := args' + ["--no-dtls"]; }
    Next(args', head, REST_NAMES, ps, 12);
    if profile.mtu > 0 { args' := args' + ["--mtu", ToDecimal(profile.mtu)]; }
    Next(args', head, REST_NAMES, ps, 13);
    if profile.forceDPD > 0 { args' := args' + ["--force-dpd", ToDecimal(profile.forceDPD)]; }
    Next(args', head, REST_NAMES, ps, 14);
    if profile.reconnectTimeout > 0 && profile.reconnectTimeout != 300 {
      args' := args' + ["--reconnect-timeout", ToDecimal(profile.reconnectTimeout)];
    }
  }

  /** The browser's sign-in result on stdin, or the credentials of a non-browser login. */
  method LoginFlags(args: seq<string>, profile: Profile, password: Option<string>, authResult: Option<string>,
                    ghost head: seq<string>, ghost ps: seq<Presence>)
    returns (args': seq<string>, stdin: Option<string>)
    requires |REST_NAMES| == |ps| == 15 && Built(args, head, REST_NAMES, ps, 3)
    requires ps[3] == FlagIf(authResult.Some?) && ps[4] == ValueIf(User(profile, authResult))
    requires ps[5] == FlagIf(SendsPassword(profile, password, authResult))
    ensures Built(args', head, REST_NAMES, ps, 6)
    ensures stdin == Stdin(profile, password, authResult)
  {
    NamesAre();
    Next(args, head, REST_NAMES, ps, 3);
    if authResult.Some? {
      args' := args + ["--cookie-on-stdin"];
      stdin := Some(authResult.value + "\n");
      TwoBuilt(args', head, REST_NAMES, ps, 4, []);
      assert args' + [] == args';
    } else {
      assert args + [] == args;
      var flags;
      flags, stdin := CredentialFlags(profile, password);
      TwoBuilt(args, head, REST_NAMES, ps, 4, flags);
      args' := args + flags;
    }
  }

  lemma ConnectPlace(args: seq<string>, head: seq<string>, globals: seq<string>, two: seq<string>, ps: seq<Presence>)
    requires |REST_NAMES| == |ps| == 15 && Built(args, head, REST_NAMES, ps, 15)
    requires head == globals + two && |two| == 2
    ensures |args| >= |globals| + 2 && args[|globals|..|globals| + 2] == two
  {
    var tail := WordsUpTo(REST_NAMES, ps, 15);
    assert args == globals + two + tail;
  }

  /** The appended arguments, and the line for standard input. */
  method TunnelArguments(profile: Profile, password: Option<string>, authResult: Option<string>,
                         hipScriptPath: Option<string>)
    returns (args: seq<string>, stdin: Option<string>)
    ensures args == Words(TunnelRequest(profile, password, authResult, hipScriptPath))
    ensures var c := GlobalWords(profile); |args| >= c + 2 && args[c..c + 2] == ["connect", profile.portal]
    ensures stdin == Stdin(profile, password, authResult)
  {
    NamesAre();
    ghost var ps := Rest(profile, password, authResult, hipScriptPath);
    var globals := GlobalFlags(profile);
    args := globals + ["connect", profile.portal];
    ghost var head := args;
    GatewayBuilt(args, profile, ps);
    args := args + GatewaySelectionFlags(profile);
    args, stdin := LoginFlags(args, profile, password, authResult, head, ps);
    var certificate := CertificateFlags(profile);
    TwoBuilt(args, head, REST_NAMES, ps, 6, certificate);
    args := args + certificate;
    args := ScriptFlags(args, profile, hipScriptPath, head, ps);
    args := NetworkFlags(args, profile, head, ps);
    BuiltWords(profile, password, authResult, hipScriptPath);
    ConnectPlace(args, head, globals, ["connect", profile.portal], ps);
  }

  /**
   * Main result. The arguments are the words of a request that says exactly what the profile and the
   * sign-in say; the sign-in result or the password is the only line on standard input.
   */
  method TunnelCommand(gpclientPath: string, profile: Profile, password: Option<string>, authResult: Option<string>,
                       hipScriptPath: Option<string>)
    returns (command: CommandLine)
    ensures command.executable == gpclientPath
    ensures command.arguments == Words(TunnelRequest(profile, password, authResult, hipScriptPath))
    ensures Says(TunnelRequest(profile, password, authResult, hipScriptPath), profile, password, authResult,
                 hipScriptPath)
    ensures var c := GlobalWords(profile);
            |command.arguments| >= c + 2 && command.arguments[c..c + 2] == ["connect", profile.portal]
    ensures authResult.Some? ==> command.stdin == Some(authResult.value + "\n")
    ensures authResult.None? && profile.authMethod == Credentials && password.Some? && password.value != "" ==>
              command.stdin == Some(password.value + "\n")
    ensures authResult.None? && (profile.authMethod != Credentials || password.None? || password.value == "") ==>
              command.stdin == None
  {
    var args, stdin := TunnelArguments(profile, password, authResult, hipScriptPath);
    RequestSaysProfile(profile, password, authResult, hipScriptPath);
    return CommandLine(gpclientPath, args, stdin);
  }
}

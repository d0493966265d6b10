/**
 * What a refusal of HelperRequestValidator.swift means: each names a fault that is there, said in
 * terms of the words of the request.
 */
module RequestFaults {
  import opened Options
  import opened Decimal
  import opened RequestGrammar
  import opened RequestValidator

  /** No value follows the `k`-th word. */
  predicate NoValueAfter(args: seq<string>, k: nat) {
    k + 1 >= |args| || Dashed(args[k + 1])
  }

  /** A flag and its value side by side. */
  predicate Given(args: seq<string>, k: nat, flag: string, value: string) {
    k + 1 < |args| && args[k] == flag && args[k + 1] == value && !Dashed(value)
  }

  predicate TakesFile(flag: string) {
    flag == "--certificate" || flag == "--sslkey" || flag == "--hip"
  }

  predicate TakesNumber(flag: string) {
    flag == "--mtu" || flag == "--force-dpd" || flag == "--reconnect-timeout"
  }

  /** The words before `n` are global flags and log formats. */
  predicate GlobalsUpTo(args: seq<string>, n: nat) {
    n <= |args| && forall k | 0 <= k < n :: args[k] in GLOBAL_FLAGS || args[k] == "json" || args[k] == "text"
  }

  /** The fault named by `e` is at the `k`-th word. */
  predicate FaultAt(p: Policy, args: seq<string>, uid: nat, e: Rejection, k: nat)
    requires k < |args|
  {
    match e
    case WrongExecutable(_) => false
    case MissingSubcommand => false
    case UnknownSubcommand(word) =>
      args[k] == word && GlobalsUpTo(args, k) && !Dashed(word) && word != "connect" && word != "disconnect"
    case UnknownFlag(flag) =>
      && args[k] == flag
      && (|| flag !in ALLOWED_TUNNEL_FLAGS
          || (GlobalsUpTo(args, k) && flag !in GLOBAL_FLAGS)
          || (k > 0 && args[k - 1] == "disconnect" && GlobalsUpTo(args, k - 1)))
    case MissingValue(flag) =>
      || (flag == "connect <server>" && args[k] == "connect" && NoValueAfter(args, k))
      || (args[k] == flag && flag in ALLOWED_TUNNEL_FLAGS && ALLOWED_TUNNEL_FLAGS[flag] == 1 && NoValueAfter(args, k))
      || (args[k] == flag == "--user" && k + 1 < |args|
          && (args[k + 1] == "" || |args[k + 1]| > 256 || '\n' in args[k + 1]))
    case BadHostname(host) =>
      && !p.isHostname(host)
      && (Given(args, k, "--gateway", host) || (Given(args, k, "connect", host) && GlobalsUpTo(args, k)))
    case BadNumber(flag, value) =>
      TakesNumber(flag) && Given(args, k, flag, value) && ParseUInt32(value).None?
    case BadLogFormat(value) => Given(args, k, "--log-format", value) && value != "json" && value != "text"
    case ScriptNotBundled(path) =>
      Given(args, k, "--script", path) && p.canonical(path) != p.canonical(p.vpncScriptPath)
    case FileNotReadable(path) =>
      && TakesFile(args[k]) && Given(args, k, args[k], path)
      && (p.fileInfo(path).None? || !p.fileInfo(path).value.isRegularFile)
    case FileNotOwnedByCaller(path) =>
      && TakesFile(args[k]) && Given(args, k, args[k], path)
      && p.fileInfo(path).Some? && p.fileInfo(path).value.isRegularFile && p.fileInfo(path).value.ownerUID != uid
    case DuplicateFlag(flag) => args[k] == flag && flag in args[..k]
  }

  ghost predicate Fault(p: Policy, args: seq<string>, uid: nat, e: Rejection) {
    exists k :: 0 <= k < |args| && FaultAt(p, args, uid, e, k)
  }

  lemma KnownIsDashed(flag: string)
    requires flag in ALLOWED_TUNNEL_FLAGS
    ensures Dashed(flag)
  {
  }

  /** The words behind a set of flags already seen. */
  predicate SeenBefore(args: seq<string>, n: nat, seen: set<string>) {
    n <= |args| && forall f | f in seen :: f in args[..n]
  }

  lemma ValueFault(p: Policy, args: seq<string>, k: nat, uid: nat)
    requires k + 1 < |args| && !Dashed(args[k + 1]) && ValueCheck(p, args[k], args[k + 1], uid).Some?
    ensures FaultAt(p, args, uid, ValueCheck(p, args[k], args[k + 1], uid).value, k)
  {
  }

  lemma HipFault(p: Policy, args: seq<string>, k: nat, uid: nat)
    requires k + 1 < |args| && args[k] == HIP && !Dashed(args[k + 1]) && FileCheck(p, args[k + 1], uid).Some?
    ensures FaultAt(p, args, uid, FileCheck(p, args[k + 1], uid).value, k)
  {
  }

  lemma ItemFault(p: Policy, args: seq<string>, k: nat, seen: set<string>, uid: nat, globalOnly: bool)
    requires k < |args| && SeenBefore(args, k, seen) && (globalOnly ==> GlobalsUpTo(args, k))
    requires ReadItem(p, args[k..], seen, uid, globalOnly).Err?
    ensures FaultAt(p, args, uid, ReadItem(p, args[k..], seen, uid, globalOnly).error, k)
  {
    var rest := args[k..][1..];
    assert rest == args[k + 1..];
    if args[k] in ALLOWED_TUNNEL_FLAGS && HasValue(rest) {
      if args[k] == HIP {
        if FileCheck(p, args[k + 1], uid).Some? {
          HipFault(p, args, k, uid);
        }
      } else if ValueCheck(p, args[k], args[k + 1], uid).Some? {
        ValueFault(p, args, k, uid);
      }
    }
  }

  /** The words of one flag that was read. */
  lemma ItemPlace(p: Policy, args: seq<string>, k: nat, seen: set<string>, uid: nat, globalOnly: bool)
    requires k < |args| && Dashed(args[k]) && SeenBefore(args, k, seen) && (globalOnly ==> GlobalsUpTo(args, k))
    requires ReadItem(p, args[k..], seen, uid, globalOnly).Ok?
    ensures var item := ReadItem(p, args[k..], seen, uid, globalOnly).value;
            var n := k + |ItemWords(item)|;
            && k < n <= |args| && item.flag == args[k] && args[k..][|ItemWords(item)|..] == args[n..]
            && SeenBefore(args, n, seen + {item.flag}) && (globalOnly ==> GlobalsUpTo(args, n))
  {
    var item := ReadItem(p, args[k..], seen, uid, globalOnly).value;
    var n := k + |ItemWords(item)|;
    ReadItemIsSound(p, args[k..], seen, uid, globalOnly);
    assert args[k] == args[..n][k];
    assert forall f | f in args[..k] :: f in args[..n] by {
      assert args[..n] == args[..k] + args[k..n];
    }
    if globalOnly && item.value.Some? {
      assert args[k + 1] == item.value.value;
    }
  }

  lemma FlagSetCons(item: Item, items: seq<Item>, seen: set<string>)
    ensures seen + {item.flag} + FlagSet(items) == seen + FlagSet([item] + items)
  {
    var all := [item] + items;
    forall f | f in {item.flag} + FlagSet(items)
      ensures f in FlagSet(all)
    {
      if f == item.flag {
        assert all[0].flag == f;
      } else {
        var i :| 0 <= i < |items| && items[i].flag == f;
        assert all[i + 1].flag == f;
      }
    }
  }

  /** What follows a flag that was read decides the rest. */
  lemma MoreItems(p: Policy, args: seq<string>, k: nat, seen: set<string>, uid: nat, globalOnly: bool, item: Item,
          n: nat)
    requires k < n <= |args| && Dashed(args[k]) && ReadItem(p, args[k..], seen, uid, globalOnly) == Ok(item)
    requires args[k..][|ItemWords(item)|..] == args[n..]
    ensures var more := ReadItems(p, args[n..], seen + {item.flag}, uid, globalOnly);
            ReadItems(p, args[k..], seen, uid, globalOnly)
              == if more.Err? then Err(more.error) else Ok(([item] + more.value.0, more.value.1))
  {
    assert args[k..][0] == args[k];
  }

  lemma UndashedWord(p: Policy, args: seq<string>, k: nat, seen: set<string>, uid: nat, globalOnly: bool)
    requires k < |args| && !Dashed(args[k]) && ReadItems(p, args[k..], seen, uid, globalOnly).Err?
    ensures Fault(p, args, uid, ReadItems(p, args[k..], seen, uid, globalOnly).error)
  {
    assert args[k..][0] == args[k];
    assert FaultAt(p, args, uid, UnknownFlag(args[k]), k) by {
      UndashedFault(p, args, k, uid);
    }
  }

  lemma UndashedFault(p: Policy, args: seq<string>, k: nat, uid: nat)
    requires k < |args| && !Dashed(args[k])
    ensures FaultAt(p, args, uid, UnknownFlag(args[k]), k)
  {
    if args[k] in ALLOWED_TUNNEL_FLAGS {
      KnownIsDashed(args[k]);
    }
  }

  /** Where a run of flags read from the `k`-th word stops. */
  lemma {:induction false} ItemsPlace(p: Policy, args: seq<string>, k: nat, seen: set<string>, uid: nat,
          globalOnly: bool)
      returns (end: nat)
    requires SeenBefore(args, k, seen) && (globalOnly ==> GlobalsUpTo(args, k))
    requires ReadItems(p, args[k..], seen, uid, globalOnly).Ok?
    ensures k <= end <= |args| && ReadItems(p, args[k..], seen, uid, globalOnly).value.1 == args[end..]
    ensures globalOnly ==> GlobalsUpTo(args, end)
    ensures SeenBefore(args, end, seen + FlagSet(ReadItems(p, args[k..], seen, uid, globalOnly).value.0))
    decreases |args| - k
  {
    end := k;
    if k == |args| || (globalOnly && !Dashed(args[k])) {
      assert seen + FlagSet([]) == seen;
    } else {
      var item := ReadItem(p, args[k..], seen, uid, globalOnly).value;
      var n := k + |ItemWords(item)|;
      ItemPlace(p, args, k, seen, uid, globalOnly);
      MoreItems(p, args, k, seen, uid, globalOnly, item, n);
      end := ItemsPlace(p, args, n, seen + {item.flag}, uid, globalOnly);
      FlagSetCons(item, ReadItems(p, args[n..], seen + {item.flag}, uid, globalOnly).value.0, seen);
    }
  }

  lemma HeadFault(p: Policy, args: seq<string>, k: nat, seen: set<string>, uid: nat, globalOnly: bool, e: Rejection)
    requires k < |args| && Dashed(args[k]) && SeenBefore(args, k, seen) && (globalOnly ==> GlobalsUpTo(args, k))
    requires ReadItem(p, args[k..], seen, uid, globalOnly).Err?
    requires ReadItems(p, args[k..], seen, uid, globalOnly) == Err(e)
    ensures Fault(p, args, uid, e)
  {
    assert args[k..][0] == args[k];
    ItemFault(p, args, k, seen, uid, globalOnly);
  }

  /** A flag that was read moves on to later words, and the fault with it. */
  lemma FaultAhead(p: Policy, args: seq<string>, k: nat, seen: set<string>, uid: nat, globalOnly: bool, e: Rejection)
      returns (n: nat, seen': set<string>)
    requires k < |args| && Dashed(args[k]) && SeenBefore(args, k, seen) && (globalOnly ==> GlobalsUpTo(args, k))
    requires ReadItem(p, args[k..], seen, uid, globalOnly).Ok?
    requires ReadItems(p, args[k..], seen, uid, globalOnly) == Err(e)
    ensures k < n <= |args| && SeenBefore(args, n, seen') && (globalOnly ==> GlobalsUpTo(args, n))
    ensures ReadItems(p, args[n..], seen', uid, globalOnly) == Err(e)
  {
    var item := ReadItem(p, args[k..], seen, uid, globalOnly).value;
    n, seen' := k + |ItemWords(item)|, seen + {item.flag};
    ItemPlace(p, args, k, seen, uid, globalOnly);
    MoreItems(p, args, k, seen, uid, globalOnly, item, n);
  }

  /** Reading a run of flags fails only at a fault. */
  lemma {:induction false} ItemsFault(p: Policy, args: seq<string>, k: nat, seen: set<string>, uid: nat,
          globalOnly: bool, e: Rejection)
    requires SeenBefore(args, k, seen) && (globalOnly ==> GlobalsUpTo(args, k))
    requires ReadItems(p, args[k..], seen, uid, globalOnly) == Err(e)
    ensures Fault(p, args, uid, e)
    decreases |args| - k
  {
    assert k < |args|;
    if !Dashed(args[k]) {
      UndashedWord(p, args, k, seen, uid, globalOnly);
    } else if ReadItem(p, args[k..], seen, uid, globalOnly).Err? {
      HeadFault(p, args, k, seen, uid, globalOnly, e);
    } else {
      var n, seen' := FaultAhead(p, args, k, seen, uid, globalOnly, e);
      ItemsFault(p, args, n, seen', uid, globalOnly, e);
    }
  }

  lemma SubcommandFault(p: Policy, globals: seq<Item>, args: seq<string>, k: nat, uid: nat)
    requires GlobalsUpTo(args, k) && SeenBefore(args, k, FlagSet(globals)) && k < |args| && !Dashed(args[k])
    requires ReadSubcommand(p, globals, args[k..], uid).Err?
    ensures Fault(p, args, uid, ReadSubcommand(p, globals, args[k..], uid).error)
  {
    var after := args[k..];
    var e := ReadSubcommand(p, globals, after, uid).error;
    assert after[1..] == args[k + 1..];
    if args[k] == "disconnect" {
      assert FaultAt(p, args, uid, e, k + 1);
    } else if args[k] != "connect" || NoValueAfter(args, k) || !p.isHostname(args[k + 1]) {
      assert FaultAt(p, args, uid, e, k);
    } else {
      assert after[2..] == args[k + 2..];
      assert args[..k + 2] == args[..k] + args[k..k + 2];
      ItemsFault(p, args, k + 2, FlagSet(globals), uid, false, e);
    }
  }

  /**
   * Main result. Every refusal names a fault of the request: another executable, no subcommand after
   * the global flags, or what is wrong at one of the words.
   */
  lemma RefusalNamesFault(p: Policy, executable: string, args: seq<string>, uid: nat)
    requires Verdict(p, executable, args, uid).Err?
    ensures var e := Verdict(p, executable, args, uid).error;
            if e.WrongExecutable? then
              e.path == executable && p.canonical(executable) != p.canonical(p.gpclientPath)
            else
              && p.canonical(executable) == p.canonical(p.gpclientPath)
              && (if e.MissingSubcommand? then GlobalsUpTo(args, |args|) else Fault(p, args, uid, e))
  {
    if p.canonical(executable) == p.canonical(p.gpclientPath) {
      assert args[0..] == args;
      var read := ReadItems(p, args, {}, uid, true);
      if read.Err? {
        ItemsFault(p, args, 0, {}, uid, true, read.error);
      } else {
        var end := ItemsPlace(p, args, 0, {}, uid, true);
        ReadItemsIsSound(p, args, {}, uid, true);
        assert {} + FlagSet(read.value.0) == FlagSet(read.value.0);
        if end < |args| {
          SubcommandFault(p, read.value.0, args, end, uid);
        }
      }
    }
  }
}

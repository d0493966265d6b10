/**
 * HelperRequestValidator.swift. The argv parser is the imperative one of the
 * source, with its in-out index and duplicate set; `ParseRequest` says what it
 * computes, and the lemmas tie that to the grammar.
 */
module RequestValidator {
  import opened Options
  import opened Decimal
  import opened RequestGrammar

  datatype Rejection =
    | WrongExecutable(path: string)
    | MissingSubcommand
    | UnknownSubcommand(word: string)
    | UnknownFlag(flag: string)
    | MissingValue(flag: string)
    | BadHostname(host: string)
    | BadNumber(flag: string, value: string)
    | BadLogFormat(value: string)
    | ScriptNotBundled(path: string)
    | FileNotOwnedByCaller(path: string)
    | FileNotReadable(path: string)
    | DuplicateFlag(flag: string)

  datatype Approved = Approved(executable: string, arguments: seq<string>)

  function FileCheck(p: Policy, path: string, uid: nat): (r: Option<Rejection>)
    ensures r.None? <==> OwnedFile(p, path, uid)
  {
    var info := p.fileInfo(path);
    if info.None? || !info.value.isRegularFile then Some(FileNotReadable(path))
    else if info.value.ownerUID != uid then Some(FileNotOwnedByCaller(path))
    else None
  }

  function ValueCheck(p: Policy, flag: string, value: string, uid: nat): (r: Option<Rejection>)
    ensures r.None? <==> ValueOk(p, flag, value, uid)
  {
    if flag == "--log-format" then
      if value == "json" || value == "text" then None else Some(BadLogFormat(value))
    else if flag == "--gateway" then
      if p.isHostname(value) then None else Some(BadHostname(value))
    else if flag == "--user" then
      if value != "" && |value| <= 256 && '\n' !in value then None else Some(MissingValue(flag))
    else if flag == "--mtu" || flag == "--force-dpd" || flag == "--reconnect-timeout" then
      if ParseUInt32(value).Some? then None else Some(BadNumber(flag, value))
    else if flag == "--script" then
      if p.canonical(value) == p.canonical(p.vpncScriptPath) then None else Some(ScriptNotBundled(value))
    else if flag == "--certificate" || flag == "--sslkey" then FileCheck(p, value, uid)
    else None
  }

  /** A first word that can be a value. */
  predicate HasValue(args: seq<string>) {
    args != [] && !Dashed(args[0])
  }

  /** The flag that comes first, with its value. */
  function ReadItem(p: Policy, args: seq<string>, seen: set<string>, uid: nat, globalOnly: bool)
    : (r: Result<Item, Rejection>)
    requires args != []
    ensures r.Ok? ==> |ItemWords(r.value)| <= |args|
  {
    var flag, rest := args[0], args[1..];
    if flag !in ALLOWED_TUNNEL_FLAGS then Err(UnknownFlag(flag))
    else if globalOnly && flag !in GLOBAL_FLAGS then Err(UnknownFlag(flag))
    else if flag in seen then Err(DuplicateFlag(flag))
    else if flag == HIP then
      if !HasValue(rest) then Ok(Item(flag, None)) else
        var e := FileCheck(p, rest[0], uid);
        if e.Some? then Err(e.value) else Ok(Item(flag, Some(rest[0])))
    else if ALLOWED_TUNNEL_FLAGS[flag] != 1 then Ok(Item(flag, None))
    else if !HasValue(rest) then Err(MissingValue(flag))
    else
      var e := ValueCheck(p, flag, rest[0], uid);
      if e.Some? then Err(e.value) else Ok(Item(flag, Some(rest[0])))
  }

  /** The run of flags that comes first, and the words left after it. */
  function ReadItems(p: Policy, args: seq<string>, seen: set<string>, uid: nat, globalOnly: bool)
    : Result<(seq<Item>, seq<string>), Rejection>
    decreases |args|
  {
    if args == [] || (globalOnly && !Dashed(args[0])) then Ok(([], args))
    else if !Dashed(args[0]) then Err(UnknownFlag(args[0]))
    else
      var head := ReadItem(p, args, seen, uid, globalOnly);
      if head.Err? then Err(head.error) else
        var more := ReadItems(p, args[|ItemWords(head.value)|..], seen + {head.value.flag}, uid, globalOnly);
        if more.Err? then Err(more.error) else Ok(([head.value] + more.value.0, more.value.1))
  }

  function FlagSet(items: seq<Item>): set<string> {
    set i | 0 <= i < |items| :: items[i].flag
  }

  /** What follows the global flags. */
  function ReadSubcommand(p: Policy, globals: seq<Item>, args: seq<string>, uid: nat): Result<Request, Rejection> {
    if args == [] then Err(MissingSubcommand)
    else if args[0] == "disconnect" then
      if |args| == 1 then Ok(Disconnect(globals)) else Err(UnknownFlag(args[1]))
    else if args[0] != "connect" then Err(UnknownSubcommand(args[0]))
    else if !HasValue(args[1..]) then Err(MissingValue("connect <server>"))
    else if !p.isHostname(args[1]) then Err(BadHostname(args[1]))
    else
      var rest := ReadItems(p, args[2..], FlagSet(globals), uid, false);
      if rest.Err? then Err(rest.error) else Ok(Connect(globals, args[1], rest.value.0))
  }

  function ParseRequest(p: Policy, args: seq<string>, uid: nat): Result<Request, Rejection> {
    var globals := ReadItems(p, args, {}, uid, true);
    if globals.Err? then Err(globals.error) else ReadSubcommand(p, globals.value.0, globals.value.1, uid)
  }

  lemma GlobalsAreNotHip()
    ensures HIP !in GLOBAL_FLAGS
  {
    assert |HIP| == 5;
    assert |"--log-format"| == 12 && |"--fix-openssl"| == 13 && |"--ignore-tls-errors"| == 19;
  }

  /** No flag of `items` was seen before, and none occurs twice. */
  predicate Fresh(items: seq<Item>, seen: set<string>) {
    && (forall i | 0 <= i < |items| :: items[i].flag !in seen)
    && (forall i, j | 0 <= i < j < |items| :: items[i].flag != items[j].flag)
  }

  lemma ReadItemIsSound(p: Policy, args: seq<string>, seen: set<string>, uid: nat, globalOnly: bool)
    requires args != [] && Dashed(args[0]) && ReadItem(p, args, seen, uid, globalOnly).Ok?
    ensures var item := ReadItem(p, args, seen, uid, globalOnly).value;
            && ItemOk(p, item, uid, globalOnly)
            && item.flag !in seen
            && args == ItemWords(item) + args[|ItemWords(item)|..]
  {
    GlobalsAreNotHip();
  }

  lemma ConsSound(p: Policy, args: seq<string>, seen: set<string>, uid: nat, globalOnly: bool,
                  item: Item, more: seq<Item>, rest: seq<string>)
    requires ItemOk(p, item, uid, globalOnly) && item.flag !in seen
    requires args == ItemWords(item) + (Render(more) + rest)
    requires AllOk(p, more, uid, globalOnly) && Fresh(more, seen + {item.flag})
    ensures AllOk(p, [item] + more, uid, globalOnly) && Fresh([item] + more, seen)
    ensures args == Render([item] + more) + rest
  {
    RenderCons(item, more, rest);
  }

  lemma {:induction false} ReadItemsIsSound(p: Policy, args: seq<string>, seen: set<string>, uid: nat, globalOnly: bool)
    requires ReadItems(p, args, seen, uid, globalOnly).Ok?
    ensures var (items, rest) := ReadItems(p, args, seen, uid, globalOnly).value;
            && AllOk(p, items, uid, globalOnly)
            && Fresh(items, seen)
            && args == Render(items) + rest
            && (rest == [] || (globalOnly && !Dashed(rest[0])))
    decreases |args|
  {
    if args != [] && Dashed(args[0]) {
      ReadItemIsSound(p, args, seen, uid, globalOnly);
      var item := ReadItem(p, args, seen, uid, globalOnly).value;
      var after := args[|ItemWords(item)|..];
      ReadItemsIsSound(p, after, seen + {item.flag}, uid, globalOnly);
      var (more, rest) := ReadItems(p, after, seen + {item.flag}, uid, globalOnly).value;
      ConsSound(p, args, seen, uid, globalOnly, item, more, rest);
    } else {
      assert args == Render([]) + args;
    }
  }

  lemma ReadItemIsComplete(p: Policy, seen: set<string>, uid: nat, globalOnly: bool, item: Item, tail: seq<string>)
    requires ItemOk(p, item, uid, globalOnly) && item.flag !in seen && HeadStops(item, tail)
    ensures ReadItem(p, ItemWords(item) + tail, seen, uid, globalOnly) == Ok(item)
  {
    SecondWord(item, tail);
  }

  lemma PeelItem(p: Policy, seen: set<string>, uid: nat, globalOnly: bool, item: Item, more: seq<Item>,
          tail: seq<string>)
    requires AllOk(p, [item] + more, uid, globalOnly) && Fresh([item] + more, seen) && Stops([item] + more, tail)
    ensures ReadItem(p, ItemWords(item) + (Render(more) + tail), seen, uid, globalOnly) == Ok(item)
    ensures AllOk(p, more, uid, globalOnly) && Fresh(more, seen + {item.flag}) && Stops(more, tail)
    ensures Dashed(item.flag)
  {
    var items := [item] + more;
    assert items[0] == item && items[1..] == more;
    assert forall i | 0 <= i < |more| :: items[i + 1] == more[i];
    RestStops(items, tail, globalOnly);
    ReadItemIsComplete(p, seen, uid, globalOnly, item, Render(more) + tail);
  }

  lemma ReadItemsStep(p: Policy, item: Item, after: seq<string>, seen: set<string>, uid: nat, globalOnly: bool,
                      more: seq<Item>, rest: seq<string>)
    requires Dashed(item.flag)
    requires ReadItem(p, ItemWords(item) + after, seen, uid, globalOnly) == Ok(item)
    requires ReadItems(p, after, seen + {item.flag}, uid, globalOnly) == Ok((more, rest))
    ensures ReadItems(p, ItemWords(item) + after, seen, uid, globalOnly) == Ok(([item] + more, rest))
  {
    var args := ItemWords(item) + after;
    assert args[|ItemWords(item)|..] == after && args[0] == item.flag;
  }

  lemma {:induction false} ReadItemsIsComplete(p: Policy, seen: set<string>, uid: nat, globalOnly: bool,
                                               items: seq<Item>, tail: seq<string>)
    requires AllOk(p, items, uid, globalOnly) && Fresh(items, seen) && Stops(items, tail)
    requires tail == [] || globalOnly
    ensures ReadItems(p, Render(items) + tail, seen, uid, globalOnly) == Ok((items, tail))
    decreases |items|
  {
    if items == [] {
      assert Render(items) + tail == tail;
    } else {
      var item, more := items[0], items[1..];
      assert items == [item] + more;
      PeelItem(p, seen, uid, globalOnly, item, more, tail);
      ReadItemsIsComplete(p, seen + {item.flag}, uid, globalOnly, more, tail);
      ReadItemsStep(p, item, Render(more) + tail, seen, uid, globalOnly, more, tail);
      RenderCons(item, more, tail);
    }
  }

  lemma FreshIsDistinct(a: seq<Item>)
    ensures Fresh(a, {}) <==> Distinct(Flags(a))
  {
  }

  lemma FreshAfterIsDistinct(a: seq<Item>, b: seq<Item>)
    requires Fresh(a, {}) && Fresh(b, FlagSet(a))
    ensures Distinct(Flags(a) + Flags(b))
  {
    assert forall i | 0 <= i < |a| :: a[i].flag in FlagSet(a);
  }

  lemma DistinctIsFresh(a: seq<Item>, b: seq<Item>)
    requires Distinct(Flags(a) + Flags(b))
    ensures Fresh(a, {}) && Fresh(b, FlagSet(a))
  {
    var flags := Flags(a) + Flags(b);
    forall i, j | 0 <= i < j < |a|
      ensures a[i].flag != a[j].flag
    {
      assert flags[i] == a[i].flag && flags[j] == a[j].flag;
    }
    forall i, j | 0 <= i < j < |b|
      ensures b[i].flag != b[j].flag
    {
      assert flags[|a| + i] == b[i].flag && flags[|a| + j] == b[j].flag;
    }
    forall i, j | 0 <= i < |a| && 0 <= j < |b|
      ensures a[i].flag != b[j].flag
    {
      assert flags[i] == a[i].flag && flags[|a| + j] == b[j].flag;
    }
  }

  lemma SubcommandIsSound(p: Policy, globals: seq<Item>, args: seq<string>, uid: nat)
    requires AllOk(p, globals, uid, true) && Fresh(globals, {})
    requires ReadSubcommand(p, globals, args, uid).Ok?
    ensures var r := ReadSubcommand(p, globals, args, uid).value;
            WellFormed(p, r, uid) && r.globals == globals && Subcommand(r) == args
  {
    FreshIsDistinct(globals);
    var r := ReadSubcommand(p, globals, args, uid).value;
    if r.Connect? {
      ReadItemsIsSound(p, args[2..], FlagSet(globals), uid, false);
      FreshAfterIsDistinct(globals, r.rest);
      assert args[2..] == Render(r.rest);
      assert args == ["connect", r.server] + args[2..];
    } else {
      assert args == ["disconnect"];
    }
  }

  /** Whatever the parser accepts is a well-formed request whose words are exactly the input. */
  lemma ParseIsSound(p: Policy, args: seq<string>, uid: nat)
    requires ParseRequest(p, args, uid).Ok?
    ensures WellFormed(p, ParseRequest(p, args, uid).value, uid)
    ensures Words(ParseRequest(p, args, uid).value) == args
  {
    ReadItemsIsSound(p, args, {}, uid, true);
    var (globals, after) := ReadItems(p, args, {}, uid, true).value;
    SubcommandIsSound(p, globals, after, uid);
    WordsSplit(ParseRequest(p, args, uid).value);
  }

  /** Every well-formed request is accepted, and read back as itself. */
  lemma ParseIsComplete(p: Policy, r: Request, uid: nat)
    requires WellFormed(p, r, uid)
    ensures ParseRequest(p, Words(r), uid) == Ok(r)
  {
    WordsSplit(r);
    var sub := Subcommand(r);
    GlobalsAreNotHip();
    if r.Connect? {
      DistinctIsFresh(r.globals, r.rest);
    } else {
      FreshIsDistinct(r.globals);
    }
    ReadItemsIsComplete(p, {}, uid, true, r.globals, sub);
    if r.Connect? {
      ReadItemsIsComplete(p, FlagSet(r.globals), uid, false, r.rest, []);
      assert Render(r.rest) + [] == Render(r.rest);
      assert sub[2..] == Render(r.rest) && sub[1..][0] == r.server;
      assert |sub[0]| == 7;
    }
  }

  /** Main result: an argument vector is accepted exactly when the grammar derives it. */
  lemma AcceptedIffDerived(p: Policy, args: seq<string>, uid: nat)
    ensures ParseRequest(p, args, uid).Ok? <==> Derives(p, args, uid)
  {
    if ParseRequest(p, args, uid).Ok? {
      ParseIsSound(p, args, uid);
    }
    if Derives(p, args, uid) {
      var r :| WellFormed(p, r, uid) && Words(r) == args;
      ParseIsComplete(p, r, uid);
    }
  }

  /** `consumeFlag`: advance over one flag and its value, or say why not. */
  method ConsumeFlag(p: Policy, flag: string, args: seq<string>, index: nat, seen: set<string>, uid: nat,
                     out: seq<string>, globalOnly: bool)
    returns (error: Option<Rejection>, next: nat, seen': set<string>, out': seq<string>)
    requires index < |args| && args[index] == flag
    ensures var read := ReadItem(p, args[index..], seen, uid, globalOnly);
            if read.Err? then error == Some(read.error) else
              && error.None?
              && next == index + |ItemWords(read.value)| <= |args|
              && seen' == seen + {flag}
              && out' == out + ItemWords(read.value)
  {
    error, next, seen', out' := None, index, seen, out;
    var rest := args[index..][1..];
    assert forall i | index < i < |args| :: rest[i - index - 1] == args[i];
    if flag !in ALLOWED_TUNNEL_FLAGS {
      error := Some(UnknownFlag(flag));
      return;
    }
    var valueCount := ALLOWED_TUNNEL_FLAGS[flag];
    if globalOnly && flag !in GLOBAL_FLAGS {
      error := Some(UnknownFlag(flag));
      return;
    }
    if flag in seen {
      error := Some(DuplicateFlag(flag));
      return;
    }
    seen' := seen + {flag};
    next := index + 1;
    out' := out + [flag];
    if flag == HIP {
      if next < |args| && !Dashed(args[next]) {
        var value := args[next];
        next := next + 1;
        error := FileCheck(p, value, uid);
        if error.None? {
          out' := out' + [value];
        }
      }
      return;
    }
    if valueCount != 1 {
      return;
    }
    if next == |args| || Dashed(args[next]) {
      error := Some(MissingValue(flag));
      return;
    }
    var value := args[next];
    next := next + 1;
    error := ValueCheck(p, flag, value, uid);
    if error.None? {
      out' := out' + [value];
    }
  }

  /** A run of flags read up to some point, with `remaining` what reading on gives. */
  ghost predicate ReadSoFar(whole: Result<(seq<Item>, seq<string>), Rejection>, items: seq<Item>,
                            remaining: Result<(seq<Item>, seq<string>), Rejection>)
  {
    if remaining.Err? then whole == remaining
    else whole == Ok((items + remaining.value.0, remaining.value.1))
  }

  lemma ReadOneMore(p: Policy, args: seq<string>, seen: set<string>, uid: nat, globalOnly: bool,
                    whole: Result<(seq<Item>, seq<string>), Rejection>, items: seq<Item>)
    requires args != [] && Dashed(args[0])
    requires ReadSoFar(whole, items, ReadItems(p, args, seen, uid, globalOnly))
    ensures var head := ReadItem(p, args, seen, uid, globalOnly);
            if head.Err? then whole == Err(head.error) else
              && head.value.flag == args[0]
              && ReadSoFar(whole, items + [head.value],
                           ReadItems(p, args[|ItemWords(head.value)|..], seen + {args[0]}, uid, globalOnly))
  {
    var head := ReadItem(p, args, seen, uid, globalOnly);
    if head.Ok? {
      var more := ReadItems(p, args[|ItemWords(head.value)|..], seen + {head.value.flag}, uid, globalOnly);
      if more.Ok? {
        assert items + ([head.value] + more.value.0) == items + [head.value] + more.value.0;
      }
    }
  }

  lemma {:induction false} RenderSnoc(items: seq<Item>, item: Item)
    ensures Render(items + [item]) == Render(items) + ItemWords(item)
    decreases |items|
  {
    var all := items + [item];
    if items == [] {
      assert all == [item];
      RenderCons(item, [], []);
    } else {
      assert all[1..] == items[1..] + [item];
      RenderSnoc(items[1..], item);
    }
  }

  lemma FlagSetSnoc(items: seq<Item>, item: Item)
    ensures FlagSet(items + [item]) == FlagSet(items) + {item.flag}
  {
    var all := items + [item];
    forall f | f in FlagSet(items) + {item.flag}
      ensures f in FlagSet(all)
    {
      if f == item.flag {
        assert all[|items|].flag == f;
      } else {
        var i :| 0 <= i < |items| && items[i].flag == f;
        assert all[i].flag == f;
      }
    }
  }

  /** Either loop of `validate`: read flags from `start` until its stopping point. */
  method ConsumeFlags(p: Policy, args: seq<string>, start: nat, seen: set<string>, uid: nat, globalOnly: bool)
    returns (error: Option<Rejection>, index: nat, seen': set<string>, out: seq<string>)
    requires start <= |args|
    ensures var read := ReadItems(p, args[start..], seen, uid, globalOnly);
            if read.Err? then error == Some(read.error) else
              && error.None?
              && start <= index <= |args|
              && read.value.1 == args[index..]
              && seen' == seen + FlagSet(read.value.0)
              && out == Render(read.value.0)
  {
    error, index, seen', out := None, start, seen, [];
    ghost var whole := ReadItems(p, args[start..], seen, uid, globalOnly);
    ghost var items: seq<Item> := [];
    assert forall more: seq<Item> :: items + more == more;
    while index < |args| && (!globalOnly || Dashed(args[index]))
      invariant error.None? && start <= index <= |args|
      invariant ReadSoFar(whole, items, ReadItems(p, args[index..], seen', uid, globalOnly))
      invariant seen' == seen + FlagSet(items)
      invariant out == Render(items)
      decreases |args| - index
    {
      var flag := args[index];
      assert flag == args[index..][0];
      if !Dashed(flag) {
        error := Some(UnknownFlag(flag));
        return;
      }
      ReadOneMore(p, args[index..], seen', uid, globalOnly, whole, items);
      ghost var read := ReadItem(p, args[index..], seen', uid, globalOnly);
      ghost var before := index;
      error, index, seen', out := ConsumeFlag(p, flag, args, index, seen', uid, out, globalOnly);
      if error.Some? {
        return;
      }
      assert args[before..][|ItemWords(read.value)|..] == args[index..];
      RenderSnoc(items, read.value);
      FlagSetSnoc(items, read.value);
      items := items + [read.value];
    }
    assert items + [] == items;
  }

  /** What `validate` answers. */
  function Verdict(p: Policy, executable: string, args: seq<string>, uid: nat): Result<Approved, Rejection> {
    if p.canonical(executable) != p.canonical(p.gpclientPath) then Err(WrongExecutable(executable)) else
      var parsed := ParseRequest(p, args, uid);
      if parsed.Err? then Err(parsed.error) else Ok(Approved(executable, Words(parsed.value)))
  }

  /**
   * Main result. A request is approved exactly when its executable is the sealed one
   * and the grammar derives its arguments, and what is approved is the argument
   * vector itself, so approving it again changes nothing.
   */
  lemma ApprovedIffDerived(p: Policy, executable: string, args: seq<string>, uid: nat)
    ensures var r := Verdict(p, executable, args, uid);
            && (r.Ok? <==> p.canonical(executable) == p.canonical(p.gpclientPath) && Derives(p, args, uid))
            && (r.Ok? ==> r.value == Approved(executable, args))
            && (r.Ok? ==> Verdict(p, r.value.executable, r.value.arguments, uid) == r)
  {
    AcceptedIffDerived(p, args, uid);
    if ParseRequest(p, args, uid).Ok? {
      ParseIsSound(p, args, uid);
    }
  }

  /** The second half of `validate`, from the subcommand on. */
  method ValidateSubcommand(p: Policy, executable: string, args: seq<string>, start: nat, seen: set<string>, uid: nat,
                            globals: seq<string>, ghost items: seq<Item>)
    returns (r: Result<Approved, Rejection>)
    requires start <= |args| && seen == FlagSet(items) && globals == Render(items)
    ensures var parsed := ReadSubcommand(p, items, args[start..], uid);
            r == if parsed.Err? then Err(parsed.error) else Ok(Approved(executable, Words(parsed.value)))
  {
    ghost var after := args[start..];
    assert forall i | start <= i < |args| :: after[i - start] == args[i];
    var index := start;
    if index == |args| {
      return Err(MissingSubcommand);
    }
    var subcommand := args[index];
    index := index + 1;
    if subcommand == "disconnect" {
      if index != |args| {
        return Err(UnknownFlag(args[index]));
      }
      return Ok(Approved(executable, globals + ["disconnect"]));
    }
    if subcommand != "connect" {
      return Err(UnknownSubcommand(subcommand));
    }
    if index == |args| || Dashed(args[index]) {
      return Err(MissingValue("connect <server>"));
    }
    var server := args[index];
    if !p.isHostname(server) {
      return Err(BadHostname(server));
    }
    index := index + 1;
    assert after[2..] == args[index..];
    var error, end, seen', rest := ConsumeFlags(p, args, index, seen, uid, false);
    if error.Some? {
      return Err(error.value);
    }
    return Ok(Approved(executable, globals + ["connect", server] + rest));
  }

  /** `validate` itself: it gives the verdict, the first fault met being the one reported. */
  method Validate(p: Policy, executable: string, args: seq<string>, uid: nat) returns (r: Result<Approved, Rejection>)
    ensures r == Verdict(p, executable, args, uid)
  {
    if p.canonical(executable) != p.canonical(p.gpclientPath) {
      return Err(WrongExecutable(executable));
    }
    assert args[0..] == args;
    ghost var read := ReadItems(p, args, {}, uid, true);
    var error, index, seen, globals := ConsumeFlags(p, args, 0, {}, uid, true);
    if error.Some? {
      return Err(error.value);
    }
    assert {} + FlagSet(read.value.0) == FlagSet(read.value.0);
    r := ValidateSubcommand(p, executable, args, index, seen, uid, globals, read.value.0);
  }
}

/**
 * What the privileged helper may be asked to run: the grammar behind
 * HelperRequestValidator.swift and `allowedTunnelFlags` of GpclientCommand.swift,
 * stated without reference to the parser.
 */
module RequestGrammar {
  import opened Options
  import opened Decimal

  /** Every flag the tunnel command may carry, with the number of values that follow it. */
  const ALLOWED_TUNNEL_FLAGS: map<string, nat> := map[
    "--log-format" := 1,
    "--fix-openssl" := 0,
    "--ignore-tls-errors" := 0,
    "--gateway" := 1,
    "--auto-gateway" := 0,
    "--as-gateway" := 0,
    "--cookie-on-stdin" := 0,
    "--user" := 1,
    "--passwd-on-stdin" := 0,
    "--certificate" := 1,
    "--sslkey" := 1,
    "--script" := 1,
    "--hip" := 0,
    "--disable-ipv6" := 0,
    "--no-dtls" := 0,
    "--mtu" := 1,
    "--force-dpd" := 1,
    "--reconnect-timeout" := 1]

  const GLOBAL_FLAGS: set<string> := {"--log-format", "--fix-openssl", "--ignore-tls-errors"}

  const HIP := "--hip"

  datatype FileInfo = FileInfo(isRegularFile: bool, ownerUID: nat)

  /** The validator's configuration; file system, hostname shape and path canonicalisation are given. */
  datatype Policy = Policy(
    gpclientPath: string,
    vpncScriptPath: string,
    canonical: string -> string,
    isHostname: string -> bool,
    fileInfo: string -> Option<FileInfo>)

  predicate Dashed(word: string) {
    "--" <= word
  }

  predicate OwnedFile(p: Policy, path: string, uid: nat) {
    && p.fileInfo(path).Some?
    && p.fileInfo(path).value.isRegularFile
    && p.fileInfo(path).value.ownerUID == uid
  }

  /** What a one-value flag accepts as its value. */
  predicate ValueOk(p: Policy, flag: string, value: string, uid: nat) {
    if flag == "--log-format" then value == "json" || value == "text"
    else if flag == "--gateway" then p.isHostname(value)
    else if flag == "--user" then value != "" && |value| <= 256 && '\n' !in value
    else if flag == "--mtu" || flag == "--force-dpd" || flag == "--reconnect-timeout" then ParseUInt32(value).Some?
    else if flag == "--script" then p.canonical(value) == p.canonical(p.vpncScriptPath)
    else if flag == "--certificate" || flag == "--sslkey" then OwnedFile(p, value, uid)
    else true
  }

  /** One flag with its value, if it has one. */
  datatype Item = Item(flag: string, value: Option<string>)

  datatype Request =
    | Disconnect(globals: seq<Item>)
    | Connect(globals: seq<Item>, server: string, rest: seq<Item>)

  function ItemWords(item: Item): seq<string> {
    [item.flag] + if item.value.Some? then [item.value.value] else []
  }

  function Render(items: seq<Item>): seq<string> {
    if items == [] then [] else
      ItemWords(items[0]) + Render(items[1..])
  }

  /** The argument vector of a request. */
  function Words(r: Request): seq<string> {
    match r
    case Disconnect(globals) => Render(globals) + ["disconnect"]
    case Connect(globals, server, rest) => Render(globals) + ["connect", server] + Render(rest)
  }

  /** A known flag with the right number of words after it, none of them dashed. */
  predicate Shaped(item: Item, globalOnly: bool) {
    && item.flag in ALLOWED_TUNNEL_FLAGS
    && Dashed(item.flag)
    && (globalOnly ==> item.flag in GLOBAL_FLAGS && item.flag != HIP)
    && (item.value.Some? ==> !Dashed(item.value.value))
    && (item.flag != HIP ==> (item.value.Some? <==> ALLOWED_TUNNEL_FLAGS[item.flag] == 1))
  }

  predicate ItemOk(p: Policy, item: Item, uid: nat, globalOnly: bool) {
    && Shaped(item, globalOnly)
    && (item.value.Some? ==>
          if item.flag == HIP then OwnedFile(p, item.value.value, uid)
          else ValueOk(p, item.flag, item.value.value, uid))
  }

  function Flags(items: seq<Item>): (f: seq<string>)
    ensures |f| == |items|
    ensures forall i | 0 <= i < |items| :: f[i] == items[i].flag
  {
    seq(|items|, i requires 0 <= i < |items| => items[i].flag)
  }

  predicate Distinct(flags: seq<string>) {
    forall i, j | 0 <= i < j < |flags| :: flags[i] != flags[j]
  }

  predicate AllShaped(items: seq<Item>, globalOnly: bool) {
    forall i | 0 <= i < |items| :: Shaped(items[i], globalOnly)
  }

  predicate AllOk(p: Policy, items: seq<Item>, uid: nat, globalOnly: bool) {
    forall i | 0 <= i < |items| :: ItemOk(p, items[i], uid, globalOnly)
  }

  predicate ShapedRequest(r: Request) {
    && AllShaped(r.globals, true)
    && (r.Connect? ==> !Dashed(r.server) && AllShaped(r.rest, false))
  }

  /** A request the helper may run: known flags, none twice, every value acceptable. */
  predicate WellFormed(p: Policy, r: Request, uid: nat) {
    && AllOk(p, r.globals, uid, true)
    && (r.Disconnect? ==> Distinct(Flags(r.globals)))
    && (r.Connect? ==>
          && !Dashed(r.server)
          && p.isHostname(r.server)
          && AllOk(p, r.rest, uid, false)
          && Distinct(Flags(r.globals) + Flags(r.rest)))
  }

  ghost predicate Derives(p: Policy, argv: seq<string>, uid: nat) {
    exists r :: WellFormed(p, r, uid) && Words(r) == argv
  }

  lemma WellFormedIsShaped(p: Policy, r: Request, uid: nat)
    requires WellFormed(p, r, uid)
    ensures ShapedRequest(r)
  {
  }

  lemma RenderCons(item: Item, items: seq<Item>, tail: seq<string>)
    ensures Render([item] + items) + tail == ItemWords(item) + (Render(items) + tail)
  {
    assert ([item] + items)[1..] == items;
  }

  /** Words after a run of flags that cannot be read as part of it. */
  predicate Stops(items: seq<Item>, tail: seq<string>) {
    tail == [] || (!Dashed(tail[0]) && forall i | 0 <= i < |items| :: items[i].flag != HIP)
  }

  /** After a `--hip`, the next word is a value exactly when it is not dashed. */
  predicate HeadStops(item: Item, tail: seq<string>) {
    item.flag == HIP ==> tail == [] || Dashed(tail[0])
  }

  /** What comes second, and where the words of one flag end. */
  lemma SecondWord(a: Item, tail: seq<string>)
    ensures var words := ItemWords(a) + tail;
            && words[0] == a.flag
            && (a.value.Some? ==> |words| == 2 + |tail| && words[1] == a.value.value && words[2..] == tail)
            && (a.value.None? ==> |words| == 1 + |tail| && words[1..] == tail && (tail != [] ==> words[1] == tail[0]))
  {
  }

  lemma SameHead(a: Item, tailA: seq<string>, b: Item, tailB: seq<string>, g: bool)
    requires Shaped(a, g) && Shaped(b, g) && HeadStops(a, tailA) && HeadStops(b, tailB)
    requires ItemWords(a) + tailA == ItemWords(b) + tailB
    ensures a == b && tailA == tailB
  {
    SecondWord(a, tailA);
    SecondWord(b, tailB);
  }

  lemma RestStops(items: seq<Item>, tail: seq<string>, g: bool)
    requires items != [] && AllShaped(items, g) && Stops(items, tail)
    ensures HeadStops(items[0], Render(items[1..]) + tail)
    ensures Stops(items[1..], tail)
  {
    if |items| > 1 {
      assert Render(items[1..])[0] == items[1].flag;
    } else {
      assert Render(items[1..]) + tail == tail;
    }
  }

  /** A dashed word comes first exactly when there is a flag to read. */
  lemma RenderStart(items: seq<Item>, tail: seq<string>, g: bool)
    requires AllShaped(items, g) && Stops(items, tail)
    ensures var words := Render(items) + tail;
            && (items == [] ==> words == tail)
            && (items != [] <==> words != [] && Dashed(words[0]))
  {
    if items != [] {
      assert (Render(items) + tail)[0] == items[0].flag;
      assert Shaped(items[0], g);
    }
  }

  /** A run of shaped flags is read in one way only. */
  lemma {:induction false} RenderIsUnambiguous(a: seq<Item>, b: seq<Item>, tailA: seq<string>, tailB: seq<string>,
          g: bool)
    requires AllShaped(a, g) && AllShaped(b, g) && Stops(a, tailA) && Stops(b, tailB)
    requires Render(a) + tailA == Render(b) + tailB
    ensures a == b && tailA == tailB
    decreases |a|
  {
    RenderStart(a, tailA, g);
    RenderStart(b, tailB, g);
    if a != [] && b != [] {
      assert a == [a[0]] + a[1..] && b == [b[0]] + b[1..];
      RenderCons(a[0], a[1..], tailA);
      RenderCons(b[0], b[1..], tailB);
      RestStops(a, tailA, g);
      RestStops(b, tailB, g);
      SameHead(a[0], Render(a[1..]) + tailA, b[0], Render(b[1..]) + tailB, g);
      RenderIsUnambiguous(a[1..], b[1..], tailA, tailB, g);
    }
  }

  function Subcommand(r: Request): seq<string> {
    if r.Disconnect? then ["disconnect"] else ["connect", r.server] + Render(r.rest)
  }

  lemma WordsSplit(r: Request)
    ensures Words(r) == Render(r.globals) + Subcommand(r)
    ensures !Dashed(Subcommand(r)[0])
  {
    assert Subcommand(r)[0][0] != '-';
  }

  /** An argument vector means at most one request. */
  lemma WordsAreUnambiguous(a: Request, b: Request)
    requires ShapedRequest(a) && ShapedRequest(b) && Words(a) == Words(b)
    ensures a == b
  {
    WordsSplit(a);
    WordsSplit(b);
    RenderIsUnambiguous(a.globals, b.globals, Subcommand(a), Subcommand(b), true);
    assert |Subcommand(a)[0]| == |Subcommand(b)[0]|;
    if a.Connect? {
      assert Subcommand(a)[1] == a.server && Subcommand(b)[1] == b.server;
      assert Subcommand(a)[2..] == Render(a.rest) + [] && Subcommand(b)[2..] == Render(b.rest) + [];
      RenderIsUnambiguous(a.rest, b.rest, [], [], false);
    }
  }
}

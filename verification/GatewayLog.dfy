/**
 * Log lines the Rust client prints and the app reads: gateways
 * (crates/gpapi/src/portal/config.rs, crates/gpapi/src/gateway/mod.rs against the two patterns of
 * GpclientOutputParser.swift). A pattern is a relation between a text and its captures.
 */
module GatewayLog {
  import opened Decimal

  const I64_MAX: nat := 0x7FFF_FFFF_FFFF_FFFF

  /** What `.` does not match. */
  predicate IsTerminator(c: char) {
    0xA <= c as int <= 0xD || c as int == 0x85 || c as int == 0x2028 || c as int == 0x2029
  }

  /** `\s`: the Unicode white space characters. */
  predicate IsSpace(c: char) {
    var n := c as int;
    9 <= n <= 0xD || n == 0x20 || n == 0x85 || n == 0xA0 || n == 0x1680
    || 0x2000 <= n <= 0x200A || n == 0x2028 || n == 0x2029 || n == 0x202F || n == 0x205F || n == 0x3000
  }

  /** `.*` */
  predicate OneLine(s: string) {
    forall i | 0 <= i < |s| :: !IsTerminator(s[i])
  }

  /** `[^()\s]+` */
  predicate Address(s: string) {
    s != "" && forall i | 0 <= i < |s| :: s[i] != '(' && s[i] != ')' && !IsSpace(s[i])
  }

  /** `$`: the end, or before one last line terminator. */
  predicate AtEnd(s: string) {
    s == "" || (|s| == 1 && IsTerminator(s[0])) || s == "\r\n"
  }

  // ---------- what the Rust client prints ----------

  datatype Gateway = Gateway(name: string, server: string, priority: nat)

  function InventoryLine(g: Gateway): string {
    "Gateway: " + g.name + " (" + g.server + ") priority=" + ToDecimal(g.priority)
  }

  datatype Announcement = Selected | OnlyOne | Auto

  function Words(a: Announcement): string {
    match a
    case Selected => "Connecting to the selected gateway: "
    case OnlyOne => "Connecting to the only available gateway: "
    case Auto => "Auto-gateway: attempting gateway "
  }

  function SelectedLine(a: Announcement, g: Gateway): string {
    Words(a) + g.name + " (" + g.server + ")"
  }

  // ---------- what the patterns match ----------

  /** `(.*) \(([^()\s]+)\)` */
  function Place(name: string, server: string): string {
    name + " (" + server + ")"
  }

  predicate MatchesInventory(line: string, name: string, server: string, digits: string, end: string) {
    && line == "Gateway: " + Place(name, server) + " priority=" + digits + end
    && OneLine(name) && Address(server) && digits != "" && AllDigits(digits) && AtEnd(end)
  }

  predicate MatchesSelected(line: string, a: Announcement, name: string, server: string, end: string) {
    && line == Words(a) + Place(name, server) + end
    && OneLine(name) && Address(server) && AtEnd(end)
  }

  // ---------- what the app makes of it ----------

  datatype Event = Discovered(name: string, server: string, priority: nat) | Chosen(name: string, server: string)

  /** `Int(text) ?? 0` */
  function IntOrZero(digits: string): nat
    requires AllDigits(digits)
  {
    if digits == "" || Value(digits) > I64_MAX then 0 else Value(digits)
  }

  function NameOr(name: string, server: string): string {
    if name == "" then server else name
  }

  /** The gateway patterns come first, the inventory one before the selection one. */
  ghost predicate Reads(line: string, event: Event) {
    if exists name, server, digits, end :: MatchesInventory(line, name, server, digits, end) then
      exists name, server, digits, end ::
        MatchesInventory(line, name, server, digits, end)
        && event == Discovered(NameOr(name, server), server, IntOrZero(digits))
    else
      exists a, name, server, end ::
        MatchesSelected(line, a, name, server, end) && event == Chosen(NameOr(name, server), server)
  }

  // ---------- a match is unique ----------

  lemma SplitAtLast(x: string, y: string, x': string, y': string, c: char)
    requires x + [c] + y == x' + [c] + y' && c !in y && c !in y'
    ensures x == x' && y == y'
  {
    var s, s' := x + [c] + y, x' + [c] + y';
    assert s[|x|] == c && s'[|x'|] == c;
    forall j | |x| < j < |s| ensures s[j] != c {
      assert s[j] == y[j - |x| - 1];
    }
    forall j | |x'| < j < |s'| ensures s'[j] != c {
      assert s'[j] == y'[j - |x'| - 1];
    }
    assert s[..|x|] == x && s'[..|x'|] == x';
    assert s[|x| + 1..] == y && s'[|x'| + 1..] == y';
  }

  lemma CancelRight(a: string, b: string, s: string)
    requires a + s == b + s
    ensures a == b
  {
    assert (a + s)[..|a|] == a && (b + s)[..|b|] == b;
  }

  lemma CancelLeft(s: string, a: string, b: string)
    requires s + a == s + b
    ensures a == b
  {
    assert (s + a)[|s|..] == a && (s + b)[|s|..] == b;
  }

  lemma DigitsThenEnd(d: string, e: string, d': string, e': string)
    requires AllDigits(d) && AllDigits(d') && AtEnd(e) && AtEnd(e') && d + e == d' + e'
    ensures d == d' && e == e'
  {
    var s, s' := d + e, d' + e';
    forall j | 0 <= j < |s| ensures IsDigit(s[j]) <==> j < |d| {
      assert s[j] == if j < |d| then d[j] else e[j - |d|];
    }
    forall j | 0 <= j < |s'| ensures IsDigit(s'[j]) <==> j < |d'| {
      assert s'[j] == if j < |d'| then d'[j] else e'[j - |d'|];
    }
    assert |d| == |s| || !IsDigit(s[|d|]);
    assert |d'| == |s| || !IsDigit(s[|d'|]);
    assert s[..|d|] == d && s'[..|d'|] == d';
    assert s[|d|..] == e && s'[|d'|..] == e';
  }

  lemma PlaceIsUnique(front: string, name: string, server: string, name': string, server': string)
    requires front + Place(name, server) == front + Place(name', server') && Address(server) && Address(server')
    ensures name == name' && server == server'
  {
    CancelLeft(front, Place(name, server), Place(name', server'));
    CancelRight(name + " (" + server, name' + " (" + server', ")");
    assert name + " (" + server == name + " " + ['('] + server;
    assert name' + " (" + server' == name' + " " + ['('] + server';
    SplitAtLast(name + " ", server, name' + " ", server', '(');
    CancelRight(name, name', " ");
  }

  lemma InventoryParts(name: string, server: string, digits: string, end: string)
    requires AllDigits(digits) && AtEnd(end)
    ensures "Gateway: " + Place(name, server) + " priority=" + digits + end
         == ("Gateway: " + Place(name, server)) + " priority" + ['='] + (digits + end)
    ensures '=' !in digits + end
  {
  }

  lemma InventoryMatchIsUnique(line: string, name: string, server: string, digits: string, end: string,
        name': string, server': string, digits': string, end': string)
    requires MatchesInventory(line, name, server, digits, end) && MatchesInventory(line, name', server', digits', end')
    ensures name == name' && server == server' && digits == digits'
  {
    InventoryParts(name, server, digits, end);
    InventoryParts(name', server', digits', end');
    var front, front' := "Gateway: " + Place(name, server), "Gateway: " + Place(name', server');
    SplitAtLast(front + " priority", digits + end, front' + " priority", digits' + end', '=');
    CancelRight(front, front', " priority");
    PlaceIsUnique("Gateway: ", name, server, name', server');
    DigitsThenEnd(digits, end, digits', end');
  }

  lemma WordsDiffer(a: Announcement, a': Announcement, s: string, s': string)
    requires Words(a) + s == Words(a') + s'
    ensures a == a'
  {
    var t, t' := Words(a) + s, Words(a') + s';
    assert t[0] == Words(a)[0] && t'[0] == Words(a')[0];
    assert !a.Auto? ==> t[18] == Words(a)[18];
    assert !a'.Auto? ==> t'[18] == Words(a')[18];
  }

  lemma SelectedParts(words: string, name: string, server: string, end: string)
    requires AtEnd(end)
    ensures words + Place(name, server) + end == words + (Place(name, server) + end)
    ensures words + Place(name, server) + end == (words + name + " (" + server) + [')'] + end
    ensures words + name + " (" + server + ")" == words + Place(name, server)
    ensures ')' !in end
  {
  }

  lemma SelectedMatchIsUnique(line: string, a: Announcement, name: string, server: string, end: string,
        a': Announcement, name': string, server': string, end': string)
    requires MatchesSelected(line, a, name, server, end) && MatchesSelected(line, a', name', server', end')
    ensures a == a' && name == name' && server == server'
  {
    SelectedParts(Words(a), name, server, end);
    SelectedParts(Words(a'), name', server', end');
    WordsDiffer(a, a', Place(name, server) + end, Place(name', server') + end');
    SplitAtLast(Words(a) + name + " (" + server, end, Words(a) + name' + " (" + server', end', ')');
    PlaceIsUnique(Words(a), name, server, name', server');
  }

  lemma PatternsAreDisjoint(line: string, a: Announcement, name: string, server: string, end: string,
        name': string, server': string, digits': string, end': string)
    requires MatchesSelected(line, a, name, server, end)
    ensures !MatchesInventory(line, name', server', digits', end')
  {
    assert line[0] == Words(a)[0];
    assert ("Gateway: " + Place(name', server') + " priority=" + digits' + end')[0] == 'G';
  }

  // ---------- round trips ----------

  lemma InventoryMatches(g: Gateway)
    requires OneLine(g.name) && Address(g.server)
    ensures MatchesInventory(InventoryLine(g), g.name, g.server, ToDecimal(g.priority), "")
  {
    var place := Place(g.name, g.server);
    assert "Gateway: " + g.name + " (" + g.server + ") priority=" + ToDecimal(g.priority)
        == "Gateway: " + place + " priority=" + ToDecimal(g.priority) + "";
  }

  /** The app reads an inventory line as the gateway it was printed from, and as nothing else. */
  lemma InventoryRoundTrip(g: Gateway, event: Event)
    requires OneLine(g.name) && Address(g.server) && g.priority <= U32_MAX
    ensures Reads(InventoryLine(g), event) <==> event == Discovered(NameOr(g.name, g.server), g.server, g.priority)
    ensures Numeral(ToDecimal(g.priority), g.priority)
    ensures InventoryLine(g)
         == "Gateway: " + g.name + " (" + g.server + ") priority=" + ToDecimal(g.priority)
  {
    var line, digits := InventoryLine(g), ToDecimal(g.priority);
    InventoryMatches(g);
    ValueOfDecimal(g.priority);
    NoLeadingZero(g.priority);
    forall name, server, digits', end | MatchesInventory(line, name, server, digits', end)
      ensures name == g.name && server == g.server && digits' == digits {
      InventoryMatchIsUnique(line, g.name, g.server, digits, "", name, server, digits', end);
    }
  }

  lemma SelectedMatches(a: Announcement, g: Gateway)
    requires OneLine(g.name) && Address(g.server)
    ensures MatchesSelected(SelectedLine(a, g), a, g.name, g.server, "")
  {
    assert Words(a) + g.name + " (" + g.server + ")" == Words(a) + Place(g.name, g.server) + "";
  }

  /** Likewise for the three announcements of a chosen gateway. */
  lemma SelectedRoundTrip(a: Announcement, g: Gateway, event: Event)
    requires OneLine(g.name) && Address(g.server)
    ensures Reads(SelectedLine(a, g), event) <==> event == Chosen(NameOr(g.name, g.server), g.server)
    ensures SelectedLine(Selected, g) == "Connecting to the selected gateway: " + g.name + " (" + g.server + ")"
    ensures SelectedLine(OnlyOne, g) == "Connecting to the only available gateway: " + g.name + " (" + g.server + ")"
    ensures SelectedLine(Auto, g) == "Auto-gateway: attempting gateway " + g.name + " (" + g.server + ")"
  {
    var line := SelectedLine(a, g);
    SelectedMatches(a, g);
    forall name, server, digits, end ensures !MatchesInventory(line, name, server, digits, end) {
      PatternsAreDisjoint(line, a, g.name, g.server, "", name, server, digits, end);
    }
    forall a', name, server, end | MatchesSelected(line, a', name, server, end)
      ensures name == g.name && server == g.server {
      SelectedMatchIsUnique(line, a, g.name, g.server, "", a', name, server, end);
    }
  }

  // ---------- every gateway ----------

  lemma LineParts(name: string, server: string, digits: string)
    requires AllDigits(digits)
    ensures "Gateway: " + name + " (" + server + ") priority=" + digits
         == ("Gateway: " + name + " (" + server + ")" + " priority") + ['='] + digits
    ensures '=' !in digits
  {
  }

  lemma HeadParts(name: string, server: string)
    ensures "Gateway: " + name + " (" + server + ")" == "Gateway: " + (name + " (" + server) + ")"
    ensures "Gateway: " + Place(name, server) == "Gateway: " + (name + " (" + server) + ")"
  {
  }

  /** What the pattern captures on an inventory line: the printed name and address, cut at their last ` (`. */
  lemma InventoryCaptures(g: Gateway, name: string, server: string, digits: string, end: string)
    requires MatchesInventory(InventoryLine(g), name, server, digits, end)
    ensures name + " (" + server == g.name + " (" + g.server && digits == ToDecimal(g.priority) && end == ""
  {
    var printed := ToDecimal(g.priority);
    LineParts(g.name, g.server, printed);
    InventoryParts(name, server, digits, end);
    var front, front' := "Gateway: " + g.name + " (" + g.server + ")", "Gateway: " + Place(name, server);
    SplitAtLast(front + " priority", printed, front' + " priority", digits + end, '=');
    CancelRight(front, front', " priority");
    HeadParts(g.name, g.server);
    HeadParts(name, server);
    CancelRight("Gateway: " + (g.name + " (" + g.server), "Gateway: " + (name + " (" + server), ")");
    CancelLeft("Gateway: ", g.name + " (" + g.server, name + " (" + server);
    assert printed + "" == printed;
    DigitsThenEnd(printed, "", digits, end);
  }

  lemma InventoryPrints(g: Gateway, name: string, server: string)
    requires name + " (" + server == g.name + " (" + g.server && OneLine(name) && Address(server)
    ensures MatchesInventory(InventoryLine(g), name, server, ToDecimal(g.priority), "")
  {
    InventoryMatches(Gateway(name, server, g.priority));
    HeadParts(g.name, g.server);
    HeadParts(name, server);
    SameLine(g, name, server);
  }

  lemma SameLine(g: Gateway, name: string, server: string)
    requires name + " (" + server == g.name + " (" + g.server
    ensures InventoryLine(g) == InventoryLine(Gateway(name, server, g.priority))
  {
    var d := ToDecimal(g.priority);
    assert "Gateway: " + g.name + " (" + g.server + ") priority=" + d
        == "Gateway: " + (g.name + " (" + g.server) + ") priority=" + d;
    assert "Gateway: " + name + " (" + server + ") priority=" + d
        == "Gateway: " + (name + " (" + server) + ") priority=" + d;
  }

  /** For every gateway: the line is read as `name` and `server` exactly when they spell the same place. */
  lemma InventoryMatchIff(g: Gateway, name: string, server: string)
    ensures (exists digits, end :: MatchesInventory(InventoryLine(g), name, server, digits, end)) <==>
              OneLine(name) && Address(server) && name + " (" + server == g.name + " (" + g.server
  {
    forall digits, end | MatchesInventory(InventoryLine(g), name, server, digits, end)
      ensures name + " (" + server == g.name + " (" + g.server {
      InventoryCaptures(g, name, server, digits, end);
    }
    if OneLine(name) && Address(server) && name + " (" + server == g.name + " (" + g.server {
      InventoryPrints(g, name, server);
    }
  }

  /** The address reads as another one: `a`, a blank, a parenthesis, and a proper address `b`. */
  ghost predicate Misreads(g: Gateway, a: string, b: string) {
    g.server == a + " (" + b && Address(b) && OneLine(g.name + " (" + a)
  }

  lemma OtherPlace(name: string, server: string, name': string, server': string)
    requires name + " (" + server == name' + " (" + server' && Address(server') && server' != server
    ensures |name'| >= |name| + 2 && name' == name + " (" + name'[|name| + 2..]
    ensures server == name'[|name| + 2..] + " (" + server'
  {
    var s, s' := name + " (" + server, name' + " (" + server';
    assert s[|name|] == ' ' && s[|name| + 1] == '(' && s'[|name'|] == ' ' && s'[|name'| + 1] == '(';
    forall j | |name'| + 1 < j < |s'| ensures s'[j] != '(' {
      assert s'[j] == server'[j - |name'| - 2];
    }
    assert s[|name| + 2..] == server && s'[|name'| + 2..] == server';
    var a := name'[|name| + 2..];
    assert s'[..|name'|] == name';
    assert s[..|name| + 2] == name + " (";
    assert s'[..|name| + 2] == name'[..|name| + 2];
    assert s'[|name| + 2..] == a + " (" + server';
  }

  /**
   * An inventory line is misread exactly when the address itself ends in a proper address in
   * parentheses of its own and what comes before is one line; read as it was printed exactly when name
   * and address are proper; and otherwise not read at all.
   */
  lemma MisreadIff(g: Gateway)
    ensures (exists name, server, digits, end ::
               MatchesInventory(InventoryLine(g), name, server, digits, end) && (name != g.name || server != g.server))
            <==> exists a, b :: Misreads(g, a, b)
    ensures (exists digits, end :: MatchesInventory(InventoryLine(g), g.name, g.server, digits, end))
            <==> OneLine(g.name) && Address(g.server)
  {
    InventoryMatchIff(g, g.name, g.server);
    forall name, server, digits, end |
      MatchesInventory(InventoryLine(g), name, server, digits, end) && (name != g.name || server != g.server)
      ensures exists a, b :: Misreads(g, a, b) {
      InventoryCaptures(g, name, server, digits, end);
      if server == g.server {
        CancelRight(name + " (", g.name + " (", server);
        CancelRight(name, g.name, " (");
      }
      OtherPlace(g.name, g.server, name, server);
      assert Misreads(g, name[|g.name| + 2..], server);
    }
    forall a, b | Misreads(g, a, b)
      ensures exists name, server, digits, end ::
                && MatchesInventory(InventoryLine(g), name, server, digits, end)
                && (name != g.name || server != g.server) {
      var name := g.name + " (" + a;
      assert name + " (" + b == g.name + " (" + g.server;
      InventoryPrints(g, name, b);
    }
  }

  /** The smallest kind of such an address. */
  lemma AddressCanMislead()
    ensures Misreads(Gateway("n", "x (y", 1), "x", "y")
    ensures MatchesInventory(InventoryLine(Gateway("n", "x (y", 1)), "n (x", "y", ToDecimal(1), "")
  {
    assert "n" + " (" + "x (y" == "n (x" + " (" + "y";
    InventoryPrints(Gateway("n", "x (y", 1), "n (x", "y");
  }
}

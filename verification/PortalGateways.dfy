/** Gateway preference: `find_preferred_gateway` and `sort_gateways` of crates/gpapi/src/portal/config.rs. */
module PortalGateways {
  import opened Decimal

  datatype PriorityRule = PriorityRule(name: string, priority: nat)

  datatype Gateway = Gateway(name: string, address: string, priority: nat, rules: seq<PriorityRule>)

  predicate Applies(rule: PriorityRule, region: string) {
    (rule.name == region || rule.name == "Any") && rule.priority < U32_MAX
  }

  /** A rule of the gateway gives the region priority `p`. */
  predicate Offers(rules: seq<PriorityRule>, region: string, p: nat) {
    exists j :: 0 <= j < |rules| && Applies(rules[j], region) && rules[j].priority == p
  }

  /** The earliest gateway with the smallest region priority. */
  ghost predicate BestForRegion(gs: seq<Gateway>, region: string, i: nat, p: nat) {
    && i < |gs| && Offers(gs[i].rules, region, p)
    && (forall k, q: nat | 0 <= k < |gs| && Offers(gs[k].rules, region, q) :: p <= q)
    && (forall k | 0 <= k < i :: !Offers(gs[k].rules, region, p))
  }

  ghost predicate NoRule(gs: seq<Gateway>, region: string) {
    forall k, q: nat | 0 <= k < |gs| :: !Offers(gs[k].rules, region, q)
  }

  /** The earliest gateway with the smallest priority of its own. */
  predicate BestOverall(gs: seq<Gateway>, i: nat) {
    && i < |gs|
    && (forall k | 0 <= k < |gs| :: gs[i].priority <= gs[k].priority)
    && (forall k | 0 <= k < i :: gs[i].priority < gs[k].priority)
  }

  ghost predicate IsPreferred(gs: seq<Gateway>, region: string, i: nat) {
    if NoRule(gs, region) then BestOverall(gs, i) else exists p: nat :: BestForRegion(gs, region, i, p)
  }

  /** There is only one. */
  lemma PreferredIsUnique(gs: seq<Gateway>, region: string, i: nat, j: nat)
    requires IsPreferred(gs, region, i) && IsPreferred(gs, region, j)
    ensures i == j
  {
    if !NoRule(gs, region) {
      var p: nat :| BestForRegion(gs, region, i, p);
      var q: nat :| BestForRegion(gs, region, j, q);
      assert Offers(gs[i].rules, region, p) && Offers(gs[j].rules, region, q);
    } else {
      assert gs[i].priority <= gs[j].priority <= gs[i].priority;
    }
  }

  /** A rule for the region or for any, of a priority other than the largest number. */
  predicate RuleFor(rule: PriorityRule, region: string, p: nat) {
    (rule.name == region || rule.name == "Any") && rule.priority == p && p < 0xFFFF_FFFF
  }

  /**
   * The choice, rule by rule: when some gateway has a rule for the region or for any, the preferred
   * one has one that no other undercuts, and no earlier gateway has one as good; without any such
   * rule it is the earliest of the smallest own priority.
   */
  lemma PreferredByRules(gs: seq<Gateway>, region: string, i: nat, k: nat, j: nat)
      returns (m: nat)
    requires IsPreferred(gs, region, i) && k < |gs| && j < |gs[k].rules|
    requires RuleFor(gs[k].rules[j], region, gs[k].rules[j].priority)
    ensures i < |gs| && m < |gs[i].rules| && RuleFor(gs[i].rules[m], region, gs[i].rules[m].priority)
    ensures gs[i].rules[m].priority <= gs[k].rules[j].priority
    ensures k < i ==> gs[i].rules[m].priority < gs[k].rules[j].priority
  {
    assert Applies(gs[k].rules[j], region);
    assert Offers(gs[k].rules, region, gs[k].rules[j].priority);
    var p: nat :| BestForRegion(gs, region, i, p);
    m :| 0 <= m < |gs[i].rules| && Applies(gs[i].rules[m], region) && gs[i].rules[m].priority == p;
  }

  lemma NoOffer(rules: seq<PriorityRule>, region: string, q: nat)
    requires forall j | 0 <= j < |rules| :: !RuleFor(rules[j], region, rules[j].priority)
    ensures !Offers(rules, region, q)
  {
    forall j | 0 <= j < |rules| ensures !Applies(rules[j], region) {
      assert !RuleFor(rules[j], region, rules[j].priority);
    }
  }

  lemma PreferredByPriority(gs: seq<Gateway>, region: string, i: nat, k: nat)
    requires IsPreferred(gs, region, i) && k < |gs|
    requires forall g, j | 0 <= g < |gs| && 0 <= j < |gs[g].rules| ::
               !RuleFor(gs[g].rules[j], region, gs[g].rules[j].priority)
    ensures i < |gs| && gs[i].priority <= gs[k].priority
    ensures k < i ==> gs[i].priority < gs[k].priority
  {
    forall g, q: nat | 0 <= g < |gs| ensures !Offers(gs[g].rules, region, q) {
      NoOffer(gs[g].rules, region, q);
    }
  }

  /** The best rule among the gateways before `n`, scanned by the two loops. */
  ghost predicate Scanned(gs: seq<Gateway>, region: string, n: nat, found: int, lowest: nat)
    requires n <= |gs|
  {
    && lowest <= U32_MAX
    && (found < 0 <==> lowest == U32_MAX)
    && (found < 0 ==> NoRule(gs[..n], region))
    && (found >= 0 ==> BestForRegion(gs[..n], region, found, lowest))
  }

  /** The smallest applicable priority below `floor` among rules, or `floor`. */
  ghost predicate Lowest(rules: seq<PriorityRule>, region: string, floor: nat, p: nat) {
    && p <= floor
    && (p < floor ==> Offers(rules, region, p))
    && (forall q: nat | Offers(rules, region, q) :: p <= q)
  }

  method ScanRules(rules: seq<PriorityRule>, region: string, floor: nat) returns (p: nat)
    requires floor <= U32_MAX
    ensures Lowest(rules, region, floor, p)
  {
    p := floor;
    for j := 0 to |rules|
      invariant p <= floor
      invariant p < floor ==> Offers(rules, region, p)
      invariant forall k | 0 <= k < j && Applies(rules[k], region) :: p <= rules[k].priority
    {
      if (rules[j].name == region || rules[j].name == "Any") && rules[j].priority < p {
        p := rules[j].priority;
        assert Applies(rules[j], region);
      }
    }
  }

  lemma ScanOneMore(gs: seq<Gateway>, region: string, n: nat, found: int, lowest: nat, p: nat)
    requires n < |gs| && Scanned(gs, region, n, found, lowest) && Lowest(gs[n].rules, region, lowest, p)
    ensures Scanned(gs, region, n + 1, if p < lowest then n else found, p)
  {
    var before, after := gs[..n], gs[..n + 1];
    assert forall k | 0 <= k < n :: before[k] == gs[k] && after[k] == gs[k];
    assert after[n] == gs[n];
    forall q: nat | Offers(gs[n].rules, region, q) ensures q < U32_MAX {
    }
  }

  method FirstLowest(gs: seq<Gateway>) returns (i: nat)
    requires gs != []
    ensures BestOverall(gs, i)
  {
    i := 0;
    for n := 1 to |gs|
      invariant BestOverall(gs[..n], i)
    {
      assert forall k | 0 <= k < n :: gs[..n][k] == gs[k];
      if gs[n].priority < gs[i].priority {
        i := n;
      }
    }
    assert gs[..|gs|] == gs;
  }

  /** A portal configuration always has a gateway: an empty list gets the portal itself. */
  method FindPreferredGateway(gs: seq<Gateway>, region: string) returns (i: nat)
    requires gs != []
    ensures IsPreferred(gs, region, i)
  {
    var found, lowest := -1, U32_MAX;
    for n := 0 to |gs|
      invariant -1 <= found < n
      invariant Scanned(gs, region, n, found, lowest)
    {
      var p := ScanRules(gs[n].rules, region, lowest);
      ScanOneMore(gs, region, n, found, lowest, p);
      if p < lowest {
        found, lowest := n, p;
      }
    }
    assert gs[..|gs|] == gs;
    if found >= 0 {
      i := found;
    } else {
      i := FirstLowest(gs);
    }
  }

  /** The position of the first gateway called `name`. */
  predicate FirstNamed(gs: seq<Gateway>, name: string, q: nat) {
    q < |gs| && gs[q].name == name && forall k | 0 <= k < q :: gs[k].name != name
  }

  function Swapped(gs: seq<Gateway>, q: nat): seq<Gateway>
    requires q < |gs|
  {
    gs[0 := gs[q]][q := gs[0]]
  }

  /** In place: the preferred gateway, found again by its name, changes places with the first. */
  method SortGateways(a: array<Gateway>, region: string) returns (q: nat)
    requires a.Length > 0
    modifies a
    ensures q < a.Length && a[..] == Swapped(old(a[..]), q)
    ensures a[0] == old(a[q]) && a[q] == old(a[0])
    ensures forall k | 0 < k < a.Length && k != q :: a[k] == old(a[k])
    ensures forall i: nat | IsPreferred(old(a[..]), region, i) ::
              i < a.Length && FirstNamed(old(a[..]), old(a[i].name), q)
    ensures multiset(a[..]) == multiset(old(a[..]))
  {
    ghost var gs := a[..];
    var i := FindPreferredGateway(a[..], region);
    q := 0;
    while a[q].name != a[i].name
      invariant q <= i
      invariant forall k | 0 <= k < q :: gs[k].name != gs[i].name
      decreases i - q
    {
      q := q + 1;
    }
    forall j: nat | IsPreferred(gs, region, j) ensures j == i {
      PreferredIsUnique(gs, region, i, j);
    }
    a[0], a[q] := a[q], a[0];
    assert a[..] == Swapped(gs, q);
  }

  predicate DistinctNames(gs: seq<Gateway>) {
    forall i, j | 0 <= i < j < |gs| :: gs[i].name != gs[j].name
  }

  /** The front is the preferred gateway's own entry exactly when no earlier one has its name. */
  lemma FrontIsPreferredIff(gs: seq<Gateway>, region: string, i: nat, q: nat)
    requires IsPreferred(gs, region, i) && i < |gs| && FirstNamed(gs, gs[i].name, q)
    ensures q == i <==> forall k | 0 <= k < i :: gs[k].name != gs[i].name
    ensures DistinctNames(gs) ==> q == i && Swapped(gs, q)[0] == gs[i]
  {
  }

  /** Two gateways of one name: the wrong one comes first. */
  lemma SameNameMisleads() returns (gs: seq<Gateway>, region: string)
    ensures gs != [] && IsPreferred(gs, region, 1) && FirstNamed(gs, gs[1].name, 0)
    ensures Swapped(gs, 0)[0].address != gs[1].address
  {
    region := "EU";
    gs := [Gateway("VPN", "a", 1, []), Gateway("VPN", "b", 2, [PriorityRule("EU", 1)])];
    assert Applies(gs[1].rules[0], region);
    assert Offers(gs[1].rules, region, 1);
    forall k, p: nat | 0 <= k < 2 && Offers(gs[k].rules, region, p) ensures k == 1 && p == 1 {
    }
    assert BestForRegion(gs, region, 1, 1);
  }
}

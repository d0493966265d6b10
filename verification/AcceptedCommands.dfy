/**
 * Which tunnel commands the helper accepts, for every profile: also those with a value that looks
 * like a flag (GpclientCommand.swift against HelperRequestValidator.swift).
 */
module AcceptedCommands {
  import opened Options
  import opened RequestGrammar
  import opened RequestValidator
  import opened CommandBuilder

  // ---------- dashed words ----------

  /** In a shaped run of flags a dashed word is a known flag, and one value follows it if it takes one. */
  lemma {:induction false} DashedWordIsFlag(items: seq<Item>, g: bool, k: nat)
    requires AllShaped(items, g) && k < |Render(items)| && Dashed(Render(items)[k])
    ensures Render(items)[k] in ALLOWED_TUNNEL_FLAGS
    ensures ALLOWED_TUNNEL_FLAGS[Render(items)[k]] == 1 ==>
              k + 1 < |Render(items)| && !Dashed(Render(items)[k + 1])
  {
    var first, rest := ItemWords(items[0]), Render(items[1..]);
    assert Shaped(items[0], g);
    assert Render(items) == first + rest;
    if k >= |first| {
      DashedWordIsFlag(items[1..], g, k - |first|);
    }
  }

  /** A vector that starts like a connect is derived only as that connect. */
  lemma DerivedConnect(p: Policy, globals: seq<Item>, server: string, tail: seq<string>, uid: nat, r: Request)
    requires AllShaped(globals, true) && WellFormed(p, r, uid)
    requires Words(r) == Render(globals) + (["connect", server] + tail)
    ensures r.Connect? && r.globals == globals && r.server == server && Render(r.rest) == tail
  {
    WellFormedIsShaped(p, r, uid);
    WordsSplit(r);
    var sub := ["connect", server] + tail;
    assert sub[0][0] == 'c';
    GlobalsAreNotHip();
    RenderIsUnambiguous(r.globals, globals, Subcommand(r), sub, true);
    assert |Subcommand(r)[0]| == |sub[0]| == 7;
    assert Subcommand(r)[1] == sub[1] && Subcommand(r)[2..] == sub[2..];
  }

  // ---------- the flags after one of them ----------

  function PickFrom(names: seq<string>, ps: seq<Presence>, k: nat, n: nat): seq<Item>
    requires n <= |names| == |ps|
    decreases n
  {
    if n <= k then [] else PickFrom(names, ps, k, n - 1) + Emit(names[n - 1], ps[n - 1])
  }

  lemma RegroupItems(a: seq<Item>, b: seq<Item>, c: seq<Item>, d: seq<Item>)
    ensures a + b + c + d == a + b + (c + d) && a + b + [] == a + b
  {
  }

  lemma {:induction false} PickSplits(names: seq<string>, ps: seq<Presence>, k: nat, n: nat)
    requires k < n <= |names| == |ps|
    ensures Pick(names, ps, n) == Pick(names, ps, k) + Emit(names[k], ps[k]) + PickFrom(names, ps, k + 1, n)
    decreases n
  {
    var front, slot := Pick(names, ps, k), Emit(names[k], ps[k]);
    if n == k + 1 {
      RegroupItems(front, slot, [], []);
    } else {
      PickSplits(names, ps, k, n - 1);
      RegroupItems(front, slot, PickFrom(names, ps, k + 1, n - 1), Emit(names[n - 1], ps[n - 1]));
    }
  }

  lemma {:induction false} PickAgrees(names: seq<string>, ps: seq<Presence>, qs: seq<Presence>, k: nat, n: nat)
    requires k <= n <= |names| == |ps| == |qs|
    requires forall i | 0 <= i < n && i != k :: ps[i] == qs[i]
    ensures Pick(names, ps, k) == Pick(names, qs, k) && PickFrom(names, ps, k + 1, n) == PickFrom(names, qs, k + 1, n)
    decreases n
  {
    if n > k {
      PickAgrees(names, ps, qs, k, n - 1);
    } else if k > 0 {
      PickAgrees(names, ps, qs, k - 1, k - 1);
    }
  }

  lemma {:induction false} FlagsAreDashed(ps: seq<Presence>, k: nat, n: nat)
    requires n <= |REST_NAMES| == |ps|
    ensures forall i | 0 <= i < |PickFrom(REST_NAMES, ps, k, n)| :: Dashed(PickFrom(REST_NAMES, ps, k, n)[i].flag)
    decreases n
  {
    if n > k {
      FlagsAreDashed(ps, k, n - 1);
      RestTable(n - 1);
    }
  }

  lemma RegroupWords(a: seq<string>, b: seq<string>, c: seq<string>)
    ensures a + b + c == a + (b + c)
  {
  }

  lemma RenderParts(a: seq<Item>, slot: seq<Item>, b: seq<Item>)
    ensures Render(a + slot + b) == Render(a) + (Render(slot) + Render(b))
  {
    RenderAppend(a + slot, b);
    RenderAppend(a, slot);
    RegroupWords(Render(a), Render(slot), Render(b));
  }

  /** The words around slot `k`. */
  lemma SlotWords(ps: seq<Presence>, k: nat)
    requires k < 15 == |REST_NAMES| == |ps| && ps[k].With?
    ensures Render(Pick(REST_NAMES, ps, 15))
         == Render(Pick(REST_NAMES, ps, k))
            + ([REST_NAMES[k], ps[k].value] + Render(PickFrom(REST_NAMES, ps, k + 1, 15)))
  {
    PickSplits(REST_NAMES, ps, k, 15);
    RenderParts(Pick(REST_NAMES, ps, k), Emit(REST_NAMES[k], ps[k]), PickFrom(REST_NAMES, ps, k + 1, 15));
    EmittedWords(REST_NAMES[k], ps[k]);
  }

  /** What follows a slot is nothing, or another flag. */
  lemma FlagFollows(ps: seq<Presence>, k: nat)
    requires k <= 15 == |REST_NAMES| == |ps|
    ensures var after := Render(PickFrom(REST_NAMES, ps, k, 15)); after == [] || Dashed(after[0])
  {
    FlagsAreDashed(ps, k, 15);
    var more := PickFrom(REST_NAMES, ps, k, 15);
    if more != [] {
      assert Render(more)[0] == more[0].flag;
    }
  }

  /** Two dashed words with no plain word after them are two flags without values. */
  lemma TwoDashedWords(items: seq<Item>, before: seq<string>, name: string, value: string, after: seq<string>)
    requires AllShaped(items, false) && Render(items) == before + ([name, value] + after)
    requires Dashed(name) && Dashed(value) && (after == [] || Dashed(after[0]))
    ensures name in ALLOWED_TUNNEL_FLAGS && ALLOWED_TUNNEL_FLAGS[name] != 1
    ensures value in ALLOWED_TUNNEL_FLAGS && ALLOWED_TUNNEL_FLAGS[value] != 1
  {
    var words, at := Render(items), |before|;
    assert words[at] == name && words[at + 1] == value;
    assert |words| == at + 2 + |after|;
    assert after != [] ==> words[at + 2] == after[0];
    DashedWordIsFlag(items, false, at);
    DashedWordIsFlag(items, false, at + 1);
  }

  /** So a dashed value after a flag that needs one is never derived. */
  lemma DashedValueIsRefused(p: Policy, r: Request, ps: seq<Presence>, k: nat, uid: nat)
    requires k < 15 == |REST_NAMES| == |ps| && ps[k].With? && Dashed(ps[k].value)
    requires WellFormed(p, r, uid) && r.Connect? && Render(r.rest) == Render(Pick(REST_NAMES, ps, 15))
    ensures REST_NAMES[k] in ALLOWED_TUNNEL_FLAGS && ALLOWED_TUNNEL_FLAGS[REST_NAMES[k]] != 1
    ensures ps[k].value in ALLOWED_TUNNEL_FLAGS && ALLOWED_TUNNEL_FLAGS[ps[k].value] != 1
  {
    SlotWords(ps, k);
    FlagFollows(ps, k + 1);
    RestTable(k);
    WellFormedIsShaped(p, r, uid);
    TwoDashedWords(r.rest, Render(Pick(REST_NAMES, ps, k)), REST_NAMES[k], ps[k].value,
                   Render(PickFrom(REST_NAMES, ps, k + 1, 15)));
  }

  // ---------- one more flag in the middle ----------

  lemma InsertWords(a: seq<Item>, x: Item, y: Item, b: seq<Item>)
    ensures Render(a + [x, y] + b) == Render(a) + (ItemWords(x) + ItemWords(y) + Render(b))
  {
    RenderParts(a, [x, y], b);
    assert [x, y] == [x] + [y];
    RenderAppend([x], [y]);
    assert Render([x]) == ItemWords(x) + [] && Render([y]) == ItemWords(y) + [];
  }

  lemma InsertOk(p: Policy, a: seq<Item>, x: Item, y: Item, b: seq<Item>, uid: nat, g: bool)
    ensures AllOk(p, a + [x, y] + b, uid, g) <==> AllOk(p, a + [x] + b, uid, g) && ItemOk(p, y, uid, g)
  {
    AllOkAppend(p, a + [x, y], b, uid, g);
    AllOkAppend(p, a, [x, y], uid, g);
    AllOkAppend(p, a + [x], b, uid, g);
    AllOkAppend(p, a, [x], uid, g);
    AllOkAppend(p, [x], [y], uid, g);
    assert [x, y] == [x] + [y] && [y][0] == y;
  }

  lemma InsertShaped(a: seq<Item>, x: Item, y: Item, b: seq<Item>, g: bool)
    requires AllShaped(a + [x] + b, g) && Shaped(y, g)
    ensures AllShaped(a + [x, y] + b, g)
  {
    var before, after := a + [x] + b, a + [x, y] + b;
    forall i | 0 <= i < |after| ensures Shaped(after[i], g) {
      assert after[i] == if i <= |a| then before[i] else if i == |a| + 1 then y else before[i - 1];
    }
  }

  /** Inserting a flag keeps a list distinct exactly when the flag is new. */
  lemma InsertDistinct(front: seq<string>, back: seq<string>, flag: string)
    ensures Distinct(front + [flag] + back) <==> Distinct(front + back) && flag !in front + back
  {
    var before, after := front + back, front + [flag] + back;
    assert after[|front|] == flag;
    forall i | 0 <= i < |before|
      ensures after[if i < |front| then i else i + 1] == before[i] {
    }
    if Distinct(after) {
      forall i | 0 <= i < |before| ensures before[i] != flag {
        assert after[if i < |front| then i else i + 1] == before[i];
      }
      forall i, j | 0 <= i < j < |before| ensures before[i] != before[j] {
        assert after[if i < |front| then i else i + 1] == before[i];
        assert after[if j < |front| then j else j + 1] == before[j];
      }
    }
    if Distinct(before) && flag !in before {
      forall i, j | 0 <= i < j < |after| ensures after[i] != after[j] {
        assert i < |front| ==> after[i] == before[i];
        assert i > |front| ==> after[i] == before[i - 1];
        assert j < |front| ==> after[j] == before[j];
        assert j > |front| ==> after[j] == before[j - 1];
      }
    }
  }

  lemma InsertFlags(globals: seq<Item>, a: seq<Item>, x: Item, y: Item, b: seq<Item>)
    ensures Distinct(Flags(globals) + Flags(a + [x, y] + b)) <==>
              Distinct(Flags(globals) + Flags(a + [x] + b)) && y.flag !in Flags(globals) + Flags(a + [x] + b)
  {
    var front, back := Flags(globals) + Flags(a + [x]), Flags(b);
    assert Flags(globals) + Flags(a + [x, y] + b) == front + [y.flag] + back;
    assert Flags(globals) + Flags(a + [x] + b) == front + back;
    InsertDistinct(front, back, y.flag);
  }

  // ---------- the theorem ----------

  predicate HipIsDashed(profile: Profile, hipScriptPath: Option<string>) {
    profile.enableHIP && HipScript(profile, hipScriptPath).Some? && Dashed(HipScript(profile, hipScriptPath).value)
  }

  /** The same profile with no HIP script of its own. */
  function NoHipScript(profile: Profile): Profile {
    profile.(customHIPScriptPath := None)
  }

  /** The word after `--hip` is read as a flag of its own: a known one without value, given nowhere else. */
  predicate ReadsAsFlag(word: string, r: Request)
    requires r.Connect?
  {
    word in ALLOWED_TUNNEL_FLAGS && ALLOWED_TUNNEL_FLAGS[word] != 1 && word !in Flags(r.globals) + Flags(r.rest)
  }

  /** What a caller can check before asking the helper. */
  predicate Acceptable(p: Policy, profile: Profile, password: Option<string>, authResult: Option<string>,
                       hipScriptPath: Option<string>, uid: nat)
  {
    if HipIsDashed(profile, hipScriptPath) then
      && NoDashedValue(NoHipScript(profile), authResult, None)
      && Admissible(p, NoHipScript(profile), authResult, None, uid)
      && ReadsAsFlag(HipScript(profile, hipScriptPath).value,
                     TunnelRequest(NoHipScript(profile), password, authResult, None))
    else
      NoDashedValue(profile, authResult, hipScriptPath) && Admissible(p, profile, authResult, hipScriptPath, uid)
  }

  lemma HipSlot(profile: Profile, password: Option<string>, authResult: Option<string>, hipScriptPath: Option<string>)
    requires HipIsDashed(profile, hipScriptPath)
    ensures var ps := Rest(profile, password, authResult, hipScriptPath);
            var qs := Rest(NoHipScript(profile), password, authResult, None);
            && Globals(NoHipScript(profile)) == Globals(profile)
            && ps[9] == With(HipScript(profile, hipScriptPath).value) && qs[9] == Bare
            && (forall i | 0 <= i < 15 && i != 9 :: ps[i] == qs[i])
  {
  }

  lemma ConnectWords(profile: Profile, password: Option<string>, authResult: Option<string>,
          hipScriptPath: Option<string>)
    ensures |REST_NAMES| == 15
    ensures var r := TunnelRequest(profile, password, authResult, hipScriptPath);
            && r.rest == Pick(REST_NAMES, Rest(profile, password, authResult, hipScriptPath), 15)
            && Words(r) == Render(r.globals) + (["connect", profile.portal] + Render(r.rest))
  {
    NamesAre();
    var r := TunnelRequest(profile, password, authResult, hipScriptPath);
    assert Render(r.globals) + ["connect", profile.portal] + Render(r.rest)
        == Render(r.globals) + (["connect", profile.portal] + Render(r.rest));
  }

  /** The slots whose value comes from the profile, HIP apart. */
  lemma ValueSlots(profile: Profile, password: Option<string>, authResult: Option<string>,
          hipScriptPath: Option<string>)
    ensures var ps := Rest(profile, password, authResult, hipScriptPath);
            && ps[1] == ValueIf(Gateway(profile)) && ps[4] == ValueIf(User(profile, authResult))
            && ps[6] == ValueIf(NonEmpty(profile.certificatePath)) && ps[7] == ValueIf(NonEmpty(profile.sslKeyPath))
            && ps[8] == ValueIf(NonEmpty(profile.vpncScriptPath))
  {
  }

  lemma DashedSlot(profile: Profile, password: Option<string>, authResult: Option<string>,
          hipScriptPath: Option<string>)
      returns (k: nat)
    requires !Dashed(profile.portal) && !NoDashedValue(profile, authResult, hipScriptPath)
    requires !HipIsDashed(profile, hipScriptPath)
    ensures k in {1, 4, 6, 7, 8}
    ensures var slot := Rest(profile, password, authResult, hipScriptPath)[k]; slot.With? && Dashed(slot.value)
  {
    ValueSlots(profile, password, authResult, hipScriptPath);
    k := if Gateway(profile).Some? && Dashed(Gateway(profile).value) then 1
         else if User(profile, authResult).Some? && Dashed(profile.username) then 4
         else if NonEmpty(profile.certificatePath).Some? && Dashed(profile.certificatePath.value) then 6
         else if NonEmpty(profile.sslKeyPath).Some? && Dashed(profile.sslKeyPath.value) then 7
         else 8;
  }

  lemma GlobalsAreShaped(p: Policy, profile: Profile, password: Option<string>, authResult: Option<string>,
                         hipScriptPath: Option<string>, uid: nat)
    ensures AllOk(p, TunnelRequest(profile, password, authResult, hipScriptPath).globals, uid, true)
    ensures AllShaped(TunnelRequest(profile, password, authResult, hipScriptPath).globals, true)
  {
    GlobalsAreOk(p, profile, uid);
  }

  /** What another derivation of the built words would have to be. */
  lemma BuiltDerivation(p: Policy, profile: Profile, password: Option<string>, authResult: Option<string>,
                        hipScriptPath: Option<string>, uid: nat, other: Request)
    requires WellFormed(p, other, uid)
    requires Words(other) == Words(TunnelRequest(profile, password, authResult, hipScriptPath))
    ensures |REST_NAMES| == 15
    ensures other.Connect? && other.server == profile.portal && !Dashed(profile.portal)
    ensures Render(other.rest) == Render(Pick(REST_NAMES, Rest(profile, password, authResult, hipScriptPath), 15))
  {
    var r := TunnelRequest(profile, password, authResult, hipScriptPath);
    ConnectWords(profile, password, authResult, hipScriptPath);
    GlobalsAreShaped(p, profile, password, authResult, hipScriptPath, uid);
    DerivedConnect(p, r.globals, profile.portal, Render(r.rest), uid, other);
  }

  lemma DashedSlotIsRefused(p: Policy, profile: Profile, password: Option<string>, authResult: Option<string>,
                            hipScriptPath: Option<string>, uid: nat, k: nat)
    requires k in {1, 4, 6, 7, 8}
    requires var slot := Rest(profile, password, authResult, hipScriptPath)[k]; slot.With? && Dashed(slot.value)
    ensures !Derives(p, Words(TunnelRequest(profile, password, authResult, hipScriptPath)), uid)
  {
    NamesAre();
    RestTable(k);
    forall other | WellFormed(p, other, uid)
      ensures Words(other) != Words(TunnelRequest(profile, password, authResult, hipScriptPath)) {
      if Words(other) == Words(TunnelRequest(profile, password, authResult, hipScriptPath)) {
        BuiltDerivation(p, profile, password, authResult, hipScriptPath, uid, other);
        DashedValueIsRefused(p, other, Rest(profile, password, authResult, hipScriptPath), k, uid);
      }
    }
  }

  /** With a dashed value anywhere but after `--hip`, the command is refused. */
  lemma DashedIsRefused(p: Policy, profile: Profile, password: Option<string>, authResult: Option<string>,
                        hipScriptPath: Option<string>, uid: nat)
    requires if HipIsDashed(profile, hipScriptPath) then !NoDashedValue(NoHipScript(profile), authResult, None)
             else !NoDashedValue(profile, authResult, hipScriptPath)
    ensures !Derives(p, Words(TunnelRequest(profile, password, authResult, hipScriptPath)), uid)
  {
    if Dashed(profile.portal) {
      forall other | WellFormed(p, other, uid)
        ensures Words(other) != Words(TunnelRequest(profile, password, authResult, hipScriptPath)) {
        if Words(other) == Words(TunnelRequest(profile, password, authResult, hipScriptPath)) {
          BuiltDerivation(p, profile, password, authResult, hipScriptPath, uid, other);
        }
      }
    } else if HipIsDashed(profile, hipScriptPath) {
      var k := DashedSlot(NoHipScript(profile), password, authResult, None);
      HipSlot(profile, password, authResult, hipScriptPath);
      DashedSlotIsRefused(p, profile, password, authResult, hipScriptPath, uid, k);
    } else {
      var k := DashedSlot(profile, password, authResult, hipScriptPath);
      DashedSlotIsRefused(p, profile, password, authResult, hipScriptPath, uid, k);
    }
  }

  /** The bare request around its `--hip`, and the words of the built one. */
  lemma HipSplit(profile: Profile, password: Option<string>, authResult: Option<string>, hipScriptPath: Option<string>)
      returns (a: seq<Item>, b: seq<Item>)
    requires HipIsDashed(profile, hipScriptPath)
    ensures TunnelRequest(NoHipScript(profile), password, authResult, None).rest == a + [Item(HIP, None)] + b
    ensures Render(TunnelRequest(profile, password, authResult, hipScriptPath).rest)
         == Render(a) + ([HIP, HipScript(profile, hipScriptPath).value] + Render(b))
  {
    NamesAre();
    var ps := Rest(profile, password, authResult, hipScriptPath);
    var qs := Rest(NoHipScript(profile), password, authResult, None);
    HipSlot(profile, password, authResult, hipScriptPath);
    a, b := Pick(REST_NAMES, ps, 9), PickFrom(REST_NAMES, ps, 10, 15);
    PickAgrees(REST_NAMES, ps, qs, 9, 15);
    PickSplits(REST_NAMES, qs, 9, 15);
    SlotWords(ps, 9);
  }

  /** A dashed script path makes the words of another request: `--hip` bare, and one more flag. */
  lemma HipWords(profile: Profile, password: Option<string>, authResult: Option<string>, hipScriptPath: Option<string>)
      returns (a: seq<Item>, b: seq<Item>)
    requires HipIsDashed(profile, hipScriptPath)
    ensures var base := TunnelRequest(NoHipScript(profile), password, authResult, None);
            var v := HipScript(profile, hipScriptPath).value;
            && base.rest == a + [Item(HIP, None)] + b
            && Words(TunnelRequest(profile, password, authResult, hipScriptPath))
               == Words(Connect(base.globals, profile.portal, a + [Item(HIP, None), Item(v, None)] + b))
  {
    a, b := HipSplit(profile, password, authResult, hipScriptPath);
    var v := HipScript(profile, hipScriptPath).value;
    InsertWords(a, Item(HIP, None), Item(v, None), b);
    SameTail(a, v, b);
    assert Globals(NoHipScript(profile)) == Globals(profile);
  }

  lemma SameTail(a: seq<Item>, v: string, b: seq<Item>)
    ensures Render(a) + (ItemWords(Item(HIP, None)) + ItemWords(Item(v, None)) + Render(b))
         == Render(a) + ([HIP, v] + Render(b))
  {
  }

  /** That request is well-formed exactly when the bare one is and the flag is new. */
  lemma HipWellFormed(p: Policy, base: Request, v: string, a: seq<Item>, b: seq<Item>, uid: nat)
    requires base.Connect? && base.rest == a + [Item(HIP, None)] + b && Shaped(Item(v, None), false)
    ensures WellFormed(p, Connect(base.globals, base.server, a + [Item(HIP, None), Item(v, None)] + b), uid)
       <==> WellFormed(p, base, uid) && v !in Flags(base.globals) + Flags(base.rest)
  {
    InsertOk(p, a, Item(HIP, None), Item(v, None), b, uid, false);
    InsertFlags(base.globals, a, Item(HIP, None), Item(v, None), b);
  }

  lemma HipDerivedIff(p: Policy, profile: Profile, password: Option<string>, authResult: Option<string>,
                      hipScriptPath: Option<string>, uid: nat)
    requires HipIsDashed(profile, hipScriptPath) && NoDashedValue(NoHipScript(profile), authResult, None)
    ensures Derives(p, Words(TunnelRequest(profile, password, authResult, hipScriptPath)), uid) <==>
              && Admissible(p, NoHipScript(profile), authResult, None, uid)
              && ReadsAsFlag(HipScript(profile, hipScriptPath).value,
                             TunnelRequest(NoHipScript(profile), password, authResult, None))
  {
    var plain, v := NoHipScript(profile), HipScript(profile, hipScriptPath).value;
    var words := Words(TunnelRequest(profile, password, authResult, hipScriptPath));
    var base := TunnelRequest(plain, password, authResult, None);
    if v in ALLOWED_TUNNEL_FLAGS && ALLOWED_TUNNEL_FLAGS[v] != 1 {
      var a, b := HipWords(profile, password, authResult, hipScriptPath);
      var r := Connect(base.globals, profile.portal, a + [Item(HIP, None), Item(v, None)] + b);
      RestIsShaped(plain, password, authResult, None);
      InsertShaped(a, Item(HIP, None), Item(v, None), b, false);
      GlobalsAreShaped(p, plain, password, authResult, None, uid);
      forall other | WellFormed(p, other, uid) && Words(other) == words ensures other == r {
        WellFormedIsShaped(p, other, uid);
        WordsAreUnambiguous(other, r);
      }
      HipWellFormed(p, base, v, a, b, uid);
      WellFormedIffAdmissible(p, plain, password, authResult, None, uid);
    } else {
      forall other | WellFormed(p, other, uid) ensures Words(other) != words {
        HipSlot(profile, password, authResult, hipScriptPath);
        if Words(other) == words {
          BuiltDerivation(p, profile, password, authResult, hipScriptPath, uid, other);
          DashedValueIsRefused(p, other, Rest(profile, password, authResult, hipScriptPath), 9, uid);
        }
      }
    }
  }

  /**
   * Main result, for every profile: the helper accepts the built arguments, unchanged, exactly when
   * the profile is acceptable.
   */
  lemma BuiltCommandIsAcceptedIff(p: Policy, profile: Profile, password: Option<string>, authResult: Option<string>,
                                  hipScriptPath: Option<string>, uid: nat)
    ensures var argv := Words(TunnelRequest(profile, password, authResult, hipScriptPath));
            (Verdict(p, p.gpclientPath, argv, uid) == Ok(Approved(p.gpclientPath, argv)))
            <==> Acceptable(p, profile, password, authResult, hipScriptPath, uid)
  {
    ApprovedIffDerived(p, p.gpclientPath, Words(TunnelRequest(profile, password, authResult, hipScriptPath)), uid);
    if HipIsDashed(profile, hipScriptPath) {
      if NoDashedValue(NoHipScript(profile), authResult, None) {
        HipDerivedIff(p, profile, password, authResult, hipScriptPath, uid);
      } else {
        DashedIsRefused(p, profile, password, authResult, hipScriptPath, uid);
      }
    } else if NoDashedValue(profile, authResult, hipScriptPath) {
      BuiltCommandIsAcceptedIffAdmissible(p, profile, password, authResult, hipScriptPath, uid);
    } else {
      DashedIsRefused(p, profile, password, authResult, hipScriptPath, uid);
    }
  }
}

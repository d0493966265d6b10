/**
 * Exactly when the two races of the bridge do harm: discovery started while connected, and a
 * connect during the helper lookup of an adoption (GpclientBridgeService.swift).
 */
module BridgeRaces {
  import opened Options
  import opened BridgeState
  import opened BridgeRuns

  // ---------- discovery while connected ----------

  /** A shown connection shows the active details. */
  predicate Honest(a: Actor) {
    a.current.Connected? ==> a.activeDetails == Some(a.current.details)
  }

  lemma EndDiscoveryIff(a: Actor, previous: VpnState)
    requires Honest(a)
    ensures Honest(EndDiscovery(a, previous)) <==>
              a.current.Connected? || !previous.Connected? || a.activeDetails == Some(previous.details)
  {
  }

  /** The discovery ends. */
  predicate EndsDiscovery(w: World, step: Step) {
    step.AuthReturns?
    && (w.flight.DiscoverList? || (w.flight.DiscoverAuth? && (step.failure.Some? || w.actor.disconnectRequested)))
  }

  /** It began while connected with details that are no longer the active ones, and nothing is connected now. */
  predicate RestoresStale(w: World, step: Step) {
    EndsDiscovery(w, step) && !w.actor.current.Connected? && w.flight.previous.Connected?
    && w.actor.activeDetails != Some(w.flight.previous.details)
  }

  lemma HandlersKeepHonest(a: Actor, h: Handler, now: int)
    requires Honest(a)
    ensures Honest(Handle(a, h, now))
  {
  }

  /** No assumption on the run: only such an end makes the bridge show something else. */
  lemma HonestStep(w: World, step: Step)
    requires Honest(w.actor) && Enabled(w, step)
    ensures Honest(Apply(w, step).actor) <==> !RestoresStale(w, step)
  {
    match step {
      case Deliver(FromTunnel(h), now) => HandlersKeepHonest(w.actor, h, now);
      case _ =>
    }
  }

  /** On every run whatever, connected shows the active details as long as no discovery restores stale ones. */
  lemma HonestIff(worlds: seq<World>, steps: seq<Step>, j: nat)
    requires IsRun(worlds, steps) && j < |worlds|
    ensures (forall k | 0 <= k <= j :: Honest(worlds[k].actor)) <==>
              forall k {:trigger RestoresStale(worlds[k], steps[k])} | 0 <= k < j :: !RestoresStale(worlds[k], steps[k])
  {
    var holds := seq(|worlds|, k requires 0 <= k < |worlds| => Honest(worlds[k].actor));
    var fault := seq(|steps|, k requires 0 <= k < |steps| => RestoresStale(worlds[k], steps[k]));
    forall k | 0 <= k < |fault| && holds[k] ensures holds[k + 1] <==> !fault[k] {
      assert Enabled(worlds[k], steps[k]);
      HonestStep(worlds[k], steps[k]);
    }
    HeldUntilFault(holds, fault, j);
    assert forall k | 0 <= k <= j :: holds[k] == Honest(worlds[k].actor);
    assert forall k | 0 <= k < j :: fault[k] == RestoresStale(worlds[k], steps[k]);
  }

  // ---------- a connect during the lookup ----------

  /** The world with the lookup out of sight. */
  function Unlooking(w: World): World {
    w.(lookingUp := false)
  }

  predicate DiscoversIdle(w: World, step: Step) {
    step.CallDiscover? ==> !w.actor.current.Connected?
  }

  /** During a lookup every other step keeps the invariant, as if there were no lookup. */
  lemma UnlookingStep(w: World, step: Step)
    requires Inv(Unlooking(w)) && Enabled(w, step) && DiscoversIdle(w, step)
    requires !step.LookupReturns? && !step.CallAdopt?
    ensures Inv(Unlooking(Apply(w, step)))
    ensures Supervises(w, step) ==> Apply(w, step).actor.tunnelRunner.Some?
    ensures step.TunnelEnds? ==> Apply(w, step).actor.tunnelRunner.None?
    ensures !Supervises(w, step) && !step.TunnelEnds? ==> Apply(w, step).actor.tunnelRunner == w.actor.tunnelRunner
  {
    var u := Unlooking(w);
    assert Enabled(u, step) && Disciplined(u, step);
    assert Apply(u, step) == Unlooking(Apply(w, step));
    StepKeepsInv(u, step);
    match step {
      case Deliver(FromTunnel(h), now) =>
      case _ =>
    }
  }

  /** A lookup from step `i`, still pending at world `j`. */
  ghost predicate LooksUp(worlds: seq<World>, steps: seq<Step>, i: nat, j: nat) {
    && IsRun(worlds, steps) && i < j < |worlds|
    && (forall k {:trigger Disciplined(worlds[k], steps[k])} | 0 <= k < i :: Disciplined(worlds[k], steps[k]))
    && steps[i].CallAdopt? && AdoptAllowed(worlds[i].actor)
    && (forall k {:trigger DiscoversIdle(worlds[k], steps[k])} | i < k < j ::
          DiscoversIdle(worlds[k], steps[k]) && !steps[k].LookupReturns? && !steps[k].CallAdopt?)
  }

  lemma LooksUpEarlier(worlds: seq<World>, steps: seq<Step>, i: nat, j: nat)
    requires LooksUp(worlds, steps, i, j) && i + 1 < j
    ensures LooksUp(worlds, steps, i, j - 1)
  {
    forall k | 0 <= k < i ensures Disciplined(worlds[k], steps[k]) {
    }
    forall k | i < k < j - 1
      ensures DiscoversIdle(worlds[k], steps[k]) && !steps[k].LookupReturns? && !steps[k].CallAdopt? {
      assert DiscoversIdle(worlds[k], steps[k]);
    }
  }

  /** A tunnel was supervised since step `i` and none has ended since. */
  ghost predicate TunnelSince(worlds: seq<World>, steps: seq<Step>, i: nat, j: nat)
    requires |worlds| == |steps| + 1 && j <= |steps|
  {
    exists k {:trigger Supervises(worlds[k], steps[k])} | i < k < j ::
      Supervises(worlds[k], steps[k]) && forall e | k < e < j :: !steps[e].TunnelEnds?
  }

  lemma TunnelSinceStep(worlds: seq<World>, steps: seq<Step>, i: nat, j: nat)
    requires |worlds| == |steps| + 1 && i + 1 < j <= |steps|
    ensures TunnelSince(worlds, steps, i, j) <==>
              Supervises(worlds[j - 1], steps[j - 1])
              || (TunnelSince(worlds, steps, i, j - 1) && !steps[j - 1].TunnelEnds?)
  {
    if TunnelSince(worlds, steps, i, j - 1) && !steps[j - 1].TunnelEnds? {
      var k :| i < k < j - 1 && Supervises(worlds[k], steps[k]) && forall e | k < e < j - 1 :: !steps[e].TunnelEnds?;
      assert Supervises(worlds[k], steps[k]) && forall e | k < e < j :: !steps[e].TunnelEnds?;
    }
    if TunnelSince(worlds, steps, i, j) && !Supervises(worlds[j - 1], steps[j - 1]) {
      var k :| i < k < j && Supervises(worlds[k], steps[k]) && forall e | k < e < j :: !steps[e].TunnelEnds?;
      assert k < j - 1 && !steps[j - 1].TunnelEnds?;
    }
  }

  lemma RunPrefixKeepsInv(worlds: seq<World>, steps: seq<Step>, i: nat)
    requires IsRun(worlds, steps) && i < |worlds|
    requires forall k {:trigger Disciplined(worlds[k], steps[k])} | 0 <= k < i :: Disciplined(worlds[k], steps[k])
    ensures Inv(worlds[i])
  {
    if i > 0 {
      RunPrefixKeepsInv(worlds, steps, i - 1);
      assert Enabled(worlds[i - 1], steps[i - 1]) && Disciplined(worlds[i - 1], steps[i - 1]);
      StepKeepsInv(worlds[i - 1], steps[i - 1]);
    }
  }

  lemma {:induction false} DuringLookup(worlds: seq<World>, steps: seq<Step>, i: nat, j: nat)
    requires LooksUp(worlds, steps, i, j)
    ensures Inv(Unlooking(worlds[j]))
    ensures worlds[j].actor.tunnelRunner.Some? <==> TunnelSince(worlds, steps, i, j)
    decreases j
  {
    assert Enabled(worlds[j - 1], steps[j - 1]);
    if i + 1 < j {
      LooksUpEarlier(worlds, steps, i, j);
      DuringLookup(worlds, steps, i, j - 1);
      assert DiscoversIdle(worlds[j - 1], steps[j - 1]);
      UnlookingStep(worlds[j - 1], steps[j - 1]);
      TunnelSinceStep(worlds, steps, i, j);
    } else {
      RunPrefixKeepsInv(worlds, steps, i);
    }
  }

  /**
   * A lookup that finds a session leaves one live tunnel exactly when no tunnel was started since
   * the call, or the last one started has ended; and it leaves the bridge sound exactly when, besides,
   * no sign-in or discovery is under way.
   */
  lemma LookupRaceIff(worlds: seq<World>, steps: seq<Step>, i: nat, j: nat)
    requires LooksUp(worlds, steps, i, j) && j < |steps| && steps[j].LookupReturns? && steps[j].found
    ensures worlds[j + 1].live == {worlds[j].next} <==> !TunnelSince(worlds, steps, i, j)
    ensures Inv(worlds[j + 1]) <==> !TunnelSince(worlds, steps, i, j) && worlds[j].flight.NoFlight?
  {
    DuringLookup(worlds, steps, i, j);
    assert Enabled(worlds[j], steps[j]);
    LookupReturnIff(worlds[j], steps[j]);
  }

  lemma LookupReturnIff(w: World, step: Step)
    requires Inv(Unlooking(w)) && Enabled(w, step) && step.LookupReturns? && step.found
    ensures Apply(w, step).live == {w.next} <==> w.actor.tunnelRunner.None?
    ensures Inv(Apply(w, step)) <==> w.actor.tunnelRunner.None? && w.flight.NoFlight?
  {
    var after := Apply(w, step);
    assert w.next in after.live;
    if w.actor.tunnelRunner.Some? {
      assert w.actor.tunnelRunner.value in after.live;
    }
  }
}

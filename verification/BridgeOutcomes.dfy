/**
 * Where runs of the bridge end up: what an unrequested end of a tunnel shows, and when an idle
 * bridge shows that it is idle (GpclientBridgeService.swift).
 */
module BridgeOutcomes {
  import opened Options
  import opened BridgeState
  import opened BridgeRuns

  // ---------- a tunnel that ends by itself ----------

  lemma SupervisedIsUnrequested(w: World, step: Step)
    requires Enabled(w, step) && Supervises(w, step)
    ensures !Apply(w, step).actor.disconnectRequested
  {
  }

  lemma HandlersDoNotRequest(a: Actor, h: Handler, now: int)
    ensures Handle(a, h, now).disconnectRequested == a.disconnectRequested
  {
  }

  lemma ReturnsDoNotRequest(w: World, step: Step)
    requires Enabled(w, step) && !w.actor.disconnectRequested && (step.AuthReturns? || step.LookupReturns?)
    ensures !Apply(w, step).actor.disconnectRequested
  {
  }

  lemma OnlyDisconnectRequests(w: World, step: Step)
    requires Enabled(w, step) && !w.actor.disconnectRequested && !step.CallDisconnect?
    ensures !Apply(w, step).actor.disconnectRequested
  {
    match step {
      case Deliver(FromTunnel(h), now) => HandlersDoNotRequest(w.actor, h, now);
      case AuthReturns(_, _) => ReturnsDoNotRequest(w, step);
      case LookupReturns(_, _, _) => ReturnsDoNotRequest(w, step);
      case _ =>
    }
  }

  lemma {:induction false} NoRequestUntil(worlds: seq<World>, steps: seq<Step>, i: nat, j: nat)
    requires IsRun(worlds, steps) && i < j < |worlds| && Supervises(worlds[i], steps[i])
    requires forall k | i < k < j :: !steps[k].CallDisconnect?
    ensures !worlds[j].actor.disconnectRequested
    decreases j
  {
    assert Enabled(worlds[j - 1], steps[j - 1]);
    if i + 1 < j {
      NoRequestUntil(worlds, steps, i, j - 1);
      OnlyDisconnectRequests(worlds[j - 1], steps[j - 1]);
    } else {
      SupervisedIsUnrequested(worlds[i], steps[i]);
    }
  }

  /** Authorisation was refused before the tunnel came up. */
  predicate Denied(w: World, step: Step)
    requires step.TunnelEnds?
  {
    step.privilegeDenied && !w.actor.current.Connected?
  }

  /**
   * With no disconnect asked for since it was supervised, the end of a tunnel is shown as a
   * failure exactly when it was denied or its exit code is not 0; an error it reported is the
   * message, unless it was denied.
   */
  lemma DropIsReported(worlds: seq<World>, steps: seq<Step>, i: nat, j: nat)
    requires IsRun(worlds, steps) && i < j < |steps|
    requires Supervises(worlds[i], steps[i]) && steps[j].TunnelEnds?
    requires forall k | i < k < j :: !steps[k].CallDisconnect?
    ensures var after := worlds[j + 1].actor.current;
            && (after.Failed? <==> Denied(worlds[j], steps[j]) || steps[j].exitCode != 0)
            && (!after.Failed? ==> after == Disconnected)
            && (!Denied(worlds[j], steps[j]) && steps[j].exitCode != 0 && steps[j].lastError.Some? ==>
                  after == Failed(steps[j].lastError.value))
  {
    NoRequestUntil(worlds, steps, i, j);
    assert Enabled(worlds[j], steps[j]);
  }

  // ---------- an idle bridge ----------

  /** Nothing runs: no sign-in, no discovery, no tunnel. */
  predicate Idle(w: World) {
    w.flight.NoFlight? && w.actor.tunnelRunner.None?
  }

  /** A status of a sign-in or discovery, delivered after it ended. */
  predicate Stray(w: World, step: Step) {
    step.Deliver? && step.job.SetConnecting? && Idle(w)
  }

  /** A handler of an older tunnel that finds the details of a failed launch. */
  predicate Haunts(w: World, step: Step) {
    Leftover(w.actor)
    && (DeliversConnection(step)
        || (Idle(w) && step.Deliver? && step.job.FromTunnel? && step.job.handler.GatewaySelected?))
  }

  /** Idle shows disconnected or failed, and a sign-in or discovery never shows as connected. */
  predicate Settled(w: World) {
    && (Idle(w) ==> w.actor.current.Disconnected? || w.actor.current.Failed?)
    && (!w.flight.NoFlight? ==> !w.actor.current.Connected?)
  }

  lemma HandlerSettles(w: World, h: Handler, now: int)
    requires Inv(w) && Settled(w) && !w.lookingUp
    ensures Settled(w.(actor := Handle(w.actor, h, now))) <==>
              !(Leftover(w.actor) && (h.TunnelConnected? || (Idle(w) && h.GatewaySelected?)))
  {
  }

  lemma SettledStep(w: World, step: Step)
    requires Inv(w) && Settled(w) && Enabled(w, step) && Disciplined(w, step)
    ensures Settled(Apply(w, step)) <==> !Stray(w, step) && !Haunts(w, step)
  {
    match step {
      case Deliver(FromTunnel(h), now) => HandlerSettles(w, h, now);
      case _ =>
    }
  }

  predicate Unsettles(w: World, step: Step) {
    Stray(w, step) || Haunts(w, step)
  }

  lemma RunSettles(worlds: seq<World>, steps: seq<Step>, k: nat)
    requires IsDisciplinedRun(worlds, steps) && k < |steps| && Settled(worlds[k])
    ensures Settled(worlds[k + 1]) <==> !Unsettles(worlds[k], steps[k])
  {
    RunKeepsInv(worlds, steps, k);
    assert Enabled(worlds[k], steps[k]) && Disciplined(worlds[k], steps[k]);
    SettledStep(worlds[k], steps[k]);
  }

  /**
   * Main result. On every disciplined run the bridge has shown its idleness all along exactly when
   * no status was delivered late and no handler of an older tunnel met a failed launch.
   */
  lemma IdleIsSettledIff(worlds: seq<World>, steps: seq<Step>, j: nat)
    requires IsDisciplinedRun(worlds, steps) && j < |worlds|
    ensures (forall k | 0 <= k <= j :: Settled(worlds[k])) <==>
              forall k {:trigger Unsettles(worlds[k], steps[k])} | 0 <= k < j :: !Unsettles(worlds[k], steps[k])
  {
    var holds := seq(|worlds|, k requires 0 <= k < |worlds| => Settled(worlds[k]));
    var fault := seq(|steps|, k requires 0 <= k < |steps| => Unsettles(worlds[k], steps[k]));
    assert holds[0];
    forall k | 0 <= k < |fault| && holds[k] ensures holds[k + 1] <==> !fault[k] {
      RunSettles(worlds, steps, k);
    }
    HeldUntilFault(holds, fault, j);
    assert forall k | 0 <= k <= j :: holds[k] == Settled(worlds[k]);
    assert forall k | 0 <= k < j :: fault[k] == Unsettles(worlds[k], steps[k]);
  }

  // ---------- discovery ----------

  predicate Discovering(w: World, previous: VpnState) {
    w.flight == DiscoverAuth(previous) || w.flight == DiscoverList(previous)
  }

  /** Nothing left over that a handler could show as a connection. */
  predicate Undisturbed(w: World) {
    !Leftover(w.actor) && !w.actor.current.Connected?
  }

  lemma DiscoveryStep(w: World, step: Step, previous: VpnState)
    requires Inv(w) && Enabled(w, step) && Disciplined(w, step) && Discovering(w, previous)
    ensures Discovering(Apply(w, step), previous) || Apply(w, step).flight.NoFlight?
    ensures Apply(w, step).flight.NoFlight? ==>
              (Apply(w, step).actor.current == previous <==> !w.actor.current.Connected?)
    ensures Discovering(Apply(w, step), previous) && Undisturbed(w) ==> Undisturbed(Apply(w, step))
  {
    match step {
      case Deliver(FromTunnel(h), now) =>
      case _ =>
    }
  }

  lemma {:induction false} PreviousIsKept(worlds: seq<World>, steps: seq<Step>, i: nat, j: nat)
    requires IsDisciplinedRun(worlds, steps) && i < j < |worlds|
    requires steps[i].CallDiscover? && DiscoverAllowed(worlds[i].actor, steps[i].profile)
    requires forall k | i < k <= j :: !worlds[k].flight.NoFlight?
    ensures Discovering(worlds[j], worlds[i].actor.current)
    ensures !Leftover(worlds[i].actor) ==> Undisturbed(worlds[j])
    decreases j
  {
    assert Enabled(worlds[j - 1], steps[j - 1]) && Disciplined(worlds[j - 1], steps[j - 1]);
    if i + 1 < j {
      PreviousIsKept(worlds, steps, i, j - 1);
      RunKeepsInv(worlds, steps, j - 1);
      DiscoveryStep(worlds[j - 1], steps[j - 1], worlds[i].actor.current);
    }
  }

  /**
   * The end of a discovery brings back the state it began in exactly when nothing shows as connected
   * by then; and nothing does unless the last accepted connect or adoption had failed to launch.
   */
  lemma DiscoveryRestores(worlds: seq<World>, steps: seq<Step>, i: nat, j: nat)
    requires IsDisciplinedRun(worlds, steps) && i < j < |steps|
    requires steps[i].CallDiscover? && DiscoverAllowed(worlds[i].actor, steps[i].profile)
    requires (forall k | i < k <= j :: !worlds[k].flight.NoFlight?) && worlds[j + 1].flight.NoFlight?
    ensures worlds[j + 1].actor.current == worlds[i].actor.current <==> !worlds[j].actor.current.Connected?
    ensures !LaunchFailed(worlds, steps, i) ==> worlds[j + 1].actor.current == worlds[i].actor.current
  {
    PreviousIsKept(worlds, steps, i, j);
    LeftoverIff(worlds, steps, i);
    RunKeepsInv(worlds, steps, j);
    assert Enabled(worlds[j], steps[j]) && Disciplined(worlds[j], steps[j]);
    DiscoveryStep(worlds[j], steps[j], worlds[i].actor.current);
  }

  // ---------- a status delivered late ----------

  /** Idle, and showing that it is busy. */
  predicate Stranded(w: World) {
    && Idle(w) && !w.actor.authRunner && !w.lookingUp && w.live == {}
    && w.actor.current.Connecting? && w.actor.activeDetails.None?
  }

  lemma StrayStrands(w: World, step: Step)
    requires Inv(w) && !Leftover(w.actor) && Enabled(w, step) && Disciplined(w, step) && Stray(w, step)
    ensures Stranded(Apply(w, step))
  {
  }

  /** Only `disconnect` ends that: every connect, discovery and adoption is refused. */
  lemma StrandedStays(w: World, step: Step)
    requires Stranded(w) && Enabled(w, step)
    ensures if step.CallDisconnect? then Apply(w, step).actor.current == Disconnected
            else Stranded(Apply(w, step))
  {
    match step {
      case Deliver(FromTunnel(h), now) =>
      case _ =>
    }
  }

  /** A stray status strands the bridge, through any run, until someone disconnects. */
  lemma {:induction false} StrandedUntilDisconnect(worlds: seq<World>, steps: seq<Step>, i: nat, j: nat)
    requires IsDisciplinedRun(worlds, steps) && i < j < |worlds|
    requires Stray(worlds[i], steps[i]) && !LaunchFailed(worlds, steps, i)
    requires forall k | i < k < j :: !steps[k].CallDisconnect?
    ensures Stranded(worlds[j])
    decreases j
  {
    if i + 1 < j {
      StrandedUntilDisconnect(worlds, steps, i, j - 1);
      assert Enabled(worlds[j - 1], steps[j - 1]);
      StrandedStays(worlds[j - 1], steps[j - 1]);
    } else {
      RunKeepsInv(worlds, steps, i);
      LeftoverIff(worlds, steps, i);
      assert Enabled(worlds[i], steps[i]) && Disciplined(worlds[i], steps[i]);
      StrayStrands(worlds[i], steps[i]);
    }
  }

  /** It happens: discovery fails, and then its last status is delivered. */
  lemma LateStatusStrands(status: string) returns (worlds: seq<World>, steps: seq<Step>)
    ensures IsDisciplinedRun(worlds, steps) && !LaunchFailed(worlds, steps, |steps|)
    ensures Stranded(worlds[|steps|]) && worlds[|steps|].queue == multiset{}
  {
    var job := SetConnecting(status);
    var w1 := START.(actor := Discover(IDLE, USUAL), flight := DiscoverList(Disconnected));
    var w2 := w1.(queue := multiset{job});
    var w3 := START.(queue := multiset{job});
    var w4 := START.(actor := IDLE.(current := Connecting(status)));
    assert w1 == Apply(START, CallDiscover(USUAL));
    assert w2 == Apply(w1, Emit(job));
    assert w3 == Apply(w2, AuthReturns(Some("failed"), 0));
    assert multiset{job} - multiset{job} == multiset{};
    assert w4 == Apply(w3, Deliver(job, 0));
    worlds := [START, w1, w2, w3, w4];
    steps := [CallDiscover(USUAL), Emit(job), AuthReturns(Some("failed"), 0), Deliver(job, 0)];
    LeftoverIff(worlds, steps, 4);
  }
}

/** What gpservice shows while a VPN is being set up and run (apps/gpservice/src/vpn_task.rs). */
module VpnShown {
  import opened Options
  import opened VpnTask

  /** Stages are passed in this order. */
  function Rank(stage: Attempt): nat {
    match stage
    case Ignored => 0
    case Checked => 0
    case Stored => 1
    case Announced => 2
    case Spawned => 3
    case Inside => 4
    case Left => 5
    case Published => 6
    case Removed => 7
    case Signalled => 8
    case Refused => 9
  }

  lemma RankGrows(w: World, step: Step, c: nat)
    requires Enabled(w, step) && c < |w.connects|
    ensures c < |Apply(w, step).connects| && Rank(w.connects[c]) <= Rank(Apply(w, step).connects[c])
  {
  }

  lemma {:induction false} RankOrder(worlds: seq<World>, steps: seq<Step>, k: nat, i: nat, c: nat)
    requires IsRun(worlds, steps) && k <= i < |worlds| && c < |worlds[k].connects|
    ensures c < |worlds[i].connects| && Rank(worlds[k].connects[c]) <= Rank(worlds[i].connects[c])
    decreases i
  {
    if k < i {
      RankOrder(worlds, steps, k, i - 1, c);
      assert Enabled(worlds[i - 1], steps[i - 1]);
      RankGrows(worlds[i - 1], steps[i - 1], c);
    }
  }

  /** Connecting has been published for `g`, and its thread has not left the VPN. */
  predicate Held(w: World, g: nat) {
    g < |w.connects| && (w.connects[g].Announced? || w.connects[g].Spawned? || w.connects[g].Inside?)
  }

  lemma HeldThroughout(worlds: seq<World>, steps: seq<Step>, p: nat, k: nat, i: nat, g: nat)
    requires IsRun(worlds, steps) && p < k <= i < |worlds|
    requires Held(worlds[p + 1], g) && Held(worlds[i], g)
    ensures Held(worlds[k], g)
  {
    RankOrder(worlds, steps, p + 1, k, g);
    RankOrder(worlds, steps, k, i, g);
  }

  /** A `disconnect` publishes: it found a VPN to cancel, or it is refused. */
  predicate Hides(w: World, step: Step) {
    (step.Look? && w.ctx.handle.Some?) || step.Refuse?
  }

  /** The one connect under way is held: only it and `disconnect` calls can publish. */
  lemma HeldStep(w: World, step: Step, g: nat)
    requires Alone(w) && Enabled(w, step) && Held(w, g) && Held(Apply(w, step), g)
    ensures step.Report? ==> step.c == g
    ensures step.Report? ==> Apply(w, step).ctx.state == Connected
    ensures step.Look? && Hides(w, step) ==> Apply(w, step).ctx.state == Disconnecting
    ensures step.Refuse? ==> Apply(w, step).ctx.state == Disconnected
    ensures !step.Report? && !Hides(w, step) ==> Apply(w, step).ctx.state == w.ctx.state
  {
    assert Live(w.connects[g]);
    match step
    case BuildFails(c) => assert Live(w.connects[c]);
    case Announce(c) => assert Live(w.connects[c]);
    case Report(c) => assert Live(w.connects[c]);
    case Publish(c) => assert Live(w.connects[c]);
    case _ =>
  }

  ghost predicate HiddenBetween(worlds: seq<World>, steps: seq<Step>, p: nat, i: nat)
    requires |worlds| == |steps| + 1 && p < i < |worlds|
  {
    exists k {:trigger steps[k]} | p < k < i :: Hides(worlds[k], steps[k])
  }

  predicate NoReport(steps: seq<Step>, p: nat, i: nat)
    requires p < i <= |steps|
  {
    forall k | p < k < i :: !steps[k].Report?
  }

  /** From step `p` on, what it left shown stands exactly until a `disconnect` publishes. */
  lemma {:induction false} ShownStands(worlds: seq<World>, steps: seq<Step>, p: nat, i: nat, g: nat)
    requires Serial(worlds, steps) && p < i < |worlds|
    requires Held(worlds[p + 1], g) && Held(worlds[i], g) && NoReport(steps, p, i)
    requires worlds[p + 1].ctx.state.Connecting? || worlds[p + 1].ctx.state.Connected?
    ensures !HiddenBetween(worlds, steps, p, i) ==> worlds[i].ctx.state == worlds[p + 1].ctx.state
    ensures HiddenBetween(worlds, steps, p, i) ==>
              worlds[i].ctx.state.Disconnecting? || worlds[i].ctx.state.Disconnected?
    decreases i
  {
    if p + 1 < i {
      var k := i - 1;
      HeldThroughout(worlds, steps, p, k, i, g);
      ShownStands(worlds, steps, p, k, g);
      SerialIsAlone(worlds, steps, k);
      assert Enabled(worlds[k], steps[k]);
      HeldStep(worlds[k], steps[k], g);
      assert HiddenBetween(worlds, steps, p, k) ==> HiddenBetween(worlds, steps, p, i);
    }
  }

  /**
   * Main result. On runs where a connect waits for the one before, a VPN that reported it is up
   * shows as connected, until its thread leaves, exactly as long as no `disconnect` published since
   * the last report.
   */
  lemma RunningShowsConnected(worlds: seq<World>, steps: seq<Step>, r: nat, i: nat, g: nat)
    requires Serial(worlds, steps) && r < i < |worlds|
    requires steps[r] == Report(g) && Held(worlds[i], g) && NoReport(steps, r, i)
    ensures worlds[i].ctx.state == Connected <==> !HiddenBetween(worlds, steps, r, i)
  {
    SerialIsAlone(worlds, steps, r);
    assert Enabled(worlds[r], steps[r]);
    ShownStands(worlds, steps, r, i, g);
  }

  /** And until its first report it shows as connecting. */
  lemma StartingShowsConnecting(worlds: seq<World>, steps: seq<Step>, p: nat, i: nat, g: nat)
    requires Serial(worlds, steps) && p < i < |worlds|
    requires steps[p] == Announce(g) && Held(worlds[i], g) && NoReport(steps, p, i)
    ensures worlds[i].ctx.state == Connecting <==> !HiddenBetween(worlds, steps, p, i)
  {
    assert Enabled(worlds[p], steps[p]);
    ShownStands(worlds, steps, p, i, g);
  }

  lemma RefusalPending() returns (worlds: seq<World>, steps: seq<Step>)
    ensures IsRun(worlds, steps) && worlds[|steps|] == START.(calls := [Refusing])
    ensures forall i {:trigger steps[i]} | 0 <= i < |steps| :: !steps[i].Connect? && !steps[i].Look?
  {
    worlds, steps := [START], [];
    worlds, steps := Extend(worlds, steps, VpnTask.Disconnect);
    worlds, steps := Extend(worlds, steps, Take(0));
  }

  lemma RefusalAcrossLaunch() returns (worlds: seq<World>, steps: seq<Step>)
    ensures IsRun(worlds, steps)
    ensures worlds[|steps|] == World(Context(Connecting, Some(0), Some(0)), [Spawned], [Refusing])
    ensures forall i {:trigger steps[i]} | 0 <= i < |steps| && steps[i].Connect? :: worlds[i].connects == []
    ensures forall i | 0 <= i < |steps| :: !steps[i].Look?
  {
    worlds, steps := RefusalPending();
    worlds, steps := Extend(worlds, steps, VpnTask.Connect);
    worlds, steps := Extend(worlds, steps, Store(0));
    worlds, steps := Extend(worlds, steps, Announce(0));
    worlds, steps := Extend(worlds, steps, Install(0));
  }

  /**
   * It does happen to a VPN nobody asked to stop: a `disconnect` that came before the connect finds
   * no receiver and publishes late, and the running VPN shows as disconnected.
   */
  lemma LateRefusalHidesVpn() returns (worlds: seq<World>, steps: seq<Step>, r: nat)
    ensures Serial(worlds, steps) && r < |steps| && steps[r] == Report(0) && NoReport(steps, r, |steps|)
    ensures At(worlds[|steps|], 0, Inside) && worlds[|steps|].ctx == Context(Disconnected, Some(0), Some(0))
    ensures forall i | 0 <= i < |steps| :: !steps[i].Look?
  {
    worlds, steps := RefusalAcrossLaunch();
    worlds, steps := Extend(worlds, steps, Enter(0));
    r := |steps|;
    worlds, steps := Extend(worlds, steps, Report(0));
    worlds, steps := Extend(worlds, steps, Refuse(0));
  }
}

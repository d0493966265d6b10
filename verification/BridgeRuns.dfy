/**
 * Whole runs of the bridge: public calls, resumptions of suspended calls, output
 * handlers queued as unordered tasks, and tunnels that end, in any interleaving.
 */
module BridgeRuns {
  import opened Options
  import opened BridgeState

  /** A suspended unprivileged phase: what resumes when its process exits. */
  datatype Flight =
    | NoFlight
    | ConnectAuth(profile: Profile)
    | DiscoverAuth(previous: VpnState)
    | DiscoverList(previous: VpnState)

  /** Work queued on the actor by an output callback. */
  datatype Job =
    | SetConnecting(status: string)          // from an unprivileged process
    | FromTunnel(handler: Handler)

  /** The actor, and what is suspended or queued around it. */
  datatype World = World(
    actor: Actor,
    flight: Flight,
    lookingUp: bool,                         // suspended in the helper lookup of adoption
    live: set<nat>,                          // supervised tunnels that have not ended
    next: nat,                               // identity of the next tunnel
    queue: multiset<Job>)

  const START := World(IDLE, NoFlight, false, {}, 0, multiset{})

  datatype Step =
    | CallConnect(profile: Profile, now: int)
    | CallDiscover(profile: Profile)
    | AuthReturns(failure: Option<string>, now: int)
    | CallAdopt
    | LookupReturns(found: bool, portal: Option<string>, now: int)
    | CallDisconnect
    | Emit(job: Job)
    | Deliver(job: Job, now: int)
    | TunnelEnds(id: nat, exitCode: int, lastError: Option<string>, privilegeDenied: bool)

  predicate Enabled(w: World, step: Step) {
    match step
    case CallConnect(_, _) => true
    case CallDiscover(_) => true
    case AuthReturns(_, _) => !w.flight.NoFlight?
    case CallAdopt => !w.lookingUp
    case LookupReturns(_, _, _) => w.lookingUp
    case CallDisconnect => true
    case Emit(SetConnecting(_)) => !w.flight.NoFlight?
    case Emit(FromTunnel(_)) => w.live != {}
    case Deliver(job, _) => job in w.queue
    case TunnelEnds(id, _, _, _) => id in w.live
  }

  /** Whether a step ends in `superviseTunnel`. */
  predicate Supervises(w: World, step: Step) {
    match step
    case CallConnect(p, _) => ConnectAllowed(w.actor, p) && !p.needsBrowser && RunnerMode(p).Some?
    case AuthReturns(failure, _) =>
      w.flight.ConnectAuth? && !w.actor.disconnectRequested && failure.None? && RunnerMode(w.flight.profile).Some?
    case LookupReturns(found, _, _) => found
    case _ => false
  }

  function Started(w: World, a: Actor, supervised: bool): World {
    if supervised then w.(actor := a, live := w.live + {w.next}, next := w.next + 1) else w.(actor := a)
  }

  function Apply(w: World, step: Step): World
    requires Enabled(w, step)
  {
    var a := w.actor;
    match step
    case CallConnect(p, now) =>
      var started := Started(w, Connect(a, p, w.next, now), Supervises(w, step));
      if ConnectAllowed(a, p) && p.needsBrowser then started.(flight := ConnectAuth(p)) else started
    case CallDiscover(p) =>
      if !DiscoverAllowed(a, p) then w else
        w.(actor := Discover(a, p),
           flight := if p.needsBrowser then DiscoverAuth(a.current) else DiscoverList(a.current))
    case AuthReturns(failure, now) =>
      (match w.flight
       case ConnectAuth(p) =>
         Started(w, ConnectResumed(a, p, failure, w.next, now), Supervises(w, step)).(flight := NoFlight)
       case DiscoverAuth(previous) =>
         var ended := failure.Some? || a.disconnectRequested;
         w.(actor := DiscoverAuthReturned(a, previous, failure.Some?),
            flight := if ended then NoFlight else DiscoverList(previous))
       case DiscoverList(previous) => w.(actor := EndDiscovery(a, previous), flight := NoFlight)
       case NoFlight => w)
    case CallAdopt => if AdoptAllowed(a) then w.(lookingUp := true) else w
    case LookupReturns(found, portal, now) =>
      var back := w.(lookingUp := false);
      if found then Started(back, Attach(a, portal, w.next, now), true) else back
    case CallDisconnect => w.(actor := Disconnect(a))
    case Emit(job) => w.(queue := w.queue + multiset{job})
    case Deliver(job, now) =>
      var taken := w.(queue := w.queue - multiset{job});
      (match job
       case SetConnecting(status) => taken.(actor := a.(current := Connecting(status)))
       case FromTunnel(h) => taken.(actor := Handle(a, h, now)))
    case TunnelEnds(id, exitCode, lastError, denied) =>
      w.(actor := FinishTunnel(a, exitCode, lastError, denied), live := w.live - {id})
  }

  ghost predicate IsRun(worlds: seq<World>, steps: seq<Step>) {
    && |worlds| == |steps| + 1
    && worlds[0] == START
    && forall i {:trigger steps[i]} | 0 <= i < |steps| ::
         Enabled(worlds[i], steps[i]) && worlds[i + 1] == Apply(worlds[i], steps[i])
  }

  /**
   * The two assumptions on callers and runtime: the helper lookup is one atomic step,
   * and discovery is not started while connected.
   */
  predicate Disciplined(w: World, step: Step) {
    && (w.lookingUp ==> step.LookupReturns?)
    && (step.CallDiscover? ==> !w.actor.current.Connected?)
  }

  ghost predicate IsDisciplinedRun(worlds: seq<World>, steps: seq<Step>) {
    && IsRun(worlds, steps)
    && forall i {:trigger steps[i]} | 0 <= i < |steps| :: Disciplined(worlds[i], steps[i])
  }

  predicate TunnelState(s: VpnState) {
    s.Connecting? || s.Connected? || s.Disconnecting?
  }

  /** What every disciplined run keeps. */
  predicate Inv(w: World) {
    var a := w.actor;
    // The slot holds the one live tunnel, if there is one.
    && w.live == (if a.tunnelRunner.Some? then {a.tunnelRunner.value} else {})
    && (a.tunnelRunner.Some? ==> TunnelState(a.current) && a.tunnelRunner.value < w.next)
    && (a.current.Connected? ==> a.activeDetails == Some(a.current.details))
    && (a.tunnelRunner.Some? ==> a.activeDetails.Some?)
    // A suspended unprivileged phase owns the auth runner and keeps tunnels out.
    && (a.authRunner <==> !w.flight.NoFlight?)
    && (!w.flight.NoFlight? ==> TunnelState(a.current) && a.tunnelRunner.None?)
    && (w.flight.ConnectAuth? ==> a.activeDetails.None?)
    && (w.flight.DiscoverAuth? || w.flight.DiscoverList? ==>
          w.flight.previous.Disconnected? || w.flight.previous.Failed?)
    && (w.lookingUp ==> AdoptAllowed(a) && w.flight.NoFlight?)
  }

  lemma HandlersKeepInv(w: World, h: Handler, now: int)
    requires Inv(w) && !w.lookingUp
    ensures Inv(w.(actor := Handle(w.actor, h, now)))
  {
  }

  lemma StepKeepsInv(w: World, step: Step)
    requires Inv(w) && Enabled(w, step) && Disciplined(w, step)
    ensures Inv(Apply(w, step))
  {
    match step {
      case Deliver(FromTunnel(h), now) => HandlersKeepInv(w, h, now);
      case _ =>
    }
  }

  lemma {:induction false} RunKeepsInv(worlds: seq<World>, steps: seq<Step>, i: nat)
    requires IsDisciplinedRun(worlds, steps) && i < |worlds|
    ensures Inv(worlds[i])
  {
    if i > 0 {
      RunKeepsInv(worlds, steps, i - 1);
      assert Enabled(worlds[i - 1], steps[i - 1]);
      StepKeepsInv(worlds[i - 1], steps[i - 1]);
    }
  }

  /**
   * Main result. On every disciplined run a supervised tunnel shows as connecting,
   * connected or disconnecting, the details shown are the active ones, at most one
   * tunnel is alive and it is the one in the slot, and a tunnel is only ever
   * supervised from an empty slot.
   */
  lemma OneTunnelAndHonestState(worlds: seq<World>, steps: seq<Step>, i: nat)
    requires IsDisciplinedRun(worlds, steps) && i < |worlds|
    ensures var a := worlds[i].actor;
            && (a.tunnelRunner.Some? ==> TunnelState(a.current))
            && (a.current.Connected? ==> a.activeDetails == Some(a.current.details))
            && worlds[i].live == (if a.tunnelRunner.Some? then {a.tunnelRunner.value} else {})
    ensures i < |steps| && Supervises(worlds[i], steps[i]) ==>
              && worlds[i].actor.tunnelRunner.None? && worlds[i].live == {}
              && worlds[i + 1].actor.tunnelRunner == Some(worlds[i].next)
  {
    RunKeepsInv(worlds, steps, i);
    if i < |steps| {
      assert Enabled(worlds[i], steps[i]) && Disciplined(worlds[i], steps[i]);
    }
  }

  /** A tunnel that is being disconnected stays so through any other step. */
  lemma DisconnectRequestStands(w: World, step: Step, id: nat)
    requires Inv(w) && Enabled(w, step) && Disciplined(w, step)
    requires w.actor.tunnelRunner == Some(id) && w.actor.disconnectRequested
    requires step.TunnelEnds? ==> step.id != id
    ensures var a := Apply(w, step).actor;
            a.tunnelRunner == Some(id) && a.disconnectRequested
  {
    match step {
      case Deliver(FromTunnel(h), now) =>
      case _ =>
    }
  }

  lemma {:induction false} RequestStandsUntil(worlds: seq<World>, steps: seq<Step>, i: nat, j: nat, id: nat)
    requires IsDisciplinedRun(worlds, steps) && i < j < |worlds|
    requires steps[i].CallDisconnect? && worlds[i].actor.tunnelRunner == Some(id)
    requires forall k | i < k < j :: steps[k].TunnelEnds? ==> steps[k].id != id
    ensures worlds[j].actor.tunnelRunner == Some(id) && worlds[j].actor.disconnectRequested
    decreases j
  {
    RunKeepsInv(worlds, steps, j - 1);
    assert Enabled(worlds[j - 1], steps[j - 1]) && Disciplined(worlds[j - 1], steps[j - 1]);
    if i + 1 < j {
      RequestStandsUntil(worlds, steps, i, j - 1, id);
      DisconnectRequestStands(worlds[j - 1], steps[j - 1], id);
    }
  }

  /**
   * Main result. Once `disconnect` is called with a tunnel supervised, the end of that
   * tunnel settles on disconnected, whatever its exit code or error and whatever was
   * delivered in between.
   */
  lemma DisconnectAlwaysSettles(worlds: seq<World>, steps: seq<Step>, i: nat, j: nat)
    requires IsDisciplinedRun(worlds, steps) && i < j < |steps|
    requires steps[i].CallDisconnect? && worlds[i].actor.tunnelRunner.Some?
    requires steps[j].TunnelEnds? && Some(steps[j].id) == worlds[i].actor.tunnelRunner
    ensures worlds[j + 1].actor.current == Disconnected
  {
    var id := steps[j].id;
    forall k | i < k < j && steps[k].TunnelEnds?
      ensures steps[k].id != id
    {
      EndsOnce(worlds, steps, k, j);
    }
    RequestStandsUntil(worlds, steps, i, j, id);
    assert Enabled(worlds[j], steps[j]);
  }

  /** A tunnel identity, once ended, is never alive again. */
  lemma {:induction false} StaysEnded(worlds: seq<World>, steps: seq<Step>, k: nat, j: nat, id: nat)
    requires IsDisciplinedRun(worlds, steps) && k < j < |worlds|
    requires steps[k].TunnelEnds? && steps[k].id == id
    ensures id !in worlds[j].live && id < worlds[j].next
    decreases j
  {
    RunKeepsInv(worlds, steps, j - 1);
    assert Enabled(worlds[j - 1], steps[j - 1]) && Disciplined(worlds[j - 1], steps[j - 1]);
    if k + 1 < j {
      StaysEnded(worlds, steps, k, j - 1, id);
    }
  }

  lemma EndsOnce(worlds: seq<World>, steps: seq<Step>, k: nat, j: nat)
    requires IsDisciplinedRun(worlds, steps) && k < j < |steps|
    requires steps[k].TunnelEnds? && steps[j].TunnelEnds?
    ensures steps[k].id != steps[j].id
  {
    StaysEnded(worlds, steps, k, j, steps[k].id);
    assert Enabled(worlds[j], steps[j]);
  }

  /** A connect the guard accepts, or an adoption that finds a session. */
  predicate Restarts(w: World, step: Step) {
    || (step.CallConnect? && ConnectAllowed(w.actor, step.profile))
    || (step.LookupReturns? && step.found)
  }

  predicate Inactive(w: World) {
    w.actor.activeDetails.None? && !w.flight.ConnectAuth?
  }

  lemma EndMakesInactive(w: World, step: Step)
    requires Inv(w) && Enabled(w, step) && step.TunnelEnds?
    ensures Inactive(Apply(w, step))
  {
  }

  lemma StaysInactive(w: World, step: Step)
    requires Inactive(w) && Enabled(w, step) && !Restarts(w, step)
    ensures Inactive(Apply(w, step))
    ensures step.Deliver? && step.job.FromTunnel? ==> Apply(w, step).actor == w.actor
  {
    match step {
      case Deliver(FromTunnel(h), now) =>
      case _ =>
    }
  }

  lemma {:induction false} NothingActiveUntilRestart(worlds: seq<World>, steps: seq<Step>, i: nat, j: nat)
    requires IsDisciplinedRun(worlds, steps) && i < j < |worlds|
    requires steps[i].TunnelEnds?
    requires forall k {:trigger Restarts(worlds[k], steps[k])} | i < k < j :: !Restarts(worlds[k], steps[k])
    ensures Inactive(worlds[j])
    decreases j
  {
    if i + 1 < j {
      NothingActiveUntilRestart(worlds, steps, i, j - 1);
      QuietStep(worlds, steps, j - 1);
    } else {
      RunKeepsInv(worlds, steps, i);
      EndMakesInactive(worlds[i], steps[i]);
    }
  }

  lemma QuietStep(worlds: seq<World>, steps: seq<Step>, k: nat)
    requires IsRun(worlds, steps) && k < |steps| && Inactive(worlds[k]) && !Restarts(worlds[k], steps[k])
    ensures Inactive(worlds[k + 1])
    ensures steps[k].Deliver? && steps[k].job.FromTunnel? ==> worlds[k + 1].actor == worlds[k].actor
  {
    StaysInactive(worlds[k], steps[k]);
  }

  /**
   * Main result. A tunnel handler delivered after the tunnel's end changes nothing,
   * until the next accepted connect or successful adoption.
   */
  lemma LateHandlersAreInert(worlds: seq<World>, steps: seq<Step>, i: nat, j: nat)
    requires IsDisciplinedRun(worlds, steps) && i < j < |steps|
    requires steps[i].TunnelEnds? && steps[j].Deliver? && steps[j].job.FromTunnel?
    requires forall k {:trigger Restarts(worlds[k], steps[k])} | i < k < j :: !Restarts(worlds[k], steps[k])
    ensures worlds[j + 1].actor == worlds[j].actor
  {
    NothingActiveUntilRestart(worlds, steps, i, j);
    QuietStep(worlds, steps, j);
  }

  /** What holds at first, and is lost exactly at a fault, has held all along exactly without faults. */
  lemma {:induction false} HeldUntilFault(holds: seq<bool>, fault: seq<bool>, j: nat)
    requires |holds| == |fault| + 1 && j < |holds| && holds[0]
    requires forall k | 0 <= k < |fault| && holds[k] :: holds[k + 1] <==> !fault[k]
    ensures (forall k | 0 <= k <= j :: holds[k]) <==> forall k | 0 <= k < j :: !fault[k]
  {
    if j > 0 {
      HeldUntilFault(holds, fault, j - 1);
      var k := j - 1;
      assert holds[k] ==> (holds[k + 1] <==> !fault[k]);
      assert (forall i | 0 <= i <= j :: holds[i]) <==> (forall i | 0 <= i <= k :: holds[i]) && holds[j];
      assert (forall i | 0 <= i < j :: !fault[i]) <==> (forall i | 0 <= i < k :: !fault[i]) && !fault[k];
    }
  }

  // A shown connection and the tunnel behind it.

  /** Details set with no tunnel in the slot. */
  predicate Leftover(a: Actor) {
    a.activeDetails.Some? && a.tunnelRunner.None?
  }

  /** A launch that finds no privileged runner. */
  predicate FailsLaunch(w: World, step: Step) {
    match step
    case CallConnect(p, _) => ConnectAllowed(w.actor, p) && !p.needsBrowser && RunnerMode(p).None?
    case AuthReturns(failure, _) =>
      w.flight.ConnectAuth? && !w.actor.disconnectRequested && failure.None? && RunnerMode(w.flight.profile).None?
    case _ => false
  }

  lemma HandlersKeepLeftover(a: Actor, h: Handler, now: int)
    ensures Leftover(Handle(a, h, now)) <==> Leftover(a)
  {
  }

  /** Only a failed launch leaves details behind, and only an accepted connect or an adoption clears them. */
  lemma LeftoverStep(w: World, step: Step)
    requires Inv(w) && Enabled(w, step) && Disciplined(w, step)
    ensures Leftover(Apply(w, step).actor) <==>
              FailsLaunch(w, step) || (Leftover(w.actor) && !Restarts(w, step))
  {
    match step {
      case Deliver(FromTunnel(h), now) => HandlersKeepLeftover(w.actor, h, now);
      case _ =>
    }
  }

  predicate Faked(a: Actor) {
    a.current.Connected? && a.tunnelRunner.None?
  }

  predicate DeliversConnection(step: Step) {
    step.Deliver? && step.job.FromTunnel? && step.job.handler.TunnelConnected?
  }

  lemma HandlersFake(a: Actor, h: Handler, now: int)
    requires !Faked(a)
    ensures Faked(Handle(a, h, now)) <==> Leftover(a) && h.TunnelConnected?
  {
  }

  /** A connection without a tunnel is first shown exactly by a connection handler that finds such details. */
  lemma FakedStep(w: World, step: Step)
    requires Inv(w) && Enabled(w, step) && Disciplined(w, step) && !Faked(w.actor)
    ensures Faked(Apply(w, step).actor) <==> Leftover(w.actor) && DeliversConnection(step)
  {
    match step {
      case Deliver(FromTunnel(h), now) => HandlersFake(w.actor, h, now);
      case _ =>
    }
  }

  /** The last connect or adoption that was accepted failed to launch. */
  ghost predicate LaunchFailed(worlds: seq<World>, steps: seq<Step>, j: nat)
    requires |worlds| == |steps| + 1 && j <= |steps|
  {
    exists i {:trigger FailsLaunch(worlds[i], steps[i])} | 0 <= i < j ::
      FailsLaunch(worlds[i], steps[i])
      && forall k {:trigger Restarts(worlds[k], steps[k])} | i < k < j :: !Restarts(worlds[k], steps[k])
  }

  lemma LaunchFailedStep(worlds: seq<World>, steps: seq<Step>, j: nat)
    requires |worlds| == |steps| + 1 && 0 < j <= |steps|
    ensures LaunchFailed(worlds, steps, j) <==>
              FailsLaunch(worlds[j - 1], steps[j - 1])
              || (LaunchFailed(worlds, steps, j - 1) && !Restarts(worlds[j - 1], steps[j - 1]))
  {
    if LaunchFailed(worlds, steps, j - 1) && !Restarts(worlds[j - 1], steps[j - 1]) {
      var i :| 0 <= i < j - 1 && FailsLaunch(worlds[i], steps[i])
        && forall k {:trigger Restarts(worlds[k], steps[k])} | i < k < j - 1 :: !Restarts(worlds[k], steps[k]);
      assert FailsLaunch(worlds[i], steps[i])
        && forall k {:trigger Restarts(worlds[k], steps[k])} | i < k < j :: !Restarts(worlds[k], steps[k]);
    }
    if LaunchFailed(worlds, steps, j) && !FailsLaunch(worlds[j - 1], steps[j - 1]) {
      var i :| 0 <= i < j && FailsLaunch(worlds[i], steps[i])
        && forall k {:trigger Restarts(worlds[k], steps[k])} | i < k < j :: !Restarts(worlds[k], steps[k]);
      assert i < j - 1;
      assert !Restarts(worlds[j - 1], steps[j - 1]);
    }
  }

  lemma {:induction false} LeftoverIff(worlds: seq<World>, steps: seq<Step>, j: nat)
    requires IsDisciplinedRun(worlds, steps) && j < |worlds|
    ensures Leftover(worlds[j].actor) <==> LaunchFailed(worlds, steps, j)
  {
    if j > 0 {
      LeftoverIff(worlds, steps, j - 1);
      RunKeepsInv(worlds, steps, j - 1);
      assert Enabled(worlds[j - 1], steps[j - 1]) && Disciplined(worlds[j - 1], steps[j - 1]);
      LeftoverStep(worlds[j - 1], steps[j - 1]);
      LaunchFailedStep(worlds, steps, j);
    }
  }

  /**
   * Main result. On every disciplined run a shown connection is backed by the one live tunnel
   * exactly when the last accepted connect or adoption did not fail to launch.
   */
  lemma ConnectedMeansTunnel(worlds: seq<World>, steps: seq<Step>, j: nat)
    requires IsDisciplinedRun(worlds, steps) && j < |worlds| && worlds[j].actor.current.Connected?
    ensures (exists id :: worlds[j].actor.tunnelRunner == Some(id) && worlds[j].live == {id})
            <==> !LaunchFailed(worlds, steps, j)
  {
    RunKeepsInv(worlds, steps, j);
    LeftoverIff(worlds, steps, j);
    if worlds[j].actor.tunnelRunner.Some? {
      assert worlds[j].actor.tunnelRunner == Some(worlds[j].actor.tunnelRunner.value);
    }
  }

  /** And the connection without a tunnel appears exactly when a connection handler runs after such a launch. */
  lemma FakedIff(worlds: seq<World>, steps: seq<Step>, j: nat)
    requires IsDisciplinedRun(worlds, steps) && j < |steps| && !Faked(worlds[j].actor)
    ensures Faked(worlds[j + 1].actor) <==> LaunchFailed(worlds, steps, j) && DeliversConnection(steps[j])
  {
    RunKeepsInv(worlds, steps, j);
    LeftoverIff(worlds, steps, j);
    assert Enabled(worlds[j], steps[j]) && Disciplined(worlds[j], steps[j]);
    FakedStep(worlds[j], steps[j]);
  }

  // Runs that show each condition is needed.

  const USUAL := Profile("vpn.example.com", "gw", "gw", "TLS", false, true, Helper, true, true)

  const UNPRIVILEGED := USUAL.(helperUsable := false, promptUsable := false)

  const UP := FromTunnel(TunnelConnected(None))

  /** A tunnel launched through the helper from the start, before any output. */
  lemma Launch() returns (w: World)
    ensures w == Apply(START, CallConnect(USUAL, 0))
    ensures w.actor == Actor(Connecting("Connecting"), false, Some(0), false,
                             Some(NewDetails("vpn.example.com", "gw", "gw", Some("TLS"), 0)), None)
    ensures w.flight == NoFlight && !w.lookingUp && w.live == {0} && w.next == 1 && w.queue == multiset{}
  {
    w := Apply(START, CallConnect(USUAL, 0));
  }

  /**
   * `startTunnel` with no privileged runner leaves the active details set. A handler
   * still queued from the tunnel before then shows a connection with no tunnel at all.
   */
  lemma FailedLaunchFakesConnection() returns (worlds: seq<World>, steps: seq<Step>)
    ensures IsDisciplinedRun(worlds, steps)
    ensures var last := worlds[|steps|];
            last.actor.current.Connected? && last.live == {} && last.actor.tunnelRunner.None?
  {
    var w1 := Launch();
    var w2 := w1.(queue := multiset{UP});
    assert w2 == Apply(w1, Emit(UP));
    var w3 := w2.(live := {}, actor := IDLE);
    assert w3 == Apply(w2, TunnelEnds(0, 0, None, false));
    var w4 := w3.(actor := StartTunnel(IDLE, UNPRIVILEGED, 1, 5));
    assert w4 == Apply(w3, CallConnect(UNPRIVILEGED, 5));
    assert w4.actor.current.Failed? && w4.actor.activeDetails.Some? && UP in w4.queue;
    var w5 := Apply(w4, Deliver(UP, 9));
    worlds := [START, w1, w2, w3, w4, w5];
    steps := [CallConnect(USUAL, 0), Emit(UP), TunnelEnds(0, 0, None, false), CallConnect(UNPRIVILEGED, 5),
              Deliver(UP, 9)];
  }

  /** A run with no lookup pending, one step longer. */
  lemma Extend(worlds: seq<World>, steps: seq<Step>, step: Step, next: World)
    requires IsRun(worlds, steps) && (forall i | 0 <= i < |worlds| :: !worlds[i].lookingUp) && !next.lookingUp
    requires Enabled(worlds[|steps|], step) && next == Apply(worlds[|steps|], step)
    ensures IsRun(worlds + [next], steps + [step])
    ensures forall i | 0 <= i <= |worlds| :: !(worlds + [next])[i].lookingUp
  {
    var ws, ss := worlds + [next], steps + [step];
    forall i {:trigger ss[i]} | 0 <= i < |ss|
      ensures Enabled(ws[i], ss[i]) && ws[i + 1] == Apply(ws[i], ss[i])
    {
      if i < |steps| {
        assert ss[i] == steps[i];
      }
    }
  }

  lemma RunToConnected() returns (worlds: seq<World>, steps: seq<Step>)
    ensures IsRun(worlds, steps) && forall i | 0 <= i < |worlds| :: !worlds[i].lookingUp
    ensures var w := worlds[|steps|];
            && w.actor.current.Connected? && w.actor.tunnelRunner == Some(0) && w.live == {0} && w.flight.NoFlight?
            && !w.actor.disconnectRequested
  {
    var w1 := Launch();
    var w2 := w1.(queue := multiset{UP});
    var w3 := w1.(actor := HandleTunnelConnected(w1.actor, None, 1));
    assert multiset{UP} - multiset{UP} == multiset{};
    worlds, steps := [START], [];
    Extend(worlds, steps, CallConnect(USUAL, 0), w1);
    worlds, steps := worlds + [w1], steps + [CallConnect(USUAL, 0)];
    Extend(worlds, steps, Emit(UP), w2);
    worlds, steps := worlds + [w2], steps + [Emit(UP)];
    Extend(worlds, steps, Deliver(UP, 1), w3);
    worlds, steps := worlds + [w3], steps + [Deliver(UP, 1)];
  }

  lemma DiscoverThenEnd(w3: World) returns (w4: World, w5: World, w6: World)
    requires w3.actor.current.Connected? && w3.actor.tunnelRunner == Some(0) && w3.live == {0} && w3.flight.NoFlight?
    requires !w3.actor.disconnectRequested && !w3.lookingUp
    ensures w4 == Apply(w3, CallDiscover(USUAL))
    ensures Enabled(w4, TunnelEnds(0, 1, None, false)) && w5 == Apply(w4, TunnelEnds(0, 1, None, false))
    ensures Enabled(w5, AuthReturns(None, 9)) && w6 == Apply(w5, AuthReturns(None, 9))
    ensures !w4.lookingUp && !w5.lookingUp && !w6.lookingUp
    ensures w6.actor.current.Connected? && w6.actor.activeDetails.None? && w6.live == {}
  {
    w4 := w3.(actor := Discover(w3.actor, USUAL), flight := DiscoverList(w3.actor.current));
    w5 := w4.(actor := FinishTunnel(w4.actor, 1, None, false), live := w4.live - {0});
    w6 := Apply(w5, AuthReturns(None, 9));
  }

  /**
   * Discovery started while connected restores a state that may no longer hold: the
   * tunnel ends meanwhile, and the bridge goes back to showing it as connected.
   */
  lemma DiscoveryWhileConnectedRevivesTunnel() returns (worlds: seq<World>, steps: seq<Step>)
    ensures IsRun(worlds, steps) && forall i | 0 <= i < |worlds| :: !worlds[i].lookingUp
    ensures var last := worlds[|steps|];
            last.actor.current.Connected? && last.actor.activeDetails.None? && last.live == {}
  {
    worlds, steps := RunToConnected();
    var w4, w5, w6 := DiscoverThenEnd(worlds[|steps|]);
    Extend(worlds, steps, CallDiscover(USUAL), w4);
    worlds, steps := worlds + [w4], steps + [CallDiscover(USUAL)];
    Extend(worlds, steps, TunnelEnds(0, 1, None, false), w5);
    worlds, steps := worlds + [w5], steps + [TunnelEnds(0, 1, None, false)];
    Extend(worlds, steps, AuthReturns(None, 9), w6);
    worlds, steps := worlds + [w6], steps + [AuthReturns(None, 9)];
  }

  /**
   * The helper lookup is a suspension: a connect accepted during it starts a tunnel,
   * and adoption then supervises a second one over it.
   */
  lemma LookupRaceLosesTunnel() returns (worlds: seq<World>, steps: seq<Step>)
    ensures IsRun(worlds, steps)
    ensures forall i | 0 <= i < |steps| :: !steps[i].CallDiscover?
    ensures var last := worlds[|steps|]; last.live == {0, 1} && last.actor.tunnelRunner == Some(1)
  {
    var launched := Launch();
    var w1 := START.(lookingUp := true);
    assert w1 == Apply(START, CallAdopt);
    var w2 := launched.(lookingUp := true);
    assert w2 == Apply(w1, CallConnect(USUAL, 0));
    var w3 := Apply(w2, LookupReturns(true, None, 1));
    assert w3.live == {0, 1};
    worlds := [START, w1, w2, w3];
    steps := [CallAdopt, CallConnect(USUAL, 0), LookupReturns(true, None, 1)];
  }

  // The order in which queued handlers run.

  /** A handler and the instant at which it runs. */
  datatype Delivery = At(handler: Handler, now: int)

  function DeliverAll(a: Actor, ds: seq<Delivery>): Actor {
    if ds == [] then a else
      var last := ds[|ds| - 1];
      Handle(DeliverAll(a, ds[..|ds| - 1]), last.handler, last.now)
  }

  predicate NoSelectionAfter(ds: seq<Delivery>, i: int) {
    forall j | i < j < |ds| && 0 <= j :: !ds[j].handler.GatewaySelected?
  }

  /** The tunnel came up and no gateway selection is handled after that. */
  ghost predicate ShownUp(a: Actor, ds: seq<Delivery>) {
    || (a.current.Connected? && NoSelectionAfter(ds, -1))
    || exists i :: 0 <= i < |ds| && ds[i].handler.TunnelConnected? && NoSelectionAfter(ds, i)
  }

  lemma ShownUpSnoc(a: Actor, ds: seq<Delivery>)
    requires ds != []
    ensures var n := |ds| - 1;
            ShownUp(a, ds) <==>
              ds[n].handler.TunnelConnected? || (!ds[n].handler.GatewaySelected? && ShownUp(a, ds[..n]))
  {
    var n := |ds| - 1;
    var front := ds[..n];
    if ds[n].handler.TunnelConnected? {
      assert NoSelectionAfter(ds, n);
    } else if !ds[n].handler.GatewaySelected? {
      assert forall i | -1 <= i < n :: NoSelectionAfter(ds, i) <==> NoSelectionAfter(front, i);
    } else {
      assert forall i | -1 <= i < n :: !NoSelectionAfter(ds, i);
    }
  }

  /** The last gateway selected, if any. */
  function LastSelected(ds: seq<Delivery>): (r: Option<Delivery>)
    ensures r.Some? ==> r.value.handler.GatewaySelected?
  {
    if ds == [] then None
    else if ds[|ds| - 1].handler.GatewaySelected? then Some(ds[|ds| - 1])
    else LastSelected(ds[..|ds| - 1])
  }

  function LastInfo(ds: seq<Delivery>): (r: Option<Delivery>)
    ensures r.Some? ==> r.value.handler.SessionInfo?
  {
    if ds == [] then None
    else if ds[|ds| - 1].handler.SessionInfo? then Some(ds[|ds| - 1])
    else LastInfo(ds[..|ds| - 1])
  }

  /**
   * The handlers are unordered tasks, so their order decides what is shown. Delivered while there
   * are details, also while disconnecting, any sequence of them ends as connected exactly when the
   * tunnel came up with no gateway selection handled after it; otherwise the last selection leaves
   * the bridge connecting, and with none of either the state stays.
   */
  lemma {:induction false} DeliveryOrderDecides(a: Actor, ds: seq<Delivery>)
    requires a.activeDetails.Some?
    ensures var b := DeliverAll(a, ds);
            && (b.current.Connected? <==> ShownUp(a, ds))
            && (!ShownUp(a, ds) ==>
                  b.current == if LastSelected(ds).Some?
                               then Connecting("Connecting to gateway " + LastSelected(ds).value.handler.name)
                               else a.current)
            && b.activeDetails.Some?
            && b.tunnelRunner == a.tunnelRunner && b.disconnectRequested == a.disconnectRequested
    decreases |ds|
  {
    if ds != [] {
      var n := |ds| - 1;
      DeliveryOrderDecides(a, ds[..n]);
      ShownUpSnoc(a, ds);
    }
  }

  /**
   * Replaying a tunnel's output recovers its details in any order: the gateway is the
   * last one selected, the extension permission is that of the last session report,
   * and portal and cipher are untouched.
   */
  lemma {:induction false} ReplayRecoversDetails(a: Actor, ds: seq<Delivery>)
    requires a.activeDetails.Some?
    ensures DeliverAll(a, ds).activeDetails.Some?
    ensures var d0, d := a.activeDetails.value, DeliverAll(a, ds).activeDetails.value;
            var s, i := LastSelected(ds), LastInfo(ds);
            && d.portal == d0.portal && d.cipher == d0.cipher
            && d.gatewayName == (if s.Some? then s.value.handler.name else d0.gatewayName)
            && d.gatewayServer == (if s.Some? then s.value.handler.server else d0.gatewayServer)
            && d.allowExtendSession == (if i.Some? then i.value.handler.allowExtend else d0.allowExtendSession)
    decreases |ds|
  {
    if ds != [] {
      var n := |ds| - 1;
      ReplayRecoversDetails(a, ds[..n]);
      HandlerWrites(DeliverAll(a, ds[..n]), ds[n].handler, ds[n].now);
    }
  }

  /** Which details each handler may write. */
  lemma HandlerWrites(a: Actor, h: Handler, now: int)
    requires a.activeDetails.Some?
    ensures Handle(a, h, now).activeDetails.Some?
    ensures var d0, d := a.activeDetails.value, Handle(a, h, now).activeDetails.value;
            && d.portal == d0.portal && d.cipher == d0.cipher
            && d.gatewayName == (if h.GatewaySelected? then h.name else d0.gatewayName)
            && d.gatewayServer == (if h.GatewaySelected? then h.server else d0.gatewayServer)
            && d.allowExtendSession == (if h.SessionInfo? then h.allowExtend else d0.allowExtendSession)
  {
  }

  /** Without an extension in between, the expiry is the one last reported, counted from when that was handled. */
  lemma {:induction false} ReplayRecoversExpiry(a: Actor, ds: seq<Delivery>)
    requires a.activeDetails.Some?
    requires forall i | 0 <= i < |ds| :: !ds[i].handler.SessionExtended?
    requires LastInfo(ds).Some?
    requires LastInfo(ds).value.handler.expires.Some? || LastInfo(ds).value.handler.lifetime.Some?
    ensures DeliverAll(a, ds).activeDetails.Some?
    ensures var info := LastInfo(ds).value;
            DeliverAll(a, ds).activeDetails.value.sessionExpiresAt
              == Some(if info.handler.expires.Some? then info.handler.expires.value
                      else info.now + info.handler.lifetime.value)
    decreases |ds|
  {
    var n := |ds| - 1;
    ReplayRecoversDetails(a, ds[..n]);
    if !ds[n].handler.SessionInfo? {
      assert forall i | 0 <= i < n :: ds[..n][i] == ds[i];
      ReplayRecoversExpiry(a, ds[..n]);
    }
  }
}

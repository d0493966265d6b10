/**
 * The connect/disconnect handshake of gpservice (apps/gpservice/src/vpn_task.rs): every request is
 * a task of its own, every accepted connect spawns a thread, and they meet at the state channel,
 * the handle lock and the receiver slot. A step is a stretch between two lock waits.
 */
module VpnTask {
  import opened Options

  datatype VpnState = Disconnected | Connecting | Connected | Disconnecting

  /** One `connect` request and, from `Spawned` on, its thread. */
  datatype Attempt =
    | Ignored                       // the state was not Disconnected
    | Refused                       // the VPN could not be built
    | Checked
    | Stored                        // its handle is in the slot
    | Announced                     // Connecting published
    | Spawned                       // its receiver is in the slot, its thread exists
    | Inside                        // the thread holds the read lock and runs the VPN
    | Left
    | Published                     // Disconnected published
    | Removed                       // the handle slot emptied
    | Signalled                     // the receiver completed

  /**
   * One `disconnect` request. From `Took` to `Returned` it holds the slot's write guard; when
   * there is no receiver the guard is dropped before the else branch runs.
   */
  datatype Call =
    | Waiting
    | Took(g: nat)
    | Cancelling(g: nat)            // holds the handle's read lock
    | Awaiting(g: nat)
    | Refusing
    | Returned(pair: Option<nat>)   // true, for the receiver of that connect, or false

  /** What the tasks share. */
  datatype Context = Context(
    state: VpnState,
    handle: Option<nat>,            // whose VPN is in `vpn_handle`
    slot: Option<nat>)              // whose receiver is in `disconnect_rx`

  datatype World = World(ctx: Context, connects: seq<Attempt>, calls: seq<Call>)

  const START := World(Context(Disconnected, None, None), [], [])

  datatype Step =
    | Connect
    | BuildFails(c: nat)
    | Store(c: nat)
    | Announce(c: nat)
    | Install(c: nat)
    | Enter(c: nat)
    | Report(c: nat)
    | Leave(c: nat)
    | Publish(c: nat)
    | Remove(c: nat)
    | Signal(c: nat)
    | Disconnect
    | Take(d: nat)
    | Look(d: nat)
    | Cancel(d: nat)
    | Return(d: nat)
    | Refuse(d: nat)

  predicate At(w: World, c: nat, stage: Attempt) {
    c < |w.connects| && w.connects[c] == stage
  }

  /** The read lock is free. */
  predicate NoReader(w: World) {
    Inside !in w.connects && forall d | 0 <= d < |w.calls| :: !w.calls[d].Cancelling?
  }

  predicate HoldsGuard(call: Call) {
    call.Took? || call.Cancelling? || call.Awaiting?
  }

  predicate GuardFree(w: World) {
    forall d | 0 <= d < |w.calls| :: !HoldsGuard(w.calls[d])
  }

  predicate Enabled(w: World, step: Step) {
    match step
    case Connect => true
    case BuildFails(c) => At(w, c, Checked)
    case Store(c) => At(w, c, Checked) && NoReader(w)
    case Announce(c) => At(w, c, Stored)
    case Install(c) => At(w, c, Announced) && GuardFree(w)
    case Enter(c) => At(w, c, Spawned)
    case Report(c) => At(w, c, Inside)
    case Leave(c) => At(w, c, Inside)
    case Publish(c) => At(w, c, Left)
    case Remove(c) => At(w, c, Published) && NoReader(w)
    case Signal(c) => At(w, c, Removed)
    case Disconnect => true
    case Take(d) => d < |w.calls| && w.calls[d].Waiting? && GuardFree(w)
    case Look(d) => d < |w.calls| && w.calls[d].Took?
    case Cancel(d) => d < |w.calls| && w.calls[d].Cancelling?
    case Return(d) => d < |w.calls| && w.calls[d].Awaiting? && At(w, w.calls[d].g, Signalled)
    case Refuse(d) => d < |w.calls| && w.calls[d].Refusing?
  }

  /** The step's writes to what is shared. */
  function Effect(x: Context, step: Step): Context {
    match step
    case BuildFails(_) => x.(state := Disconnected)
    case Store(c) => x.(handle := Some(c))
    case Announce(_) => x.(state := Connecting)
    case Install(c) => x.(slot := Some(c))
    case Report(_) => x.(state := Connected)
    case Publish(_) => x.(state := Disconnected)
    case Remove(_) => x.(handle := None)
    case Take(_) => x.(slot := None)
    case Look(_) => if x.handle.Some? then x.(state := Disconnecting) else x
    case Refuse(_) => x.(state := Disconnected)
    case _ => x
  }

  function Move(w: World, c: nat, stage: Attempt): World
    requires c < |w.connects|
  {
    w.(connects := w.connects[c := stage])
  }

  function MoveCall(w: World, d: nat, call: Call): World
    requires d < |w.calls|
  {
    w.(calls := w.calls[d := call])
  }

  /** Where the tasks are after the step. */
  function Advance(w: World, step: Step): World
    requires Enabled(w, step)
  {
    match step
    case Connect => w.(connects := w.connects + [if w.ctx.state.Disconnected? then Checked else Ignored])
    case BuildFails(c) => Move(w, c, Refused)
    case Store(c) => Move(w, c, Stored)
    case Announce(c) => Move(w, c, Announced)
    case Install(c) => Move(w, c, Spawned)
    case Enter(c) => Move(w, c, if w.ctx.handle.Some? then Inside else Left)
    case Report(c) => w
    case Leave(c) => Move(w, c, Left)
    case Publish(c) => Move(w, c, Published)
    case Remove(c) => Move(w, c, Removed)
    case Signal(c) => Move(w, c, Signalled)
    case Disconnect => w.(calls := w.calls + [Waiting])
    case Take(d) => MoveCall(w, d, if w.ctx.slot.Some? then Took(w.ctx.slot.value) else Refusing)
    case Look(d) => MoveCall(w, d, if w.ctx.handle.Some? then Cancelling(w.calls[d].g) else Awaiting(w.calls[d].g))
    case Cancel(d) => MoveCall(w, d, Awaiting(w.calls[d].g))
    case Return(d) => MoveCall(w, d, Returned(Some(w.calls[d].g)))
    case Refuse(d) => MoveCall(w, d, Returned(None))
  }

  function Apply(w: World, step: Step): World
    requires Enabled(w, step)
  {
    Advance(w, step).(ctx := Effect(w.ctx, step))
  }

  ghost predicate IsRun(worlds: seq<World>, steps: seq<Step>) {
    && |worlds| == |steps| + 1
    && worlds[0] == START
    && forall i {:trigger steps[i]} | 0 <= i < |steps| ::
         Enabled(worlds[i], steps[i]) && worlds[i + 1] == Apply(worlds[i], steps[i])
  }

  /** The connect whose receiver the call has, if any. */
  function Pair(call: Call): Option<nat> {
    match call
    case Took(g) => Some(g)
    case Cancelling(g) => Some(g)
    case Awaiting(g) => Some(g)
    case Returned(pair) => pair
    case _ => None
  }

  /** A thread was spawned for it. */
  predicate Launched(w: World, c: nat) {
    c < |w.connects| && (w.connects[c].Spawned? || w.connects[c].Inside? || w.connects[c].Left?
      || w.connects[c].Published? || w.connects[c].Removed? || w.connects[c].Signalled?)
  }

  predicate Inv(w: World) {
    && (w.ctx.slot.Some? ==> Launched(w, w.ctx.slot.value))
    && (forall d | 0 <= d < |w.calls| :: w.ctx.slot.Some? ==> Pair(w.calls[d]) != w.ctx.slot)
    && (forall d | 0 <= d < |w.calls| :: Pair(w.calls[d]).Some? ==> Launched(w, Pair(w.calls[d]).value))
    && (forall d | 0 <= d < |w.calls| ::
          w.calls[d].Returned? && w.calls[d].pair.Some? ==> At(w, w.calls[d].pair.value, Signalled))
    && (forall d, e | 0 <= d < e < |w.calls| :: Pair(w.calls[d]).Some? ==> Pair(w.calls[d]) != Pair(w.calls[e]))
    && (forall d, e | 0 <= d < e < |w.calls| :: !(HoldsGuard(w.calls[d]) && HoldsGuard(w.calls[e])))
  }

  predicate OfConnect(step: Step) {
    step.BuildFails? || step.Store? || step.Announce? || step.Enter? || step.Report? || step.Leave? || step.Publish?
    || step.Remove? || step.Signal?
  }

  /** None of these touches the slot or a call, and a launched connect stays launched. */
  lemma ConnectStepKeepsInv(w: World, step: Step)
    requires Inv(w) && Enabled(w, step) && OfConnect(step)
    ensures Inv(Apply(w, step))
  {
    var w' := Apply(w, step);
    forall c | Launched(w, c) ensures Launched(w', c) {
    }
    forall c | At(w, c, Signalled) ensures At(w', c, Signalled) {
    }
    assert w'.calls == w.calls && w'.ctx.slot == w.ctx.slot;
  }

  lemma ArrivalKeepsInv(w: World, step: Step)
    requires Inv(w) && Enabled(w, step) && (step.Connect? || step.Disconnect?)
    ensures Inv(Apply(w, step))
  {
    var w' := Apply(w, step);
    forall c | Launched(w, c) ensures Launched(w', c) {
    }
    forall c | At(w, c, Signalled) ensures At(w', c, Signalled) {
    }
  }

  lemma InstallKeepsInv(w: World, c: nat)
    requires Inv(w) && Enabled(w, Install(c))
    ensures Inv(Apply(w, Install(c)))
  {
    var w' := Apply(w, Install(c));
    forall g | Launched(w, g) ensures Launched(w', g) && g != c {
    }
    forall g | At(w, g, Signalled) ensures At(w', g, Signalled) {
    }
  }

  lemma TakeKeepsInv(w: World, d: nat)
    requires Inv(w) && Enabled(w, Take(d))
    ensures Inv(Apply(w, Take(d)))
  {
  }

  lemma CallStepKeepsInv(w: World, step: Step)
    requires Inv(w) && Enabled(w, step) && (step.Look? || step.Cancel? || step.Return? || step.Refuse?)
    ensures Inv(Apply(w, step))
  {
    var w' := Apply(w, step);
    assert w'.connects == w.connects && w'.ctx.slot == w.ctx.slot;
    forall d | 0 <= d < |w.calls| ensures Pair(w'.calls[d]) == Pair(w.calls[d]) {
    }
  }

  lemma StepKeepsInv(w: World, step: Step)
    requires Inv(w) && Enabled(w, step)
    ensures Inv(Apply(w, step))
  {
    if OfConnect(step) {
      ConnectStepKeepsInv(w, step);
    } else if step.Connect? || step.Disconnect? {
      ArrivalKeepsInv(w, step);
    } else if step.Install? {
      InstallKeepsInv(w, step.c);
    } else if step.Take? {
      TakeKeepsInv(w, step.d);
    } else {
      CallStepKeepsInv(w, step);
    }
  }

  lemma {:induction false} RunKeepsInv(worlds: seq<World>, steps: seq<Step>, i: nat)
    requires IsRun(worlds, steps) && i < |worlds|
    ensures Inv(worlds[i])
  {
    if i > 0 {
      RunKeepsInv(worlds, steps, i - 1);
      assert Enabled(worlds[i - 1], steps[i - 1]);
      StepKeepsInv(worlds[i - 1], steps[i - 1]);
    }
  }

  /** Two calls that return true never share a connect. */
  lemma PairsAreDistinct(worlds: seq<World>, steps: seq<Step>, i: nat, d: nat, e: nat)
    requires IsRun(worlds, steps) && i < |worlds| && d < e < |worlds[i].calls|
    requires worlds[i].calls[d].Returned? && worlds[i].calls[d].pair.Some?
    ensures worlds[i].calls[e].Returned? ==> worlds[i].calls[e].pair != worlds[i].calls[d].pair
  {
    RunKeepsInv(worlds, steps, i);
    assert Pair(worlds[i].calls[d]) == worlds[i].calls[d].pair;
  }

  /** The last step before `i` that moved connect `c`. */
  lemma {:induction false} LastMove(worlds: seq<World>, steps: seq<Step>, i: nat, c: nat) returns (k: nat)
    requires IsRun(worlds, steps) && i < |worlds| && c < |worlds[i].connects|
    ensures k < i && At(worlds[k + 1], c, worlds[i].connects[c]) && !At(worlds[k], c, worlds[i].connects[c])
  {
    k := i - 1;
    assert Enabled(worlds[k], steps[k]);
    if At(worlds[k], c, worlds[i].connects[c]) {
      k := LastMove(worlds, steps, k, c);
    }
  }

  /** The last step before `i` that moved call `d`. */
  lemma {:induction false} LastCallMove(worlds: seq<World>, steps: seq<Step>, i: nat, d: nat) returns (k: nat)
    requires IsRun(worlds, steps) && i < |worlds| && d < |worlds[i].calls|
    ensures k < i && d < |worlds[k + 1].calls| && worlds[k + 1].calls[d] == worlds[i].calls[d]
    ensures d < |worlds[k].calls| ==> worlds[k].calls[d] != worlds[i].calls[d]
  {
    k := i - 1;
    assert Enabled(worlds[k], steps[k]);
    if d < |worlds[k].calls| && worlds[k].calls[d] == worlds[i].calls[d] {
      k := LastCallMove(worlds, steps, k, d);
    }
  }

  lemma SignalBefore(worlds: seq<World>, steps: seq<Step>, i: nat, c: nat) returns (k: nat)
    requires IsRun(worlds, steps) && i < |worlds| && At(worlds[i], c, Signalled)
    ensures k < i && steps[k] == Signal(c) && At(worlds[k], c, Removed)
  {
    k := LastMove(worlds, steps, i, c);
    assert Enabled(worlds[k], steps[k]);
  }

  lemma RemoveBefore(worlds: seq<World>, steps: seq<Step>, i: nat, c: nat) returns (k: nat)
    requires IsRun(worlds, steps) && i < |worlds| && At(worlds[i], c, Removed)
    ensures k < i && steps[k] == Remove(c) && At(worlds[k], c, Published)
  {
    k := LastMove(worlds, steps, i, c);
    assert Enabled(worlds[k], steps[k]);
  }

  lemma PublishBefore(worlds: seq<World>, steps: seq<Step>, i: nat, c: nat) returns (k: nat)
    requires IsRun(worlds, steps) && i < |worlds| && At(worlds[i], c, Published)
    ensures k < i && steps[k] == Publish(c)
  {
    k := LastMove(worlds, steps, i, c);
    assert Enabled(worlds[k], steps[k]);
  }

  lemma ReturnBefore(worlds: seq<World>, steps: seq<Step>, i: nat, d: nat, g: nat) returns (k: nat)
    requires IsRun(worlds, steps) && i < |worlds| && d < |worlds[i].calls|
    requires worlds[i].calls[d] == Returned(Some(g))
    ensures k < i && steps[k] == Return(d) && At(worlds[k], g, Signalled)
  {
    k := LastCallMove(worlds, steps, i, d);
    assert Enabled(worlds[k], steps[k]);
  }

  lemma {:induction false} TakeBefore(worlds: seq<World>, steps: seq<Step>, i: nat, d: nat, g: nat) returns (k: nat)
    requires IsRun(worlds, steps) && i < |worlds| && d < |worlds[i].calls| && Pair(worlds[i].calls[d]) == Some(g)
    ensures k < i && steps[k] == Take(d) && worlds[k].ctx.slot == Some(g)
  {
    k := i - 1;
    assert Enabled(worlds[k], steps[k]);
    if d < |worlds[k].calls| && Pair(worlds[k].calls[d]) == Some(g) {
      k := TakeBefore(worlds, steps, k, d, g);
    }
  }

  lemma {:induction false} InstallBefore(worlds: seq<World>, steps: seq<Step>, i: nat, g: nat) returns (k: nat)
    requires IsRun(worlds, steps) && i < |worlds| && worlds[i].ctx.slot == Some(g)
    ensures k < i && steps[k] == Install(g)
  {
    k := i - 1;
    assert Enabled(worlds[k], steps[k]);
    if worlds[k].ctx.slot == Some(g) {
      k := InstallBefore(worlds, steps, k, g);
    }
  }

  /** The connect came first: the call took the receiver that connect had installed. */
  lemma DisconnectFollowsConnect(worlds: seq<World>, steps: seq<Step>, i: nat, d: nat, g: nat)
      returns (install: nat, take: nat)
    requires IsRun(worlds, steps) && i < |worlds| && d < |worlds[i].calls|
    requires worlds[i].calls[d] == Returned(Some(g))
    ensures install < take < i && steps[install] == Install(g) && steps[take] == Take(d)
  {
    take := TakeBefore(worlds, steps, i, d, g);
    install := InstallBefore(worlds, steps, take, g);
  }

  /**
   * A call that returned true did so after the thread of its connect had published Disconnected,
   * then emptied the handle slot, then completed the receiver.
   */
  lemma DisconnectFollowsCleanup(worlds: seq<World>, steps: seq<Step>, i: nat, d: nat, g: nat)
      returns (publish: nat, remove: nat, signal: nat, done: nat)
    requires IsRun(worlds, steps) && i < |worlds| && d < |worlds[i].calls|
    requires worlds[i].calls[d] == Returned(Some(g))
    ensures publish < remove < signal < done < i
    ensures steps[publish] == Publish(g) && steps[remove] == Remove(g) && steps[signal] == Signal(g)
    ensures steps[done] == Return(d)
  {
    done := ReturnBefore(worlds, steps, i, d, g);
    signal := SignalBefore(worlds, steps, done, g);
    remove := RemoveBefore(worlds, steps, signal, g);
    publish := PublishBefore(worlds, steps, remove, g);
  }

  /** Some step between `s` and `e` wrote the handle slot. */
  predicate Displaced(steps: seq<Step>, s: nat, e: nat)
    requires s < e <= |steps|
  {
    exists k | s < k < e :: steps[k].Store? || steps[k].Remove?
  }

  lemma {:induction false} StoredHandle(worlds: seq<World>, steps: seq<Step>, s: nat, e: nat, g: nat)
    requires IsRun(worlds, steps) && s < e <= |steps| && steps[s] == Store(g)
    ensures g < |worlds[e].connects| && !worlds[e].connects[g].Checked?
    ensures worlds[e].ctx.handle == Some(g) <==> !Displaced(steps, s, e)
  {
    assert Enabled(worlds[e - 1], steps[e - 1]);
    if e > s + 1 {
      StoredHandle(worlds, steps, s, e - 1, g);
      if steps[e - 1].Store? || steps[e - 1].Remove? {
        assert Displaced(steps, s, e);
      } else {
        assert Displaced(steps, s, e) ==> Displaced(steps, s, e - 1);
        assert Displaced(steps, s, e - 1) ==> Displaced(steps, s, e);
      }
    }
  }

  /**
   * The thread of a connect finds the VPN that connect made exactly when nothing wrote the slot
   * in between: neither another connect nor the clean-up of an older thread.
   */
  lemma ThreadFindsItsVpn(worlds: seq<World>, steps: seq<Step>, s: nat, e: nat, g: nat)
    requires IsRun(worlds, steps) && s < e < |steps| && steps[s] == Store(g) && steps[e] == Enter(g)
    ensures worlds[e].ctx.handle == Some(g) <==> !Displaced(steps, s, e)
  {
    StoredHandle(worlds, steps, s, e, g);
  }

  predicate Live(stage: Attempt) {
    !stage.Ignored? && !stage.Refused? && !stage.Removed? && !stage.Signalled?
  }

  /** Each request is accepted only once every earlier one has emptied the slot. */
  ghost predicate Serial(worlds: seq<World>, steps: seq<Step>) {
    IsRun(worlds, steps)
    && forall i {:trigger steps[i]} | 0 <= i < |steps| && steps[i].Connect? && worlds[i].ctx.state.Disconnected? ::
         forall c | 0 <= c < |worlds[i].connects| :: !Live(worlds[i].connects[c])
  }

  predicate Alone(w: World) {
    && (forall c, e | 0 <= c < e < |w.connects| :: !(Live(w.connects[c]) && Live(w.connects[e])))
    && (forall c | 0 <= c < |w.connects| ::
          w.connects[c].Stored? || w.connects[c].Announced? || w.connects[c].Spawned? ==> w.ctx.handle == Some(c))
  }

  lemma AloneConnect(w: World)
    requires Alone(w)
    requires w.ctx.state.Disconnected? ==> forall c | 0 <= c < |w.connects| :: !Live(w.connects[c])
    ensures Alone(Apply(w, Connect))
  {
  }

  lemma AloneWrite(w: World, step: Step)
    requires Alone(w) && Enabled(w, step) && (step.Store? || step.Remove?)
    ensures Alone(Apply(w, step))
  {
  }

  lemma AloneOther(w: World, step: Step)
    requires Alone(w) && Enabled(w, step) && !step.Connect? && !step.Store? && !step.Remove?
    ensures Alone(Apply(w, step))
  {
    assert Apply(w, step).ctx.handle == w.ctx.handle;
  }

  lemma AloneStep(w: World, step: Step)
    requires Alone(w) && Enabled(w, step)
    requires step.Connect? && w.ctx.state.Disconnected? ==>
               forall c | 0 <= c < |w.connects| :: !Live(w.connects[c])
    ensures Alone(Apply(w, step))
  {
    if step.Connect? {
      AloneConnect(w);
    } else if step.Store? || step.Remove? {
      AloneWrite(w, step);
    } else {
      AloneOther(w, step);
    }
  }

  lemma {:induction false} SerialIsAlone(worlds: seq<World>, steps: seq<Step>, i: nat)
    requires Serial(worlds, steps) && i < |worlds|
    ensures Alone(worlds[i])
  {
    if i > 0 {
      SerialIsAlone(worlds, steps, i - 1);
      assert Enabled(worlds[i - 1], steps[i - 1]);
      AloneStep(worlds[i - 1], steps[i - 1]);
    }
  }

  /** Then no connection is lost: every thread runs its own VPN. */
  lemma SerialConnectsRun(worlds: seq<World>, steps: seq<Step>, e: nat, g: nat)
    requires Serial(worlds, steps) && e < |steps| && steps[e] == Enter(g)
    ensures worlds[e].ctx.handle == Some(g) && At(worlds[e + 1], g, Inside)
  {
    SerialIsAlone(worlds, steps, e);
    assert Enabled(worlds[e], steps[e]);
  }

  /** A `disconnect` returned true for it. */
  ghost predicate Paired(w: World, c: nat) {
    exists d :: 0 <= d < |w.calls| && w.calls[d] == Returned(Some(c))
  }

  /** What a caller can wait for: every connect was refused or ignored, or a `disconnect` returned true for it. */
  ghost predicate SettledByCalls(w: World) {
    forall c | 0 <= c < |w.connects| :: w.connects[c].Ignored? || w.connects[c].Refused? || Paired(w, c)
  }

  /** No request is accepted before that. */
  ghost predicate WaitsForDisconnect(worlds: seq<World>, steps: seq<Step>) {
    IsRun(worlds, steps)
    && forall i {:trigger steps[i]} | 0 <= i < |steps| && steps[i].Connect? && worlds[i].ctx.state.Disconnected? ::
         SettledByCalls(worlds[i])
  }

  lemma SettledIsNotLive(w: World, c: nat)
    requires Inv(w) && SettledByCalls(w) && c < |w.connects|
    ensures !Live(w.connects[c])
  {
    if Paired(w, c) {
      var d :| 0 <= d < |w.calls| && w.calls[d] == Returned(Some(c));
      assert At(w, c, Signalled);
    }
  }

  lemma WaitingIsSerial(worlds: seq<World>, steps: seq<Step>)
    requires WaitsForDisconnect(worlds, steps)
    ensures Serial(worlds, steps)
  {
    forall i {:trigger steps[i]} | 0 <= i < |steps| && steps[i].Connect? && worlds[i].ctx.state.Disconnected?
      ensures forall c | 0 <= c < |worlds[i].connects| :: !Live(worlds[i].connects[c]) {
      RunKeepsInv(worlds, steps, i);
      assert SettledByCalls(worlds[i]);
      forall c | 0 <= c < |worlds[i].connects| ensures !Live(worlds[i].connects[c]) {
        SettledIsNotLive(worlds[i], c);
      }
    }
  }

  /**
   * Main result. A caller that waits for `disconnect` to return true before it connects again loses
   * no connection: every thread runs the VPN its own connect made.
   */
  lemma WaitingConnectsRun(worlds: seq<World>, steps: seq<Step>, e: nat, g: nat)
    requires WaitsForDisconnect(worlds, steps) && e < |steps| && steps[e] == Enter(g)
    ensures worlds[e].ctx.handle == Some(g) && At(worlds[e + 1], g, Inside)
  {
    WaitingIsSerial(worlds, steps);
    SerialConnectsRun(worlds, steps, e, g);
  }

  /** One more step. */
  lemma Extend(worlds: seq<World>, steps: seq<Step>, step: Step) returns (worlds': seq<World>, steps': seq<Step>)
    requires IsRun(worlds, steps) && Enabled(worlds[|steps|], step)
    ensures IsRun(worlds', steps') && steps' == steps + [step]
    ensures worlds' == worlds + [Apply(worlds[|steps|], step)]
  {
    worlds', steps' := worlds + [Apply(worlds[|steps|], step)], steps + [step];
    forall i {:trigger steps'[i]} | 0 <= i < |steps'|
      ensures Enabled(worlds'[i], steps'[i]) && worlds'[i + 1] == Apply(worlds'[i], steps'[i]) {
      if i < |steps| {
        assert Enabled(worlds[i], steps[i]);
      }
    }
  }

  lemma FirstThreadStarts() returns (worlds: seq<World>, steps: seq<Step>)
    ensures IsRun(worlds, steps) && worlds[|steps|] == World(Context(Connecting, Some(0), Some(0)), [Spawned], [])
  {
    worlds, steps := [START], [];
    worlds, steps := Extend(worlds, steps, Connect);
    worlds, steps := Extend(worlds, steps, Store(0));
    worlds, steps := Extend(worlds, steps, Announce(0));
    worlds, steps := Extend(worlds, steps, Install(0));
  }

  lemma FirstThreadPublishes() returns (worlds: seq<World>, steps: seq<Step>)
    ensures IsRun(worlds, steps) && worlds[|steps|] == World(Context(Disconnected, Some(0), Some(0)), [Published], [])
  {
    worlds, steps := FirstThreadStarts();
    worlds, steps := Extend(worlds, steps, Enter(0));
    worlds, steps := Extend(worlds, steps, Leave(0));
    worlds, steps := Extend(worlds, steps, Publish(0));
  }

  lemma SecondConnectStores() returns (worlds: seq<World>, steps: seq<Step>)
    ensures IsRun(worlds, steps)
        && worlds[|steps|] == World(Context(Disconnected, Some(1), Some(0)), [Published, Stored], [])
  {
    worlds, steps := FirstThreadPublishes();
    worlds, steps := Extend(worlds, steps, Connect);
    assert Enabled(worlds[|steps|], Store(1));
    worlds, steps := Extend(worlds, steps, Store(1));
  }

  /** Waiting for the state alone is not enough: the older thread then discards the newer VPN. */
  lemma CleanupCanDropNextVpn() returns (worlds: seq<World>, steps: seq<Step>, s: nat)
    ensures IsRun(worlds, steps) && s < |steps|
    ensures worlds[s].ctx.handle == Some(1) && At(worlds[s], 1, Stored)
    ensures At(worlds[|steps|], 1, Left) && steps[|steps| - 1] == Enter(1)
  {
    worlds, steps := SecondConnectStores();
    s := |steps|;
    worlds, steps := Extend(worlds, steps, Remove(0));
    worlds, steps := Extend(worlds, steps, Announce(1));
    worlds, steps := Extend(worlds, steps, Install(1));
    worlds, steps := Extend(worlds, steps, Enter(1));
  }
}

/** `VpnTaskContext`: each method is what one stretch of `connect`, its thread or `disconnect` does to it. */
module VpnContext {
  import opened Options
  import opened VpnTask

  class VpnTaskContext {
    var vpnState: VpnState
    var vpnHandle: Option<nat>
    var disconnectRx: Option<nat>

    ghost function View(): Context
      reads this
    {
      Context(vpnState, vpnHandle, disconnectRx)
    }

    constructor ()
      ensures View() == START.ctx
    {
      vpnState, vpnHandle, disconnectRx := Disconnected, None, None;
    }

    /** `connect` with nobody in between: refused, failing to build, or launched. */
    method Connect(c: nat, built: bool) returns (launched: bool)
      modifies this
      ensures launched == (built && old(View()).state.Disconnected?)
      ensures launched ==> View() == Context(VpnState.Connecting, Some(c), Some(c))
      ensures !launched ==> View() == old(View())
    {
      launched := AcceptsConnect();
      if !launched {
        return;
      }
      if !built {
        PublishBuildFailure(c);
        return false;
      }
      SaveHandle(c);
      PublishConnecting(c);
      SaveReceiver(c);
    }

    /** Its thread with nobody in between: `up` says whether the tunnel came up before the VPN returned. */
    method RunThread(c: nat, up: bool)
      modifies this`vpnState, this`vpnHandle
      ensures View() == old(View()).(state := Disconnected, handle := None)
    {
      if vpnHandle.Some? && up {
        PublishConnected(c);
      }
      PublishDisconnected(c);
      RemoveHandle(c);
    }

    /** `disconnect` up to its wait, or to its end when there is no receiver. */
    method Disconnect(d: nat) returns (receiver: Option<nat>)
      modifies this
      ensures receiver == old(View()).slot && View().slot.None? && View().handle == old(View()).handle
      ensures View().state == if receiver.None? then Disconnected
                              else if old(View()).handle.Some? then Disconnecting else old(View()).state
    {
      receiver := TakeReceiver(d);
      if receiver.Some? {
        var _ := BeginCancel(d);
      } else {
        RefuseDisconnect(d);
      }
    }

    /** A session nobody else disturbs: the receiver is the session's own, and the context ends as it began. */
    method UndisturbedSession(c: nat, d: nat, up: bool) returns (receiver: Option<nat>)
      requires View() == START.ctx
      modifies this
      ensures receiver == Some(c) && View() == START.ctx
    {
      var launched := Connect(c, true);
      receiver := Disconnect(d);
      RunThread(c, up);
    }

    /** The guard of `connect`. */
    method AcceptsConnect() returns (accepted: bool)
      ensures accepted == View().state.Disconnected?
    {
      accepted := vpnState.Disconnected?;
    }

    method PublishBuildFailure(c: nat)
      modifies this`vpnState
      ensures View() == Effect(old(View()), BuildFails(c))
    {
      vpnState := Disconnected;
    }

    /** Under the handle's write lock. */
    method SaveHandle(c: nat)
      modifies this`vpnHandle
      ensures View() == Effect(old(View()), Store(c))
    {
      vpnHandle := Some(c);
    }

    method PublishConnecting(c: nat)
      modifies this`vpnState
      ensures View() == Effect(old(View()), Announce(c))
    {
      vpnState := Connecting;
    }

    /** Under the receiver's write lock. */
    method SaveReceiver(c: nat)
      modifies this`disconnectRx
      ensures View() == Effect(old(View()), Install(c))
    {
      disconnectRx := Some(c);
    }

    method PublishConnected(c: nat)
      modifies this`vpnState
      ensures View() == Effect(old(View()), Report(c))
    {
      vpnState := Connected;
    }

    method PublishDisconnected(c: nat)
      modifies this`vpnState
      ensures View() == Effect(old(View()), Publish(c))
    {
      vpnState := Disconnected;
    }

    method RemoveHandle(c: nat)
      modifies this`vpnHandle
      ensures View() == Effect(old(View()), Remove(c))
    {
      vpnHandle := None;
    }

    /** The start of `disconnect`: the receiver moves out of its slot. */
    method TakeReceiver(d: nat) returns (receiver: Option<nat>)
      modifies this`disconnectRx
      ensures View() == Effect(old(View()), Take(d)) && receiver == old(disconnectRx)
    {
      receiver := disconnectRx;
      disconnectRx := None;
    }

    /** Under the handle's read lock: the VPN to cancel, announced when there is one. */
    method BeginCancel(d: nat) returns (vpn: Option<nat>)
      modifies this`vpnState
      ensures View() == Effect(old(View()), Look(d)) && vpn == old(vpnHandle)
    {
      vpn := vpnHandle;
      if vpn.Some? {
        vpnState := Disconnecting;
      }
    }

    method RefuseDisconnect(d: nat)
      modifies this`vpnState
      ensures View() == Effect(old(View()), Refuse(d))
    {
      vpnState := Disconnected;
    }
  }
}

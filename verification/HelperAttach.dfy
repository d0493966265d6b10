/** The app side of the helper connection: HelperProcessRunner.swift and its `HelperClient`. */
module RunnerState {
  import opened Options

  /** The runner actor's fields and the client's two handlers. */
  datatype Runner = Runner(
    running: bool,
    waiting: bool,                 // `exitContinuation` is set
    pending: Option<int>,          // `pendingResult`
    onLine: bool,
    onExit: bool)

  const IDLE := Runner(false, false, None, false, false)

  /** Handlers go in before anything can produce output. */
  function Begin(r: Runner): Runner {
    r.(running := true, pending := None, onLine := true, onExit := true)
  }

  /** Give up on a tunnel that is not there. */
  function Abandon(r: Runner): Runner {
    r.(running := false, onLine := false, onExit := false)
  }

  function Finish(r: Runner, code: int): Runner {
    if !r.running then r else
      Runner(false, false, if r.waiting then r.pending else Some(code), false, false)
  }

  predicate Resumes(r: Runner) {
    r.running && r.waiting
  }

  function AwaitExit(r: Runner): Runner {
    if r.pending.Some? then r.(pending := None) else r.(waiting := true)
  }
}

module HelperRunner {
  import opened Options
  import opened RunnerState

  class HelperProcessRunner {
    var running: bool
    var exitContinuation: bool
    var pendingResult: Option<int>
    var onLine: bool
    var onExit: bool

    ghost function View(): Runner
      reads this
    {
      Runner(running, exitContinuation, pendingResult, onLine, onExit)
    }

    constructor ()
      ensures View() == IDLE
    {
      running, exitContinuation, pendingResult, onLine, onExit := false, false, None, false, false;
    }

    method Begin()
      modifies this
      ensures View() == RunnerState.Begin(old(View()))
    {
      running := true;
      pendingResult := None;
      onLine, onExit := true, true;
    }

    method Abandon()
      modifies this
      ensures View() == RunnerState.Abandon(old(View()))
    {
      running := false;
      onLine, onExit := false, false;
    }

    /** Settle `run`; harmless if nothing is running. A stored continuation is resumed. */
    method Finish(code: int) returns (resumed: Option<int>)
      modifies this
      ensures View() == RunnerState.Finish(old(View()), code)
      ensures resumed == if Resumes(old(View())) then Some(code) else None
    {
      resumed := None;
      if !running { return; }
      running := false;
      onLine, onExit := false, false;
      if exitContinuation {
        exitContinuation := false;
        resumed := Some(code);
      } else {
        pendingResult := Some(code);
      }
    }

    /** The result that is already there, or a suspension. */
    method AwaitExit() returns (result: Option<int>)
      modifies this
      ensures View() == RunnerState.AwaitExit(old(View()))
      ensures result == old(pendingResult)
    {
      result := pendingResult;
      if pendingResult.Some? {
        pendingResult := None;
      } else {
        exitContinuation := true;
      }
    }

    /** `didExit`: the handler is taken, so it runs once. */
    method TakeExitHandler() returns (present: bool)
      modifies this`onExit
      ensures present == old(onExit)
      ensures View() == old(View()).(onExit := false)
    {
      present := onExit;
      onExit := false;
    }
  }
}

/**
 * Starting a tunnel through the helper, or attaching to the one it runs: helper threads, the
 * in-order connection, the app's XPC thread and the runner actor, in any interleaving. One
 * tunnel; lines are known by their position in everything recorded.
 */
module AttachRuns {
  import opened Options
  import opened RunnerState

  datatype Message = Line(k: nat) | Exit(code: int) | Reply

  datatype Mode = Start | Attach

  /**
   * What the helper answers. To `status`: whether a tunnel runs, the history from line `lo` up to
   * `hi`, and whether the app can decode that. To a start request: whether it was admitted.
   */
  datatype Snapshot = Snapshot(running: bool, lo: nat, hi: nat, readable: bool)

  datatype ReplyStage = NotAsked | Asked | Snapped | Sent | Arrived | Failed | Consumed

  datatype Phase =
    | NotStarted
    | AwaitingReply
    | Replaying(next: nat)
    | Suspended
    | Returned(code: int)
    | Threw

  datatype World = World(
    mode: Mode,
    // helper
    recorded: nat,
    running: bool,
    observed: bool,
    sending: set<nat>,              // recorded, observers not yet called
    exiting: Option<int>,           // finished, observers not yet called
    exitCode: Option<int>,
    // connection
    channel: seq<Message>,
    reply: ReplyStage,
    snapshot: Snapshot,
    lost: bool,
    // app
    runner: Runner,
    phase: Phase,
    exitTask: Option<int>,          // `finish` queued by the exit handler
    lossTask: bool,                 // `connectionLost` queued
    delivered: set<nat>,
    settled: nat)                   // times `run` was given a result

  predicate IsStart(w: World) {
    && !w.observed && w.sending == {} && w.exiting.None?
    && (w.mode.Attach? ==> (w.running <==> w.exitCode.None?))
    && (w.mode.Start? ==> !w.running && w.exitCode.None? && w.recorded == 0)
    && w.channel == [] && w.reply.NotAsked? && !w.lost
    && w.runner == IDLE && w.phase.NotStarted? && w.exitTask.None? && !w.lossTask
    && w.delivered == {} && w.settled == 0
  }

  datatype Step =
    | Connect                       // the version exchange: the helper adds its observer
    | RecordLine
    | SendLine(k: nat)
    | HelperFinishes(code: int)
    | SendExit
    | BeginRun                      // handlers set, then `status` or the start requested
    | Answer(ok: bool)              // attach: the status can be decoded; start: the request is admitted
    | SendReply
    | Receive                       // the app's XPC thread takes the next message
    | ResumeRun
    | ReplayStep
    | RunExitTask
    | RunLossTask
    | LoseConnection

  predicate ActorFree(w: World) {
    !w.phase.Replaying?
  }

  predicate Enabled(w: World, step: Step) {
    match step
    case Connect => !w.observed && !w.lost
    case RecordLine => w.running
    case SendLine(k) => k in w.sending
    // ProcessRunning.run returns only after every onLine call it made.
    case HelperFinishes(_) => w.running && w.sending == {}
    case SendExit => w.exiting.Some?
    case BeginRun => w.phase.NotStarted? && w.observed
    case Answer(_) => w.reply.Asked?
    case SendReply => w.reply.Snapped?
    case Receive => w.channel != []
    case ResumeRun => w.phase.AwaitingReply? && (w.reply.Arrived? || w.reply.Failed?)
    case ReplayStep => w.phase.Replaying?
    case RunExitTask => w.exitTask.Some? && ActorFree(w)
    case RunLossTask => w.lossTask && ActorFree(w)
    case LoseConnection => w.observed
  }

  function ReceiveFirst(w: World): World
    requires w.channel != []
  {
    var rest := w.(channel := w.channel[1..]);
    match w.channel[0]
    case Line(k) => if w.runner.onLine then rest.(delivered := w.delivered + {k}) else rest
    case Exit(code) =>
      if w.runner.onExit then rest.(runner := w.runner.(onExit := false), exitTask := Some(code)) else rest
    case Reply => rest.(reply := Arrived)
  }

  /** The helper answers; an admitted start begins the tunnel. */
  function Answered(w: World, ok: bool, limit: nat): World {
    match w.mode
    case Attach =>
      var lo := if w.recorded <= limit then 0 else w.recorded - limit;
      w.(reply := Snapped, snapshot := Snapshot(w.running, lo, w.recorded, ok))
    case Start =>
      var admitted := ok && !w.running;
      w.(reply := Snapped, running := w.running || admitted,
         snapshot := Snapshot(admitted, w.recorded, w.recorded, true))
  }

  /** `run` resumed by its call. A start that fails releases the runner, an attach does not. */
  function Resume(w: World): World {
    var w' := w.(reply := Consumed);
    if w.reply.Failed? then w.(phase := Threw, runner := if w.mode.Start? then Abandon(w.runner) else w.runner)
    else if !w.snapshot.readable then w'.(phase := Threw)
    else if !w.snapshot.running then w'.(runner := Abandon(w.runner), phase := Threw)
    else w'.(phase := Replaying(w.snapshot.lo))
  }

  /** One line of the replay, and after the last one `awaitExit`. */
  function Replay(w: World): World
    requires w.phase.Replaying?
  {
    if w.phase.next < w.snapshot.hi then
      w.(delivered := w.delivered + {w.phase.next}, phase := Replaying(w.phase.next + 1))
    else if w.runner.pending.Some? then
      w.(runner := AwaitExit(w.runner), phase := Returned(w.runner.pending.value), settled := w.settled + 1)
    else w.(runner := AwaitExit(w.runner), phase := Suspended)
  }

  function FinishWith(w: World, code: int): World {
    var w' := w.(runner := Finish(w.runner, code));
    if Resumes(w.runner) then w'.(phase := Returned(code), settled := w.settled + 1) else w'
  }

  function Apply(w: World, step: Step, limit: nat): World
    requires Enabled(w, step)
  {
    match step
    case Connect => w.(observed := true)
    case RecordLine =>
      w.(recorded := w.recorded + 1, sending := if w.observed then w.sending + {w.recorded} else w.sending)
    case SendLine(k) => w.(sending := w.sending - {k}, channel := w.channel + [Line(k)])
    case HelperFinishes(code) =>
      w.(running := false, exitCode := Some(code), exiting := if w.observed then Some(code) else None)
    case SendExit => w.(exiting := None, channel := w.channel + [Exit(w.exiting.value)])
    case BeginRun =>
      w.(runner := Begin(w.runner), phase := AwaitingReply, reply := Asked)
    case Answer(ok) => Answered(w, ok, limit)
    case SendReply => w.(reply := Sent, channel := w.channel + [Reply])
    case Receive => ReceiveFirst(w)
    case ResumeRun => Resume(w)
    case ReplayStep => Replay(w)
    case RunExitTask => FinishWith(w, w.exitTask.value).(exitTask := None)
    case RunLossTask => FinishWith(w, -1).(lossTask := false)
    case LoseConnection =>
      w.(lost := true, observed := false, sending := {}, exiting := None, channel := [], lossTask := true,
         reply := if w.reply.Asked? || w.reply.Snapped? || w.reply.Sent? then Failed else w.reply)
  }

  ghost predicate IsRun(worlds: seq<World>, steps: seq<Step>, limit: nat) {
    && |worlds| == |steps| + 1
    && IsStart(worlds[0])
    && forall i {:trigger steps[i]} | 0 <= i < |steps| ::
         Enabled(worlds[i], steps[i]) && worlds[i + 1] == Apply(worlds[i], steps[i], limit)
  }

  predicate Taken(w: World) {
    w.reply.Snapped? || w.reply.Sent? || w.reply.Arrived? || w.reply.Consumed?
  }

  /** The attach in question: a snapshot of a running tunnel, on a connection that holds. */
  predicate Attached(w: World) {
    Taken(w) && w.snapshot.running && !w.lost
  }

  predicate NoLines(channel: seq<Message>) {
    forall i | 0 <= i < |channel| :: !channel[i].Line?
  }

  predicate NoExit(channel: seq<Message>) {
    forall i | 0 <= i < |channel| :: !channel[i].Exit?
  }

  /** The exit is announced once, with its code, and no line follows it. */
  predicate ExitLast(channel: seq<Message>, code: Option<int>) {
    && (forall i | 0 <= i < |channel| :: channel[i].Exit? ==> code == Some(channel[i].code))
    && (forall i, j | 0 <= i < j < |channel| :: channel[i].Exit? ==> !channel[j].Line? && !channel[j].Exit?)
  }

  function Replies(channel: seq<Message>): nat {
    if channel == [] then 0 else (if channel[0].Reply? then 1 else 0) + Replies(channel[1..])
  }

  lemma {:induction false} RepliesAppend(channel: seq<Message>, m: Message)
    ensures Replies(channel + [m]) == Replies(channel) + if m.Reply? then 1 else 0
  {
    if channel == [] {
      assert channel + [m] == [m];
    } else {
      assert (channel + [m])[1..] == channel[1..] + [m];
      RepliesAppend(channel[1..], m);
    }
  }

  /** `run`, its continuation and its pending result. */
  predicate RunnerInv(w: World) {
    var r := w.runner;
    && (r.onLine <==> r.running)
    && (r.onExit ==> r.running)
    && (r.waiting <==> w.phase.Suspended?)
    && (r.running ==> r.pending.None?)
    && (w.phase.NotStarted? ==> r == IDLE)
    && (w.phase.AwaitingReply? || w.phase.Replaying? ==> r.running || r.pending.Some?)
    && (w.phase.Suspended? ==> r.running)
    && (w.phase.Returned? ==> !r.running)
    && w.settled == (if w.phase.Returned? then 1 else 0)
    && (r.running && w.exitTask.None? ==> r.onExit)
    && (w.lossTask ==> w.lost)
    && (w.lost && !w.lossTask ==> !w.runner.running)
  }

  predicate ReplyInv(w: World) {
    && (w.phase.NotStarted? <==> w.reply.NotAsked?)
    && (w.phase.AwaitingReply? ==> !w.reply.Consumed?)
    && (w.reply.Asked? || w.reply.Snapped? || w.reply.Sent? || w.reply.Arrived? ==> w.phase.AwaitingReply?)
    && (Taken(w) ==> w.snapshot.lo <= w.snapshot.hi <= w.recorded && (w.running ==> w.snapshot.running))
    && (w.phase.Replaying? || w.phase.Suspended? || w.phase.Returned? ==>
          w.reply.Consumed? && w.snapshot.running && w.snapshot.readable)
    && (w.phase.Replaying? ==> w.snapshot.lo <= w.phase.next <= w.snapshot.hi)
    && (w.phase.Threw? && w.reply.Consumed? && w.snapshot.readable ==> !w.snapshot.running && !w.runner.running)
    && (!w.phase.NotStarted? && !w.lost ==> w.observed)
    && (w.lost ==> !w.observed)
    && (w.reply.Failed? ==> w.lost)
    && Replies(w.channel) == (if w.reply.Sent? then 1 else 0)
    && (w.mode.Start? && w.phase.Threw? ==> !w.runner.running)
    && (w.mode.Start? && Taken(w) ==> w.snapshot.hi == 0 && w.snapshot.readable)
  }

  /** A start that the helper has not admitted. */
  predicate Unlaunched(w: World) {
    w.mode.Start? && w.recorded == 0 && NoLines(w.channel) && !(Taken(w) && w.snapshot.running)
  }

  /** Where the exit is, from the helper's end to the actor's. */
  predicate ExitInv(w: World) {
    && (w.running ==> w.exitCode.None?)
    && (!w.running && w.exitCode.None? ==> Unlaunched(w))
    && (w.mode.Start? && (w.reply.NotAsked? || w.reply.Asked?) ==> !w.running && w.exitCode.None?)
    && (!w.running ==> w.sending == {})
    && (w.exiting.Some? ==> w.exiting == w.exitCode && NoExit(w.channel) && w.exitTask.None?)
    && ExitLast(w.channel, w.exitCode)
    && (w.exitTask.Some? ==> w.exitTask == w.exitCode && NoLines(w.channel) && NoExit(w.channel))
    && (Attached(w) && !w.running && w.runner.running ==>
          w.exiting.Some? || w.exitTask.Some? || !NoExit(w.channel))
    && (Attached(w) && !w.runner.running ==> !w.running && NoLines(w.channel))
    && (w.runner.pending.Some? && !w.lost ==> w.runner.pending == w.exitCode)
    && (w.phase.Returned? && !w.lost ==> w.exitCode == Some(w.phase.code))
  }

  /** No line from the snapshot on is missing. */
  predicate LineInv(w: World) {
    && (Attached(w) ==>
          forall k | w.snapshot.hi <= k < w.recorded :: k in w.sending || Line(k) in w.channel || k in w.delivered)
    && (w.phase.Replaying? ==> forall k | w.snapshot.lo <= k < w.phase.next :: k in w.delivered)
    && (w.phase.Suspended? || w.phase.Returned? ==> forall k | w.snapshot.lo <= k < w.snapshot.hi :: k in w.delivered)
  }

  predicate Inv(w: World) {
    RunnerInv(w) && ReplyInv(w) && ExitInv(w) && LineInv(w)
  }

  lemma ConnectKeeps(w: World, limit: nat)
    requires Inv(w) && Enabled(w, Connect)
    ensures Inv(Apply(w, Connect, limit))
  {
  }

  lemma RecordLineKeeps(w: World, limit: nat)
    requires Inv(w) && Enabled(w, RecordLine)
    ensures Inv(Apply(w, RecordLine, limit))
  {
  }

  lemma SendLineKeeps(w: World, k: nat, limit: nat)
    requires Inv(w) && Enabled(w, SendLine(k))
    ensures Inv(Apply(w, SendLine(k), limit))
  {
    RepliesAppend(w.channel, Line(k));
    forall i | w.snapshot.hi <= i < w.recorded && Line(i) in w.channel
      ensures Line(i) in w.channel + [Line(k)] {
    }
  }

  lemma HelperFinishesKeeps(w: World, code: int, limit: nat)
    requires Inv(w) && Enabled(w, HelperFinishes(code))
    ensures Inv(Apply(w, HelperFinishes(code), limit))
  {
  }

  lemma SendExitKeeps(w: World, limit: nat)
    requires Inv(w) && Enabled(w, SendExit)
    ensures Inv(Apply(w, SendExit, limit))
  {
    RepliesAppend(w.channel, Exit(w.exiting.value));
    assert (w.channel + [Exit(w.exiting.value)])[|w.channel|].Exit?;
  }

  lemma BeginRunKeeps(w: World, limit: nat)
    requires Inv(w) && Enabled(w, BeginRun)
    ensures Inv(Apply(w, BeginRun, limit))
  {
  }

  lemma StatusAnswerKeeps(w: World, ok: bool, limit: nat)
    requires Inv(w) && Enabled(w, Answer(ok)) && w.mode.Attach?
    ensures Inv(Apply(w, Answer(ok), limit))
  {
  }

  lemma StartAnswerKeeps(w: World, ok: bool, limit: nat)
    requires Inv(w) && Enabled(w, Answer(ok)) && w.mode.Start?
    ensures Inv(Apply(w, Answer(ok), limit))
  {
  }

  lemma SendReplyKeeps(w: World, limit: nat)
    requires Inv(w) && Enabled(w, SendReply)
    ensures Inv(Apply(w, SendReply, limit))
  {
    RepliesAppend(w.channel, Reply);
    forall i | 0 <= i < |w.channel| ensures (w.channel + [Reply])[i] == w.channel[i] {
    }
  }

  lemma ResumeRunKeepsRunner(w: World, limit: nat)
    requires Inv(w) && Enabled(w, ResumeRun)
    ensures RunnerInv(Apply(w, ResumeRun, limit))
  {
  }

  lemma ResumeRunKeepsReply(w: World, limit: nat)
    requires Inv(w) && Enabled(w, ResumeRun)
    ensures ReplyInv(Apply(w, ResumeRun, limit))
  {
  }

  lemma ResumeRunKeepsExit(w: World, limit: nat)
    requires Inv(w) && Enabled(w, ResumeRun)
    ensures ExitInv(Apply(w, ResumeRun, limit))
  {
  }

  lemma ResumeRunKeepsLines(w: World, limit: nat)
    requires Inv(w) && Enabled(w, ResumeRun)
    ensures LineInv(Apply(w, ResumeRun, limit))
  {
  }

  lemma ReplayStepKeepsActor(w: World, limit: nat)
    requires Inv(w) && Enabled(w, ReplayStep)
    ensures RunnerInv(Apply(w, ReplayStep, limit)) && ReplyInv(Apply(w, ReplayStep, limit))
  {
  }

  lemma ReplayStepKeepsTraffic(w: World, limit: nat)
    requires Inv(w) && Enabled(w, ReplayStep)
    ensures ExitInv(Apply(w, ReplayStep, limit)) && LineInv(Apply(w, ReplayStep, limit))
  {
  }

  lemma RunExitTaskKeeps(w: World, limit: nat)
    requires Inv(w) && Enabled(w, RunExitTask)
    ensures Inv(Apply(w, RunExitTask, limit))
  {
  }

  lemma RunLossTaskKeeps(w: World, limit: nat)
    requires Inv(w) && Enabled(w, RunLossTask)
    ensures Inv(Apply(w, RunLossTask, limit))
  {
  }

  lemma LoseConnectionKeeps(w: World, limit: nat)
    requires Inv(w) && Enabled(w, LoseConnection)
    ensures Inv(Apply(w, LoseConnection, limit))
  {
  }

  lemma ReceiveLineKeepsActor(w: World, limit: nat)
    requires Inv(w) && Enabled(w, Receive) && w.channel[0].Line?
    ensures RunnerInv(Apply(w, Receive, limit)) && ReplyInv(Apply(w, Receive, limit))
  {
  }

  lemma ReceiveLineKeepsTraffic(w: World, limit: nat)
    requires Inv(w) && Enabled(w, Receive) && w.channel[0].Line?
    ensures ExitInv(Apply(w, Receive, limit)) && LineInv(Apply(w, Receive, limit))
  {
  }

  lemma ReceiveExitKeepsActor(w: World, limit: nat)
    requires Inv(w) && Enabled(w, Receive) && w.channel[0].Exit?
    ensures RunnerInv(Apply(w, Receive, limit)) && ReplyInv(Apply(w, Receive, limit))
  {
  }

  lemma ReceiveExitKeepsTraffic(w: World, limit: nat)
    requires Inv(w) && Enabled(w, Receive) && w.channel[0].Exit?
    ensures ExitInv(Apply(w, Receive, limit)) && LineInv(Apply(w, Receive, limit))
  {
  }

  lemma ReceiveReplyKeepsActor(w: World, limit: nat)
    requires Inv(w) && Enabled(w, Receive) && w.channel[0].Reply?
    ensures RunnerInv(Apply(w, Receive, limit)) && ReplyInv(Apply(w, Receive, limit))
  {
  }

  lemma ReceiveReplyKeepsTraffic(w: World, limit: nat)
    requires Inv(w) && Enabled(w, Receive) && w.channel[0].Reply?
    ensures ExitInv(Apply(w, Receive, limit)) && LineInv(Apply(w, Receive, limit))
  {
  }

  lemma StepKeepsInv(w: World, step: Step, limit: nat)
    requires Inv(w) && Enabled(w, step)
    ensures Inv(Apply(w, step, limit))
  {
    match step
    case Connect => ConnectKeeps(w, limit);
    case RecordLine => RecordLineKeeps(w, limit);
    case SendLine(k) => SendLineKeeps(w, k, limit);
    case HelperFinishes(code) => HelperFinishesKeeps(w, code, limit);
    case SendExit => SendExitKeeps(w, limit);
    case BeginRun => BeginRunKeeps(w, limit);
    case Answer(ok) =>
      if w.mode.Attach? {
        StatusAnswerKeeps(w, ok, limit);
      } else {
        StartAnswerKeeps(w, ok, limit);
      }
    case SendReply => SendReplyKeeps(w, limit);
    case Receive =>
      match w.channel[0] {
        case Line(_) => ReceiveLineKeepsActor(w, limit); ReceiveLineKeepsTraffic(w, limit);
        case Exit(_) => ReceiveExitKeepsActor(w, limit); ReceiveExitKeepsTraffic(w, limit);
        case Reply => ReceiveReplyKeepsActor(w, limit); ReceiveReplyKeepsTraffic(w, limit);
      }
    case ResumeRun =>
      ResumeRunKeepsRunner(w, limit);
      ResumeRunKeepsReply(w, limit);
      ResumeRunKeepsExit(w, limit);
      ResumeRunKeepsLines(w, limit);
    case ReplayStep => ReplayStepKeepsActor(w, limit); ReplayStepKeepsTraffic(w, limit);
    case RunExitTask => RunExitTaskKeeps(w, limit);
    case RunLossTask => RunLossTaskKeeps(w, limit);
    case LoseConnection => LoseConnectionKeeps(w, limit);
  }

  lemma {:induction false} RunKeepsInv(worlds: seq<World>, steps: seq<Step>, limit: nat, i: nat)
    requires IsRun(worlds, steps, limit) && i < |worlds|
    ensures Inv(worlds[i])
  {
    if i > 0 {
      RunKeepsInv(worlds, steps, limit, i - 1);
      assert Enabled(worlds[i - 1], steps[i - 1]);
      StepKeepsInv(worlds[i - 1], steps[i - 1], limit);
    }
  }

  /** A result is the helper's exit code, or -1 when the connection was lost. */
  predicate ResultOf(w: World, code: int) {
    w.exitCode == Some(code) || (w.lost && code == -1)
  }

  predicate ResultInv(w: World) {
    && (w.runner.pending.Some? ==> ResultOf(w, w.runner.pending.value))
    && (w.phase.Returned? ==> ResultOf(w, w.phase.code))
  }

  lemma FinishKeepsResult(w: World, step: Step, limit: nat)
    requires RunnerInv(w) && ExitInv(w) && ResultInv(w) && Enabled(w, step)
    requires step.RunExitTask? || step.RunLossTask? || step.HelperFinishes? || step.LoseConnection?
    ensures ResultInv(Apply(w, step, limit))
  {
  }

  lemma ResumeKeepsResult(w: World, limit: nat)
    requires ResultInv(w) && Enabled(w, ResumeRun)
    ensures ResultInv(Apply(w, ResumeRun, limit))
  {
  }

  lemma ReplayKeepsResult(w: World, limit: nat)
    requires ResultInv(w) && Enabled(w, ReplayStep)
    ensures ResultInv(Apply(w, ReplayStep, limit))
  {
  }

  lemma MessageKeepsResult(w: World, limit: nat)
    requires ResultInv(w) && Enabled(w, Receive)
    ensures ResultInv(Apply(w, Receive, limit))
  {
  }

  lemma {:induction false} ResultsStand(worlds: seq<World>, steps: seq<Step>, limit: nat, i: nat)
    requires IsRun(worlds, steps, limit) && i < |worlds|
    ensures ResultInv(worlds[i])
  {
    if i > 0 {
      ResultsStand(worlds, steps, limit, i - 1);
      RunKeepsInv(worlds, steps, limit, i - 1);
      var w, step := worlds[i - 1], steps[i - 1];
      assert Enabled(w, step);
      if step.RunExitTask? || step.RunLossTask? || step.HelperFinishes? || step.LoseConnection? {
        FinishKeepsResult(w, step, limit);
      } else if step.ResumeRun? {
        ResumeKeepsResult(w, limit);
      } else if step.ReplayStep? {
        ReplayKeepsResult(w, limit);
      } else if step.Receive? {
        MessageKeepsResult(w, limit);
      }
    }
  }

  /**
   * `run` is given a result at most once, and only when it has none yet: the helper's exit code, or
   * -1 on a connection that was lost.
   */
  lemma SettledAtMostOnce(worlds: seq<World>, steps: seq<Step>, limit: nat, i: nat)
    requires IsRun(worlds, steps, limit) && i < |worlds|
    ensures worlds[i].settled == if worlds[i].phase.Returned? then 1 else 0
    ensures worlds[i].runner.waiting <==> worlds[i].phase.Suspended?
    ensures worlds[i].phase.Returned? && !worlds[i].lost ==> worlds[i].exitCode == Some(worlds[i].phase.code)
    ensures worlds[i].phase.Returned? && worlds[i].lost ==>
              worlds[i].phase.code == -1 || worlds[i].exitCode == Some(worlds[i].phase.code)
  {
    RunKeepsInv(worlds, steps, limit, i);
    ResultsStand(worlds, steps, limit, i);
  }

  /** When `run` returns, every line from the start of the replayed history on has been handed over. */
  lemma NoGap(worlds: seq<World>, steps: seq<Step>, limit: nat, i: nat, k: nat)
    requires IsRun(worlds, steps, limit) && i < |worlds|
    requires worlds[i].phase.Returned? && !worlds[i].lost
    requires worlds[i].snapshot.lo <= k < worlds[i].recorded
    ensures k in worlds[i].delivered
  {
    RunKeepsInv(worlds, steps, limit, i);
    assert Attached(worlds[i]);
  }

  /** A start delivers every line of the tunnel it began; if it fails, it releases the runner. */
  lemma StartDeliversAll(worlds: seq<World>, steps: seq<Step>, limit: nat, i: nat, k: nat)
    requires IsRun(worlds, steps, limit) && i < |worlds| && worlds[i].mode.Start?
    ensures worlds[i].phase.Returned? && !worlds[i].lost && k < worlds[i].recorded ==> k in worlds[i].delivered
    ensures worlds[i].phase.Threw? ==> !worlds[i].runner.running && !worlds[i].runner.onLine && !worlds[i].runner.onExit
  {
    RunKeepsInv(worlds, steps, limit, i);
    if worlds[i].phase.Returned? && !worlds[i].lost && k < worlds[i].recorded {
      NoGap(worlds, steps, limit, i, k);
    }
  }

  /** Steps the two programs take by themselves. */
  predicate Internal(step: Step) {
    step.SendLine? || step.SendExit? || step.Answer? || step.SendReply? || step.Receive? || step.ResumeRun?
    || step.ReplayStep? || step.RunExitTask? || step.RunLossTask?
  }

  function Work(w: World): nat {
    3 * |w.sending| + (if w.exiting.Some? then 3 else 0) + 2 * |w.channel|
    + (if w.exitTask.Some? then 1 else 0) + (if w.lossTask then 1 else 0)
    + (match w.reply case Asked => 5 case Snapped => 4 case Arrived => 1 case _ => 0)
    + (match w.phase
       case AwaitingReply => w.recorded + 2
       case Replaying(next) => 1 + if next < w.snapshot.hi then w.snapshot.hi - next else 0
       case _ => 0)
  }

  lemma HelperStepsRunOut(w: World, step: Step, limit: nat)
    requires Inv(w) && Enabled(w, step)
    requires step.SendLine? || step.SendExit? || step.Answer? || step.SendReply?
    ensures Work(Apply(w, step, limit)) < Work(w)
  {
  }

  lemma MessagesRunOut(w: World, limit: nat)
    requires Inv(w) && Enabled(w, Receive)
    ensures Work(Apply(w, Receive, limit)) < Work(w)
  {
    assert w.channel[0].Exit? ==> w.exitTask.None?;
  }

  lemma ResumeRunsOut(w: World, limit: nat)
    requires Inv(w) && Enabled(w, ResumeRun)
    ensures Work(Apply(w, ResumeRun, limit)) < Work(w)
  {
  }

  lemma ReplayRunsOut(w: World, limit: nat)
    requires Inv(w) && Enabled(w, ReplayStep)
    ensures Work(Apply(w, ReplayStep, limit)) < Work(w)
  {
  }

  lemma FinishStepsRunOut(w: World, step: Step, limit: nat)
    requires Inv(w) && Enabled(w, step)
    requires step.RunExitTask? || step.RunLossTask?
    ensures Work(Apply(w, step, limit)) < Work(w)
  {
  }

  /** They cannot go on for ever. */
  lemma InternalStepsRunOut(w: World, step: Step, limit: nat)
    requires Inv(w) && Enabled(w, step) && Internal(step)
    ensures Work(Apply(w, step, limit)) < Work(w)
  {
    if step.Receive? {
      MessagesRunOut(w, limit);
    } else if step.ResumeRun? {
      ResumeRunsOut(w, limit);
    } else if step.ReplayStep? {
      ReplayRunsOut(w, limit);
    } else if step.RunExitTask? || step.RunLossTask? {
      FinishStepsRunOut(w, step, limit);
    } else {
      HelperStepsRunOut(w, step, limit);
    }
  }

  predicate Quiet(w: World) {
    && w.sending == {} && w.exiting.None? && !w.reply.Asked? && !w.reply.Snapped? && w.channel == []
    && !(w.phase.AwaitingReply? && (w.reply.Arrived? || w.reply.Failed?)) && !w.phase.Replaying?
    && w.exitTask.None? && !w.lossTask
  }

  lemma QuietIffNothingEnabled(w: World)
    ensures Quiet(w) <==> forall step: Step :: Internal(step) ==> !Enabled(w, step)
  {
    if !Quiet(w) {
      if w.sending != {} {
        var k :| k in w.sending;
        assert Enabled(w, SendLine(k));
      } else if w.reply.Asked? {
        assert Enabled(w, Answer(true));
      } else if w.phase.Replaying? {
        assert Enabled(w, ReplayStep);
      } else {
        assert Enabled(w, SendExit) || Enabled(w, SendReply) || Enabled(w, Receive) || Enabled(w, ResumeRun)
            || Enabled(w, RunExitTask) || Enabled(w, RunLossTask);
      }
    }
  }

  /** While the tunnel stays up: once nothing is under way, every line so far has been handed over. */
  lemma NothingHeldBack(worlds: seq<World>, steps: seq<Step>, limit: nat, i: nat, k: nat)
    requires IsRun(worlds, steps, limit) && i < |worlds|
    requires worlds[i].phase.Suspended? && !worlds[i].lost && Quiet(worlds[i])
    requires worlds[i].snapshot.lo <= k < worlds[i].recorded
    ensures k in worlds[i].delivered
  {
    RunKeepsInv(worlds, steps, limit, i);
    assert Attached(worlds[i]);
  }

  lemma AnswerIsSnapped(w: World, step: Step, limit: nat)
    requires Enabled(w, step) && step.Answer?
    ensures Apply(w, step, limit).reply.Snapped? && Apply(w, step, limit).mode == w.mode
  {
  }

  /** The helper has answered, or the connection was lost before it could. */
  predicate Past(w: World) {
    !w.reply.NotAsked? && !w.reply.Asked?
  }

  predicate SameAnswer(w: World, w': World) {
    w'.snapshot == w.snapshot && w'.mode == w.mode && Past(w')
  }

  lemma MessageKeepsAnswer(w: World, limit: nat)
    requires Past(w) && Enabled(w, Receive)
    ensures SameAnswer(w, Apply(w, Receive, limit))
  {
  }

  lemma RunKeepsAnswer(w: World, step: Step, limit: nat)
    requires Past(w) && Enabled(w, step) && (step.ResumeRun? || step.ReplayStep?)
    ensures SameAnswer(w, Apply(w, step, limit))
  {
  }

  lemma FinishKeepsAnswer(w: World, step: Step, limit: nat)
    requires Past(w) && Enabled(w, step) && (step.RunExitTask? || step.RunLossTask?)
    ensures SameAnswer(w, Apply(w, step, limit))
  {
  }

  lemma SnapshotStep(w: World, step: Step, limit: nat)
    requires ReplyInv(w) && Enabled(w, step) && Past(w)
    ensures SameAnswer(w, Apply(w, step, limit))
  {
    match step
    case Receive => MessageKeepsAnswer(w, limit);
    case ResumeRun => RunKeepsAnswer(w, step, limit);
    case ReplayStep => RunKeepsAnswer(w, step, limit);
    case RunExitTask => FinishKeepsAnswer(w, step, limit);
    case RunLossTask => FinishKeepsAnswer(w, step, limit);
    case _ =>
  }

  lemma {:induction false} SnapshotStands(worlds: seq<World>, steps: seq<Step>, limit: nat, j: nat, i: nat)
    requires IsRun(worlds, steps, limit) && j < i < |worlds| && steps[j].Answer?
    ensures worlds[i].snapshot == worlds[j + 1].snapshot && worlds[i].mode == worlds[j].mode
    ensures Past(worlds[i])
    decreases i
  {
    assert Enabled(worlds[i - 1], steps[i - 1]);
    if j + 1 < i {
      SnapshotStands(worlds, steps, limit, j, i - 1);
      RunKeepsInv(worlds, steps, limit, i - 1);
      SnapshotStep(worlds[i - 1], steps[i - 1], limit);
    } else {
      AnswerIsSnapped(worlds[j], steps[j], limit);
    }
  }

  /**
   * Main result. The status answered at step `j` carries the last min(n, limit) lines recorded. When
   * `run` returns on a connection that held, or waits with nothing under way, each of those and every
   * line recorded since has reached the app.
   */
  lemma AttachDeliversHistory(worlds: seq<World>, steps: seq<Step>, limit: nat, j: nat, i: nat, k: nat)
    requires IsRun(worlds, steps, limit) && j < i < |worlds| && worlds[i].mode.Attach?
    requires steps[j] == Answer(true) && !worlds[i].lost
    requires worlds[i].phase.Returned? || (worlds[i].phase.Suspended? && Quiet(worlds[i]))
    requires worlds[j].recorded - limit <= k < worlds[i].recorded
    ensures k in worlds[i].delivered
  {
    SnapshotStands(worlds, steps, limit, j, i);
    assert Enabled(worlds[j], steps[j]);
    if worlds[i].phase.Returned? {
      NoGap(worlds, steps, limit, i, k);
    } else {
      NothingHeldBack(worlds, steps, limit, i, k);
    }
  }

  /** The answer decides: `run` throws exactly when the status cannot be decoded or nothing ran then. */
  lemma AnswerDecidesAttach(worlds: seq<World>, steps: seq<Step>, limit: nat, j: nat, i: nat, ok: bool)
    requires IsRun(worlds, steps, limit) && j < i < |worlds| && worlds[i].mode.Attach?
    requires steps[j] == Answer(ok) && worlds[i].reply.Consumed?
    ensures worlds[i].phase.Threw? <==> !(ok && worlds[j].running)
  {
    SnapshotStands(worlds, steps, limit, j, i);
    RunKeepsInv(worlds, steps, limit, i);
    assert Enabled(worlds[j], steps[j]);
  }

  /** Lines on their way or delivered were recorded since `first`, or are part of the status. */
  predicate OnlySince(w: World, first: nat) {
    && first <= w.recorded
    && (forall k | k in w.sending :: first <= k < w.recorded)
    && (forall m | 0 <= m < |w.channel| && w.channel[m].Line? :: first <= w.channel[m].k < w.recorded)
    && (forall k | k in w.delivered ::
          first <= k < w.recorded || (w.reply.Consumed? && w.snapshot.lo <= k < w.snapshot.hi))
  }

  lemma ReceiveOnlySince(w: World, limit: nat, first: nat)
    requires ReplyInv(w) && OnlySince(w, first) && Enabled(w, Receive)
    ensures OnlySince(Apply(w, Receive, limit), first)
  {
    if w.reply.Consumed? {
      assert !w.channel[0].Reply?;
    }
  }

  lemma SendOnlySince(w: World, step: Step, limit: nat, first: nat)
    requires OnlySince(w, first) && Enabled(w, step) && (step.SendLine? || step.SendExit? || step.SendReply?)
    ensures OnlySince(Apply(w, step, limit), first)
  {
  }

  lemma ReplayOnlySince(w: World, limit: nat, first: nat)
    requires ReplyInv(w) && OnlySince(w, first) && Enabled(w, ReplayStep)
    ensures OnlySince(Apply(w, ReplayStep, limit), first)
  {
  }

  lemma ResumeOnlySince(w: World, limit: nat, first: nat)
    requires ReplyInv(w) && OnlySince(w, first) && Enabled(w, ResumeRun)
    ensures OnlySince(Apply(w, ResumeRun, limit), first)
  {
  }

  lemma AnswerOnlySince(w: World, step: Step, limit: nat, first: nat)
    requires ReplyInv(w) && OnlySince(w, first) && Enabled(w, step) && (step.Answer? || step.BeginRun?)
    ensures OnlySince(Apply(w, step, limit), first)
  {
  }

  lemma OtherOnlySince(w: World, step: Step, limit: nat, first: nat)
    requires OnlySince(w, first) && Enabled(w, step)
    requires step.Connect? || step.RecordLine? || step.HelperFinishes? || step.LoseConnection?
    ensures OnlySince(Apply(w, step, limit), first)
  {
  }

  lemma FinishOnlySince(w: World, step: Step, limit: nat, first: nat)
    requires OnlySince(w, first) && Enabled(w, step) && (step.RunExitTask? || step.RunLossTask?)
    ensures OnlySince(Apply(w, step, limit), first)
  {
  }

  lemma OnlySinceStep(w: World, step: Step, limit: nat, first: nat)
    requires ReplyInv(w) && OnlySince(w, first) && Enabled(w, step)
    ensures OnlySince(Apply(w, step, limit), first)
  {
    match step
    case Receive => ReceiveOnlySince(w, limit, first);
    case SendLine(_) => SendOnlySince(w, step, limit, first);
    case SendExit => SendOnlySince(w, step, limit, first);
    case SendReply => SendOnlySince(w, step, limit, first);
    case ReplayStep => ReplayOnlySince(w, limit, first);
    case ResumeRun => ResumeOnlySince(w, limit, first);
    case Answer(_) => AnswerOnlySince(w, step, limit, first);
    case BeginRun => AnswerOnlySince(w, step, limit, first);
    case RunExitTask => FinishOnlySince(w, step, limit, first);
    case RunLossTask => FinishOnlySince(w, step, limit, first);
    case _ => OtherOnlySince(w, step, limit, first);
  }

  /** Before the helper has an observer nothing is on its way. */
  predicate Silent(w: World) {
    w.sending == {} && NoLines(w.channel) && w.delivered == {}
  }

  lemma {:induction false} SilentUntilConnect(worlds: seq<World>, steps: seq<Step>, limit: nat, c: nat)
    requires IsRun(worlds, steps, limit) && c < |worlds| && !worlds[c].observed && !worlds[c].lost
    ensures Silent(worlds[c])
  {
    if c > 0 {
      RunKeepsInv(worlds, steps, limit, c - 1);
      assert Enabled(worlds[c - 1], steps[c - 1]);
      SilentUntilConnect(worlds, steps, limit, c - 1);
    }
  }

  lemma {:induction false} DeliveredSinceConnect(worlds: seq<World>, steps: seq<Step>, limit: nat, c: nat, i: nat)
    requires IsRun(worlds, steps, limit) && c < i < |worlds| && steps[c].Connect?
    ensures OnlySince(worlds[i], worlds[c].recorded)
    decreases i
  {
    RunKeepsInv(worlds, steps, limit, i - 1);
    assert Enabled(worlds[i - 1], steps[i - 1]);
    if c + 1 < i {
      DeliveredSinceConnect(worlds, steps, limit, c, i - 1);
      OnlySinceStep(worlds[i - 1], steps[i - 1], limit, worlds[c].recorded);
    } else {
      SilentUntilConnect(worlds, steps, limit, c);
    }
  }

  /** And nothing else does: a delivered line was in that status or was recorded after the app connected. */
  lemma AttachDeliversNoMore(worlds: seq<World>, steps: seq<Step>, limit: nat, c: nat, j: nat, i: nat, k: nat)
    requires IsRun(worlds, steps, limit) && c < i && j < i < |worlds| && worlds[i].mode.Attach?
    requires steps[c].Connect? && steps[j].Answer? && k in worlds[i].delivered
    ensures k < worlds[i].recorded
    ensures k >= worlds[c].recorded || worlds[j].recorded - limit <= k < worlds[j].recorded
  {
    DeliveredSinceConnect(worlds, steps, limit, c, i);
    SnapshotStands(worlds, steps, limit, j, i);
    RunKeepsInv(worlds, steps, limit, i);
    assert Enabled(worlds[j], steps[j]);
  }

  /**
   * Attach does not hang. Once the tunnel has ended or the connection is lost, and the steps
   * above have run out, a started `run` is over; if the snapshot said running and the connection
   * held, it returned the exit code, whether the exit came before or after `awaitExit`.
   */
  lemma AttachEnds(worlds: seq<World>, steps: seq<Step>, limit: nat, i: nat)
    requires IsRun(worlds, steps, limit) && i < |worlds|
    requires !worlds[i].phase.NotStarted? && Quiet(worlds[i])
    requires !worlds[i].running || worlds[i].lost
    ensures worlds[i].phase.Returned? || worlds[i].phase.Threw?
    ensures Attached(worlds[i]) && worlds[i].snapshot.readable ==>
              worlds[i].phase.Returned? && worlds[i].exitCode == Some(worlds[i].phase.code)
  {
    RunKeepsInv(worlds, steps, limit, i);
  }

  /**
   * A `run` that throws while the tunnel is up leaves the runner claiming to run, handlers and all;
   * that happens exactly when the status reply cannot be decoded.
   */
  lemma ThrowingWhileTunnelIsUp(worlds: seq<World>, steps: seq<Step>, limit: nat, i: nat)
    requires IsRun(worlds, steps, limit) && i < |worlds|
    requires worlds[i].running && !worlds[i].lost && worlds[i].reply.Consumed?
    ensures worlds[i].phase.Threw? <==> !worlds[i].snapshot.readable
    ensures worlds[i].runner.running && worlds[i].runner.onLine && worlds[i].runner.onExit
  {
    RunKeepsInv(worlds, steps, limit, i);
  }

  /** One more step. */
  lemma Extend(worlds: seq<World>, steps: seq<Step>, step: Step, limit: nat)
      returns (worlds': seq<World>, steps': seq<Step>)
    requires IsRun(worlds, steps, limit) && Enabled(worlds[|steps|], step)
    ensures IsRun(worlds', steps', limit) && steps' == steps + [step]
    ensures worlds' == worlds + [Apply(worlds[|steps|], step, limit)]
  {
    worlds', steps' := worlds + [Apply(worlds[|steps|], step, limit)], steps + [step];
    forall i {:trigger steps'[i]} | 0 <= i < |steps'|
      ensures Enabled(worlds'[i], steps'[i]) && worlds'[i + 1] == Apply(worlds'[i], steps'[i], limit) {
      if i < |steps| {
        assert Enabled(worlds[i], steps[i]);
      }
    }
  }

  /** A tunnel that is up, with nothing recorded and no client. */
  const UP := World(Attach, 0, true, false, {}, None, None, [], NotAsked, Snapshot(false, 0, 0, false), false,
                    IDLE, NotStarted, None, false, {}, 0)

  lemma StatusAsked(limit: nat) returns (worlds: seq<World>, steps: seq<Step>)
    ensures IsRun(worlds, steps, limit)
    ensures worlds[|steps|] == UP.(observed := true, runner := Begin(IDLE), phase := AwaitingReply, reply := Asked)
  {
    worlds, steps := [UP], [];
    worlds, steps := Extend(worlds, steps, Connect, limit);
    worlds, steps := Extend(worlds, steps, BeginRun, limit);
  }

  lemma UnreadableReplySent(limit: nat) returns (worlds: seq<World>, steps: seq<Step>)
    ensures IsRun(worlds, steps, limit)
    ensures worlds[|steps|] == UP.(observed := true, runner := Begin(IDLE), phase := AwaitingReply, reply := Sent,
                                   snapshot := Snapshot(true, 0, 0, false), channel := [Reply])
  {
    worlds, steps := StatusAsked(limit);
    worlds, steps := Extend(worlds, steps, Answer(false), limit);
    worlds, steps := Extend(worlds, steps, SendReply, limit);
    assert [] + [Reply] == [Reply];
  }

  /** It does happen: nothing is left to do, the tunnel is up, and the runner is not released. */
  lemma UnreadableStatusLeaks(limit: nat) returns (worlds: seq<World>, steps: seq<Step>)
    ensures IsRun(worlds, steps, limit)
    ensures worlds[|steps|].phase.Threw? && worlds[|steps|].running && Quiet(worlds[|steps|])
    ensures worlds[|steps|].runner.running
  {
    worlds, steps := UnreadableReplySent(limit);
    worlds, steps := Extend(worlds, steps, Receive, limit);
    worlds, steps := Extend(worlds, steps, ResumeRun, limit);
  }
}

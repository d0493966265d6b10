/** The helper's single tunnel slot: the queue-guarded state of TunnelManager.swift. */
module ManagerState {
  import opened Options

  type Line = string

  type Observer = nat

  datatype Manager = Manager(
    running: bool,
    runner: Option<nat>,
    runTask: Option<nat>,
    arguments: seq<string>,
    history: seq<Line>,
    lastExitCode: Option<int>,
    observers: set<Observer>)

  const FRESH := Manager(false, None, None, [], [], None, {})

  datatype Status = Status(running: bool, arguments: seq<string>, recentLines: seq<Line>, lastExitCode: Option<int>)

  /** The last `n` lines of `s`, or all of them. */
  function LastLines(s: seq<Line>, n: nat): seq<Line> {
    if |s| <= n then s else s[|s| - n..]
  }

  function Admit(m: Manager, arguments: seq<string>): Manager {
    if m.running then m else
      m.(running := true, arguments := arguments, history := [], lastExitCode := None)
  }

  function Record(m: Manager, line: Line, limit: nat): Manager {
    m.(history := LastLines(m.history + [line], limit))
  }

  function Finish(m: Manager, code: int): Manager {
    m.(running := false, runner := None, runTask := None, lastExitCode := Some(code))
  }

  function StatusOf(m: Manager): Status {
    Status(m.running, m.arguments, m.history, m.lastExitCode)
  }
}

/** The class: each method is one `queue.sync` block. */
module HelperTunnel {
  import opened Options
  import opened ManagerState

  class TunnelManager {
    const historyLimit: nat
    var runner: Option<nat>
    var runTask: Option<nat>
    var arguments: seq<string>
    var history: seq<Line>
    var lastExitCode: Option<int>
    var observers: set<Observer>
    var running: bool

    ghost function View(): Manager
      reads this
    {
      Manager(running, runner, runTask, arguments, history, lastExitCode, observers)
    }

    constructor (historyLimit: nat := 1000)
      ensures View() == FRESH && this.historyLimit == historyLimit
    {
      this.historyLimit := historyLimit;
      runner, runTask, arguments, history := None, None, [], [];
      lastExitCode, observers, running := None, {}, false;
    }

    method AddObserver(id: Observer)
      modifies this`observers
      ensures View() == old(View()).(observers := old(observers) + {id})
    {
      observers := observers + {id};
    }

    method RemoveObserver(id: Observer)
      modifies this`observers
      ensures View() == old(View()).(observers := old(observers) - {id})
    {
      observers := observers - {id};
    }

    /** The admission block of `start`; a refused start changes nothing. */
    method Admit(approved: seq<string>) returns (admitted: bool)
      modifies this
      ensures admitted == !old(running)
      ensures View() == ManagerState.Admit(old(View()), approved)
    {
      if running {
        return false;
      }
      running := true;
      arguments := approved;
      history := [];
      lastExitCode := None;
      return true;
    }

    /** `start` with nobody in between. */
    method Start(approved: seq<string>, id: nat) returns (admitted: bool)
      modifies this
      ensures admitted == !old(running)
      ensures admitted ==> View() == old(View()).(running := true, runner := Some(id), runTask := Some(id),
                                                  arguments := approved, history := [], lastExitCode := None)
      ensures !admitted ==> View() == old(View())
    {
      admitted := Admit(approved);
      if admitted {
        SetRunner(id);
        StoreTask(id);
      }
    }

    method SetRunner(id: nat)
      modifies this`runner
      ensures View() == old(View()).(runner := Some(id))
    {
      runner := Some(id);
    }

    method StoreTask(id: nat)
      modifies this`runTask
      ensures View() == old(View()).(runTask := Some(id))
    {
      runTask := Some(id);
    }

    method Status() returns (s: ManagerState.Status)
      ensures s == StatusOf(View())
      ensures s.running == running && s.arguments == arguments
      ensures s.recentLines == history && s.lastExitCode == lastExitCode
    {
      s := ManagerState.Status(running, arguments, history, lastExitCode);
    }

    /** Append to the bounded history; the observers to call are those present now. */
    method Record(line: Line) returns (targets: set<Observer>)
      modifies this`history
      ensures View() == ManagerState.Record(old(View()), line, historyLimit)
      ensures targets == old(observers)
    {
      history := history + [line];
      if |history| > historyLimit {
        history := history[|history| - historyLimit..];
      }
      targets := observers;
    }

    method Finish(code: int) returns (targets: set<Observer>)
      modifies this
      ensures View() == ManagerState.Finish(old(View()), code)
      ensures targets == old(observers)
    {
      running := false;
      runner := None;
      runTask := None;
      lastExitCode := Some(code);
      targets := observers;
    }
  }
}

/** Concurrent starts, output and exits, interleaved at the boundaries of the queue blocks. */
module ManagerRuns {
  import opened Options
  import opened ManagerState

  datatype World = World(
    m: Manager,
    admitted: nat,              // starts past admission, runner not yet stored
    armed: set<nat>,            // runner stored, task not yet created
    flights: set<nat>,          // tasks running
    unstored: set<nat>,         // tasks created, `runTask` not yet assigned
    recorded: seq<Line>,        // everything recorded since the last admitted start
    next: nat)

  const START := World(FRESH, 0, {}, {}, {}, [], 0)

  datatype Step =
    | AdmitStart(arguments: seq<string>)
    | StoreRunner
    | CreateTask(id: nat)
    | AssignTask(id: nat)
    | RecordLine(line: Line)
    | FinishRun(id: nat, code: int)
    | Observe(id: Observer)
    | Forget(id: Observer)

  predicate Enabled(w: World, step: Step) {
    match step
    case AdmitStart(_) => true
    case StoreRunner => w.admitted > 0
    case CreateTask(id) => id in w.armed
    case AssignTask(id) => id in w.unstored
    case RecordLine(_) => w.flights != {}
    case FinishRun(id, _) => id in w.flights
    case Observe(_) => true
    case Forget(_) => true
  }

  function Apply(w: World, step: Step, limit: nat): World
    requires Enabled(w, step)
  {
    match step
    case AdmitStart(arguments) =>
      if w.m.running then w else w.(m := Admit(w.m, arguments), admitted := w.admitted + 1, recorded := [])
    case StoreRunner =>
      w.(m := w.m.(runner := Some(w.next)), admitted := w.admitted - 1, armed := w.armed + {w.next}, next := w.next + 1)
    case CreateTask(id) =>
      w.(armed := w.armed - {id}, flights := w.flights + {id}, unstored := w.unstored + {id})
    case AssignTask(id) => w.(m := w.m.(runTask := Some(id)), unstored := w.unstored - {id})
    case RecordLine(line) => w.(m := Record(w.m, line, limit), recorded := w.recorded + [line])
    case FinishRun(id, code) => w.(m := Finish(w.m, code), flights := w.flights - {id})
    case Observe(id) => w.(m := w.m.(observers := w.m.observers + {id}))
    case Forget(id) => w.(m := w.m.(observers := w.m.observers - {id}))
  }

  ghost predicate IsRun(worlds: seq<World>, steps: seq<Step>, limit: nat) {
    && |worlds| == |steps| + 1
    && worlds[0] == START
    && forall i {:trigger steps[i]} | 0 <= i < |steps| ::
         Enabled(worlds[i], steps[i]) && worlds[i + 1] == Apply(worlds[i], steps[i], limit)
  }

  /** A run owns the slot at one of three stages, exactly when `running` is set. */
  ghost predicate Inv(w: World, limit: nat) {
    && (!w.m.running ==> w.admitted == 0 && w.armed == {} && w.flights == {} && w.m.runner.None?)
    && (w.m.running ==>
          || (w.admitted == 1 && w.armed == {} && w.flights == {} && w.m.runner.None?)
          || (w.admitted == 0 && w.flights == {} && exists id :: w.armed == {id} && w.m.runner == Some(id))
          || (w.admitted == 0 && w.armed == {} && exists id :: w.flights == {id} && w.m.runner == Some(id)))
    && w.m.history == LastLines(w.recorded, limit)
  }

  lemma LastLinesSnoc(s: seq<Line>, line: Line, limit: nat)
    ensures LastLines(LastLines(s, limit) + [line], limit) == LastLines(s + [line], limit)
  {
  }

  lemma StepKeepsInv(w: World, step: Step, limit: nat)
    requires Inv(w, limit) && Enabled(w, step)
    ensures Inv(Apply(w, step, limit), limit)
  {
    var after := Apply(w, step, limit);
    match step {
      case StoreRunner =>
        assert after.armed == {w.next};
      case CreateTask(id) =>
        assert after.flights == {id};
      case RecordLine(line) =>
        LastLinesSnoc(w.recorded, line, limit);
      case _ =>
    }
  }

  lemma {:induction false} RunKeepsInv(worlds: seq<World>, steps: seq<Step>, limit: nat, i: nat)
    requires IsRun(worlds, steps, limit) && i < |worlds|
    ensures Inv(worlds[i], limit)
  {
    if i > 0 {
      RunKeepsInv(worlds, steps, limit, i - 1);
      assert Enabled(worlds[i - 1], steps[i - 1]);
      StepKeepsInv(worlds[i - 1], steps[i - 1], limit);
    }
  }

  /**
   * Main result. Under every interleaving at most one run is in flight, a stored runner
   * is that run's and implies `running`, a start is admitted only when nothing is in
   * flight, and the history is exactly the last lines recorded since the last admitted
   * start.
   */
  lemma OneRunAndBoundedHistory(worlds: seq<World>, steps: seq<Step>, limit: nat, i: nat)
    requires IsRun(worlds, steps, limit) && i < |worlds|
    ensures var w := worlds[i];
            && (w.m.runner.Some? ==> w.m.running && w.flights + w.armed == {w.m.runner.value})
            && (forall a, b | a in w.flights && b in w.flights :: a == b)
            && (w.flights != {} ==> w.m.running)
            && w.m.history == LastLines(w.recorded, limit)
            && |w.m.history| == (if |w.recorded| < limit then |w.recorded| else limit)
            && (i < |steps| && steps[i].AdmitStart? && !w.m.running ==>
                  w.flights == {} && worlds[i + 1].m.history == [])
  {
    RunKeepsInv(worlds, steps, limit, i);
    if i < |steps| {
      assert Enabled(worlds[i], steps[i]);
      RunKeepsInv(worlds, steps, limit, i + 1);
    }
  }

  // What the status says of the run a given start began.

  /** The lines these steps record, in order. */
  function LinesOf(steps: seq<Step>): seq<Line> {
    if steps == [] then [] else
      var n := |steps| - 1;
      LinesOf(steps[..n]) + if steps[n].RecordLine? then [steps[n].line] else []
  }

  /** The start at `a` was admitted, and none has been since. */
  ghost predicate LastStart(worlds: seq<World>, steps: seq<Step>, a: nat, i: nat)
    requires |worlds| == |steps| + 1
  {
    && a < i < |worlds| && steps[a].AdmitStart? && !worlds[a].m.running
    && forall k {:trigger steps[k]} | a < k < i && steps[k].AdmitStart? :: worlds[k].m.running
  }

  lemma {:induction false} RecordedSinceStart(worlds: seq<World>, steps: seq<Step>, limit: nat, a: nat, i: nat)
    requires IsRun(worlds, steps, limit) && LastStart(worlds, steps, a, i)
    ensures worlds[i].recorded == LinesOf(steps[a + 1..i])
    ensures worlds[i].m.arguments == steps[a].arguments
    decreases i
  {
    assert Enabled(worlds[i - 1], steps[i - 1]);
    if a + 1 < i {
      RecordedSinceStart(worlds, steps, limit, a, i - 1);
      assert steps[a + 1..i][..i - 1 - (a + 1)] == steps[a + 1..i - 1];
      assert steps[a + 1..i][i - 1 - (a + 1)] == steps[i - 1];
    }
  }

  lemma {:induction false} RunningSinceStart(worlds: seq<World>, steps: seq<Step>, limit: nat, a: nat, i: nat)
    requires IsRun(worlds, steps, limit) && LastStart(worlds, steps, a, i)
    requires forall k | a < k < i :: !steps[k].FinishRun?
    ensures worlds[i].m.running && worlds[i].m.lastExitCode.None?
    decreases i
  {
    assert Enabled(worlds[i - 1], steps[i - 1]);
    if a + 1 < i {
      RunningSinceStart(worlds, steps, limit, a, i - 1);
    }
  }

  lemma {:induction false} OverSinceFinish(worlds: seq<World>, steps: seq<Step>, limit: nat, a: nat, k: nat, i: nat)
    requires IsRun(worlds, steps, limit) && LastStart(worlds, steps, a, i) && a < k < i && steps[k].FinishRun?
    ensures !worlds[i].m.running && worlds[i].m.lastExitCode == Some(steps[k].code)
    decreases i
  {
    assert Enabled(worlds[i - 1], steps[i - 1]);
    if k + 1 < i {
      OverSinceFinish(worlds, steps, limit, a, k, i - 1);
      RunKeepsInv(worlds, steps, limit, i - 1);
    }
  }

  /** `tail` is the last min(n, limit) entries of `all`, by position. */
  predicate LastOf(tail: seq<Line>, all: seq<Line>, limit: nat) {
    && |tail| == (if |all| < limit then |all| else limit)
    && forall k | 0 <= k < |tail| :: tail[k] == all[|all| - |tail| + k]
  }

  lemma LastLinesByPosition(s: seq<Line>, limit: nat)
    ensures LastOf(LastLines(s, limit), s, limit)
  {
  }

  /**
   * Main result. The status names the arguments of the last admitted start and the last
   * min(n, limit) lines recorded since it; the run shows as running with no exit code until it
   * finishes, and then as over with the code it finished with.
   */
  lemma StatusFollowsRun(worlds: seq<World>, steps: seq<Step>, limit: nat, a: nat, i: nat)
    requires IsRun(worlds, steps, limit) && LastStart(worlds, steps, a, i)
    ensures var status := StatusOf(worlds[i].m);
            && status.arguments == steps[a].arguments
            && LastOf(status.recentLines, LinesOf(steps[a + 1..i]), limit)
            && ((forall k | a < k < i :: !steps[k].FinishRun?) ==> status.running && status.lastExitCode.None?)
            && (forall k | a < k < i && steps[k].FinishRun? ::
                  !status.running && status.lastExitCode == Some(steps[k].code))
  {
    RunKeepsInv(worlds, steps, limit, i);
    RecordedSinceStart(worlds, steps, limit, a, i);
    LastLinesByPosition(worlds[i].recorded, limit);
    if forall k | a < k < i :: !steps[k].FinishRun? {
      RunningSinceStart(worlds, steps, limit, a, i);
    }
    forall k | a < k < i && steps[k].FinishRun?
      ensures !worlds[i].m.running && worlds[i].m.lastExitCode == Some(steps[k].code)
    {
      OverSinceFinish(worlds, steps, limit, a, k, i);
    }
  }

  /** A stored task is one in flight. */
  predicate TaskIsLive(w: World) {
    w.m.runTask.Some? ==> w.m.runTask.value in w.flights
  }

  /** A task is stored after it has finished. */
  predicate StoresLate(w: World, step: Step) {
    step.AssignTask? && step.id !in w.flights
  }

  lemma TaskStep(w: World, step: Step, limit: nat)
    requires Inv(w, limit) && TaskIsLive(w) && Enabled(w, step)
    ensures TaskIsLive(Apply(w, step, limit)) <==> !StoresLate(w, step)
  {
  }

  lemma {:induction false} TaskIsLiveIff(worlds: seq<World>, steps: seq<Step>, limit: nat, i: nat)
    requires IsRun(worlds, steps, limit) && i < |worlds|
    ensures (forall k | 0 <= k <= i :: TaskIsLive(worlds[k])) <==>
              forall k {:trigger StoresLate(worlds[k], steps[k])} | 0 <= k < i :: !StoresLate(worlds[k], steps[k])
  {
    if i > 0 {
      TaskIsLiveIff(worlds, steps, limit, i - 1);
      RunKeepsInv(worlds, steps, limit, i - 1);
      assert Enabled(worlds[i - 1], steps[i - 1]);
      if TaskIsLive(worlds[i - 1]) {
        TaskStep(worlds[i - 1], steps[i - 1], limit);
        assert TaskIsLive(worlds[i]) <==> !StoresLate(worlds[i - 1], steps[i - 1]);
      }
    }
  }

  /** Where the run `id` is: it is created once, and gone once finished. */
  predicate Known(w: World, id: nat) {
    && (id in w.armed || id in w.flights || id in w.unstored ==> id < w.next)
    && !(id in w.armed && (id in w.flights || id in w.unstored))
  }

  lemma {:induction false} RunsAreKnown(worlds: seq<World>, steps: seq<Step>, limit: nat, i: nat, id: nat)
    requires IsRun(worlds, steps, limit) && i < |worlds|
    ensures Known(worlds[i], id)
  {
    if i > 0 {
      RunsAreKnown(worlds, steps, limit, i - 1, id);
      assert Enabled(worlds[i - 1], steps[i - 1]);
    }
  }

  ghost predicate FinishedBefore(steps: seq<Step>, i: nat, id: nat)
    requires i <= |steps|
  {
    exists k | 0 <= k < i :: steps[k].FinishRun? && steps[k].id == id
  }

  /** A task whose creation is over is in flight exactly until its run finishes. */
  lemma {:induction false} InFlightIff(worlds: seq<World>, steps: seq<Step>, limit: nat, i: nat, id: nat)
    requires IsRun(worlds, steps, limit) && i < |worlds|
    ensures id in worlds[i].unstored ==> (id in worlds[i].flights <==> !FinishedBefore(steps, i, id))
    ensures FinishedBefore(steps, i, id) ==>
              id < worlds[i].next && id !in worlds[i].armed && id !in worlds[i].flights
  {
    if i > 0 {
      InFlightIff(worlds, steps, limit, i - 1, id);
      RunsAreKnown(worlds, steps, limit, i - 1, id);
      RunKeepsInv(worlds, steps, limit, i - 1);
      assert Enabled(worlds[i - 1], steps[i - 1]);
      assert FinishedBefore(steps, i, id) <==>
               FinishedBefore(steps, i - 1, id) || (steps[i - 1].FinishRun? && steps[i - 1].id == id);
    }
  }

  /**
   * Main result. The stored task has been the one in flight all along exactly when no start stored its
   * task after that task had finished.
   */
  lemma StoredTaskIsLiveIff(worlds: seq<World>, steps: seq<Step>, limit: nat, i: nat)
    requires IsRun(worlds, steps, limit) && i <= |steps|
    ensures (forall k | 0 <= k <= i :: TaskIsLive(worlds[k])) <==>
              forall k | 0 <= k < i && steps[k].AssignTask? :: !FinishedBefore(steps, k, steps[k].id)
  {
    TaskIsLiveIff(worlds, steps, limit, i);
    forall k | 0 <= k < i && steps[k].AssignTask?
      ensures StoresLate(worlds[k], steps[k]) <==> FinishedBefore(steps, k, steps[k].id) {
      assert Enabled(worlds[k], steps[k]);
      InFlightIff(worlds, steps, limit, k, steps[k].id);
    }
    forall k | 0 <= k < i && StoresLate(worlds[k], steps[k]) ensures steps[k].AssignTask? {
    }
  }

  /** It happens: the assignment comes after the task has finished, and stays with nothing running. */
  lemma StoredTaskMayBeStale(limit: nat) returns (worlds: seq<World>, steps: seq<Step>)
    ensures IsRun(worlds, steps, limit)
    ensures !worlds[|steps|].m.running && worlds[|steps|].m.runTask == Some(0)
  {
    var w1 := START.(m := FRESH.(running := true, arguments := ["disconnect"]), admitted := 1);
    assert w1 == Apply(START, AdmitStart(["disconnect"]), limit);
    var w2 := w1.(m := w1.m.(runner := Some(0)), admitted := 0, armed := {0}, next := 1);
    assert w2 == Apply(w1, StoreRunner, limit);
    var w3 := w2.(armed := {}, flights := {0}, unstored := {0});
    assert w3 == Apply(w2, CreateTask(0), limit);
    var w4 := w3.(m := Finish(w3.m, 0), flights := {});
    assert w4 == Apply(w3, FinishRun(0, 0), limit);
    var w5 := Apply(w4, AssignTask(0), limit);
    worlds := [START, w1, w2, w3, w4, w5];
    steps := [AdmitStart(["disconnect"]), StoreRunner, CreateTask(0), FinishRun(0, 0), AssignTask(0)];
  }
}

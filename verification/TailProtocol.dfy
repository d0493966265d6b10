/**
 * The session directory shared by the root-side wrapper (writer) and the app
 * (reader) in PrivilegedProcessRunner.swift, as a state machine: the wrapper
 * creates the log, the command appends to it, the exit status is renamed into
 * place; the app tails, may crash or be cancelled, and may adopt the session
 * again from offset 0.
 */
module TailProtocol {
  import opened Options
  import opened Lines

  /** Where the loop of `tail` stands. */
  datatype Point = AtRead | AtCheck | AtSleep | AtReturn

  datatype Reader =
    | Absent                                    // no app process follows the session
    | Candidate                                 // launched, or found by the orphan scan
    | Tailing(offset: nat, pending: seq<byte>, delivered: seq<Line>, finished: bool, at: Point)
    | Returned(length: nat, lines: seq<Line>, exitCode: int)

  datatype Session = Session(
    log: Option<seq<byte>>,
    exit: Option<int>,
    launched: bool,
    removed: bool,
    reader: Reader)

  datatype Step =
    | CreateLog
    | AppendLog(bytes: seq<byte>)
    | PublishExit(code: int)
    | Launched               // the wrapper has written the pid or exit file
    | ScanOrphans
    | BeginTail
    | ReaderStep             // the next stretch of `tail`, whatever it is
    | Crash
    | Cancel                 // the sleep throws; `detach` runs

  const START := Session(None, None, false, false, Absent)

  predicate Enabled(s: Session, step: Step) {
    match step
    case CreateLog => s.log.None?
    case AppendLog(_) => s.log.Some? && s.exit.None?
    case PublishExit(_) => s.log.Some? && s.exit.None?
    case Launched => s.reader.Absent? && s.log.Some? && !s.launched
    case ScanOrphans => s.reader.Absent? && s.launched && s.log.Some? && s.exit.None? && !s.removed
    case BeginTail => s.reader.Candidate?
    case ReaderStep => s.reader.Tailing?
    case Crash => s.reader.Tailing? || s.reader.Candidate?
    case Cancel => s.reader.Tailing? && s.reader.at.AtSleep?
  }

  /** One read pass: everything past the offset goes through the line buffer. */
  function ReadPass(log: Option<seq<byte>>, r: Reader): Reader
    requires r.Tailing?
  {
    if log.None? || |log.value| <= r.offset then r else
      var data := r.pending + log.value[r.offset..];
      r.(offset := |log.value|, pending := Rest(data), delivered := r.delivered + Complete(data))
  }

  function ReaderNext(s: Session): Session
    requires s.reader.Tailing?
  {
    var r := s.reader;
    match r.at
    case AtRead =>
      s.(reader := ReadPass(s.log, r).(at := if r.finished then AtReturn else AtCheck))
    case AtCheck =>
      s.(reader := if s.exit.Some? then r.(finished := true, at := AtRead) else r.(at := AtSleep))
    case AtSleep =>
      s.(reader := r.(at := AtRead))
    case AtReturn =>
      // Flush, read the exit status, then `detach` removes the exited session.
      var last := if r.pending == [] then [] else [r.pending];
      var code := if s.exit.Some? then s.exit.value else -1;
      s.(reader := Returned(r.offset, r.delivered + last, code), removed := s.removed || s.exit.Some?)
  }

  function Apply(s: Session, step: Step): Session
    requires Enabled(s, step)
  {
    match step
    case CreateLog => s.(log := Some([]))
    case AppendLog(bytes) => s.(log := Some(s.log.value + bytes))
    case PublishExit(code) => s.(exit := Some(code))
    case Launched => s.(reader := Candidate, launched := true)
    case ScanOrphans => s.(reader := Candidate)
    case BeginTail => s.(reader := Tailing(0, [], [], false, AtRead))
    case ReaderStep => ReaderNext(s)
    case Crash => s.(reader := Absent)
    case Cancel => s.(reader := Absent, removed := s.removed || s.exit.Some?)
  }

  /** What is true of every reachable session. */
  predicate Inv(s: Session) {
    && (s.exit.Some? ==> s.log.Some?)
    && (s.launched ==> s.log.Some?)
    && (s.removed ==> s.exit.Some?)
    && (s.reader.Tailing? ==>
          && s.log.Some?
          && s.reader.offset <= |s.log.value|
          && s.reader.delivered == Complete(s.log.value[..s.reader.offset])
          && s.reader.pending == Rest(s.log.value[..s.reader.offset])
          && (s.reader.finished ==> s.exit.Some?)
          && (s.reader.at.AtCheck? || s.reader.at.AtSleep? ==> !s.reader.finished)
          && (s.reader.at.AtReturn? ==> s.reader.finished && s.reader.offset == |s.log.value|))
    && (!s.reader.Absent? ==> s.launched)
    && (s.reader.Returned? ==>
          && s.log.Some?
          && s.exit == Some(s.reader.exitCode)
          && s.reader.length == |s.log.value|
          && s.reader.lines == AllLines(s.log.value))
  }

  lemma ReadPassKeepsSplit(log: seq<byte>, r: Reader)
    requires r.Tailing? && r.offset <= |log|
    requires r.delivered == Complete(log[..r.offset]) && r.pending == Rest(log[..r.offset])
    ensures ReadPass(Some(log), r).delivered == Complete(log)
    ensures ReadPass(Some(log), r).pending == Rest(log)
  {
    var read, rest := log[..r.offset], log[r.offset..];
    assert read + rest == log;
    if rest == [] {
      assert read == log;
    } else {
      SplitAppend(read, rest);
    }
  }

  lemma StepKeepsInv(s: Session, step: Step)
    requires Inv(s) && Enabled(s, step)
    ensures Inv(Apply(s, step))
  {
    if s.reader.Tailing? && s.log.Some? {
      var log := s.log.value;
      match step {
        case AppendLog(bytes) =>
          assert (log + bytes)[..s.reader.offset] == log[..s.reader.offset];
        case ReaderStep =>
          ReadPassKeepsSplit(log, s.reader);
          assert log[..|log|] == log;
        case _ =>
      }
    }
    if step.BeginTail? {
      assert s.log.value[..0] == [];
    }
  }

  /** A run: from the start, consecutive states joined by enabled steps. */
  ghost predicate IsRun(states: seq<Session>, steps: seq<Step>) {
    && |states| == |steps| + 1
    && states[0] == START
    && forall i {:trigger steps[i]} | 0 <= i < |steps| ::
         Enabled(states[i], steps[i]) && states[i + 1] == Apply(states[i], steps[i])
  }

  lemma {:induction false} RunKeepsInv(states: seq<Session>, steps: seq<Step>, i: nat)
    requires IsRun(states, steps) && i < |states|
    ensures Inv(states[i])
  {
    if i > 0 {
      RunKeepsInv(states, steps, i - 1);
      StepKeepsInv(states[i - 1], steps[i - 1]);
    }
  }

  /**
   * Main result. In every interleaving of log appends, exit publication, polls,
   * crashes, cancellations and adoptions, a tail that has returned delivered
   * exactly the lines of the log, once each and in order, had read to its end,
   * and reports the published status.
   */
  lemma TailDeliversTheWholeLog(states: seq<Session>, steps: seq<Step>, i: nat)
    requires IsRun(states, steps) && i < |states| && states[i].reader.Returned?
    ensures states[i].log.Some? && states[i].reader.lines == AllLines(states[i].log.value)
    ensures states[i].reader.length == |states[i].log.value|
    ensures states[i].exit == Some(states[i].reader.exitCode)
  {
    RunKeepsInv(states, steps, i);
  }

  /** Nothing appears in the log after the exit status does, so "the log" above is the final one. */
  lemma {:induction false} LogIsFinal(states: seq<Session>, steps: seq<Step>, i: nat, j: nat)
    requires IsRun(states, steps) && i <= j < |states| && states[i].exit.Some?
    ensures states[j].log == states[i].log && states[j].exit == states[i].exit
  {
    RunKeepsInv(states, steps, i);
    if i < j {
      LogIsFinal(states, steps, i, j - 1);
      RunKeepsInv(states, steps, j - 1);
      assert Enabled(states[j - 1], steps[j - 1]);
    }
  }

  /** Reader steps still needed once the exit status is published. */
  function Rank(r: Reader): nat {
    if !r.Tailing? then 0 else
      match r.at
      case AtReturn => 1
      case AtRead => if r.finished then 2 else 4
      case AtCheck => 3
      case AtSleep => 5
  }

  function Drive(s: Session, n: nat): Session
    decreases n
  {
    if n == 0 || !s.reader.Tailing? then s else Drive(ReaderNext(s), n - 1)
  }

  /** Read passes among the next `n` steps of the reader alone. */
  function ReadsIn(s: Session, n: nat): nat
    decreases n
  {
    if n == 0 || !s.reader.Tailing? then 0 else
      (if s.reader.at.AtRead? then 1 else 0) + ReadsIn(ReaderNext(s), n - 1)
  }

  /**
   * With the exit status published, a tail returns after `Rank` more of its own
   * steps, no fewer, with at most two read passes among them; exactly one from the
   * moment it looks for the exit file.
   */
  lemma {:induction false} TailReturnsOnceExited(s: Session)
    requires Inv(s) && s.exit.Some? && s.reader.Tailing?
    ensures Drive(s, Rank(s.reader)).reader.Returned? && Drive(s, Rank(s.reader)).removed
    ensures Drive(s, Rank(s.reader) - 1).reader.Tailing?
    ensures ReadsIn(s, Rank(s.reader)) <= 2
    ensures s.reader.at.AtCheck? ==> ReadsIn(s, Rank(s.reader)) == 1
    ensures s.reader.at.AtReturn? ==> ReadsIn(s, Rank(s.reader)) == 0
    ensures s.reader.finished && s.reader.at.AtRead? ==> ReadsIn(s, Rank(s.reader)) == 1
    decreases Rank(s.reader)
  {
    StepKeepsInv(s, ReaderStep);
    if !s.reader.at.AtReturn? {
      TailReturnsOnceExited(ReaderNext(s));
    }
  }

  /**
   * Neither a crash nor a cancellation costs a line while the command is alive: from any
   * moment of any run at which the app goes, a later adoption that is left undisturbed
   * delivers the log from its first byte.
   */
  lemma GoneThenAdoptDeliversEverything(s: Session, gone: Step, more: seq<byte>, code: int)
    requires Inv(s) && (gone.Crash? || gone.Cancel?) && Enabled(s, gone) && s.exit.None?
    ensures var down := Apply(s, gone);
            && Enabled(down, ScanOrphans)
            && (var tail := Apply(Apply(down, ScanOrphans), BeginTail);
                && Enabled(tail, AppendLog(more))
                && (var ended := Apply(Apply(tail, AppendLog(more)), PublishExit(code));
                    && Drive(ended, 4).reader ==
                         Returned(|s.log.value + more|, AllLines(s.log.value + more), code)))
  {
    var down := Apply(s, gone);
    StepKeepsInv(s, gone);
    StepKeepsInv(down, ScanOrphans);
    var tail := Apply(Apply(down, ScanOrphans), BeginTail);
    StepKeepsInv(Apply(down, ScanOrphans), BeginTail);
    StepKeepsInv(tail, AppendLog(more));
    var ended := Apply(Apply(tail, AppendLog(more)), PublishExit(code));
    StepKeepsInv(Apply(tail, AppendLog(more)), PublishExit(code));
    TailReturnsOnceExited(ended);
    DriveKeeps(ended, 4);
  }

  lemma {:induction false} DriveKeeps(s: Session, n: nat)
    requires Inv(s)
    ensures Inv(Drive(s, n)) && Drive(s, n).log == s.log && Drive(s, n).exit == s.exit
    decreases n
  {
    if n > 0 && s.reader.Tailing? {
      StepKeepsInv(s, ReaderStep);
      DriveKeeps(Apply(s, ReaderStep), n - 1);
    }
  }

  /** What `detach` removes when the sleep is cancelled, and what a scan can find afterwards. */
  lemma CancelRemovesExactlyWhenExited(s: Session)
    requires Inv(s) && Enabled(s, Cancel) && !s.removed
    ensures Apply(s, Cancel).removed <==> s.exit.Some?
    ensures Enabled(Apply(s, Cancel), ScanOrphans) <==> s.exit.None?
  {
  }

  /**
   * Once the exit status is published it does: an app that goes then has lost the session for
   * good, in every run. Nobody follows it again and its status is never reported.
   */
  lemma {:induction false} GoneAfterExitIsFinal(states: seq<Session>, steps: seq<Step>, i: nat, j: nat)
    requires IsRun(states, steps) && i < j < |states|
    requires (steps[i].Crash? || steps[i].Cancel?) && states[i].exit.Some?
    ensures states[j].reader.Absent? && states[j].launched && states[j].exit.Some?
    decreases j
  {
    RunKeepsInv(states, steps, j - 1);
    assert Enabled(states[j - 1], steps[j - 1]);
    if i + 1 < j {
      GoneAfterExitIsFinal(states, steps, i, j - 1);
    }
  }
}

/** `tail` itself, as the loop it is, against every writer history and every timing of its polls. */
module LogTail {
  import opened Options
  import opened Lines
  import opened LineBuffers

  /** What the session directory holds at one instant. */
  datatype Snapshot = Snapshot(log: Option<seq<byte>>, exit: Option<int>)

  ghost predicate Follows(a: Snapshot, b: Snapshot) {
    && (a.log.Some? ==> b.log.Some? && a.log.value <= b.log.value)
    && (a.exit.Some? ==> b == a)
    && (b.exit.Some? ==> b.log.Some?)
  }

  /** The command's life: the log only grows, and freezes when the exit status appears. */
  ghost predicate IsHistory(h: seq<Snapshot>) {
    && h != []
    && h[|h| - 1].exit.Some?
    && h[|h| - 1].log.Some?
    && forall i, j | 0 <= i <= j < |h| :: Follows(h[i], h[j])
  }

  /** Drain what the log holds past `offset` into the buffer. */
  method Drain(buffer: LineBuffer, log: seq<byte>, offset: nat) returns (lines: seq<Line>)
    requires buffer.Valid() && offset <= |log|
    requires buffer.all == log[..offset] && buffer.pending == Rest(buffer.all)
    modifies buffer
    ensures buffer.Valid() && buffer.all == log && buffer.pending == Rest(log)
    ensures Complete(log) == Complete(log[..offset]) + lines
  {
    var data := log[offset..];
    assert log[..offset] + data == log;
    SplitAppend(log[..offset], data);
    lines := [];
    if data != [] {
      lines := buffer.Append(data);
    } else {
      SplitOfRest(log);
    }
  }

  /** Some instant at or after `clock`. */
  method Later(history: seq<Snapshot>, clock: nat) returns (t: nat)
    requires IsHistory(history) && clock < |history|
    ensures clock <= t < |history| && Follows(history[clock], history[t])
    ensures history[t].exit.Some? ==> history[t] == history[|history| - 1]
  {
    t :| clock <= t < |history|;
    assert Follows(history[t], history[|history| - 1]);
  }

  /**
   * `history[t]` is the directory at instant `t`; each look at it happens at some
   * instant not before the last, and the sleep lets at least one instant pass.
   */
  method Tail(history: seq<Snapshot>, start: nat) returns (delivered: seq<Line>, exitCode: int, text: seq<byte>)
    requires IsHistory(history) && start < |history|
    ensures var final := history[|history| - 1];
            && delivered == AllLines(final.log.value)
            && exitCode == final.exit.value
            && text == final.log.value
  {
    var buffer := new LineBuffer();
    var offset: nat, finished, clock := 0, false, start;
    delivered := [];
    while true
      invariant clock < |history| && buffer.Valid() && fresh(buffer)
      invariant finished ==> history[clock] == history[|history| - 1]
      invariant offset == |buffer.all|
      invariant history[clock].log.Some? ==> buffer.all <= history[clock].log.value
      invariant history[clock].log.None? ==> offset == 0
      invariant delivered == Complete(buffer.all) && buffer.pending == Rest(buffer.all)
      decreases |history| - clock, if finished then 0 else 1
    {
      clock := Later(history, clock);
      if history[clock].log.Some? {
        var log := history[clock].log.value;
        assert log[..offset] == buffer.all;
        var lines := Drain(buffer, log, offset);
        offset := |log|;
        delivered := delivered + lines;
      }
      if finished {
        break;
      }
      clock := Later(history, clock);
      if history[clock].exit.Some? {
        finished := true;
        continue;
      }
      clock := Later(history, clock + 1);
    }
    var last := buffer.Flush();
    delivered := delivered + last;
    exitCode := history[clock].exit.value;
    text := buffer.all;
  }
}

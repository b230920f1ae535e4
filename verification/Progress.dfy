// Nested progress activities, each with a heartbeat goroutine, as interleaved steps.
module Progress {
  import opened Wrappers

  type Id = nat

  datatype Kind = START | INFO | WAIT | DONE | FAIL
  datatype Line = Line(id: Id, kind: Kind)

  /** Where the main goroutine is inside startProgressActivity, the action, or finish. */
  datatype Phase =
    | Pushed      // on the activity stack, START not yet written
    | Announced   // START written, heartbeat not yet started
    | Running     // the action runs
    | Stopping    // stop closed, waiting for done
    | Joined      // heartbeat has ended
    | Closed      // DONE or FAIL written, still on the activity stack

  /** An activity on the call stack of the main goroutine. */
  datatype Frame = Frame(id: Id, phase: Phase)

  /** A heartbeat goroutine; Foreground lies between the check and the write. */
  datatype Beat = Idle | Foreground | Exited

  datatype State = State(
    stack: seq<Id>,           // progressActivities
    frames: seq<Frame>,       // call stack of the main goroutine
    beats: map<Id, Beat>,     // heartbeats started so far
    log: seq<Line>,           // lines written so far
    next: Id)                 // identity of the next activity allocated

  const INITIAL := State([], [], map[], [], 0)

  datatype Action =
    | Begin
    | WriteStart
    | Spawn
    | Update(depth: nat)
    | CloseStop
    | Join
    | WriteFinish(failed: bool)
    | Remove
    | Tick(id: Id)
    | Write(id: Id, visible: bool)
    | Exit(id: Id)

  function Ids(frames: seq<Frame>): seq<Id> {
    seq(|frames|, i requires 0 <= i < |frames| => frames[i].id)
  }

  function Top(s: State): Frame
    requires s.frames != []
  {
    s.frames[|s.frames| - 1]
  }

  predicate InPhase(s: State, phase: Phase) {
    s.frames != [] && Top(s).phase == phase
  }

  function WithTop(s: State, phase: Phase): seq<Frame>
    requires s.frames != []
  {
    s.frames[|s.frames| - 1 := Top(s).(phase := phase)]
  }

  /**
   * The main goroutine acts on its innermost activity; a heartbeat acts at any time.
   * A heartbeat may exit whenever it is between ticks, because its context can end at
   * any time, not only when stop is closed.
   */
  predicate Enabled(s: State, a: Action) {
    match a
    case Begin => s.frames == [] || InPhase(s, Running)
    case WriteStart => InPhase(s, Pushed)
    case Spawn => InPhase(s, Announced)
    case Update(depth) => InPhase(s, Running) && depth < |s.frames|
    case CloseStop => InPhase(s, Running)
    case Join => InPhase(s, Stopping) && Top(s).id in s.beats && s.beats[Top(s).id].Exited?
    case WriteFinish(_) => InPhase(s, Joined)
    case Remove => InPhase(s, Closed)
    case Tick(id) => id in s.beats && s.beats[id].Idle?
    case Write(id, _) => id in s.beats && s.beats[id].Foreground?
    case Exit(id) => id in s.beats && s.beats[id].Idle?
  }

  function Apply(s: State, a: Action): State
    requires Enabled(s, a)
  {
    match a
    case Begin => s.(stack := s.stack + [s.next], frames := s.frames + [Frame(s.next, Pushed)], next := s.next + 1)
    case WriteStart => s.(frames := WithTop(s, Announced), log := s.log + [Line(Top(s).id, START)])
    case Spawn => s.(frames := WithTop(s, Running), beats := s.beats[Top(s).id := Idle])
    case Update(depth) => s.(log := s.log + [Line(s.frames[depth].id, INFO)])
    case CloseStop => s.(frames := WithTop(s, Stopping))
    case Join => s.(frames := WithTop(s, Joined))
    case WriteFinish(failed) =>
      s.(frames := WithTop(s, Closed), log := s.log + [Line(Top(s).id, if failed then FAIL else DONE)])
    case Remove => s.(stack := RemoveLast(s.stack, Top(s).id), frames := s.frames[..|s.frames| - 1])
    case Tick(id) =>
      if s.stack != [] && s.stack[|s.stack| - 1] == id then s.(beats := s.beats[id := Foreground]) else s
    case Write(id, visible) =>
      s.(beats := s.beats[id := Idle], log := if visible then s.log + [Line(id, WAIT)] else s.log)
    case Exit(id) => s.(beats := s.beats[id := Exited])
  }

  /** The stack without the last occurrence of `id`. */
  function RemoveLast(stack: seq<Id>, id: Id): seq<Id> {
    if stack == [] then []
    else if stack[|stack| - 1] == id then stack[..|stack| - 1]
    else RemoveLast(stack[..|stack| - 1], id) + [stack[|stack| - 1]]
  }

  lemma {:induction false} RemovedAt(stack: seq<Id>, i: nat, id: Id)
    requires i < |stack| && stack[i] == id && id !in stack[i + 1..]
    ensures RemoveLast(stack, id) == stack[..i] + stack[i + 1..]
  {
    var n := |stack| - 1;
    if i < n {
      assert stack[n] == stack[i + 1..][n - i - 1];
      assert stack[i + 1..] == stack[..n][i + 1..] + [stack[n]];
      RemovedAt(stack[..n], i, id);
    }
  }

  lemma {:induction false} NothingToRemove(stack: seq<Id>, id: Id)
    requires id !in stack
    ensures RemoveLast(stack, id) == stack
  {
    if stack != [] {
      NothingToRemove(stack[..|stack| - 1], id);
    }
  }

  /** The removal loop of finish. */
  method RemoveActivity(stack: seq<Id>, id: Id) returns (rest: seq<Id>)
    ensures rest == RemoveLast(stack, id)
  {
    var i := |stack| - 1;
    while i >= 0
      invariant -1 <= i < |stack|
      invariant id !in stack[i + 1..]
    {
      if stack[i] == id {
        RemovedAt(stack, i, id);
        return stack[..i] + stack[i + 1..];
      }
      i := i - 1;
    }
    NothingToRemove(stack, id);
    rest := stack;
  }

  // ---------- The protocol of the lines ----------

  datatype Replayed = Replayed(open_: seq<Id>, seen: set<Id>)

  /**
   * Reads a log as brackets: START opens an activity never seen before, INFO and
   * WAIT belong to an open one, DONE and FAIL close the innermost open one.
   */
  function Replay(log: seq<Line>): Option<Replayed> {
    if log == [] then Some(Replayed([], {}))
    else
      var line := log[|log| - 1];
      match Replay(log[..|log| - 1])
      case None => None
      case Some(r) => ReplayLine(r, line)
  }

  function ReplayLine(r: Replayed, line: Line): Option<Replayed> {
    match line.kind
    case START => if line.id in r.seen then None else Some(Replayed(r.open_ + [line.id], r.seen + {line.id}))
    case INFO => if line.id in r.open_ then Some(r) else None
    case WAIT => if line.id in r.open_ then Some(r) else None
    case DONE => Close(r, line.id)
    case FAIL => Close(r, line.id)
  }

  function Close(r: Replayed, id: Id): Option<Replayed> {
    if r.open_ != [] && r.open_[|r.open_| - 1] == id then Some(r.(open_ := r.open_[..|r.open_| - 1])) else None
  }

  /** The lines of one activity. */
  function LinesOf(log: seq<Line>, id: Id): seq<Kind> {
    if log == [] then []
    else
      var rest := LinesOf(log[..|log| - 1], id);
      if log[|log| - 1].id == id then rest + [log[|log| - 1].kind] else rest
  }

  /** One START, then INFO or WAIT lines. */
  predicate IsOpen(lines: seq<Kind>) {
    |lines| > 0 && lines[0] == START && forall i | 0 < i < |lines| :: lines[i] in {INFO, WAIT}
  }

  /** One START, then INFO or WAIT lines, then one DONE or FAIL. */
  predicate IsFinished(lines: seq<Kind>) {
    |lines| > 1 && IsOpen(lines[..|lines| - 1]) && lines[|lines| - 1] in {DONE, FAIL}
  }

  lemma OneMoreLine(lines: seq<Kind>, kind: Kind)
    ensures lines == [] && kind == START ==> IsOpen(lines + [kind])
    ensures IsOpen(lines) && kind in {INFO, WAIT} ==> IsOpen(lines + [kind])
    ensures IsOpen(lines) && kind in {DONE, FAIL} ==> IsFinished(lines + [kind])
  {
    assert (lines + [kind])[..|lines|] == lines;
  }

  /** In a log that replays, every activity has the right lines. */
  lemma {:induction false} ReplayedLines(log: seq<Line>, id: Id)
    requires Replay(log).Some?
    ensures var r := Replay(log).value;
            && (forall x | x in r.open_ :: x in r.seen)
            && (forall i, j | 0 <= i < j < |r.open_| :: r.open_[i] != r.open_[j])
            && (id !in r.seen ==> LinesOf(log, id) == [])
            && (id in r.open_ ==> IsOpen(LinesOf(log, id)))
            && (id in r.seen && id !in r.open_ ==> IsFinished(LinesOf(log, id)))
  {
    hide IsOpen, IsFinished;
    if log != [] {
      var before := log[..|log| - 1];
      var r := Replay(before).value;
      ReplayedLines(before, id);
      if log[|log| - 1].id == id {
        OneMoreLine(LinesOf(before, id), log[|log| - 1].kind);
      }
    }
  }

  // ---------- The invariant ----------

  /** What the heartbeat of an activity can be doing in each phase. */
  predicate BeatFits(phase: Phase, id: Id, beats: map<Id, Beat>) {
    match phase
    case Pushed => id !in beats
    case Announced => id !in beats
    case Running => id in beats
    case Stopping => id in beats
    case Joined => id in beats && beats[id].Exited?
    case Closed => id in beats && beats[id].Exited?
  }

  /** The activities whose START is written and whose DONE or FAIL is not. */
  function OpenIds(s: State): seq<Id> {
    if InPhase(s, Pushed) || InPhase(s, Closed) then Ids(s.frames)[..|s.frames| - 1] else Ids(s.frames)
  }

  /** The activity was allocated and its START is written. */
  predicate HasStarted(s: State, id: Id) {
    id < s.next && !(InPhase(s, Pushed) && Top(s).id == id)
  }

  ghost predicate StackFits(s: State) {
    && s.stack == Ids(s.frames)
    && (forall i, j | 0 <= i < j < |s.frames| :: s.frames[i].id < s.frames[j].id)
    && (forall i | 0 <= i < |s.frames| :: s.frames[i].id < s.next)
    && (forall i | 0 <= i < |s.frames| - 1 :: s.frames[i].phase == Running)
  }

  ghost predicate BeatsFit(s: State) {
    && (forall i | 0 <= i < |s.frames| :: BeatFits(s.frames[i].phase, s.frames[i].id, s.beats))
    && (forall id | id in s.beats :: id < s.next)
    && (forall id | id in s.beats && !s.beats[id].Exited? :: id in s.stack)
  }

  /** The log replays to the open activities, and has seen those that have started. */
  ghost predicate LogFits(s: State) {
    && Replay(s.log).Some?
    && Replay(s.log).value.open_ == OpenIds(s)
    && (forall id: Id :: id in Replay(s.log).value.seen <==> HasStarted(s, id))
  }

  ghost predicate Inv(s: State) {
    StackFits(s) && BeatsFit(s) && LogFits(s)
  }

  lemma ReplaySnoc(log: seq<Line>, line: Line)
    requires Replay(log).Some?
    ensures Replay(log + [line]) == ReplayLine(Replay(log).value, line)
  {
    assert (log + [line])[..|log|] == log;
  }

  /** A heartbeat that can still write belongs to an open activity. */
  lemma LiveBeatIsOpen(s: State, id: Id)
    requires Inv(s) && id in s.beats && !s.beats[id].Exited?
    ensures id in OpenIds(s)
  {
    var k :| 0 <= k < |s.stack| && s.stack[k] == id;
    assert s.frames[k].id == id;
    assert BeatFits(s.frames[k].phase, id, s.beats);
    assert OpenIds(s)[k] == id;
  }

  lemma StackKept(s: State, a: Action)
    requires StackFits(s) && Enabled(s, a)
    ensures StackFits(Apply(s, a))
  {
    hide Replay, LinesOf;
    var t := Apply(s, a);
    if a.Remove? {
      assert s.stack[|s.stack| - 1] == Top(s).id;
      assert Ids(t.frames) == Ids(s.frames)[..|t.frames|];
    } else if a.Begin? {
      assert Ids(t.frames) == Ids(s.frames) + [s.next];
    } else {
      assert |t.frames| == |s.frames| && forall i | 0 <= i < |s.frames| :: t.frames[i].id == s.frames[i].id;
      assert Ids(t.frames) == Ids(s.frames);
    }
  }

  /** A heartbeat alive after a step of the main goroutine is still on the stack. */
  lemma LiveBeatStays(s: State, a: Action, id: Id)
    requires StackFits(s) && BeatsFit(s) && Enabled(s, a) && !a.Tick? && !a.Write? && !a.Exit?
    requires var t := Apply(s, a); id in t.beats && !t.beats[id].Exited?
    ensures id in Ids(Apply(s, a).frames)
  {
    hide Replay, LinesOf, RemoveLast;
    var t := Apply(s, a);
    var k :| 0 <= k < |s.frames| && s.frames[k].id == id by {
      if a.Spawn? && id == Top(s).id {
        assert s.frames[|s.frames| - 1].id == id;
      } else {
        var k :| 0 <= k < |s.stack| && s.stack[k] == id;
        assert s.frames[k].id == id;
      }
    }
    assert BeatFits(s.frames[k].phase, id, s.beats);
    assert Ids(t.frames)[k] == id;
  }

  lemma BeatsKeptByMain(s: State, a: Action)
    requires StackFits(s) && BeatsFit(s) && Enabled(s, a) && !a.Tick? && !a.Write? && !a.Exit?
    ensures BeatsFit(Apply(s, a))
  {
    hide Replay, LinesOf, RemoveLast;
    var t := Apply(s, a);
    StackKept(s, a);
    forall id | id in t.beats && !t.beats[id].Exited? ensures id in t.stack {
      LiveBeatStays(s, a, id);
    }
    forall i | 0 <= i < |t.frames| ensures BeatFits(t.frames[i].phase, t.frames[i].id, t.beats) {
      assert i < |s.frames| ==> BeatFits(s.frames[i].phase, s.frames[i].id, s.beats);
    }
  }

  lemma BeatsKeptByBeat(s: State, a: Action)
    requires StackFits(s) && BeatsFit(s) && Enabled(s, a) && (a.Tick? || a.Write? || a.Exit?)
    ensures BeatsFit(Apply(s, a))
  {
    hide Replay, LinesOf;
    var t := Apply(s, a);
    assert t.stack == s.stack && t.frames == s.frames;
    forall i | 0 <= i < |s.frames| ensures BeatFits(t.frames[i].phase, t.frames[i].id, t.beats) {
      assert BeatFits(s.frames[i].phase, s.frames[i].id, s.beats);
    }
  }

  /** A step that writes nothing and leaves the open activities and the seen ones alone. */
  lemma LogUntouched(s: State, t: State)
    requires LogFits(s) && t.log == s.log && OpenIds(t) == OpenIds(s)
    requires forall id: Id :: HasStarted(t, id) == HasStarted(s, id)
    ensures LogFits(t)
  {
  }

  lemma LogKeptSilently(s: State, a: Action)
    requires Inv(s) && Enabled(s, a) && (a.Begin? || a.Spawn? || a.CloseStop? || a.Join? || a.Remove? || a.Tick? || a.Exit?)
    ensures LogFits(Apply(s, a))
  {
    hide Replay, LinesOf, RemoveLast, BeatsFit, BeatFits;
    var t := Apply(s, a);
    StackKept(s, a);
    if a.Remove? && t.frames != [] {
      assert s.frames[|t.frames| - 1].phase == Running;
    }
    assert OpenIds(t) == OpenIds(s);
    LogUntouched(s, t);
  }

  lemma LogKeptByLine(s: State, a: Action)
    requires Inv(s) && Enabled(s, a) && (a.WriteStart? || a.Update? || a.WriteFinish? || a.Write?)
    ensures LogFits(Apply(s, a))
  {
    hide Replay, LinesOf, RemoveLast, BeatsFit, BeatFits;
    var t := Apply(s, a);
    if a.WriteStart? {
      ReplaySnoc(s.log, Line(Top(s).id, START));
      assert OpenIds(t) == OpenIds(s) + [Top(s).id];
    } else if a.Update? {
      ReplaySnoc(s.log, Line(s.frames[a.depth].id, INFO));
      assert OpenIds(s)[a.depth] == s.frames[a.depth].id;
    } else if a.WriteFinish? {
      ReplaySnoc(s.log, Line(Top(s).id, if a.failed then FAIL else DONE));
      assert OpenIds(s)[|s.frames| - 1] == Top(s).id;
      assert OpenIds(t) == OpenIds(s)[..|s.frames| - 1];
    } else {
      LiveBeatIsOpen(s, a.id);
      if a.visible {
        ReplaySnoc(s.log, Line(a.id, WAIT));
      }
      assert OpenIds(t) == OpenIds(s);
    }
  }

  lemma InvKept(s: State, a: Action)
    requires Inv(s) && Enabled(s, a)
    ensures Inv(Apply(s, a))
  {
    hide Apply, StackFits, BeatsFit, LogFits;
    StackKept(s, a);
    if a.Tick? || a.Write? || a.Exit? {
      BeatsKeptByBeat(s, a);
    } else {
      BeatsKeptByMain(s, a);
    }
    if a.WriteStart? || a.Update? || a.WriteFinish? || a.Write? {
      LogKeptByLine(s, a);
    } else {
      LogKeptSilently(s, a);
    }
  }

  // ---------- All interleavings ----------

  /** `actions` is an interleaving that can happen from `s`. */
  predicate CanRun(s: State, actions: seq<Action>)
    decreases |actions|
  {
    actions == [] || (Enabled(s, actions[0]) && CanRun(Apply(s, actions[0]), actions[1..]))
  }

  function After(s: State, actions: seq<Action>): State
    requires CanRun(s, actions)
    decreases |actions|
  {
    if actions == [] then s else After(Apply(s, actions[0]), actions[1..])
  }

  lemma NoStep(s: State)
    ensures CanRun(s, []) && After(s, []) == s
  {
  }

  lemma FirstStep(s: State, a: Action, rest: seq<Action>)
    requires Enabled(s, a) && CanRun(Apply(s, a), rest)
    ensures CanRun(s, [a] + rest) && After(s, [a] + rest) == After(Apply(s, a), rest)
  {
    hide Enabled, Apply;
    assert ([a] + rest)[1..] == rest;
  }

  lemma {:induction false} InvOverAllRuns(s: State, actions: seq<Action>)
    requires Inv(s) && CanRun(s, actions)
    ensures Inv(After(s, actions))
    decreases |actions|
  {
    if actions != [] {
      var a := actions[0];
      InvKept(s, a);
      InvOverAllRuns(Apply(s, a), actions[1..]);
    }
  }

  /** The invariant holds in every reachable state. */
  lemma InvReached(actions: seq<Action>)
    requires CanRun(INITIAL, actions)
    ensures Inv(After(INITIAL, actions))
  {
    InvOverAllRuns(INITIAL, actions);
  }

  /**
   * In every interleaving: the lines nest as brackets, every activity ever allocated
   * has no line yet, or one START followed by INFO and WAIT lines, or that and one
   * DONE or FAIL; which of the three is told by the call stack.
   */
  lemma LinesOverAllRuns(actions: seq<Action>, id: Id)
    requires CanRun(INITIAL, actions)
    ensures var s := After(INITIAL, actions);
            var lines := LinesOf(s.log, id);
            && Replay(s.log).Some?
            && (lines == [] <==> !HasStarted(s, id))
            && (IsOpen(lines) <==> id in OpenIds(s))
            && (IsFinished(lines) <==> lines != [] && id !in OpenIds(s))
  {
    InvReached(actions);
    var s := After(INITIAL, actions);
    ReplayedLines(s.log, id);
    var lines := LinesOf(s.log, id);
    assert IsFinished(lines) ==> lines[|lines| - 1] !in {INFO, WAIT};
    assert !(IsOpen(lines) && IsFinished(lines));
  }

  lemma OneLineAtMost(s: State, a: Action)
    requires Enabled(s, a)
    ensures Apply(s, a).log == s.log || exists line :: Apply(s, a).log == s.log + [line]
  {
  }

  lemma LinesOfOneMore(log: seq<Line>, line: Line, id: Id)
    ensures LinesOf(log + [line], id) == LinesOf(log, id) + if line.id == id then [line.kind] else []
  {
    assert (log + [line])[..|log|] == log;
  }

  /** Nothing follows the DONE or FAIL of an activity. */
  lemma FinishedIsFinal(s: State, a: Action, id: Id)
    requires Inv(s) && Enabled(s, a) && IsFinished(LinesOf(s.log, id))
    ensures LinesOf(Apply(s, a).log, id) == LinesOf(s.log, id)
  {
    InvKept(s, a);
    OneLineAtMost(s, a);
    hide Inv, Apply, Replay;
    var t, lines := Apply(s, a), LinesOf(s.log, id);
    if t.log != s.log {
      var line :| t.log == s.log + [line];
      LinesOfOneMore(s.log, line, id);
      LogReplays(t);
      ReplayedLines(t.log, id);
      assert (lines + [line.kind])[..|lines|] == lines && (lines + [line.kind])[|lines| - 1] == lines[|lines| - 1];
    }
  }

  lemma LogReplays(s: State)
    requires Inv(s)
    ensures Replay(s.log).Some?
  {
  }

  lemma {:induction false} FinishedStays(s: State, actions: seq<Action>, id: Id)
    requires Inv(s) && CanRun(s, actions) && IsFinished(LinesOf(s.log, id))
    ensures LinesOf(After(s, actions).log, id) == LinesOf(s.log, id)
    decreases |actions|
  {
    hide Inv, Enabled, Apply, LinesOf;
    if actions != [] {
      FinishedIsFinal(s, actions[0], id);
      InvKept(s, actions[0]);
      FinishedStays(Apply(s, actions[0]), actions[1..], id);
    }
  }

  /** Whatever happens later, the last line of an activity tells whether its action failed. */
  lemma LastLineTellsOutcome(earlier: seq<Action>, failed: bool, later: seq<Action>)
    requires CanRun(INITIAL, earlier) && Enabled(After(INITIAL, earlier), WriteFinish(failed))
    requires CanRun(Apply(After(INITIAL, earlier), WriteFinish(failed)), later)
    ensures var s := After(INITIAL, earlier);
            var lines := LinesOf(After(Apply(s, WriteFinish(failed)), later).log, Top(s).id);
            && IsFinished(lines)
            && (lines[|lines| - 1] == FAIL <==> failed) && (lines[|lines| - 1] == DONE <==> !failed)
  {
    InvReached(earlier);
    var s := After(INITIAL, earlier);
    var t, id := Apply(s, WriteFinish(failed)), Top(s).id;
    InvKept(s, WriteFinish(failed));
    LinesOfOneMore(s.log, Line(id, if failed then FAIL else DONE), id);
    TopIsOpen(s);
    ReplayedLines(s.log, id);
    OneMoreLine(LinesOf(s.log, id), if failed then FAIL else DONE);
    hide Inv, Replay, LinesOf, CanRun, After;
    FinishedStays(t, later, id);
  }

  lemma TopIsOpen(s: State)
    requires Inv(s) && InPhase(s, Joined)
    ensures Replay(s.log).Some? && Top(s).id in Replay(s.log).value.open_
  {
    assert OpenIds(s)[|s.frames| - 1] == Top(s).id;
  }

  /** When no activity is on the call stack, all are finished, none is registered and no heartbeat lives. */
  lemma NothingLeftBehind(actions: seq<Action>)
    requires CanRun(INITIAL, actions) && After(INITIAL, actions).frames == []
    ensures var s := After(INITIAL, actions);
            && s.stack == []
            && (forall id: Id | id < s.next :: IsFinished(LinesOf(s.log, id)))
            && (forall id | id in s.beats :: s.beats[id].Exited?)
  {
    InvReached(actions);
    var s := After(INITIAL, actions);
    forall id: Id | id < s.next ensures IsFinished(LinesOf(s.log, id)) {
      LinesOverAllRuns(actions, id);
    }
  }

  /** The call depth stays at or above `depth` all along `actions`. */
  predicate StaysAbove(s: State, actions: seq<Action>, depth: nat)
    requires CanRun(s, actions)
    decreases |actions|
  {
    |s.frames| >= depth && (actions == [] || StaysAbove(Apply(s, actions[0]), actions[1..], depth))
  }

  lemma {:induction false} LowerPartKept(s: State, actions: seq<Action>, depth: nat)
    requires Inv(s) && CanRun(s, actions) && StaysAbove(s, actions, depth)
    ensures |After(s, actions).stack| >= depth && After(s, actions).stack[..depth] == s.stack[..depth]
    decreases |actions|
  {
    if actions != [] {
      var t := Apply(s, actions[0]);
      InvKept(s, actions[0]);
      assert |t.stack| == |t.frames| && |s.stack| == |s.frames|;
      assert t.stack[..depth] == s.stack[..depth] by {
        if actions[0].Remove? {
          assert s.stack[|s.stack| - 1] == Top(s).id;
          assert t.stack == s.stack[..|s.stack| - 1];
        }
      }
      LowerPartKept(t, actions[1..], depth);
    }
  }

  /**
   * The activity stack after an activity and all it contains have finished is the stack
   * from before it started, whatever the heartbeats did in between.
   */
  lemma StackRestored(earlier: seq<Action>, actions: seq<Action>)
    requires CanRun(INITIAL, earlier)
    requires var s := After(INITIAL, earlier);
             && CanRun(s, actions)
             && StaysAbove(s, actions, |s.frames|)
             && |After(s, actions).frames| == |s.frames|
    ensures After(After(INITIAL, earlier), actions).stack == After(INITIAL, earlier).stack
  {
    InvReached(earlier);
    var s := After(INITIAL, earlier);
    InvOverAllRuns(s, actions);
    LowerPartKept(s, actions, |s.frames|);
    var t := After(s, actions);
    assert t.stack[..|s.frames|] == t.stack && s.stack[..|s.frames|] == s.stack;
  }

  /** What the heartbeat of a stopping activity still has to do. */
  function Drain(s: State): seq<Action>
    requires InPhase(s, Stopping) && Top(s).id in s.beats
  {
    var id := Top(s).id;
    match s.beats[id]
    case Idle => [Exit(id)]
    case Foreground => [Write(id, true), Exit(id)]
    case Exited => []
  }

  lemma Drains(s: State)
    requires InPhase(s, Stopping) && Top(s).id in s.beats
    ensures CanRun(s, Drain(s)) && Enabled(After(s, Drain(s)), Join)
  {
    hide CanRun, After, Replay, RemoveLast;
    var id := Top(s).id;
    if s.beats[id].Foreground? {
      var t := Apply(s, Write(id, true));
      NoStep(Apply(t, Exit(id)));
      FirstStep(t, Exit(id), []);
      assert [Exit(id)] + [] == [Exit(id)];
      FirstStep(s, Write(id, true), [Exit(id)]);
      assert Drain(s) == [Write(id, true)] + [Exit(id)];
    } else if s.beats[id].Idle? {
      NoStep(Apply(s, Exit(id)));
      FirstStep(s, Exit(id), []);
      assert Drain(s) == [Exit(id)] + [];
    } else {
      NoStep(s);
    }
  }

  /** From every reachable state in which finish waits, at most two heartbeat steps let it go on. */
  lemma FinishNeverDeadlocks(actions: seq<Action>)
    requires CanRun(INITIAL, actions) && InPhase(After(INITIAL, actions), Stopping)
    ensures var s := After(INITIAL, actions);
            && Top(s).id in s.beats
            && |Drain(s)| <= 2
            && CanRun(s, Drain(s))
            && Enabled(After(s, Drain(s)), Join)
  {
    hide CanRun, After, Replay, RemoveLast;
    InvReached(actions);
    var s := After(INITIAL, actions);
    assert BeatFits(Top(s).phase, Top(s).id, s.beats);
    Drains(s);
  }

  /** No other goroutine can take that away: only the heartbeat itself changes where it is. */
  lemma OthersLeaveTheHeartbeatAlone(s: State, a: Action)
    requires BeatsFit(s) && InPhase(s, Stopping) && Enabled(s, a)
    requires a.Tick? || a.Write? || a.Exit?
    ensures InPhase(Apply(s, a), Stopping) && Top(Apply(s, a)).id == Top(s).id
    ensures a.id != Top(s).id ==>
        Top(s).id in s.beats && Top(s).id in Apply(s, a).beats &&
        Apply(s, a).beats[Top(s).id] == s.beats[Top(s).id]
  {
    hide Replay, RemoveLast;
    assert BeatFits(Top(s).phase, Top(s).id, s.beats);
  }

  // ---------- When an outer activity still waits ----------

  /** The WAIT lines of one activity. */
  function Waits(log: seq<Line>, id: Id): nat {
    if log == [] then 0 else Waits(log[..|log| - 1], id) + (if log[|log| - 1] == Line(id, WAIT) then 1 else 0)
  }

  lemma {:induction false} WaitsOfBoth(a: seq<Line>, b: seq<Line>, id: Id)
    ensures Waits(a + b, id) == Waits(a, id) + Waits(b, id)
  {
    if b == [] {
      assert a + b == a;
    } else {
      assert (a + b)[..|a + b| - 1] == a + b[..|b| - 1];
      WaitsOfBoth(a, b[..|b| - 1], id);
    }
  }

  lemma {:induction false} WaitIsCounted(log: seq<Line>, id: Id)
    ensures Line(id, WAIT) in log <==> Waits(log, id) > 0
  {
    if log != [] {
      WaitIsCounted(log[..|log| - 1], id);
      assert log == log[..|log| - 1] + [log[|log| - 1]];
    }
  }

  /** The heartbeat has checked that it is in the foreground and not written yet. */
  predicate HasChecked(s: State, id: Id) {
    id in s.beats && s.beats[id].Foreground?
  }

  /** The WAIT lines an activity can write while another lies above it. */
  function Pending(s: State, id: Id): nat {
    if HasChecked(s, id) then 1 else 0
  }

  /** Below the top of the stack, a WAIT line uses up the check, and no heartbeat checks anew. */
  lemma OuterStep(s: State, a: Action, k: nat)
    requires Inv(s) && Enabled(s, a) && k + 1 < |s.frames| && k + 1 < |Apply(s, a).frames|
    ensures var id, t := s.frames[k].id, Apply(s, a);
            && s.log <= t.log && t.frames[k].id == id
            && Waits(t.log, id) + Pending(t, id) <= Waits(s.log, id) + Pending(s, id)
  {
    hide Replay, RemoveLast, LogFits, LinesOf;
    var id, t := s.frames[k].id, Apply(s, a);
    assert s.stack[|s.stack| - 1] == Top(s).id != id;
    if |t.log| > |s.log| {
      var line := t.log[|s.log|];
      assert t.log == s.log + [line] && t.log[..|s.log|] == s.log;
    }
    if a.Spawn? {
      assert Top(s).id != id;
    }
  }

  lemma {:induction false} OuterSteps(s: State, actions: seq<Action>, k: nat)
    requires Inv(s) && k < |s.frames| && CanRun(s, actions) && StaysAbove(s, actions, k + 2)
    ensures var id, t := s.frames[k].id, After(s, actions);
            s.log <= t.log && Waits(t.log, id) + Pending(t, id) <= Waits(s.log, id) + Pending(s, id)
    decreases |actions|
  {
    hide Inv, Apply, Enabled, Waits, Pending;
    if actions != [] {
      InvKept(s, actions[0]);
      OuterStep(s, actions[0], k);
      OuterSteps(Apply(s, actions[0]), actions[1..], k);
    }
  }

  /** What was written after `before`. */
  function NewLines(before: seq<Line>, after: seq<Line>): seq<Line> {
    if |before| <= |after| then after[|before|..] else []
  }

  /** Some interleaving in which the call depth stays at or above `depth` lets the activity write WAIT. */
  ghost predicate CanWait(s: State, id: Id, depth: nat) {
    exists actions ::
      CanRun(s, actions) && StaysAbove(s, actions, depth) && Line(id, WAIT) in NewLines(s.log, After(s, actions).log)
  }

  lemma OuterLines(s: State, actions: seq<Action>, k: nat)
    requires Inv(s) && k < |s.frames| && CanRun(s, actions) && StaysAbove(s, actions, k + 2)
    ensures var id, log := s.frames[k].id, After(s, actions).log;
            && (Line(id, WAIT) in NewLines(s.log, log) ==> HasChecked(s, id))
            && Waits(log, id) <= Waits(s.log, id) + 1
  {
    hide Inv, CanRun, After, StaysAbove, HasChecked, Waits;
    var id, log := s.frames[k].id, After(s, actions).log;
    OuterSteps(s, actions, k);
    assert log == s.log + NewLines(s.log, log);
    WaitsOfBoth(s.log, NewLines(s.log, log), id);
    WaitIsCounted(NewLines(s.log, log), id);
  }

  lemma PendingCanWait(s: State, id: Id)
    requires HasChecked(s, id)
    ensures CanWait(s, id, |s.frames|)
  {
    WritesItsWait(s, id);
    var actions := [Write(id, true)];
    assert NewLines(s.log, After(s, actions).log) == [Line(id, WAIT)];
  }

  lemma LowerDepthWaits(s: State, id: Id, high: nat, low: nat)
    requires CanWait(s, id, high) && low <= high
    ensures CanWait(s, id, low)
  {
    var actions :| CanRun(s, actions) && StaysAbove(s, actions, high) && Line(id, WAIT) in NewLines(s.log, After(s, actions).log);
    StaysLower(s, actions, high, low);
  }

  lemma {:induction false} StaysLower(s: State, actions: seq<Action>, high: nat, low: nat)
    requires CanRun(s, actions) && StaysAbove(s, actions, high) && low <= high
    ensures StaysAbove(s, actions, low)
    decreases |actions|
  {
    if actions != [] {
      StaysLower(Apply(s, actions[0]), actions[1..], high, low);
    }
  }

  lemma CanWaitIfChecked(s: State, k: nat, depth: nat)
    requires Inv(s) && k + 2 <= depth <= |s.frames|
    ensures CanWait(s, s.frames[k].id, depth) <==> HasChecked(s, s.frames[k].id)
  {
    hide Inv, CanRun, After, StaysAbove, NewLines, HasChecked;
    var id := s.frames[k].id;
    if CanWait(s, id, depth) {
      LowerDepthWaits(s, id, depth, k + 2);
      var actions :| CanRun(s, actions) && StaysAbove(s, actions, k + 2) && Line(id, WAIT) in NewLines(s.log, After(s, actions).log);
      OuterLines(s, actions, k);
    }
    if HasChecked(s, id) {
      PendingCanWait(s, id);
      LowerDepthWaits(s, id, |s.frames|, depth);
    }
  }

  /**
   * From every reachable state, as long as another activity stays above it: an activity
   * can write WAIT exactly if its heartbeat has checked that it is in the foreground and
   * not written yet, and it writes it once at most.
   */
  lemma OuterWaitIsPending(earlier: seq<Action>, k: nat)
    requires CanRun(INITIAL, earlier) && k + 1 < |After(INITIAL, earlier).frames|
    ensures var s := After(INITIAL, earlier);
            var id := s.frames[k].id;
            && id in s.beats
            && (CanWait(s, id, k + 2) <==> s.beats[id].Foreground?)
            && forall actions | CanRun(s, actions) && StaysAbove(s, actions, k + 2) ::
                 Waits(After(s, actions).log, id) <= Waits(s.log, id) + 1
  {
    InvReached(earlier);
    var s := After(INITIAL, earlier);
    var id := s.frames[k].id;
    assert BeatFits(s.frames[k].phase, id, s.beats);
    hide Inv, StackFits, BeatsFit, LogFits, CanRun, After, StaysAbove, Waits, NewLines, CanWait;
    CanWaitIfChecked(s, k, k + 2);
    forall actions | CanRun(s, actions) && StaysAbove(s, actions, k + 2)
      ensures Waits(After(s, actions).log, id) <= Waits(s.log, id) + 1
    {
      OuterLines(s, actions, k);
    }
  }

  lemma BegunAbove(s: State, k: nat)
    requires Inv(s) && Enabled(s, Begin) && k < |s.frames|
    ensures var t := Apply(s, Begin);
            && Inv(t) && |t.frames| == |s.frames| + 1 && t.frames[k] == s.frames[k] && t.beats == s.beats
            && s.frames[k].id in s.beats
  {
    InvKept(s, Begin);
    assert BeatFits(s.frames[k].phase, s.frames[k].id, s.beats);
  }

  /** So it is when an activity begins, for every activity then on the stack, until the new one has finished. */
  lemma OuterWaitAfterBegin(earlier: seq<Action>, k: nat)
    requires CanRun(INITIAL, earlier) && Enabled(After(INITIAL, earlier), Begin) && k < |After(INITIAL, earlier).frames|
    ensures var s := After(INITIAL, earlier);
            var t, id := Apply(s, Begin), s.frames[k].id;
            && id in s.beats
            && (CanWait(t, id, |t.frames|) <==> s.beats[id].Foreground?)
            && forall actions | CanRun(t, actions) && StaysAbove(t, actions, |t.frames|) ::
                 Waits(After(t, actions).log, id) <= Waits(t.log, id) + 1
  {
    InvReached(earlier);
    var s := After(INITIAL, earlier);
    BegunAbove(s, k);
    var t, id := Apply(s, Begin), s.frames[k].id;
    hide Inv, Apply, CanRun, After, StaysAbove, Waits, NewLines, CanWait;
    CanWaitIfChecked(t, k, |t.frames|);
    forall actions | CanRun(t, actions) && StaysAbove(t, actions, |t.frames|)
      ensures Waits(After(t, actions).log, id) <= Waits(t.log, id) + 1
    {
      StaysLower(t, actions, |t.frames|, k + 2);
      OuterLines(t, actions, k);
    }
  }

  lemma WritesItsWait(s: State, id: Id)
    requires HasChecked(s, id)
    ensures CanRun(s, [Write(id, true)])
    ensures After(s, [Write(id, true)]).log == s.log + [Line(id, WAIT)]
    ensures StaysAbove(s, [Write(id, true)], |s.frames|)
  {
    var a := Write(id, true);
    assert [a][1..] == [];
    assert CanRun(Apply(s, a), []);
  }

  /**
   * A heartbeat checks that it is in the foreground and writes later: an outer WAIT
   * can follow the START of an inner activity.
   */
  lemma OuterWaitAfterInnerStart()
    ensures exists actions: seq<Action> ::
              CanRun(INITIAL, actions) && After(INITIAL, actions).log == [Line(0, START), Line(1, START), Line(0, WAIT)]
  {
    hide CanRun, After, Replay, RemoveLast;
    var begun := [Line(0, START)];
    var s1 := State([0], [Frame(0, Pushed)], map[], [], 1);
    var s2 := State([0], [Frame(0, Announced)], map[], begun, 1);
    var s3 := State([0], [Frame(0, Running)], map[0 := Idle], begun, 1);
    var s4 := s3.(beats := map[0 := Foreground]);
    var s5 := State([0, 1], [Frame(0, Running), Frame(1, Pushed)], map[0 := Foreground], begun, 2);
    var s6 := State([0, 1], [Frame(0, Running), Frame(1, Announced)], map[0 := Foreground], begun + [Line(1, START)], 2);
    assert Apply(INITIAL, Begin) == s1;
    assert Apply(s1, WriteStart) == s2;
    assert Apply(s2, Spawn) == s3;
    assert Apply(s3, Tick(0)) == s4;
    assert Apply(s4, Begin) == s5;
    assert Apply(s5, WriteStart) == s6;
    var a7 := [Write(0, true)] + [];
    var a6 := [WriteStart] + a7;
    var a5 := [Begin] + a6;
    var a4 := [Tick(0)] + a5;
    var a3 := [Spawn] + a4;
    var a2 := [WriteStart] + a3;
    NoStep(Apply(s6, Write(0, true)));
    FirstStep(s6, Write(0, true), []);
    FirstStep(s5, WriteStart, a7);
    FirstStep(s4, Begin, a6);
    FirstStep(s3, Tick(0), a5);
    FirstStep(s2, Spawn, a4);
    FirstStep(s1, WriteStart, a3);
    FirstStep(INITIAL, Begin, a2);
  }
}

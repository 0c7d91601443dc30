/**
 The supervised state loop.

 `run` dispatches the handler of the current state, moves to the state it names,
 and cleans up on the way out. The environment is an adversary: during any handler
 it may ask for a stop and flip the suspension any number of times, and make the
 handler raise or be cancelled.
 */
module DaemonRun {
  import opened DaemonFsm

  datatype Nudge = StopRequest | Status(suspended: bool)

  datatype Ending = Returns | Raises | Cancelled

  /** One handler call: what happens during it and how it ends. The background
      tasks are created near the end of handle_running: nothing escapes it after
      that, a cancellation included, and `late` is what happens while it waits. */
  datatype Handling = Handling(nudges: seq<Nudge>, ending: Ending, late: seq<Nudge>)

  type Script = nat -> Handling

  /** A state of the daemon and whether a stop had been requested by then. */
  datatype Moment = Moment(state: DaemonState, stopAsked: bool)

  datatype RunState = RunState(
    current: DaemonState,
    stopAsked: bool,
    tasks: bool,
    cleanups: nat,
    dispatches: nat,
    trace: seq<Moment>)

  const START := RunState(Idle, false, false, 0, 0, [Moment(Idle, false)])

  function Enter(r: RunState, s: DaemonState, stopAsked: bool): RunState {
    r.(current := s, stopAsked := stopAsked, trace := r.trace + [Moment(s, stopAsked)])
  }

  function MoveTo(r: RunState, to: DaemonState): RunState {
    Enter(r, Moved(r.current, to), r.stopAsked)
  }

  function Nudged(r: RunState, n: Nudge): RunState {
    match n
    case StopRequest => Enter(r, AfterStopRequest(r.current), true)
    case Status(suspended) => Enter(r, AfterStatus(r.current, suspended), r.stopAsked)
  }

  function NudgedAll(r: RunState, ns: seq<Nudge>): (r': RunState)
    ensures Rank(r'.current) <= Rank(r.current)
    ensures r' == r.(current := r'.current, stopAsked := r'.stopAsked, trace := r'.trace)
    decreases |ns|
  {
    if ns == [] then r else NudgedAll(Nudged(r, ns[0]), ns[1..])
  }

  /** The state each handler names; RunningSuspended has no handler. */
  function NextState(s: DaemonState): DaemonState {
    match s
    case Idle => Connecting
    case Connecting => Connected
    case Connected => Running
    case Running => Stopping
    case RunningSuspended => Stopping
    case Stopping => Stopped
    case Stopped => Stopped
  }

  /** The handler itself: nudges, the tasks of handle_running, the cleanup of
      handle_stopping. */
  function Handle(r: RunState, h: Handling): (r': RunState)
    ensures Rank(r'.current) <= Rank(r.current)
  {
    var begun := r.(dispatches := r.dispatches + 1,
                    cleanups := r.cleanups + (if r.current == Stopping then 1 else 0));
    var during := NudgedAll(begun, h.nudges);
    if r.current == Running && h.ending == Returns then NudgedAll(during.(tasks := true), h.late) else during
  }

  datatype Flow = Again | Out

  /** handle_stopping swallows a cancellation at each of its awaits. */
  function EndOf(s: DaemonState, h: Handling): Ending {
    if s == Stopping && h.ending == Cancelled then Returns else h.ending
  }

  /** One turn of the loop, and whether there is another. */
  function Dispatch(r: RunState, h: Handling): (out: (RunState, Flow))
    ensures out.1 == Again && r.current != Stopped ==> Rank(out.0.current) < Rank(r.current)
  {
    if r.current == RunningSuspended then (r, Out)
    else
      var after := Handle(r, h);
      match EndOf(r.current, h)
      case Cancelled => (after, Out)
      case Raises =>
        if Stopping in Successors(after.current) then (MoveTo(after, Stopping), Again)
        else (MoveTo(after, Stopped), Again)
      case Returns =>
        var moved := MoveTo(after, NextState(r.current));
        if NextState(r.current) in Successors(after.current) then (moved, Again)
        else (MoveTo(moved, Stopping), Out)
  }

  function Loop(r: RunState, script: Script): RunState
    decreases Rank(r.current)
  {
    if r.current == Stopped then r
    else
      var (r', flow) := Dispatch(r, script(r.dispatches));
      if flow == Again then Loop(r', script) else r'
  }

  function Leaving(r: RunState): RunState {
    var left := if r.current != Stopping then MoveTo(r, Stopping) else r;
    left.(cleanups := left.cleanups + 1)
  }

  /** The way out: clean up unless already stopped. What handle_stopping raises is
      logged and dropped here. */
  function Finish(r: RunState, nudges: seq<Nudge>): RunState {
    if r.current == Stopped then r
    else MoveTo(NudgedAll(Leaving(r), nudges), Stopped)
  }

  /** A whole run: the script of the loop, and what happens during the last cleanup. */
  function Whole(script: Script, last: seq<Nudge>): RunState {
    Finish(Loop(START, script), last)
  }

  // ---- Invariants over every environment ----------------------------------------------

  /** After a stop request the daemon is stopping or stopped, at every moment. */
  ghost predicate StopSticks(r: RunState) {
    && r.trace != [] && r.trace[|r.trace| - 1] == Moment(r.current, r.stopAsked)
    && (forall i :: 0 <= i < |r.trace| && r.trace[i].stopAsked ==> r.trace[i].state in {Stopping, Stopped})
    && (forall i, j :: 0 <= i < j < |r.trace| && r.trace[i].stopAsked ==> r.trace[j].stopAsked)
  }

  lemma EnterSticks(r: RunState, s: DaemonState, stopAsked: bool)
    requires StopSticks(r) && (r.stopAsked ==> stopAsked) && (stopAsked ==> s in {Stopping, Stopped})
    ensures StopSticks(Enter(r, s, stopAsked))
  {
    forall i | 0 <= i < |r.trace| && r.trace[i].stopAsked
      ensures r.stopAsked
    {
      assert i < |r.trace| - 1 ==> r.trace[|r.trace| - 1].stopAsked;
    }
  }

  lemma MoveSticks(r: RunState, to: DaemonState)
    requires StopSticks(r)
    ensures StopSticks(MoveTo(r, to))
  {
    assert r.stopAsked ==> r.current in {Stopping, Stopped};
    EnterSticks(r, Moved(r.current, to), r.stopAsked);
  }

  lemma {:induction false} NudgesStick(r: RunState, ns: seq<Nudge>)
    requires StopSticks(r)
    ensures StopSticks(NudgedAll(r, ns))
    decreases |ns|
  {
    if ns != [] {
      match ns[0] {
        case StopRequest => EnterSticks(r, AfterStopRequest(r.current), true);
        case Status(b) => EnterSticks(r, AfterStatus(r.current, b), r.stopAsked);
      }
      NudgesStick(Nudged(r, ns[0]), ns[1..]);
    }
  }

  lemma HandleSticks(r: RunState, h: Handling)
    requires StopSticks(r)
    ensures StopSticks(Handle(r, h))
  {
    var begun := r.(dispatches := r.dispatches + 1,
                    cleanups := r.cleanups + (if r.current == Stopping then 1 else 0));
    NudgesStick(begun, h.nudges);
    var during := NudgedAll(begun, h.nudges);
    if r.current == Running && h.ending == Returns {
      NudgesStick(during.(tasks := true), h.late);
    }
  }

  /** What the loop relies on at its head. Nothing flips the suspension before the
      running handler, so RunningSuspended is never dispatched. */
  ghost predicate AtHead(r: RunState) {
    && StopSticks(r) && r.current != RunningSuspended
    && r.dispatches + Rank(r.current) <= 5
    && (r.tasks ==> r.current == Stopping || r.cleanups == 1)
    && r.cleanups <= 1 && (r.current != Stopped ==> r.cleanups == 0)
  }

  lemma {:induction false} StaysBefore(r: RunState, ns: seq<Nudge>)
    requires !IsRunning(r.current)
    ensures NudgedAll(r, ns).current in {r.current, Stopping, Stopped}
    ensures r.current in {Stopping, Stopped} ==> NudgedAll(r, ns).current == r.current
    decreases |ns|
  {
    if ns != [] {
      StaysBefore(Nudged(r, ns[0]), ns[1..]);
    }
  }

  lemma {:induction false} StaysRunningOrStopping(r: RunState, ns: seq<Nudge>)
    requires IsRunning(r.current) || r.current == Stopping
    ensures var c := NudgedAll(r, ns).current; IsRunning(c) || c == Stopping
    decreases |ns|
  {
    if ns != [] {
      StaysRunningOrStopping(Nudged(r, ns[0]), ns[1..]);
    }
  }

  /** While no stop is asked for, a running daemon is suspended exactly when the status
      polled last said so. */
  lemma {:induction false} SuspensionFollowsTheStatus(r: RunState, ns: seq<Nudge>)
    requires IsRunning(r.current) && StopRequest !in ns && ns != []
    ensures NudgedAll(r, ns).current == if ns[|ns| - 1] == Status(true) then RunningSuspended else Running
    decreases |ns|
  {
    assert ns[0] in ns;
    if |ns| > 1 {
      SuspensionFollowsTheStatus(Nudged(r, ns[0]), ns[1..]);
    }
  }

  lemma HandleMeans(r: RunState, h: Handling)
    requires AtHead(r) && r.current != Stopped
    ensures var a := Handle(r, h);
            && StopSticks(a) && a.dispatches == r.dispatches + 1
            && (r.current != Running ==> a.current in {r.current, Stopping, Stopped} && a.tasks == r.tasks)
            && (r.current == Running ==> IsRunning(a.current) || a.current == Stopping)
            && (r.current == Stopping ==> a.current == Stopping && a.cleanups == r.cleanups + 1)
            && (r.current != Stopping ==> a.cleanups == r.cleanups)
            && (r.current == Running && h.ending != Returns ==> a.tasks == r.tasks)
  {
    HandleSticks(r, h);
    var begun := r.(dispatches := r.dispatches + 1,
                    cleanups := r.cleanups + (if r.current == Stopping then 1 else 0));
    if r.current == Running {
      StaysRunningOrStopping(begun, h.nudges);
      StaysRunningOrStopping(NudgedAll(begun, h.nudges).(tasks := true), h.late);
    } else {
      StaysBefore(begun, h.nudges);
    }
  }

  /** The turns that end the run with no cleanup at all: one that leaves Idle for
      Stopped, and one that raises after the stop request it met. */
  predicate SkipsCleanup(s: DaemonState, h: Handling) {
    match s
    case Idle => StopRequest in h.nudges || h.ending == Raises
    case Connecting => StopRequest in h.nudges && h.ending == Raises
    case Connected => StopRequest in h.nudges && h.ending == Raises
    case Running => StopRequest in h.nudges && h.ending == Raises
    case _ => false
  }

  /** What one turn leaves behind: the invariant of the next one, or a state that
      the way out cleans up. */
  lemma DispatchKeeps(r: RunState, h: Handling)
    requires AtHead(r) && r.current != Stopped
    ensures var (r', flow) := Dispatch(r, h);
            && StopSticks(r') && r'.dispatches <= 5
            && (flow == Again ==> AtHead(r'))
            && (flow == Out ==> r'.cleanups == 0 && (r'.tasks ==> r'.current == Stopping))
  {
    HandleMeans(r, h);
    var after := Handle(r, h);
    MoveSticks(after, Stopping);
    MoveSticks(after, Stopped);
    MoveSticks(after, NextState(r.current));
    MoveSticks(MoveTo(after, NextState(r.current)), Stopping);
  }

  lemma SkipsExactly(r: RunState, h: Handling)
    requires AtHead(r) && r.current != Stopped
    ensures var r' := Dispatch(r, h).0;
            SkipsCleanup(r.current, h) <==> r'.current == Stopped && r'.cleanups == 0
  {
    HandleMeans(r, h);
    if r.current != Stopping {
      WhereNudgesLead(r, h);
    }
    match r.current {
      case Idle =>
      case Connecting =>
      case Connected =>
      case Running =>
      case Stopping =>
    }
  }

  lemma WhereNudgesLead(r: RunState, h: Handling)
    requires AtHead(r) && r.current in {Idle, Connecting, Connected, Running}
    ensures var c := Handle(r, h).current;
            && (r.current == Idle ==> c == (if StopRequest in h.nudges then Stopped else Idle))
            && (r.current != Idle ==> c != Stopped)
            && (r.current != Idle && StopRequest in h.nudges ==> c == Stopping)
            && (r.current != Idle && h.ending == Raises && c == Stopping ==> StopRequest in h.nudges)
  {
    var begun := r.(dispatches := r.dispatches + 1);
    NudgesLead(begun, h.nudges);
    if r.current == Running {
      HandleMeans(r, h);
      if StopRequest in h.nudges {
        StaysBefore(NudgedAll(begun, h.nudges).(tasks := true), h.late);
      }
    }
  }

  lemma {:induction false} NudgesLead(r: RunState, ns: seq<Nudge>)
    requires r.current !in {Stopping, Stopped}
    ensures var c := NudgedAll(r, ns).current;
            && (StopRequest in ns ==> c == (if r.current == Idle then Stopped else Stopping))
            && (StopRequest !in ns ==> c == r.current || (IsRunning(c) && IsRunning(r.current)))
    decreases |ns|
  {
    if ns != [] {
      assert ns == [ns[0]] + ns[1..];
      if ns[0] == StopRequest {
        StaysBefore(Nudged(r, ns[0]), ns[1..]);
      } else {
        NudgesLead(Nudged(r, ns[0]), ns[1..]);
      }
    }
  }

  /** Some turn of the loop skips the cleanup. */
  ghost predicate SomeTurnSkips(r: RunState, script: Script)
    decreases Rank(r.current)
  {
    && r.current != Stopped
    && (SkipsCleanup(r.current, script(r.dispatches))
        || (var (r', flow) := Dispatch(r, script(r.dispatches)); flow == Again && SomeTurnSkips(r', script)))
  }

  lemma {:induction false} LoopKeeps(r: RunState, script: Script)
    requires AtHead(r)
    ensures var e := Loop(r, script);
            && StopSticks(e) && e.dispatches <= 5
            && (e.tasks && e.current == Stopped ==> e.cleanups == 1)
            && (e.current != Stopped ==> e.cleanups == 0)
            && (r.current != Stopped ==>
                  e.cleanups <= 1 && (SomeTurnSkips(r, script) <==> e.current == Stopped && e.cleanups == 0))
    decreases Rank(r.current)
  {
    if r.current != Stopped {
      DispatchKeeps(r, script(r.dispatches));
      SkipsExactly(r, script(r.dispatches));
      var (r', flow) := Dispatch(r, script(r.dispatches));
      if flow == Again {
        LoopKeeps(r', script);
      }
    }
  }

  lemma FinishSticks(r: RunState, last: seq<Nudge>)
    requires StopSticks(r)
    ensures StopSticks(Finish(r, last))
  {
    if r.current != Stopped {
      MoveSticks(r, Stopping);
      NudgesStick(Leaving(r), last);
      MoveSticks(NudgedAll(Leaving(r), last), Stopped);
    }
  }

  ghost predicate NeverRunsAgain(trace: seq<Moment>) {
    forall i, j :: 0 <= i <= j < |trace| && trace[i].stopAsked ==> !IsRunning(trace[j].state)
  }

  lemma StopIsFinal(r: RunState)
    requires StopSticks(r)
    ensures NeverRunsAgain(r.trace)
  {
    forall i, j | 0 <= i <= j < |r.trace| && r.trace[i].stopAsked
      ensures !IsRunning(r.trace[j].state)
    {
      assert r.trace[j].stopAsked;
    }
  }

  // ---- The theorems ----------------------------------------------------------------------

  /** Whatever the environment does, `run` ends in Stopped. */
  lemma RunEndsStopped(script: Script, last: seq<Nudge>)
    ensures Whole(script, last).current == Stopped
  {
    var r := Loop(START, script);
    if r.current != Stopped {
      LeavingIsStopping(r);
      StaysBefore(Leaving(r), last);
    }
  }

  lemma LeavingIsStopping(r: RunState)
    requires r.current != Stopped
    ensures Leaving(r).current in {Idle, Stopping}
  {
  }

  /** Whatever the environment does, `run` dispatches at most five handlers, and from
      the first stop request on the daemon is never running again, suspended or not. */
  lemma RunIsSafe(script: Script, last: seq<Nudge>)
    ensures Whole(script, last).dispatches <= 5 && NeverRunsAgain(Whole(script, last).trace)
  {
    LoopKeeps(START, script);
    FinishSticks(Loop(START, script), last);
    StopIsFinal(Whole(script, last));
  }

  /** The turn returns, and no stop was asked for during it. */
  predicate Clear(h: Handling) {
    h.ending == Returns && StopRequest !in h.nudges
  }

  /** Before the running handler a clear turn moves one state on; any other turn ends
      the approach for good. */
  lemma EarlyTurn(r: RunState, h: Handling)
    requires r.current in {Idle, Connecting, Connected}
    ensures var (r', flow) := Dispatch(r, h);
            && r'.tasks == r.tasks && r'.dispatches == r.dispatches + 1
            && (if Clear(h) then flow == Again && r'.current == NextState(r.current)
                else flow == Out || r'.current in {Stopping, Stopped})
  {
    NudgesLead(r.(dispatches := r.dispatches + 1), h.nudges);
  }

  lemma {:induction false} NoTasksWhileStopping(r: RunState, script: Script)
    requires r.current in {Stopping, Stopped}
    ensures Loop(r, script).tasks == r.tasks
    decreases Rank(r.current)
  {
    if r.current == Stopping {
      var h := script(r.dispatches);
      StaysBefore(r.(dispatches := r.dispatches + 1, cleanups := r.cleanups + 1), h.nudges);
      var (r', flow) := Dispatch(r, h);
      if flow == Again {
        NoTasksWhileStopping(r', script);
      }
    }
  }

  lemma RunningTurn(r: RunState, h: Handling)
    requires r.current == Running && !r.tasks
    ensures var (r', flow) := Dispatch(r, h);
            (r'.tasks <==> h.ending == Returns) && (flow == Again ==> r'.current in {Stopping, Stopped})
  {
    var begun := r.(dispatches := r.dispatches + 1);
    StaysRunningOrStopping(begun, h.nudges);
    StaysRunningOrStopping(NudgedAll(begun, h.nudges).(tasks := true), h.late);
  }

  lemma {:induction false} LoopMakesTasks(r: RunState, script: Script)
    requires r.current in {Idle, Connecting, Connected, Running} && !r.tasks
    requires r.dispatches + Rank(r.current) == 5
    ensures Loop(r, script).tasks <==>
              (forall k :: r.dispatches <= k < 3 ==> Clear(script(k))) && script(3).ending == Returns
    decreases Rank(r.current)
  {
    var h := script(r.dispatches);
    var (r', flow) := Dispatch(r, h);
    if r.current == Running {
      RunningTurn(r, h);
    } else {
      EarlyTurn(r, h);
    }
    if r.current != Running && Clear(h) {
      LoopMakesTasks(r', script);
    } else if flow == Again {
      NoTasksWhileStopping(r', script);
    }
  }

  /** The background tasks are created exactly when the first three turns are clear
      and the fourth, the running handler's, returns: whatever is asked meanwhile. */
  lemma TasksExistExactlyWhen(script: Script, last: seq<Nudge>)
    ensures Whole(script, last).tasks <==>
              (forall k :: 0 <= k < 3 ==> Clear(script(k))) && script(3).ending == Returns
  {
    LoopMakesTasks(START, script);
  }

  /** The states of the approach, by turn. */
  function Approach(turn: nat): DaemonState {
    if turn == 0 then Idle else if turn == 1 then Connecting else if turn == 2 then Connected else Running
  }

  /** The turns from `first` up to turn `k` are clear, and turn `k` skips the cleanup. */
  predicate SkipsAt(script: Script, first: nat, k: nat) {
    first <= k <= 3 && SkipsCleanup(Approach(k), script(k)) && forall j :: first <= j < k ==> Clear(script(j))
  }

  lemma {:induction false} NoSkipWhileStopping(r: RunState, script: Script)
    requires AtHead(r) && r.current in {Stopping, Stopped}
    ensures !SomeTurnSkips(r, script)
  {
    if r.current == Stopping {
      DispatchKeeps(r, script(r.dispatches));
      StaysBefore(r.(dispatches := r.dispatches + 1, cleanups := r.cleanups + 1), script(r.dispatches).nudges);
    }
  }

  /** After a turn that is not a clear step of the approach, no turn skips. */
  lemma TurnThatEnds(r: RunState, h: Handling)
    requires AtHead(r) && r.current in {Idle, Connecting, Connected, Running}
    requires r.current == Running || !Clear(h)
    ensures var (r', flow) := Dispatch(r, h); flow == Again ==> r'.current in {Stopping, Stopped}
  {
    if r.current == Running {
      HandleMeans(r, h);
    } else {
      EarlyTurn(r, h);
    }
  }

  lemma ClearTurnFirst(script: Script, n: nat, k: nat)
    requires Clear(script(n)) && !SkipsCleanup(Approach(n), script(n))
    ensures SkipsAt(script, n, k) <==> SkipsAt(script, n + 1, k)
  {
  }

  lemma {:induction false} SkipsInClosedForm(r: RunState, script: Script)
    requires AtHead(r) && r.dispatches <= 3 && r.current == Approach(r.dispatches)
    ensures SomeTurnSkips(r, script) <==> exists k :: SkipsAt(script, r.dispatches, k)
    decreases Rank(r.current)
  {
    var n := r.dispatches;
    var h := script(n);
    var (r', flow) := Dispatch(r, h);
    DispatchKeeps(r, h);
    if SkipsCleanup(r.current, h) {
      assert SkipsAt(script, n, n);
    } else if r.current != Running && Clear(h) {
      EarlyTurn(r, h);
      SkipsInClosedForm(r', script);
      assert SomeTurnSkips(r, script) <==> SomeTurnSkips(r', script);
      var next := r'.dispatches;
      if k: nat :| SkipsAt(script, next, k) {
        ClearTurnFirst(script, n, k);
      }
      if k: nat :| SkipsAt(script, n, k) {
        ClearTurnFirst(script, n, k);
      }
    } else {
      TurnThatEnds(r, h);
      if flow == Again {
        NoSkipWhileStopping(r', script);
      }
      forall k: nat
        ensures !SkipsAt(script, n, k)
      {
        assert k > n && SkipsAt(script, n, k) ==> Clear(script(n));
      }
    }
  }

  /** Whatever the environment does, handle_stopping runs at most once. It runs unless
      the first k turns are clear, for some k up to 3, and turn k leaves Idle for
      Stopped or raises after a stop request; and it runs once there are tasks. */
  lemma CleanupRunsOnce(script: Script, last: seq<Nudge>)
    ensures var e := Whole(script, last);
            && e.cleanups == (if exists k :: SkipsAt(script, 0, k) then 0 else 1)
            && (e.tasks ==> e.cleanups == 1)
  {
    LoopKeeps(START, script);
    SkipsInClosedForm(START, script);
  }

  /** One such run: the connecting handler is asked to stop and then raises. */
  lemma RaiseAfterStopSkipsCleanup(last: seq<Nudge>)
    ensures var script := (turn: nat) =>
              if turn == 0 then Handling([], Returns, []) else Handling([StopRequest], Raises, []);
            var e := Whole(script, last);
            e.current == Stopped && e.cleanups == 0 && e.dispatches == 2
  {
    var script := (turn: nat) =>
      if turn == 0 then Handling([], Returns, []) else Handling([StopRequest], Raises, []);
    assert Clear(script(0)) && StopRequest in script(1).nudges;
    assert SkipsAt(script, 0, 1);
    CleanupRunsOnce(script, last);
    RunEndsStopped(script, last);
    EarlyTurn(START, script(0));
    var r1 := Dispatch(START, script(0)).0;
    EarlyTurn(r1, script(1));
    DispatchKeeps(START, script(0));
    SkipsExactly(r1, script(1));
  }

  // ---- The loop as code ---------------------------------------------------------------------

  class Daemon {
    const fsm: DaemonFsmObject
    var tasks: bool
    ghost var stopAsked: bool
    ghost var cleanups: nat
    ghost var trace: seq<Moment>
    var dispatches: nat

    ghost function State(): RunState
      reads this, fsm
    {
      RunState(fsm.current, stopAsked, tasks, cleanups, dispatches, trace)
    }

    constructor ()
      ensures fresh(fsm) && State() == START
    {
      fsm := new DaemonFsmObject();
      tasks, stopAsked, cleanups, dispatches := false, false, 0, 0;
      trace := [Moment(Idle, false)];
    }

    method Transition(to: DaemonState) returns (ok: bool)
      modifies this, fsm
      ensures State() == MoveTo(old(State()), to)
      ensures ok <==> to in Successors(old(fsm.current))
    {
      ok := fsm.Transition(to);
      trace := trace + [Moment(fsm.current, stopAsked)];
    }

    /** The environment acting while a handler awaits. */
    method Suffer(ns: seq<Nudge>)
      modifies this, fsm
      ensures State() == NudgedAll(old(State()), ns)
    {
      for i := 0 to |ns|
        invariant NudgedAll(State(), ns[i..]) == NudgedAll(old(State()), ns)
      {
        assert ns[i..][0] == ns[i] && ns[i..][1..] == ns[i + 1..];
        match ns[i] {
          case StopRequest =>
            var _ := fsm.RequestStop();
            stopAsked := true;
          case Status(suspended) =>
            fsm.ApplyRunStatus(suspended);
        }
        trace := trace + [Moment(fsm.current, stopAsked)];
      }
    }

    method HandleCurrent(h: Handling) returns (next: DaemonState)
      modifies this, fsm
      ensures State() == Handle(old(State()), h)
      ensures next == NextState(old(fsm.current))
    {
      var current := fsm.current;
      next := NextState(current);
      dispatches := dispatches + 1;
      if current == Stopping {
        cleanups := cleanups + 1;
      }
      Suffer(h.nudges);
      if current == Running && h.ending == Returns {
        tasks := true;
        Suffer(h.late);
      }
    }

    /** One turn of the loop. */
    method Turn(h: Handling) returns (again: bool)
      requires fsm.current != Stopped
      modifies this, fsm
      ensures (State(), if again then Again else Out) == Dispatch(old(State()), h)
    {
      var current := fsm.current;
      if current == RunningSuspended {
        return false;
      }
      var next := HandleCurrent(h);
      again := true;
      match EndOf(current, h) {
        case Cancelled =>
          again := false;
        case Raises =>
          if Stopping in Successors(fsm.current) {
            var _ := Transition(Stopping);
          } else {
            var _ := Transition(Stopped);
          }
        case Returns =>
          var ok := Transition(next);
          if !ok {
            var _ := Transition(Stopping);
            again := false;
          }
      }
    }

    method CleanUp(last: seq<Nudge>)
      modifies this, fsm
      ensures State() == Finish(old(State()), last)
    {
      if fsm.current != Stopped {
        if fsm.current != Stopping {
          var _ := Transition(Stopping);
        }
        cleanups := cleanups + 1;
        Suffer(last);
        var _ := Transition(Stopped);
      }
    }

    method Run(script: Script, last: seq<Nudge>)
      requires State() == START
      modifies this, fsm
      ensures State() == Whole(script, last)
      ensures fsm.current == Stopped && dispatches <= 5
      ensures tasks ==> cleanups == 1
    {
      var again := true;
      while again && fsm.current != Stopped
        invariant Loop(START, script) == if again then Loop(State(), script) else State()
        decreases again, Rank(fsm.current)
      {
        again := Turn(script(dispatches));
      }
      CleanUp(last);
      RunIsSafe(script, last);
      RunEndsStopped(script, last);
      CleanupRunsOnce(script, last);
    }
  }
}

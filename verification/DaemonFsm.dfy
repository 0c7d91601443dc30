/** The lifecycle of the daemon process, and the nudges that reach it from outside. */
module DaemonFsm {

  datatype DaemonState = Idle | Connecting | Connected | Running | RunningSuspended | Stopping | Stopped

  function Successors(s: DaemonState): set<DaemonState> {
    match s
    case Idle => {Connecting, Stopped}
    case Connecting => {Connected, Stopping}
    case Connected => {Running, Stopping}
    case Running => {Stopping, RunningSuspended}
    case RunningSuspended => {Running, Stopping}
    case Stopping => {Stopped}
    case Stopped => {}
  }

  predicate IsRunning(s: DaemonState) {
    s in {Running, RunningSuspended}
  }

  function Moved(s: DaemonState, to: DaemonState): DaemonState {
    if to in Successors(s) then to else s
  }

  function AfterStopRequest(s: DaemonState): DaemonState {
    if s in {Running, RunningSuspended, Connecting, Connected} then Stopping
    else if s == Idle then Stopped
    else s
  }

  /** The trading state polled from outside flips Running and RunningSuspended only. */
  function AfterStatus(s: DaemonState, suspended: bool): DaemonState {
    if suspended && s == Running then RunningSuspended
    else if !suspended && s == RunningSuspended then Running
    else s
  }

  /** How far the daemon still is from Stopped. */
  function Rank(s: DaemonState): nat {
    match s
    case Idle => 5
    case Connecting => 4
    case Connected => 3
    case Running => 2
    case RunningSuspended => 2
    case Stopping => 1
    case Stopped => 0
  }

  /** Every transition of the table goes strictly forward, except that suspension
      flips to and fro; and none leads back from a stop. */
  lemma TableGoesForward(s: DaemonState, to: DaemonState)
    requires to in Successors(s)
    ensures Rank(to) < Rank(s) || (IsRunning(s) && IsRunning(to) && s != to)
    ensures s in {Stopping, Stopped} ==> to == Stopped
  {
  }

  class DaemonFsmObject {
    var current: DaemonState

    constructor ()
      ensures current == Idle
    {
      current := Idle;
    }

    method Transition(to: DaemonState) returns (ok: bool)
      modifies this
      ensures ok <==> to in Successors(old(current))
      ensures current == Moved(old(current), to)
    {
      if to !in Successors(current) {
        return false;
      }
      current := to;
      ok := true;
    }

    method RequestStop() returns (ok: bool)
      modifies this
      ensures current == AfterStopRequest(old(current))
      ensures ok <==> old(current) !in {Stopping, Stopped}
    {
      if current == Running || current == RunningSuspended || current == Connecting || current == Connected {
        ok := Transition(Stopping);
        return;
      }
      if current == Idle {
        ok := Transition(Stopped);
        return;
      }
      ok := false;
    }

    method ApplyRunStatus(suspended: bool)
      modifies this
      ensures current == AfterStatus(old(current), suspended)
    {
      if suspended && current == Running {
        var _ := Transition(RunningSuspended);
      } else if !suspended && current == RunningSuspended {
        var _ := Transition(Running);
      }
    }
  }
}

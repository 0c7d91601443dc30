/** The execution state machine of one hedge order. */
module HedgeFsm {
  import opened Prelude
  import opened GammaScalper

  datatype HedgeState =
    ExecIdle | Plan | Sending | WaitAck | Working | Partial | Reprice | Cancel | Recover | Filled | Failed

  datatype HedgeEvent =
    | RecvTarget | PlanSkip | PlanSend | PlaceOrder | AckOk | AckReject | TimeoutAck
    | PartialFill | FullFill | TimeoutWorking | RiskTrip | ManualCancel | BrokerDown
    | CancelSent | PositionsResynced | CannotRecover | TryResync

  function Table(s: HedgeState, e: HedgeEvent): Option<HedgeState> {
    match (s, e)
    case (ExecIdle, RecvTarget) => Some(Plan)
    case (Plan, PlanSkip) => Some(ExecIdle)
    case (Plan, PlanSend) => Some(Sending)
    case (Sending, PlaceOrder) => Some(WaitAck)
    case (WaitAck, AckOk) => Some(Working)
    case (WaitAck, AckReject) => Some(Failed)
    case (WaitAck, TimeoutAck) => Some(Failed)
    case (WaitAck, BrokerDown) => Some(Failed)
    case (Working, PartialFill) => Some(Partial)
    case (Working, FullFill) => Some(Filled)
    case (Working, TimeoutWorking) => Some(Reprice)
    case (Working, RiskTrip) => Some(Cancel)
    case (Working, ManualCancel) => Some(Cancel)
    case (Working, BrokerDown) => Some(Cancel)
    case (Partial, PlanSend) => Some(Sending)
    case (Partial, PlanSkip) => Some(ExecIdle)
    case (Reprice, PlaceOrder) => Some(WaitAck)
    case (Cancel, CancelSent) => Some(Recover)
    case (Recover, PositionsResynced) => Some(ExecIdle)
    case (Recover, CannotRecover) => Some(Failed)
    case (Failed, TryResync) => Some(Recover)
    case (Filled, RecvTarget) => Some(Plan)
    case _ => None
  }

  datatype Target = Target(targetShares: int, side: Side, quantity: int, ts: real)

  datatype Fsm = Fsm(state: HedgeState, target: Option<Target>, need: int, connected: bool)
  {
    predicate CanPlaceOrder() {
      state in {ExecIdle, Filled}
    }
  }

  const FRESH_FSM := Fsm(ExecIdle, None, 0, true)

  /** The public calls on the machine. */
  datatype Call =
    | OnTarget(target: Target, stock: int)
    | OnPlanDecide(sendOrder: bool)
    | OnPartialReplan(sendOrder: bool)
    | OnPositionsResynced
    | OnFullFill
    | OnBrokerDown
    | OnPlain(event: HedgeEvent)
    | SetConnected(up: bool)

  /** The events whose calls only look up the table: each checks the states its
      event leaves from, and the table has no other entries for it. */
  const PLAIN_EVENTS := {PlaceOrder, AckOk, AckReject, TimeoutAck, PartialFill, TimeoutWorking,
                         RiskTrip, ManualCancel, CancelSent, CannotRecover, TryResync}

  function Fire(f: Fsm, e: HedgeEvent): (Fsm, bool) {
    match Table(f.state, e)
    case None => (f, false)
    case Some(s) => (f.(state := s), true)
  }

  function Do(f: Fsm, c: Call): (Fsm, bool) {
    match c
    case OnTarget(t, stock) =>
      if !f.CanPlaceOrder() then (f, false)
      else Fire(f.(target := Some(t), need := t.targetShares - stock), RecvTarget)
    case OnPlanDecide(sendOrder) =>
      if f.state != Plan then (f, false)
      else if sendOrder then Fire(f, PlanSend)
      else Fire(f.(target := None), PlanSkip)
    case OnPartialReplan(sendOrder) =>
      if f.state != Partial then (f, false)
      else if sendOrder then Fire(f, PlanSend)
      else Fire(f.(target := None, need := 0), PlanSkip)
    case OnPositionsResynced =>
      if f.state != Recover then (f, false)
      else Fire(f.(target := None, need := 0), PositionsResynced)
    case OnFullFill =>
      if f.state != Working then (f, false)
      else Fire(f.(target := None, need := 0), FullFill)
    case OnBrokerDown =>
      if f.state in {WaitAck, Working} then Fire(f, BrokerDown)
      else (f.(connected := false), true)
    case OnPlain(e) => if e in PLAIN_EVENTS then Fire(f, e) else (f, false)
    case SetConnected(up) => (f.(connected := up), true)
  }

  function DoAll(f: Fsm, calls: seq<Call>): Fsm
    decreases |calls|
  {
    if calls == [] then f else DoAll(Do(f, calls[0]).0, calls[1..])
  }

  /** A refused call changes nothing: the fields a call clears or sets on the way
      always go with a transition the table has. */
  lemma RefusedCallChangesNothing(f: Fsm, c: Call)
    ensures !Do(f, c).1 ==> Do(f, c).0 == f
  {
    match c
    case OnPlain(e) =>
    case _ =>
  }

  ghost predicate Coherent(f: Fsm) {
    && (f.target.Some? <==> f.state !in {ExecIdle, Filled})
    && (f.state == Filled ==> f.need == 0)
  }

  /** Over every sequence of calls the machine holds a target exactly while it is
      working on one, and a fill leaves no need behind. */
  lemma {:induction false} TargetExactlyWhileWorking(f: Fsm, calls: seq<Call>)
    requires Coherent(f)
    ensures Coherent(DoAll(f, calls))
    decreases |calls|
  {
    if calls != [] {
      TargetExactlyWhileWorking(Do(f, calls[0]).0, calls[1..]);
    }
  }

  /** The one way an idle machine is left with a stale need: a plan that is skipped
      drops its target and keeps the need that went with it, until a new target,
      a fill or a resync writes it again. */
  lemma SkippedPlanKeepsNeed(f: Fsm, t: Target, stock: int)
    requires f.CanPlaceOrder()
    ensures var g := Do(Do(f, OnTarget(t, stock)).0, OnPlanDecide(false)).0;
            g.state == ExecIdle && g.target == None && g.need == t.targetShares - stock
  {
  }

  ghost predicate NeedIsCurrent(f: Fsm) {
    f.state in {ExecIdle, Filled} ==> f.need == 0
  }

  /** An idle machine's need is zero after a call, if it was before, exactly unless
      the call skipped a plan whose need was not zero. */
  lemma NeedStaysCurrent(f: Fsm, c: Call)
    requires Coherent(f) && NeedIsCurrent(f)
    ensures NeedIsCurrent(Do(f, c).0) <==> !(f.state == Plan && c == OnPlanDecide(false) && f.need != 0)
  {
    match c
    case OnPlain(e) =>
    case _ =>
  }

  ghost predicate NoneRefused(f: Fsm, calls: seq<Call>)
    decreases |calls|
  {
    calls != [] ==> Do(f, calls[0]).1 && NoneRefused(Do(f, calls[0]).0, calls[1..])
  }

  /** The shortest way to a free machine starts with this call. */
  function WayOut(s: HedgeState): Call {
    match s
    case Plan => OnPlanDecide(false)
    case Partial => OnPartialReplan(false)
    case Sending => OnPlain(PlaceOrder)
    case Reprice => OnPlain(PlaceOrder)
    case WaitAck => OnPlain(AckOk)
    case Cancel => OnPlain(CancelSent)
    case Failed => OnPlain(TryResync)
    case Recover => OnPositionsResynced
    case _ => OnFullFill
  }

  function CallsToGo(s: HedgeState): nat {
    match s
    case ExecIdle => 0
    case Filled => 0
    case Sending => 3
    case Reprice => 3
    case WaitAck => 2
    case Cancel => 2
    case Failed => 2
    case _ => 1
  }

  /** No state is a dead end: from each, at most three calls, none of them refused,
      free the machine and drop its target. */
  lemma {:induction false} NoDeadEnd(f: Fsm) returns (calls: seq<Call>)
    requires Coherent(f)
    ensures |calls| == CallsToGo(f.state) <= 3 && NoneRefused(f, calls)
    ensures DoAll(f, calls).CanPlaceOrder() && DoAll(f, calls).target == None
    decreases CallsToGo(f.state)
  {
    calls := [];
    if !f.CanPlaceOrder() {
      var c := WayOut(f.state);
      var rest := NoDeadEnd(Do(f, c).0);
      calls := [c] + rest;
      assert calls[1..] == rest;
    }
  }

  datatype ExecutionState = Idle | OrderWorking | PartialFilled | Disconnected | BrokerError

  function ToExecutionState(h: HedgeState, connected: bool): ExecutionState {
    if !connected then Disconnected
    else if h == Failed then BrokerError
    else if h in {ExecIdle, Filled} then Idle
    else if h == Partial then PartialFilled
    else OrderWorking
  }

  /** What each reported state says of the machine. */
  lemma ExecutionStateMeans(f: Fsm)
    ensures var e := ToExecutionState(f.state, f.connected);
            && (e == Disconnected <==> !f.connected)
            && (e == BrokerError <==> f.connected && f.state == Failed)
            && (e == Idle <==> f.connected && f.CanPlaceOrder())
            && (e == PartialFilled <==> f.connected && f.state == Partial)
  {
  }

  // ---- An order in trouble ---------------------------------------------------------------

  predicate InTrouble(s: HedgeState) {
    s in {Cancel, Recover, Failed}
  }

  /** What takes an order out of the ordinary: a refusal, silence or a lost broker before it
      is acknowledged fails it, and a risk trip, a manual cancel or a lost broker while it
      works has it cancelled. Nothing else does, and no call but these leaves trouble alone. */
  lemma TroubleBeginsWhen(f: Fsm, c: Call)
    requires !InTrouble(f.state)
    ensures var g := Do(f, c).0;
            && (g.state == Failed <==>
                  f.state == WaitAck && c in {OnPlain(AckReject), OnPlain(TimeoutAck), OnBrokerDown})
            && (g.state == Cancel <==>
                  f.state == Working && c in {OnPlain(RiskTrip), OnPlain(ManualCancel), OnBrokerDown})
            && g.state != Recover
  {
    match c
    case OnPlain(e) =>
    case _ =>
  }

  /** A lost broker is never overlooked: it troubles an order that is out, and otherwise is
      reported as a lost connection, until that is said to be back. */
  lemma LostBrokerShows(f: Fsm)
    ensures var g := Do(f, OnBrokerDown).0;
            && (f.state in {WaitAck, Working} ==> InTrouble(g.state) && g.connected == f.connected)
            && (f.state !in {WaitAck, Working} ==> g == f.(connected := false))
            && Do(g, SetConnected(true)).0 == g.(connected := true)
  {
  }

  /** Out of trouble there is one way: a resync of the positions. Over any calls among
      which there is none the machine places no order and keeps its target. */
  lemma {:induction false} OnlyAResyncRecovers(f: Fsm, calls: seq<Call>)
    requires InTrouble(f.state) && OnPositionsResynced !in calls
    ensures InTrouble(DoAll(f, calls).state)
    ensures DoAll(f, calls).target == f.target && DoAll(f, calls).need == f.need
    decreases |calls|
  {
    if calls != [] {
      TroubleLasts(f, calls[0]);
      OnlyAResyncRecovers(Do(f, calls[0]).0, calls[1..]);
    }
  }

  /** The way through trouble: a cancel once sent, or a failed order tried again, waits for a
      resync; that frees the machine and clears its need, or is given up as failed. */
  lemma CourseOfTrouble(f: Fsm, c: Call)
    requires InTrouble(f.state)
    ensures var g := Do(f, c).0;
            && (g.state == Recover && f.state != Recover <==>
                  (f.state == Cancel && c == OnPlain(CancelSent)) || (f.state == Failed && c == OnPlain(TryResync)))
            && (g.state == Failed && f.state != Failed <==> f.state == Recover && c == OnPlain(CannotRecover))
            && (!InTrouble(g.state) <==> f.state == Recover && c == OnPositionsResynced)
            && (!InTrouble(g.state) ==> g.state == ExecIdle && g.target == None && g.need == 0)
  {
    match c
    case OnPlain(e) =>
    case _ =>
  }

  lemma TroubleLasts(f: Fsm, c: Call)
    requires InTrouble(f.state) && c != OnPositionsResynced
    ensures var g := Do(f, c).0; InTrouble(g.state) && g.target == f.target && g.need == f.need
  {
    match c
    case OnPlain(e) =>
    case _ =>
  }

  /** The ordinary course of an order: partial fills and repricings lead back to sending or
      to waiting, and a fill from nowhere but working. */
  lemma CourseOfAnOrder(f: Fsm, c: Call)
    ensures var g := Do(f, c).0;
            && (g.state == Partial && f.state != Partial <==> f.state == Working && c == OnPlain(PartialFill))
            && (g.state == Reprice && f.state != Reprice <==> f.state == Working && c == OnPlain(TimeoutWorking))
            && (g.state == WaitAck && f.state != WaitAck <==> f.state in {Sending, Reprice} && c == OnPlain(PlaceOrder))
            && (g.state == Sending && f.state != Sending <==>
                  (f.state == Plan && c == OnPlanDecide(true)) || (f.state == Partial && c == OnPartialReplan(true)))
            && (g.state == Working && f.state != Working <==> f.state == WaitAck && c == OnPlain(AckOk))
            && (g.state == Filled && f.state != Filled <==> f.state == Working && c == OnFullFill)
            && (g.state == Plan && f.state != Plan <==> f.state in {ExecIdle, Filled} && c.OnTarget?)
  {
    match c
    case OnPlain(e) =>
    case _ =>
  }

  /** The machine as an object: the calls the hedge flow makes. */
  class HedgeFsmObject {
    var state: HedgeState
    var target: Option<Target>
    var need: int
    var connected: bool

    ghost function State(): Fsm
      reads this
    {
      Fsm(state, target, need, connected)
    }

    constructor ()
      ensures State() == FRESH_FSM
    {
      state, target, need, connected := ExecIdle, None, 0, true;
    }

    method LookupAndApply(e: HedgeEvent) returns (applied: bool)
      modifies this`state
      ensures (State(), applied) == Fire(old(State()), e)
    {
      match Table(state, e) {
        case None => applied := false;
        case Some(s) =>
          state := s;
          applied := true;
      }
    }

    method CanPlaceOrder() returns (can: bool)
      ensures can == State().CanPlaceOrder()
    {
      can := state == ExecIdle || state == Filled;
    }

    method TakeTarget(t: Target, stock: int) returns (applied: bool)
      modifies this
      ensures (State(), applied) == Do(old(State()), OnTarget(t, stock))
    {
      var can := CanPlaceOrder();
      if !can {
        return false;
      }
      target := Some(t);
      need := t.targetShares - stock;
      applied := LookupAndApply(RecvTarget);
    }

    method DecidePlan(sendOrder: bool) returns (applied: bool)
      modifies this
      ensures (State(), applied) == Do(old(State()), OnPlanDecide(sendOrder))
    {
      if state != Plan {
        return false;
      }
      if sendOrder {
        applied := LookupAndApply(PlanSend);
        return;
      }
      target := None;
      applied := LookupAndApply(PlanSkip);
    }

    method OrderPlaced() returns (applied: bool)
      modifies this
      ensures (State(), applied) == Do(old(State()), OnPlain(PlaceOrder))
    {
      if state != Sending && state != Reprice {
        return false;
      }
      applied := LookupAndApply(PlaceOrder);
    }

    method Acknowledged() returns (applied: bool)
      modifies this
      ensures (State(), applied) == Do(old(State()), OnPlain(AckOk))
    {
      if state != WaitAck {
        return false;
      }
      applied := LookupAndApply(AckOk);
    }

    method FilledInFull() returns (applied: bool)
      modifies this
      ensures (State(), applied) == Do(old(State()), OnFullFill)
    {
      if state != Working {
        return false;
      }
      target := None;
      need := 0;
      applied := LookupAndApply(FullFill);
    }
  }
}

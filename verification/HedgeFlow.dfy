/**
 One tick of the hedge pipeline: suspension, snapshot, trading state, intent,
 gates, execution, and the counters. `EvalHedge` specifies a tick on values; the
 class App runs it over the component objects.
 */
module HedgeFlow {
  import opened Prelude
  import opened GammaScalper
  import HedgeFsm
  import TradingFsm
  import Guard = ExecutionGuard

  datatype HedgeConfig = HedgeConfig(
    threshold: real,
    maxQty: int,
    minQty: int,
    limits: Guard.Limits,
    guards: TradingFsm.GuardConfig)

  /** What the classifier hands over besides the snapshot. */
  datatype Composite = Composite(
    netDelta: real,
    stockPos: int,
    forceHedge: bool,
    lastHedgePrice: Option<real>,
    spread: Option<real>)

  datatype Market = Market(snapshot: TradingFsm.Snapshot, spot: real, cs: Composite)

  /** Everything a tick reads from outside. The three clock readings are those of
      the gate, of `hedge` and of the guard's own record, in that order. */
  datatype TickInput = TickInput(
    suspended: bool,
    market: Option<Market>,
    stock: int,
    storeSpread: Option<real>,
    gateNow: real,
    gateDay: int,
    hedgeNow: real,
    sentNow: real,
    sentDay: int,
    inRth: bool,
    inBlackout: bool)

  datatype AppState = AppState(
    trading: TradingFsm.TradingState,
    exec: HedgeFsm.Fsm,
    guard: Guard.GuardState,
    lastHedgeTime: Option<real>,
    lastHedgePrice: Option<real>,
    storeCount: int,
    metricsCount: int)

  datatype HedgeRecord = HedgeRecord(
    side: Side,
    quantity: int,
    price: real,
    forced: bool,
    stockBefore: int,
    gateAt: real,
    sentAt: real,
    day: int)
  {
    function StockAfter(): int {
      stockBefore + (if side == Buy then quantity else -quantity)
    }
  }

  /** Python's `a or b` on optional numbers: zero counts as missing. */
  function OrElse(a: Option<real>, b: Option<real>): Option<real> {
    if a.Some? && a.value != 0.0 then a else b
  }

  predicate Retry(cfg: HedgeConfig, g: Guard.GuardState) {
    g.dailyCount < cfg.limits.maxDailyHedges
  }

  function Fire(cfg: HedgeConfig, st: AppState, e: TradingFsm.TradingEvent, snap: TradingFsm.Snapshot): AppState {
    st.(trading := TradingFsm.Applied(st.trading, e, TradingFsm.EvalAll(snap, cfg.guards, Retry(cfg, st.guard))))
  }

  predicate Forced(i: HedgeIntent, cs: Composite) {
    i.forceHedge || cs.forceHedge
  }

  function AskFor(st: AppState, i: HedgeIntent, m: Market, t: TickInput): Guard.Ask {
    Guard.Ask(t.gateNow, t.gateDay, t.inRth, t.inBlackout, m.cs.stockPos, i.side, i.quantity, m.spot,
              OrElse(st.lastHedgePrice, m.cs.lastHedgePrice), OrElse(t.storeSpread, m.cs.spread), Forced(i, m.cs))
  }

  /** The gates: an order below the minimum size never reaches the guard. */
  function ApplyHedgeGates(cfg: HedgeConfig, st: AppState, i: HedgeIntent, m: Market, t: TickInput): (AppState, bool) {
    if i.quantity < cfg.minQty then (st, false)
    else
      var a := AskFor(st, i, m, t);
      var g := Guard.ResetIfNewDay(st.guard, a.today);
      (st.(guard := g), Guard.Verdict(cfg.limits, g, a) == Guard.Allowed)
  }

  /** The execution machine up to the send decision. */
  function Planned(cfg: HedgeConfig, f: HedgeFsm.Fsm, i: HedgeIntent, m: Market, t: TickInput): HedgeFsm.Fsm {
    var target := HedgeFsm.Target(i.targetShares, i.side, i.quantity, t.hedgeNow);
    HedgeFsm.Do(HedgeFsm.Do(f, HedgeFsm.OnTarget(target, m.cs.stockPos)).0,
                HedgeFsm.OnPlanDecide(i.quantity >= cfg.minQty)).0
  }

  function Executed(f: HedgeFsm.Fsm): HedgeFsm.Fsm {
    var placed := HedgeFsm.Do(f, HedgeFsm.OnPlain(HedgeFsm.PlaceOrder)).0;
    var acked := HedgeFsm.Do(placed, HedgeFsm.OnPlain(HedgeFsm.AckOk)).0;
    HedgeFsm.Do(acked, HedgeFsm.OnFullFill).0
  }

  function RecordOf(i: HedgeIntent, m: Market, t: TickInput): HedgeRecord {
    HedgeRecord(i.side, i.quantity, m.spot, Forced(i, m.cs), m.cs.stockPos, t.gateNow, t.sentNow, t.sentDay)
  }

  /** The simulated order filled and counted, and HEDGE_DONE not yet fired. */
  function Filled(st: AppState, planned: HedgeFsm.Fsm, m: Market, t: TickInput): AppState {
    st.(exec := Executed(planned),
        guard := Guard.Recorded(st.guard, t.sentDay, t.sentNow),
        lastHedgeTime := Some(t.hedgeNow),
        lastHedgePrice := Some(m.spot),
        storeCount := st.storeCount + 1,
        metricsCount := st.metricsCount + 1)
  }

  function Hedge(cfg: HedgeConfig, st: AppState, i: HedgeIntent, m: Market, t: TickInput)
    : (AppState, Option<HedgeRecord>)
  {
    var planned := Planned(cfg, st.exec, i, m, t);
    if planned.state != HedgeFsm.Sending then
      (Fire(cfg, st.(exec := planned), TradingFsm.HedgeDone, m.snapshot), None)
    else
      (Fire(cfg, Filled(st, planned, m, t), TradingFsm.HedgeDone, m.snapshot), Some(RecordOf(i, m, t)))
  }

  function EvalHedge(cfg: HedgeConfig, st: AppState, t: TickInput): (AppState, Option<HedgeRecord>) {
    if t.suspended || t.market == None then (st, None)
    else
      var m := t.market.value;
      var ticked := Fire(cfg, st, TradingFsm.Tick, m.snapshot);
      if ticked.trading != TradingFsm.NeedHedge then (ticked, None)
      else
        match Intent(m.cs.netDelta, t.stock, cfg.threshold, cfg.maxQty)
        case None => (ticked, None)
        case Some(i) =>
          var (gated, approved) := ApplyHedgeGates(cfg, ticked, i, m, t);
          if !approved || !gated.exec.CanPlaceOrder() then (gated, None)
          else Hedge(cfg, Fire(cfg, gated, TradingFsm.TargetEmitted, m.snapshot), i, m, t)
  }

  // ---- What a tick does, without its steps -----------------------------------------

  /** The execution machine is idle and holds nothing, and no hedge is under way. */
  ghost predicate AtRest(st: AppState) {
    && st.exec.CanPlaceOrder() && st.exec.target == None && st.exec.need == 0
    && st.trading != TradingFsm.Hedging
  }

  /** Whether this tick hedges, and with what. */
  ghost predicate Hedges(cfg: HedgeConfig, st: AppState, t: TickInput, i: HedgeIntent) {
    && !t.suspended && t.market.Some?
    && var m := t.market.value;
       && Fire(cfg, st, TradingFsm.Tick, m.snapshot).trading == TradingFsm.NeedHedge
       && Intent(m.cs.netDelta, t.stock, cfg.threshold, cfg.maxQty) == Some(i)
       && i.quantity >= cfg.minQty
       && Guard.Verdict(cfg.limits, Guard.ResetIfNewDay(st.guard, t.gateDay), AskFor(st, i, m, t)) == Guard.Allowed
  }

  /** The plan goes out if and only if it is of the minimum size, and is dropped otherwise. */
  lemma PlanIsSentExactlyWhen(cfg: HedgeConfig, f: HedgeFsm.Fsm, i: HedgeIntent, m: Market, t: TickInput)
    requires f.CanPlaceOrder()
    ensures var g := Planned(cfg, f, i, m, t);
            && (g.state == HedgeFsm.Sending <==> i.quantity >= cfg.minQty)
            && (g.state != HedgeFsm.Sending ==> g.state == HedgeFsm.ExecIdle && g.target == None)
  {
  }

  lemma PlanSends(cfg: HedgeConfig, f: HedgeFsm.Fsm, i: HedgeIntent, m: Market, t: TickInput)
    requires f.CanPlaceOrder() && i.quantity >= cfg.minQty
    ensures Planned(cfg, f, i, m, t).state == HedgeFsm.Sending
    ensures Planned(cfg, f, i, m, t).need == i.targetShares - m.cs.stockPos
    ensures Executed(Planned(cfg, f, i, m, t)) == HedgeFsm.Fsm(HedgeFsm.Filled, None, 0, f.connected)
  {
  }

  /** The need the execution machine plans with, against the intent that caused it,
      when the classifier's stock position is the store's: same sign, at least a
      capped order, equal to an uncapped one except off by exactly one when delta
      is half-way between integers and the stock position is odd. */
  lemma NeedAgreesWithIntent(cfg: HedgeConfig, st: AppState, t: TickInput, i: HedgeIntent)
    requires AtRest(st) && cfg.threshold >= 0.0 && Hedges(cfg, st, t, i)
    requires t.market.value.cs.stockPos == t.stock
    ensures var m := t.market.value;
            var need := Planned(cfg, st.exec, i, m, t).need;
            && (i.side == Buy ==> need > 0) && (i.side == Sell ==> need < 0)
            && (PyRound(Abs(m.cs.netDelta)) > cfg.maxQty ==> AbsInt(need) >= i.quantity)
            && (PyRound(Abs(m.cs.netDelta)) <= cfg.maxQty ==>
                  && (need == i.Signed() <==> !(IsTie(m.cs.netDelta) && t.stock % 2 != 0))
                  && AbsInt(need - i.Signed()) <= 1)
  {
    var m := t.market.value;
    PlanSends(cfg, st.exec, i, m, t);
    PlanAgreesWithOrder(m.cs.netDelta, t.stock, cfg.threshold, cfg.maxQty);
  }

  lemma HedgingTick(cfg: HedgeConfig, st: AppState, t: TickInput, i: HedgeIntent)
    requires AtRest(st) && Hedges(cfg, st, t, i)
    ensures var (st', r) := EvalHedge(cfg, st, t);
            && AtRest(st') && r == Some(RecordOf(i, t.market.value, t))
            && st'.trading == TradingFsm.Monitor
            && st'.exec.state == HedgeFsm.Filled && st'.exec.connected == st.exec.connected
            && st'.guard == Guard.Recorded(Guard.ResetIfNewDay(st.guard, t.gateDay), t.sentDay, t.sentNow)
            && st'.lastHedgeTime == Some(t.hedgeNow) && st'.lastHedgePrice == Some(t.market.value.spot)
            && st'.storeCount == st.storeCount + 1 && st'.metricsCount == st.metricsCount + 1
  {
    var m := t.market.value;
    var gated := ApplyHedgeGates(cfg, Fire(cfg, st, TradingFsm.Tick, m.snapshot), i, m, t).0;
    PlanSends(cfg, gated.exec, i, m, t);
    TradingFsm.HedgeRoundTrip(m.snapshot, cfg.guards, st.trading, Retry(cfg, st.guard), Retry(cfg, gated.guard),
                              Retry(cfg, Guard.Recorded(gated.guard, t.sentDay, t.sentNow)));
  }

  lemma QuietTick(cfg: HedgeConfig, st: AppState, t: TickInput)
    requires AtRest(st) && !exists i :: Hedges(cfg, st, t, i)
    ensures var (st', r) := EvalHedge(cfg, st, t);
            && AtRest(st') && r == None
            && st' == st.(trading := st'.trading, guard := st'.guard)
            && st'.guard in {st.guard, Guard.ResetIfNewDay(st.guard, t.gateDay)}
  {
    if !t.suspended && t.market.Some? {
      var m := t.market.value;
      var ticked := Fire(cfg, st, TradingFsm.Tick, m.snapshot);
      var intent := Intent(m.cs.netDelta, t.stock, cfg.threshold, cfg.maxQty);
      if ticked.trading == TradingFsm.NeedHedge && intent.Some? {
        assert !Hedges(cfg, st, t, intent.value);
        assert !ApplyHedgeGates(cfg, ticked, intent.value, m, t).1;
      }
    }
  }

  /** A tick from rest ends at rest. It records a hedge exactly when one is wanted
      and approved: the skip branch of `hedge` and the busy branch before it are
      never taken. A recorded hedge moves every counter by one and leaves the
      machine watching; a tick that records nothing moves no counter. */
  lemma TickFromRest(cfg: HedgeConfig, st: AppState, t: TickInput)
    requires AtRest(st)
    ensures var (st', r) := EvalHedge(cfg, st, t);
            && AtRest(st')
            && (r.Some? <==> exists i :: Hedges(cfg, st, t, i))
            && (forall i :: Hedges(cfg, st, t, i) ==> r == Some(RecordOf(i, t.market.value, t)))
            && (r.Some? ==>
                  && st'.trading == TradingFsm.Monitor
                  && st'.exec.state == HedgeFsm.Filled && st'.exec.connected == st.exec.connected
                  && st'.guard == Guard.Recorded(Guard.ResetIfNewDay(st.guard, t.gateDay), t.sentDay, t.sentNow)
                  && st'.lastHedgeTime == Some(t.hedgeNow) && st'.lastHedgePrice == Some(t.market.value.spot)
                  && st'.storeCount == st.storeCount + 1 && st'.metricsCount == st.metricsCount + 1)
            && (r == None ==>
                  && st' == st.(trading := st'.trading, guard := st'.guard)
                  && st'.guard in {st.guard, Guard.ResetIfNewDay(st.guard, t.gateDay)})
  {
    if i :| Hedges(cfg, st, t, i) {
      HedgingTick(cfg, st, t, i);
    } else {
      QuietTick(cfg, st, t);
    }
  }

  /** Unless it records a hedge, a tick moves the trading state by the TICK event alone. */
  lemma TradingWithoutHedge(cfg: HedgeConfig, st: AppState, t: TickInput)
    requires AtRest(st) && EvalHedge(cfg, st, t).1 == None
    ensures EvalHedge(cfg, st, t).0.trading ==
            if t.suspended || t.market == None then st.trading
            else Fire(cfg, st, TradingFsm.Tick, t.market.value.snapshot).trading
  {
    if i :| Hedges(cfg, st, t, i) {
      HedgingTick(cfg, st, t, i);
    } else {
      QuietTickTrading(cfg, st, t);
    }
  }

  lemma QuietTickTrading(cfg: HedgeConfig, st: AppState, t: TickInput)
    requires AtRest(st) && !exists i :: Hedges(cfg, st, t, i)
    ensures EvalHedge(cfg, st, t).0.trading ==
            if t.suspended || t.market == None then st.trading
            else Fire(cfg, st, TradingFsm.Tick, t.market.value.snapshot).trading
  {
    if !t.suspended && t.market.Some? {
      var m := t.market.value;
      var ticked := Fire(cfg, st, TradingFsm.Tick, m.snapshot);
      var intent := Intent(m.cs.netDelta, t.stock, cfg.threshold, cfg.maxQty);
      if ticked.trading == TradingFsm.NeedHedge && intent.Some? {
        assert !Hedges(cfg, st, t, intent.value);
        assert !ApplyHedgeGates(cfg, ticked, intent.value, m, t).1;
      }
    }
  }

  // ---- The pipeline as objects --------------------------------------------------------

  class Store {
    var stock: int
    var spread: Option<real>
    var lastHedgeTime: Option<real>
    var lastHedgePrice: Option<real>
    var dailyCount: int

    constructor ()
      ensures lastHedgeTime == None && lastHedgePrice == None && dailyCount == 0
    {
      stock, spread, lastHedgeTime, lastHedgePrice, dailyCount := 0, None, None, None, 0;
    }
  }

  class Metrics {
    var hedgeCount: int

    constructor ()
      ensures hedgeCount == 0
    {
      hedgeCount := 0;
    }
  }

  class App {
    const cfg: HedgeConfig
    const trading: TradingFsm.TradingFsmObject
    const exec: HedgeFsm.HedgeFsmObject
    const guard: Guard.ExecutionGuardObject
    const store: Store
    const metrics: Metrics

    ghost predicate Valid() {
      trading.cfg == cfg.guards && guard.limits == cfg.limits
    }

    ghost function State(): AppState
      reads trading, exec, guard, store, metrics
    {
      AppState(trading.state, exec.State(), guard.State(), store.lastHedgeTime, store.lastHedgePrice,
               store.dailyCount, metrics.hedgeCount)
    }

    constructor (cfg: HedgeConfig)
      ensures Valid() && this.cfg == cfg
      ensures fresh(trading) && fresh(exec) && fresh(guard) && fresh(store) && fresh(metrics)
      ensures State() == AppState(TradingFsm.Boot, HedgeFsm.FRESH_FSM, Guard.FRESH_GUARD, None, None, 0, 0)
      ensures AtRest(State())
    {
      this.cfg := cfg;
      trading := new TradingFsm.TradingFsmObject(cfg.guards);
      exec := new HedgeFsm.HedgeFsmObject();
      guard := new Guard.ExecutionGuardObject(cfg.limits);
      store := new Store();
      metrics := new Metrics();
    }

    method FireTrading(e: TradingFsm.TradingEvent, snap: TradingFsm.Snapshot)
      requires Valid()
      modifies trading
      ensures State() == Fire(cfg, old(State()), e, snap)
    {
      var _ := trading.ApplyTransition(e, snap, guard.dailyCount < cfg.limits.maxDailyHedges);
    }

    method Gates(i: HedgeIntent, m: Market, t: TickInput) returns (approved: bool)
      requires Valid()
      modifies guard
      ensures (State(), approved) == ApplyHedgeGates(cfg, old(State()), i, m, t)
    {
      if i.quantity < cfg.minQty {
        return false;
      }
      var ask := Guard.Ask(t.gateNow, t.gateDay, t.inRth, t.inBlackout, m.cs.stockPos, i.side, i.quantity, m.spot,
                           OrElse(store.lastHedgePrice, m.cs.lastHedgePrice), OrElse(t.storeSpread, m.cs.spread),
                           Forced(i, m.cs));
      var reason := guard.AllowHedge(ask);
      approved := reason == Guard.Allowed;
    }

    method PlanOrder(i: HedgeIntent, m: Market, t: TickInput)
      modifies exec
      ensures State() == old(State()).(exec := Planned(cfg, old(exec.State()), i, m, t))
    {
      var _ := exec.TakeTarget(HedgeFsm.Target(i.targetShares, i.side, i.quantity, t.hedgeNow), m.cs.stockPos);
      var _ := exec.DecidePlan(i.quantity >= cfg.minQty);
    }

    /** The simulated order: placed, acknowledged, counted, filled. */
    method SendAndFill(m: Market, t: TickInput)
      requires Valid()
      modifies exec, guard, store, metrics
      ensures State() == Filled(old(State()), old(exec.State()), m, t)
    {
      var _ := exec.OrderPlaced();
      var _ := exec.Acknowledged();
      guard.RecordHedgeSent(t.sentDay, t.sentNow);
      store.lastHedgeTime := Some(t.hedgeNow);
      store.lastHedgePrice := Some(m.spot);
      store.dailyCount := store.dailyCount + 1;
      metrics.hedgeCount := metrics.hedgeCount + 1;
      var _ := exec.FilledInFull();
    }

    method RunHedge(i: HedgeIntent, m: Market, t: TickInput) returns (r: Option<HedgeRecord>)
      requires Valid()
      modifies trading, exec, guard, store, metrics
      ensures (State(), r) == Hedge(cfg, old(State()), i, m, t)
    {
      PlanOrder(i, m, t);
      ghost var planned := exec.State();
      assert planned == Planned(cfg, old(exec.State()), i, m, t);
      if exec.state != HedgeFsm.Sending {
        FireTrading(TradingFsm.HedgeDone, m.snapshot);
        return None;
      }
      SendAndFill(m, t);
      assert State() == Filled(old(State()), planned, m, t);
      FireTrading(TradingFsm.HedgeDone, m.snapshot);
      r := Some(RecordOf(i, m, t));
    }

    /** One tick, under the lock. `t.stock` is the store's stock position. */
    method Eval(t: TickInput) returns (r: Option<HedgeRecord>)
      requires Valid() && t.stock == store.stock && t.storeSpread == store.spread
      modifies trading, exec, guard, store, metrics
      ensures (State(), r) == EvalHedge(cfg, old(State()), t)
      ensures old(AtRest(State())) ==>
                AtRest(State()) && (r.Some? ==> metrics.hedgeCount == old(metrics.hedgeCount) + 1)
    {
      if old(AtRest(State())) {
        TickFromRest(cfg, State(), t);
      }
      if t.suspended || t.market == None {
        return None;
      }
      var m := t.market.value;
      FireTrading(TradingFsm.Tick, m.snapshot);
      if trading.state != TradingFsm.NeedHedge {
        return None;
      }
      var intent := Intent(m.cs.netDelta, store.stock, cfg.threshold, cfg.maxQty);
      if intent == None {
        return None;
      }
      var approved := Gates(intent.value, m, t);
      if !approved {
        return None;
      }
      var free := exec.CanPlaceOrder();
      if !free {
        return None;
      }
      FireTrading(TradingFsm.TargetEmitted, m.snapshot);
      r := RunHedge(intent.value, m, t);
    }
  }
}

/** The macro trading state machine and the predicates that drive it. */
module TradingFsm {
  import opened Prelude
  import HedgeFsm

  // ---- World state and guards ---------------------------------------------------

  datatype OptionPosition = NoOptions | LongGamma | ShortGamma
  datatype Liquidity = NormalSpread | Wide | ExtremeWide | NoQuote
  datatype SystemHealth = HealthOk | GreeksUnusable | DataLag | RiskHalt

  datatype Greeks = Greeks(delta: real, gamma: real, valid: bool, finite: bool)

  datatype Snapshot = Snapshot(
    option: OptionPosition,
    liquidity: Liquidity,
    execution: HedgeFsm.ExecutionState,
    health: SystemHealth,
    netDelta: real,
    spot: Option<real>,
    spreadPct: Option<real>,
    eventLagMs: Option<real>,
    greeks: Option<Greeks>,
    lastHedgePrice: Option<real>)
  {
    predicate GreeksValid() {
      greeks.Some? && greeks.value.valid && greeks.value.finite
    }
  }

  datatype GuardConfig = GuardConfig(
    lagThresholdMs: real,
    epsilonBand: real,
    thresholdHedgeShares: real,
    extremeSpreadPct: real,
    minPriceMovePct: real,
    maxSpreadPct: Option<real>,
    strategyEnabled: bool)

  predicate DataOk(s: Snapshot, cfg: GuardConfig) {
    && !(s.eventLagMs.Some? && s.eventLagMs.value > cfg.lagThresholdMs)
    && s.liquidity != NoQuote
    && s.spot.Some? && s.spot.value > 0.0
  }

  predicate GreeksBad(s: Snapshot) {
    || !s.GreeksValid()
    || Abs(s.greeks.value.delta) > 1000000.0
    || Abs(s.greeks.value.gamma) > 1000000.0
  }

  predicate BrokerDown(s: Snapshot) {
    s.execution in {HedgeFsm.Disconnected, HedgeFsm.BrokerError}
  }

  predicate CostOk(s: Snapshot, cfg: GuardConfig) {
    if s.spreadPct.Some? && s.spreadPct.value >= cfg.extremeSpreadPct then false
    else if cfg.minPriceMovePct <= 0.0 then true
    else if s.lastHedgePrice == None || s.spot == None || s.lastHedgePrice.value <= 0.0 then true
    else 100.0 * Abs(s.spot.value - s.lastHedgePrice.value) / s.lastHedgePrice.value >= cfg.minPriceMovePct
  }

  predicate LiquidityOk(s: Snapshot, cfg: GuardConfig) {
    && s.liquidity !in {NoQuote, ExtremeWide}
    && !(cfg.maxSpreadPct.Some? && s.spreadPct.Some? && s.spreadPct.value > cfg.maxSpreadPct.value)
  }

  datatype Guards = Guards(
    dataOk: bool,
    dataStale: bool,
    greeksBad: bool,
    brokerDown: bool,
    brokerUp: bool,
    haveOptionPosition: bool,
    deltaBandReady: bool,
    inNoTradeBand: bool,
    costOk: bool,
    liquidityOk: bool,
    retryAllowed: bool,
    execFault: bool,
    positionsOk: bool,
    strategyEnabled: bool)

  /** All guards. `retry` is whether the execution guard's daily count is below its cap. */
  function EvalAll(s: Snapshot, cfg: GuardConfig, retry: bool): Guards {
    Guards(
      DataOk(s, cfg),
      !DataOk(s, cfg),
      GreeksBad(s),
      BrokerDown(s),
      !BrokerDown(s),
      s.option in {LongGamma, ShortGamma},
      s.GreeksValid() && cfg.thresholdHedgeShares >= cfg.epsilonBand,
      Abs(s.netDelta) <= cfg.epsilonBand,
      CostOk(s, cfg),
      LiquidityOk(s, cfg),
      retry,
      BrokerDown(s),
      DataOk(s, cfg) && s.health != RiskHalt,
      cfg.strategyEnabled)
  }

  predicate Fault(g: Guards) {
    g.brokerDown || g.dataStale || g.greeksBad || g.execFault
  }

  // ---- Transitions ----------------------------------------------------------------

  datatype TradingState =
    Boot | Sync | Idle | Armed | Monitor | NoTrade | PauseCost | PauseLiq | NeedHedge | Hedging | Safe

  datatype TradingEvent =
    | Start | Synced | Tick | Quote | GreeksUpdate | TargetEmitted | HedgeDone | HedgeFailed
    | DataStaleEvent | GreeksBadEvent | BrokerDownEvent | BrokerUpEvent | ManualResume | Shutdown

  predicate TickLike(e: TradingEvent) {
    e in {Synced, Quote, Tick, GreeksUpdate}
  }

  function OnSync(g: Guards): Option<TradingState> {
    if g.positionsOk && g.dataOk then Some(Idle)
    else if !g.dataOk || g.brokerDown then Some(Safe)
    else None
  }

  function OnIdle(g: Guards): Option<TradingState> {
    if g.dataStale || g.greeksBad || g.brokerDown then Some(Safe)
    else if g.haveOptionPosition && g.strategyEnabled then Some(Armed)
    else None
  }

  function OnArmed(g: Guards): Option<TradingState> {
    if g.deltaBandReady then Some(Monitor) else None
  }

  /** The decision outside the no-trade band. */
  function OutOfBand(g: Guards): Option<TradingState> {
    if g.costOk && g.liquidityOk then Some(NeedHedge)
    else if !g.costOk then Some(PauseCost)
    else if !g.liquidityOk then Some(PauseLiq)
    else None
  }

  function OnMonitor(g: Guards): Option<TradingState> {
    if g.inNoTradeBand then Some(NoTrade) else OutOfBand(g)
  }

  function OnNoTrade(g: Guards): Option<TradingState> {
    if g.inNoTradeBand then None else OutOfBand(g)
  }

  function OnPause(g: Guards): Option<TradingState> {
    if g.inNoTradeBand then Some(NoTrade)
    else if g.costOk && g.liquidityOk then Some(NeedHedge)
    else None
  }

  function Next(s: TradingState, e: TradingEvent, g: Guards): Option<TradingState> {
    if Fault(g) then (if s != Safe then Some(Safe) else None)
    else if e == Shutdown then None
    else if e == Start && s == Boot then Some(Sync)
    else if TickLike(e) && s == Sync then OnSync(g)
    else if TickLike(e) && s == Idle then OnIdle(g)
    else if TickLike(e) && s == Armed then OnArmed(g)
    else if TickLike(e) && s == Monitor then OnMonitor(g)
    else if TickLike(e) && s == NoTrade then OnNoTrade(g)
    else if TickLike(e) && s in {PauseCost, PauseLiq} then OnPause(g)
    else if e == TargetEmitted && s == NeedHedge then Some(Hedging)
    else if e == HedgeDone && s == Hedging then Some(Monitor)
    else if e == HedgeFailed && s == Hedging then (if g.retryAllowed then Some(NeedHedge) else Some(Safe))
    else if e == ManualResume && s == Safe && g.brokerUp && g.dataOk then Some(Sync)
    else if e == BrokerUpEvent && s == Safe && g.dataOk then Some(Sync)
    else None
  }

  function Applied(s: TradingState, e: TradingEvent, g: Guards): TradingState {
    match Next(s, e, g)
    case None => s
    case Some(t) => t
  }

  /** When a hedge is wanted: after a tick the machine needs a hedge exactly if the
      snapshot is sound and it either needed one already (no tick leaves that
      state) or was watching, out of the band, with cost and liquidity in order. */
  lemma HedgeIsNeededExactlyWhen(s: TradingState, snap: Snapshot, cfg: GuardConfig, retry: bool)
    ensures Applied(s, Tick, EvalAll(snap, cfg, retry)) == NeedHedge <==>
            && DataOk(snap, cfg) && !GreeksBad(snap) && !BrokerDown(snap)
            && (s == NeedHedge
                || (s in {Monitor, NoTrade, PauseCost, PauseLiq}
                    && Abs(snap.netDelta) > cfg.epsilonBand && CostOk(snap, cfg) && LiquidityOk(snap, cfg)))
  {
  }

  /** Between a hedge being needed and its completion the same sound snapshot
      carries the machine through Hedging to Monitor, whatever the retry guard says. */
  lemma HedgeRoundTrip(snap: Snapshot, cfg: GuardConfig, s: TradingState, r0: bool, r1: bool, r2: bool)
    requires Applied(s, Tick, EvalAll(snap, cfg, r0)) == NeedHedge
    ensures Applied(NeedHedge, TargetEmitted, EvalAll(snap, cfg, r1)) == Hedging
    ensures Applied(Hedging, HedgeDone, EvalAll(snap, cfg, r2)) == Monitor
  {
  }

  function Ticks(s: TradingState, g: Guards, n: nat): TradingState
    decreases n
  {
    if n == 0 then s else Ticks(Applied(s, Tick, g), g, n - 1)
  }

  predicate Settled(s: TradingState, g: Guards) {
    Applied(s, Tick, g) == s
  }

  /** Ticks between a state and Monitor, on the walk that leads there. */
  function WalkLeft(s: TradingState): nat {
    match s
    case Sync => 3
    case Idle => 2
    case Armed => 1
    case _ => 0
  }

  lemma TickSettlesOrWalks(s: TradingState, g: Guards)
    ensures Settled(Applied(s, Tick, g), g) || WalkLeft(Applied(s, Tick, g)) < WalkLeft(s)
  {
  }

  lemma {:induction false} SettledStays(s: TradingState, g: Guards, n: nat)
    requires Settled(s, g)
    ensures Ticks(s, g, n) == s
  {
    if n > 0 {
      SettledStays(s, g, n - 1);
    }
  }

  /** The machine never oscillates: from every state and under every combination of
      guards, repeated ticks settle within four and then change nothing. */
  lemma {:induction false} TicksSettle(s: TradingState, g: Guards, n: nat)
    requires n >= 4 || n > WalkLeft(s)
    ensures Settled(Ticks(s, g, n), g)
    decreases n
  {
    TickSettlesOrWalks(s, g);
    var s' := Applied(s, Tick, g);
    if Settled(s', g) {
      SettledStays(s', g, n - 1);
    } else {
      TicksSettle(s', g, n - 1);
    }
  }

  class TradingFsmObject {
    const cfg: GuardConfig
    var state: TradingState

    constructor (cfg: GuardConfig)
      ensures this.cfg == cfg && state == Boot
    {
      this.cfg := cfg;
      state := Boot;
    }

    /** The next state, without moving to it. */
    method Transition(e: TradingEvent, snap: Snapshot, retry: bool) returns (next: Option<TradingState>)
      ensures next == Next(state, e, EvalAll(snap, cfg, retry))
    {
      next := Next(state, e, EvalAll(snap, cfg, retry));
    }

    method ApplyTransition(e: TradingEvent, snap: Snapshot, retry: bool) returns (moved: bool)
      modifies this
      ensures state == Applied(old(state), e, EvalAll(snap, cfg, retry))
      ensures moved <==> Next(old(state), e, EvalAll(snap, cfg, retry)).Some?
    {
      var next := Transition(e, snap, retry);
      if next.Some? {
        state := next.value;
        return true;
      }
      moved := false;
    }
  }
}

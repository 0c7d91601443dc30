/**
 When the pipeline hedges, as one checklist over what a tick is given and remembers.

 The tick itself decides through a dozen predicates of four components. Here the same
 decision is written down once, from the raw numbers, and the two are proved equal.
 */
module HedgeDecision {
  import opened Prelude
  import opened GammaScalper
  import opened HedgeFlow
  import T = TradingFsm
  import E = HedgeFsm
  import Guard = ExecutionGuard

  /** The snapshot is fresh, quoted and priced, its greeks are usable and the broker is there. */
  predicate IsSound(s: T.Snapshot, g: T.GuardConfig) {
    && (s.eventLagMs == None || s.eventLagMs.value <= g.lagThresholdMs)
    && s.liquidity != T.NoQuote
    && s.spot.Some? && s.spot.value > 0.0
    && s.greeks.Some? && s.greeks.value.valid && s.greeks.value.finite
    && -1000000.0 <= s.greeks.value.delta <= 1000000.0
    && -1000000.0 <= s.greeks.value.gamma <= 1000000.0
    && s.execution != E.Disconnected && s.execution != E.BrokerError
  }

  /** It pays to trade: the spread is not extreme and the price has moved, if that is
      asked and there is a price to move from. */
  predicate Pays(s: T.Snapshot, g: T.GuardConfig) {
    && (s.spreadPct.Some? ==> s.spreadPct.value < g.extremeSpreadPct)
    && (g.minPriceMovePct > 0.0 && s.lastHedgePrice.Some? && s.lastHedgePrice.value > 0.0 && s.spot.Some? ==>
          100.0 * Abs(s.spot.value - s.lastHedgePrice.value) / s.lastHedgePrice.value >= g.minPriceMovePct)
  }

  /** The market can take it: neither too wide nor, if there is a limit, over it. */
  predicate IsLiquid(s: T.Snapshot, g: T.GuardConfig) {
    && s.liquidity != T.NoQuote && s.liquidity != T.ExtremeWide
    && (g.maxSpreadPct.Some? && s.spreadPct.Some? ==> s.spreadPct.value <= g.maxSpreadPct.value)
  }

  predicate IsOutOfBand(s: T.Snapshot, g: T.GuardConfig) {
    s.netDelta > g.epsilonBand || s.netDelta < -g.epsilonBand
  }

  lemma GuardsSay(s: T.Snapshot, g: T.GuardConfig)
    ensures IsSound(s, g) <==> T.DataOk(s, g) && !T.GreeksBad(s) && !T.BrokerDown(s)
    ensures Pays(s, g) <==> T.CostOk(s, g)
    ensures IsLiquid(s, g) <==> T.LiquidityOk(s, g)
    ensures IsOutOfBand(s, g) <==> !(Abs(s.netDelta) <= g.epsilonBand)
  {
  }

  // ---- Where the trading machine goes -----------------------------------------------------

  /** The walk from Sync: three ticks over one snapshot reach Monitor if and only if it is
      sound, there is no risk halt, there are options to hedge, the strategy is enabled and
      the hedge threshold is not inside the no-trade band. */
  lemma WalkEndsExactlyWhen(s: T.Snapshot, g: T.GuardConfig, retry: bool)
    ensures T.Ticks(T.Sync, T.EvalAll(s, g, retry), 3) == T.Monitor <==>
              && IsSound(s, g) && s.health != T.RiskHalt
              && (s.option == T.LongGamma || s.option == T.ShortGamma)
              && g.strategyEnabled && g.thresholdHedgeShares >= g.epsilonBand
  {
    GuardsSay(s, g);
    var all := T.EvalAll(s, g, retry);
    var s1 := T.Applied(T.Sync, T.Tick, all);
    var s2 := T.Applied(s1, T.Tick, all);
    assert T.Ticks(T.Sync, all, 3) == T.Ticks(s1, all, 2) == T.Ticks(s2, all, 1) == T.Applied(s2, T.Tick, all);
  }

  /** Where a watching machine comes to rest on a sound snapshot, after any number of
      ticks: in the band it does not trade; outside it needs a hedge, or pauses for the
      first thing that forbids one. */
  lemma WatchingSettlesWhere(s: T.Snapshot, g: T.GuardConfig, retry: bool, state: T.TradingState, n: nat)
    requires IsSound(s, g) && n > 0 && (state == T.Monitor || state == T.NoTrade)
    ensures T.Ticks(state, T.EvalAll(s, g, retry), n) ==
            if !IsOutOfBand(s, g) then T.NoTrade
            else if !Pays(s, g) then T.PauseCost
            else if !IsLiquid(s, g) then T.PauseLiq
            else T.NeedHedge
  {
    GuardsSay(s, g);
    var all := T.EvalAll(s, g, retry);
    T.SettledStays(T.Applied(state, T.Tick, all), all, n - 1);
  }

  /** A pause ends when trading is no longer forbidden, or no longer called for. */
  lemma PauseSettlesWhere(s: T.Snapshot, g: T.GuardConfig, retry: bool, state: T.TradingState, n: nat)
    requires IsSound(s, g) && n > 0 && (state == T.PauseCost || state == T.PauseLiq)
    ensures T.Ticks(state, T.EvalAll(s, g, retry), n) ==
            if !IsOutOfBand(s, g) then T.NoTrade
            else if Pays(s, g) && IsLiquid(s, g) then T.NeedHedge
            else state
  {
    GuardsSay(s, g);
    var all := T.EvalAll(s, g, retry);
    T.SettledStays(T.Applied(state, T.Tick, all), all, n - 1);
  }

  /** The other events, on a sound snapshot: each moves the machine out of one state only,
      and a failed hedge is needed again while the day's count allows. */
  lemma OtherEventsLead(cfg: HedgeConfig, st: AppState, e: T.TradingEvent, s: T.Snapshot)
    requires IsSound(s, cfg.guards) && !T.TickLike(e)
    ensures Fire(cfg, st, e, s).trading ==
            if e == T.Start && st.trading == T.Boot then T.Sync
            else if e == T.TargetEmitted && st.trading == T.NeedHedge then T.Hedging
            else if e == T.HedgeDone && st.trading == T.Hedging then T.Monitor
            else if e == T.HedgeFailed && st.trading == T.Hedging
            then (if st.guard.dailyCount < cfg.limits.maxDailyHedges then T.NeedHedge else T.Safe)
            else if (e == T.ManualResume || e == T.BrokerUpEvent) && st.trading == T.Safe then T.Sync
            else st.trading
  {
    GuardsSay(s, cfg.guards);
  }

  // ---- When a tick hedges ------------------------------------------------------------------

  /** A hedge is due: it was already, or the machine is watching and the numbers ask for one. */
  predicate IsDue(state: T.TradingState, s: T.Snapshot, g: T.GuardConfig) {
    && IsSound(s, g)
    && (|| state == T.NeedHedge
        || (&& (state == T.Monitor || state == T.NoTrade || state == T.PauseCost || state == T.PauseLiq)
            && IsOutOfBand(s, g) && Pays(s, g) && IsLiquid(s, g)))
  }

  lemma DueExactlyWhen(state: T.TradingState, s: T.Snapshot, g: T.GuardConfig, retry: bool)
    ensures T.Applied(state, T.Tick, T.EvalAll(s, g, retry)) == T.NeedHedge <==> IsDue(state, s, g)
  {
    GuardsSay(s, g);
    T.HedgeIsNeededExactlyWhen(state, s, g, retry);
  }

  /** The order: the rounded excess up to the cap, against the sign of delta. */
  function Size(cfg: HedgeConfig, delta: real): int {
    var whole := PyRound(if delta < 0.0 then -delta else delta);
    if whole <= cfg.maxQty then whole else cfg.maxQty
  }

  predicate IsWorthwhile(cfg: HedgeConfig, delta: real) {
    && (delta > cfg.threshold || delta < -cfg.threshold)
    && Size(cfg, delta) >= 1 && Size(cfg, delta) >= cfg.minQty
  }

  lemma OrderExactlyWhen(cfg: HedgeConfig, delta: real, stock: int)
    requires cfg.threshold >= 0.0
    ensures var i := Intent(delta, stock, cfg.threshold, cfg.maxQty);
            && (i.Some? && i.value.quantity >= cfg.minQty <==> IsWorthwhile(cfg, delta))
            && (i.Some? ==>
                  && i.value.quantity == Size(cfg, delta) && !i.value.forceHedge
                  && i.value.side == (if delta < 0.0 then Buy else Sell))
  {
    IntentMeaning(delta, stock, cfg.threshold, cfg.maxQty);
  }

  /** The remembered price, or else the classifier's; a zero counts as none. */
  function PriceBefore(st: AppState, m: Market): Option<real> {
    if st.lastHedgePrice.Some? && st.lastHedgePrice.value != 0.0 then st.lastHedgePrice else m.cs.lastHedgePrice
  }

  function SpreadNow(m: Market, t: TickInput): Option<real> {
    if t.storeSpread.Some? && t.storeSpread.value != 0.0 then t.storeSpread else m.cs.spread
  }

  /** Hedges already counted for the day of the question. */
  function CountedToday(st: AppState, t: TickInput): int {
    if st.guard.dailyDate.Some? && st.guard.dailyDate.value != t.gateDay then 0 else st.guard.dailyCount
  }

  function StockAfter(cfg: HedgeConfig, m: Market): int {
    if m.cs.netDelta < 0.0 then m.cs.stockPos + Size(cfg, m.cs.netDelta) else m.cs.stockPos - Size(cfg, m.cs.netDelta)
  }

  /** Every gate is open. Only the cooldown yields to force, and only the composite state forces. */
  predicate IsPermitted(cfg: HedgeConfig, st: AppState, m: Market, t: TickInput) {
    var l := cfg.limits;
    && !st.guard.breaker
    && (l.tradingHoursOnly ==> t.inRth) && !t.inBlackout
    && (m.cs.forceHedge || st.guard.lastHedgeTime == None
        || t.gateNow - st.guard.lastHedgeTime.value >= l.cooldownSec as real)
    && CountedToday(st, t) < l.maxDailyHedges
    && -l.maxPositionShares <= StockAfter(cfg, m) <= l.maxPositionShares
    && (l.maxSpreadPct.Some? && SpreadNow(m, t).Some? ==> SpreadNow(m, t).value <= l.maxSpreadPct.value)
    && (l.minPriceMovePct > 0.0 && PriceBefore(st, m).Some? && PriceBefore(st, m).value > 0.0 ==>
          100.0 * Abs(m.spot - PriceBefore(st, m).value) / PriceBefore(st, m).value >= l.minPriceMovePct)
  }

  lemma PermittedExactlyWhen(cfg: HedgeConfig, st: AppState, m: Market, t: TickInput, i: HedgeIntent)
    requires i.quantity == Size(cfg, m.cs.netDelta) && !i.forceHedge
    requires i.side == if m.cs.netDelta < 0.0 then Buy else Sell
    ensures Guard.Verdict(cfg.limits, Guard.ResetIfNewDay(st.guard, t.gateDay), AskFor(st, i, m, t)) == Guard.Allowed
            <==> IsPermitted(cfg, st, m, t)
  {
    Guard.AllowedExactlyWhen(cfg.limits, Guard.ResetIfNewDay(st.guard, t.gateDay), AskFor(st, i, m, t));
  }

  /** The whole decision. */
  predicate Decides(cfg: HedgeConfig, st: AppState, t: TickInput) {
    && !t.suspended && t.market.Some?
    && var m := t.market.value;
       && IsDue(st.trading, m.snapshot, cfg.guards)
       && IsWorthwhile(cfg, m.cs.netDelta)
       && IsPermitted(cfg, st, m, t)
  }

  /** A tick from rest records exactly the hedge the checklist decides on, and none
      otherwise: its side, size and price, whether it was forced, and its times. */
  lemma HedgesExactlyWhen(cfg: HedgeConfig, st: AppState, t: TickInput)
    requires AtRest(st) && cfg.threshold >= 0.0
    ensures EvalHedge(cfg, st, t).1 ==
            if !Decides(cfg, st, t) then None
            else
              var m := t.market.value;
              Some(HedgeRecord(if m.cs.netDelta < 0.0 then Buy else Sell, Size(cfg, m.cs.netDelta), m.spot,
                               m.cs.forceHedge, m.cs.stockPos, t.gateNow, t.sentNow, t.sentDay))
  {
    TickFromRest(cfg, st, t);
    if !t.suspended && t.market.Some? {
      var m := t.market.value;
      DueExactlyWhen(st.trading, m.snapshot, cfg.guards, Retry(cfg, st.guard));
      OrderExactlyWhen(cfg, m.cs.netDelta, t.stock);
      var intent := Intent(m.cs.netDelta, t.stock, cfg.threshold, cfg.maxQty);
      if intent.Some? {
        PermittedExactlyWhen(cfg, st, m, t, intent.value);
        assert Hedges(cfg, st, t, intent.value) <==> Decides(cfg, st, t);
      }
    }
  }

  /** A busy execution machine is left alone: the tick hedges nothing. */
  lemma BusyTickHedgesNothing(cfg: HedgeConfig, st: AppState, t: TickInput)
    requires !st.exec.CanPlaceOrder()
    ensures EvalHedge(cfg, st, t).1 == None && EvalHedge(cfg, st, t).0.exec == st.exec
  {
  }

  /** Inside the cooldown nothing is hedged that the composite state does not force, and
      nothing else is ever recorded as forced. */
  lemma CooldownHolds(cfg: HedgeConfig, st: AppState, t: TickInput)
    requires AtRest(st) && cfg.threshold >= 0.0 && t.market.Some? && !t.market.value.cs.forceHedge
    ensures var r := EvalHedge(cfg, st, t).1;
            && (r.Some? ==> !r.value.forced)
            && (st.guard.lastHedgeTime.Some? ==>
                  t.gateNow - st.guard.lastHedgeTime.value < cfg.limits.cooldownSec as real ==> r == None)
  {
    HedgesExactlyWhen(cfg, st, t);
  }
}

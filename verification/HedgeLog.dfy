/**
 What the log of recorded hedges looks like after any run of the pipeline: the
 sizes, positions, spacing, price moves and daily counts of its entries, and how
 many of them fit into a window of time.
 */
module HedgeLog {
  import opened Prelude
  import opened GammaScalper
  import opened HedgeFlow
  import HedgeFsm
  import TradingFsm
  import Guard = ExecutionGuard

  type Log = seq<HedgeRecord>

  // ---- Runs ---------------------------------------------------------------------

  /** Everything that happens to the pipeline between one tick and the next. */
  datatype RunEvent =
    | TickEvent(t: TickInput)
    | TradingSignal(e: TradingFsm.TradingEvent, snap: TradingFsm.Snapshot)
    | Breaker(tripped: bool)
    | DailyPnl(pnl: real)
    | Connection(up: bool)

  /** The pipeline, its log so far, and the last clock reading and date it saw. */
  datatype Trace = Trace(st: AppState, log: Log, now: real, day: int)

  function React(cfg: HedgeConfig, st: AppState, ev: RunEvent): (AppState, Option<HedgeRecord>) {
    match ev
    case TickEvent(t) => EvalHedge(cfg, st, t)
    case TradingSignal(e, snap) => (Fire(cfg, st, e, snap), None)
    case Breaker(b) => (st.(guard := st.guard.(breaker := b)), None)
    case Connection(up) => (st.(exec := HedgeFsm.Do(st.exec, HedgeFsm.SetConnected(up)).0), None)
    case DailyPnl(pnl) =>
      (st.(guard := st.guard.(breaker := st.guard.breaker || pnl <= -cfg.limits.maxDailyLossUsd)), None)
  }

  function Advance(cfg: HedgeConfig, tr: Trace, ev: RunEvent): Trace {
    var (st', r) := React(cfg, tr.st, ev);
    Trace(st',
          if r.Some? then tr.log + [r.value] else tr.log,
          if ev.TickEvent? then ev.t.sentNow else tr.now,
          if ev.TickEvent? then ev.t.sentDay else tr.day)
  }

  function Go(cfg: HedgeConfig, tr: Trace, run: seq<RunEvent>): Trace
    decreases |run|
  {
    if run == [] then tr else Go(cfg, Advance(cfg, tr, run[0]), run[1..])
  }

  /** Clock and calendar never go back, only the pipeline itself says that a target
      was emitted, and the snapshot build gives nothing without a positive spot. */
  ghost predicate Orderly(tr: Trace, ev: RunEvent) {
    match ev
    case TickEvent(t) =>
      && tr.now <= t.gateNow <= t.hedgeNow <= t.sentNow && tr.day <= t.gateDay <= t.sentDay
      && (t.market.Some? ==> t.market.value.spot > 0.0)
    case TradingSignal(e, _) => e != TradingFsm.TargetEmitted
    case _ => true
  }

  ghost predicate IsOrderlyRun(cfg: HedgeConfig, tr: Trace, run: seq<RunEvent>)
    decreases |run|
  {
    run != [] ==> Orderly(tr, run[0]) && IsOrderlyRun(cfg, Advance(cfg, tr, run[0]), run[1..])
  }

  /** A tick, or anything else but a foreign target, leaves the pipeline at rest. */
  lemma GoesOnAtRest(cfg: HedgeConfig, tr: Trace, ev: RunEvent)
    requires AtRest(tr.st) && (ev.TradingSignal? ==> ev.e != TradingFsm.TargetEmitted)
    ensures AtRest(Advance(cfg, tr, ev).st)
  {
    if ev.TickEvent? {
      TickFromRest(cfg, tr.st, ev.t);
    }
  }

  // ---- Admissible logs ------------------------------------------------------------

  ghost predicate EntryOk(cfg: HedgeConfig, e: HedgeRecord) {
    && cfg.minQty <= e.quantity <= cfg.maxQty && 1 <= e.quantity
    && -cfg.limits.maxPositionShares <= e.StockAfter() <= cfg.limits.maxPositionShares
    && e.gateAt <= e.sentAt && e.price > 0.0
  }

  ghost predicate MovedEnough(cfg: HedgeConfig, last: real, price: real) {
    cfg.limits.minPriceMovePct > 0.0 ==>
      last > 0.0 &&
      100.0 * Abs(price - last) / last >= cfg.limits.minPriceMovePct
  }

  ghost predicate PairOk(cfg: HedgeConfig, last: HedgeRecord, e: HedgeRecord) {
    && last.sentAt <= e.gateAt && last.day <= e.day
    && (!e.forced ==> e.gateAt >= last.sentAt + cfg.limits.cooldownSec as real)
    && MovedEnough(cfg, last.price, e.price)
  }

  ghost predicate Admissible(cfg: HedgeConfig, log: Log) {
    && (forall i :: 0 <= i < |log| ==> EntryOk(cfg, log[i]))
    && (forall i {:trigger log[i]} :: 0 < i < |log| ==> PairOk(cfg, log[i - 1], log[i]))
  }

  function CountOn(log: Log, day: int): nat
    decreases |log|
  {
    if log == [] then 0
    else CountOn(log[..|log| - 1], day) + (if log[|log| - 1].day == day then 1 else 0)
  }

  // ---- The invariant ----------------------------------------------------------------

  /** The guard and the store remember the last entry. */
  ghost predicate Remembers(tr: Trace) {
    tr.log != [] ==>
      var last := tr.log[|tr.log| - 1];
      && tr.st.guard.lastHedgeTime == Some(last.sentAt) && tr.st.lastHedgePrice == Some(last.price)
      && last.sentAt <= tr.now && last.day <= tr.day
  }

  /** How the guard's count bounds the log. Without a date the count is never reset
      and bounds the whole log; with one it bounds the entries of that date. */
  ghost predicate CountsOk(cfg: HedgeConfig, tr: Trace) {
    var g := tr.st.guard;
    && g.dailyCount >= 0
    && (tr.log != [] ==> g.dailyCount <= cfg.limits.maxDailyHedges)
    && match g.dailyDate
       case None => g.dailyCount >= |tr.log|
       case Some(d) =>
         && (tr.log != [] ==> d <= tr.day)
         && CountOn(tr.log, d) <= g.dailyCount
         && (forall i :: 0 <= i < |tr.log| ==> tr.log[i].day <= d)
         && (forall day :: CountOn(tr.log, day) <= cfg.limits.maxDailyHedges)
  }

  ghost predicate Inv(cfg: HedgeConfig, tr: Trace) {
    AtRest(tr.st) && Admissible(cfg, tr.log) && Remembers(tr) && CountsOk(cfg, tr)
  }

  lemma {:induction false} NoneOn(log: Log, day: int)
    requires forall i :: 0 <= i < |log| ==> log[i].day != day
    ensures CountOn(log, day) == 0
    decreases |log|
  {
    if log != [] {
      NoneOn(log[..|log| - 1], day);
    }
  }

  lemma CountAfter(log: Log, e: HedgeRecord, day: int)
    ensures CountOn(log + [e], day) == CountOn(log, day) + (if e.day == day then 1 else 0)
  {
    assert (log + [e])[..|log|] == log;
  }

  lemma {:induction false} CountAtMostLength(log: Log, day: int)
    ensures CountOn(log, day) <= |log|
    decreases |log|
  {
    if log != [] {
      CountAtMostLength(log[..|log| - 1], day);
    }
  }

  lemma ResetKeepsCounts(cfg: HedgeConfig, tr: Trace, today: int, now: real)
    requires cfg.limits.maxDailyHedges >= 0 && CountsOk(cfg, tr) && tr.day <= today
    ensures CountsOk(cfg, tr.(st := tr.st.(guard := Guard.ResetIfNewDay(tr.st.guard, today)), day := today, now := now))
  {
    var g := tr.st.guard;
    if g.dailyDate.Some? && g.dailyDate.value != today {
      NoneOn(tr.log, today);
    }
  }

  lemma EntryIsOk(cfg: HedgeConfig, st: AppState, t: TickInput, i: HedgeIntent)
    requires Hedges(cfg, st, t, i) && cfg.threshold >= 0.0 && t.gateNow <= t.sentNow && t.market.value.spot > 0.0
    ensures EntryOk(cfg, RecordOf(i, t.market.value, t))
    ensures !st.guard.breaker && Guard.ResetIfNewDay(st.guard, t.gateDay).dailyCount < cfg.limits.maxDailyHedges
  {
    var m := t.market.value;
    IntentMeaning(m.cs.netDelta, t.stock, cfg.threshold, cfg.maxQty);
    Guard.AllowedExactlyWhen(cfg.limits, Guard.ResetIfNewDay(st.guard, t.gateDay), AskFor(st, i, m, t));
  }

  lemma PairIsOk(cfg: HedgeConfig, st: AppState, t: TickInput, i: HedgeIntent, last: HedgeRecord)
    requires Hedges(cfg, st, t, i) && last.sentAt <= t.gateNow && last.day <= t.sentDay && last.price > 0.0
    requires st.guard.lastHedgeTime == Some(last.sentAt) && st.lastHedgePrice == Some(last.price)
    ensures PairOk(cfg, last, RecordOf(i, t.market.value, t))
  {
    var a := AskFor(st, i, t.market.value, t);
    var g := Guard.ResetIfNewDay(st.guard, t.gateDay);
    assert a.lastHedgePrice == Some(last.price) && g.lastHedgeTime == Some(last.sentAt);
    AllowedPair(cfg, g, a, last.sentAt, last.price);
  }

  /** What the gate says of two hedges in a row. */
  lemma AllowedPair(cfg: HedgeConfig, g: Guard.GuardState, a: Guard.Ask, at: real, price: real)
    requires Guard.Verdict(cfg.limits, g, a) == Guard.Allowed && price > 0.0
    requires g.lastHedgeTime == Some(at) && a.lastHedgePrice == Some(price)
    ensures a.force || a.now >= at + cfg.limits.cooldownSec as real
    ensures MovedEnough(cfg, price, a.spot)
  {
    Guard.AllowedExactlyWhen(cfg.limits, g, a);
  }

  lemma LogGrows(cfg: HedgeConfig, log: Log, e: HedgeRecord)
    requires Admissible(cfg, log) && EntryOk(cfg, e)
    requires log != [] ==> PairOk(cfg, log[|log| - 1], e)
    ensures Admissible(cfg, log + [e])
  {
  }

  /** A tick that records extends the log admissibly. */
  lemma RecordIsAdmissible(cfg: HedgeConfig, tr: Trace, t: TickInput, i: HedgeIntent)
    requires Inv(cfg, tr) && Orderly(tr, TickEvent(t)) && cfg.threshold >= 0.0
    requires Hedges(cfg, tr.st, t, i)
    ensures Admissible(cfg, tr.log + [RecordOf(i, t.market.value, t)])
    ensures Guard.ResetIfNewDay(tr.st.guard, t.gateDay).dailyCount < cfg.limits.maxDailyHedges
  {
    EntryIsOk(cfg, tr.st, t, i);
    if tr.log != [] {
      assert EntryOk(cfg, tr.log[|tr.log| - 1]);
      PairIsOk(cfg, tr.st, t, i, tr.log[|tr.log| - 1]);
    }
    LogGrows(cfg, tr.log, RecordOf(i, t.market.value, t));
  }

  lemma RecordKeepsCounts(cfg: HedgeConfig, tr: Trace, e: HedgeRecord, g: Guard.GuardState)
    requires cfg.limits.maxDailyHedges >= 0 && tr.day <= e.day && CountsOk(cfg, tr)
    requires g == tr.st.guard && g.dailyCount < cfg.limits.maxDailyHedges
    ensures CountsOk(cfg, tr.(st := tr.st.(guard := Guard.Recorded(g, e.day, e.sentAt)),
                              log := tr.log + [e], day := e.day, now := e.sentAt))
  {
    ResetKeepsCounts(cfg, tr, e.day, e.sentAt);
    forall day
      ensures CountOn(tr.log + [e], day) == CountOn(tr.log, day) + (if e.day == day then 1 else 0)
    {
      CountAfter(tr.log, e, day);
    }
  }

  lemma QuietTickKeepsInv(cfg: HedgeConfig, tr: Trace, t: TickInput)
    requires cfg.limits.maxDailyHedges >= 0
    requires Inv(cfg, tr) && Orderly(tr, TickEvent(t)) && EvalHedge(cfg, tr.st, t).1 == None
    ensures Inv(cfg, Advance(cfg, tr, TickEvent(t)))
  {
    TickFromRest(cfg, tr.st, t);
    ResetKeepsCounts(cfg, tr, t.gateDay, t.gateNow);
  }

  lemma HedgeTickKeepsInv(cfg: HedgeConfig, tr: Trace, t: TickInput)
    requires cfg.limits.maxDailyHedges >= 0 && cfg.threshold >= 0.0
    requires Inv(cfg, tr) && Orderly(tr, TickEvent(t)) && EvalHedge(cfg, tr.st, t).1.Some?
    ensures Inv(cfg, Advance(cfg, tr, TickEvent(t)))
  {
    TickFromRest(cfg, tr.st, t);
    var i :| Hedges(cfg, tr.st, t, i);
    var e := EvalHedge(cfg, tr.st, t).1.value;
    assert e == RecordOf(i, t.market.value, t);
    RecordIsAdmissible(cfg, tr, t, i);
    ResetKeepsCounts(cfg, tr, t.gateDay, t.gateNow);
    var g := Guard.ResetIfNewDay(tr.st.guard, t.gateDay);
    RecordKeepsCounts(cfg, tr.(st := tr.st.(guard := g), day := t.gateDay, now := t.gateNow), e, g);
  }

  lemma AdvanceKeepsInv(cfg: HedgeConfig, tr: Trace, ev: RunEvent)
    requires cfg.limits.maxDailyHedges >= 0 && cfg.threshold >= 0.0
    requires Inv(cfg, tr) && Orderly(tr, ev)
    ensures Inv(cfg, Advance(cfg, tr, ev))
  {
    if ev.TickEvent? {
      if EvalHedge(cfg, tr.st, ev.t).1.Some? {
        HedgeTickKeepsInv(cfg, tr, ev.t);
      } else {
        QuietTickKeepsInv(cfg, tr, ev.t);
      }
    }
  }

  lemma {:induction false} GoKeepsInv(cfg: HedgeConfig, tr: Trace, run: seq<RunEvent>)
    requires cfg.limits.maxDailyHedges >= 0 && cfg.threshold >= 0.0
    requires Inv(cfg, tr) && IsOrderlyRun(cfg, tr, run)
    ensures Inv(cfg, Go(cfg, tr, run))
    decreases |run|
  {
    if run != [] {
      AdvanceKeepsInv(cfg, tr, run[0]);
      GoKeepsInv(cfg, Advance(cfg, tr, run[0]), run[1..]);
    }
  }

  /** The start of a process: at rest, nothing recorded, any daily count and date. */
  ghost predicate Begins(tr: Trace) {
    AtRest(tr.st) && tr.log == [] && tr.st.guard.dailyCount >= 0
  }

  // ---- The theorems -------------------------------------------------------------------

  /** Every run leaves an admissible log and the pipeline at rest. */
  lemma EveryLogIsAdmissible(cfg: HedgeConfig, tr: Trace, run: seq<RunEvent>)
    requires cfg.limits.maxDailyHedges >= 0 && cfg.threshold >= 0.0
    requires Begins(tr) && IsOrderlyRun(cfg, tr, run)
    ensures Admissible(cfg, Go(cfg, tr, run).log) && AtRest(Go(cfg, tr, run).st)
  {
    GoKeepsInv(cfg, tr, run);
  }

  /** The daily cap: no date ever carries more than the cap. What was already counted
      counts too: of the date it was counted for, if that is not in the future, and of
      the whole run if there is no date, since then the count is never reset. */
  lemma {:induction false} DailyCap(cfg: HedgeConfig, tr: Trace, run: seq<RunEvent>, day: int)
    requires cfg.limits.maxDailyHedges >= 0 && cfg.threshold >= 0.0
    requires Begins(tr) && IsOrderlyRun(cfg, tr, run)
    ensures var log := Go(cfg, tr, run).log;
            var start := tr.st.guard;
            && CountOn(log, day) <= cfg.limits.maxDailyHedges
            && (start.dailyDate == None && log != [] ==> |log| + start.dailyCount <= cfg.limits.maxDailyHedges)
            && (start.dailyDate == Some(day) && day <= tr.day && CountOn(log, day) > 0 ==>
                  CountOn(log, day) + start.dailyCount <= cfg.limits.maxDailyHedges)
  {
    GoKeepsInv(cfg, tr, run);
    UndatedCount(cfg, tr, run);
    CountAtMostLength(Go(cfg, tr, run).log, day);
    if tr.st.guard.dailyDate == Some(day) && day <= tr.day {
      DatedCount(cfg, tr, run, day, tr.st.guard.dailyCount);
    }
  }

  /** The guard still counts on from `start` for this date, or the date is over. */
  ghost predicate CountsFrom(cfg: HedgeConfig, tr: Trace, day: int, start: int) {
    var g := tr.st.guard;
    && day <= tr.day && g.dailyDate.Some?
    && (if g.dailyDate.value == day then g.dailyCount == start + CountOn(tr.log, day) else day < tr.day)
    && (CountOn(tr.log, day) > 0 ==> CountOn(tr.log, day) + start <= cfg.limits.maxDailyHedges)
  }

  lemma RecordedBelowCap(cfg: HedgeConfig, st: AppState, t: TickInput)
    requires AtRest(st) && EvalHedge(cfg, st, t).1.Some?
    ensures Guard.ResetIfNewDay(st.guard, t.gateDay).dailyCount < cfg.limits.maxDailyHedges
    ensures EvalHedge(cfg, st, t).1.value.day == t.sentDay
    ensures EvalHedge(cfg, st, t).0.guard ==
            Guard.Recorded(Guard.ResetIfNewDay(st.guard, t.gateDay), t.sentDay, t.sentNow)
  {
    TickFromRest(cfg, st, t);
    var i :| Hedges(cfg, st, t, i);
    Guard.AllowedExactlyWhen(cfg.limits, Guard.ResetIfNewDay(st.guard, t.gateDay), AskFor(st, i, t.market.value, t));
  }

  lemma TickCountsOn(cfg: HedgeConfig, tr: Trace, t: TickInput, day: int, start: int)
    requires AtRest(tr.st) && Orderly(tr, TickEvent(t)) && CountsFrom(cfg, tr, day, start)
    ensures CountsFrom(cfg, Advance(cfg, tr, TickEvent(t)), day, start)
  {
    var r := EvalHedge(cfg, tr.st, t).1;
    if r.Some? {
      RecordedBelowCap(cfg, tr.st, t);
      CountAfter(tr.log, r.value, day);
    } else {
      TickFromRest(cfg, tr.st, t);
    }
  }

  lemma {:induction false} DatedCount(cfg: HedgeConfig, tr: Trace, run: seq<RunEvent>, day: int, start: int)
    requires AtRest(tr.st) && IsOrderlyRun(cfg, tr, run) && CountsFrom(cfg, tr, day, start)
    ensures CountsFrom(cfg, Go(cfg, tr, run), day, start)
    decreases |run|
  {
    if run != [] {
      GoesOnAtRest(cfg, tr, run[0]);
      if run[0].TickEvent? {
        TickCountsOn(cfg, tr, run[0].t, day, start);
      }
      DatedCount(cfg, Advance(cfg, tr, run[0]), run[1..], day, start);
    }
  }

  /** One event moves every counter by as much as it lengthens the log. */
  lemma OneEventCounts(cfg: HedgeConfig, tr: Trace, ev: RunEvent)
    requires AtRest(tr.st) && (ev.TradingSignal? ==> ev.e != TradingFsm.TargetEmitted)
    ensures var t := Advance(cfg, tr, ev);
            var more := |t.log| - |tr.log|;
            && t.st.storeCount - tr.st.storeCount == more && t.st.metricsCount - tr.st.metricsCount == more
            && (tr.st.guard.dailyDate == None ==>
                  t.st.guard.dailyDate == None && t.st.guard.dailyCount - tr.st.guard.dailyCount == more)
  {
    if ev.TickEvent? {
      TickFromRest(cfg, tr.st, ev.t);
    }
  }

  lemma {:induction false} UndatedCount(cfg: HedgeConfig, tr: Trace, run: seq<RunEvent>)
    requires AtRest(tr.st) && IsOrderlyRun(cfg, tr, run)
    ensures var end := Go(cfg, tr, run);
            tr.st.guard.dailyDate == None ==>
              && end.st.guard.dailyDate == None
              && end.st.guard.dailyCount - tr.st.guard.dailyCount == |end.log| - |tr.log|
    decreases |run|
  {
    if run != [] {
      GoesOnAtRest(cfg, tr, run[0]);
      OneEventCounts(cfg, tr, run[0]);
      UndatedCount(cfg, Advance(cfg, tr, run[0]), run[1..]);
    }
  }

  /** The store's and the metrics' counters both count exactly the recorded hedges. */
  lemma {:induction false} CountersAgree(cfg: HedgeConfig, tr: Trace, run: seq<RunEvent>)
    requires AtRest(tr.st) && IsOrderlyRun(cfg, tr, run)
    ensures var end := Go(cfg, tr, run);
            && end.st.storeCount - tr.st.storeCount == |end.log| - |tr.log|
            && end.st.metricsCount - tr.st.metricsCount == |end.log| - |tr.log|
    decreases |run|
  {
    if run != [] {
      GoesOnAtRest(cfg, tr, run[0]);
      OneEventCounts(cfg, tr, run[0]);
      CountersAgree(cfg, Advance(cfg, tr, run[0]), run[1..]);
    }
  }

  /** Whether the connection is up after these events. */
  function IsUp(run: seq<RunEvent>, up: bool): bool
    decreases |run|
  {
    if run == [] then up else IsUp(run[1..], if run[0].Connection? then run[0].up else up)
  }

  /** Between ticks the execution side is never working and never in error: what a true
      snapshot reports of it is idle exactly while the connection is up, over every run.
      So nothing the pipeline does can itself send the trading machine to Safe. */
  lemma {:induction false} ExecutionIsIdleBetweenTicks(cfg: HedgeConfig, tr: Trace, run: seq<RunEvent>)
    requires AtRest(tr.st) && IsOrderlyRun(cfg, tr, run)
    ensures var exec := Go(cfg, tr, run).st.exec;
            HedgeFsm.ToExecutionState(exec.state, exec.connected) ==
            (if IsUp(run, tr.st.exec.connected) then HedgeFsm.Idle else HedgeFsm.Disconnected)
    decreases |run|
  {
    if run != [] {
      if run[0].TickEvent? {
        TickFromRest(cfg, tr.st, run[0].t);
      }
      ExecutionIsIdleBetweenTicks(cfg, Advance(cfg, tr, run[0]), run[1..]);
    }
  }

  lemma StaysLatched(cfg: HedgeConfig, tr: Trace, ev: RunEvent)
    requires AtRest(tr.st) && tr.st.guard.breaker && ev != Breaker(false)
    ensures Advance(cfg, tr, ev).st.guard.breaker && Advance(cfg, tr, ev).log == tr.log
  {
    if ev.TickEvent? {
      TickFromRest(cfg, tr.st, ev.t);
    }
  }

  /** While the circuit breaker is latched nothing is recorded, and nothing but an
      explicit reset unlatches it. */
  lemma {:induction false} NoHedgeWhileLatched(cfg: HedgeConfig, tr: Trace, run: seq<RunEvent>)
    requires AtRest(tr.st) && IsOrderlyRun(cfg, tr, run) && tr.st.guard.breaker
    requires forall i :: 0 <= i < |run| ==> run[i] != Breaker(false)
    ensures Go(cfg, tr, run).log == tr.log && Go(cfg, tr, run).st.guard.breaker
    decreases |run|
  {
    if run != [] {
      GoesOnAtRest(cfg, tr, run[0]);
      StaysLatched(cfg, tr, run[0]);
      NoHedgeWhileLatched(cfg, Advance(cfg, tr, run[0]), run[1..]);
    }
  }

  /** A daily loss at or over the limit ends hedging until an explicit reset, whatever the
      P&L does afterwards; a smaller one changes nothing. */
  lemma LossEndsHedging(cfg: HedgeConfig, tr: Trace, pnl: real, run: seq<RunEvent>)
    requires AtRest(tr.st) && IsOrderlyRun(cfg, Advance(cfg, tr, DailyPnl(pnl)), run)
    requires forall i :: 0 <= i < |run| ==> run[i] != Breaker(false)
    ensures -pnl >= cfg.limits.maxDailyLossUsd ==> Go(cfg, Advance(cfg, tr, DailyPnl(pnl)), run).log == tr.log
    ensures -pnl < cfg.limits.maxDailyLossUsd ==> Advance(cfg, tr, DailyPnl(pnl)) == tr
  {
    if -pnl >= cfg.limits.maxDailyLossUsd {
      NoHedgeWhileLatched(cfg, Advance(cfg, tr, DailyPnl(pnl)), run);
    }
  }

  // ---- How many hedges fit into a window -------------------------------------------------

  function UnforcedIn(log: Log, from: real, to: real): nat
    decreases |log|
  {
    if log == [] then 0
    else
      var e := log[|log| - 1];
      UnforcedIn(log[..|log| - 1], from, to) + (if !e.forced && from <= e.sentAt <= to then 1 else 0)
  }

  lemma {:induction false} WindowSpacing(cfg: HedgeConfig, log: Log, from: real, to: real)
    requires Admissible(cfg, log) && cfg.limits.cooldownSec >= 0
    ensures var k := UnforcedIn(log, from, to);
            k > 0 ==>
              && log[|log| - 1].sentAt >= from + Times(k - 1, cfg.limits.cooldownSec) as real
              && Times(k - 1, cfg.limits.cooldownSec) as real <= to - from
    decreases |log|
  {
    if log != [] {
      var front := log[..|log| - 1];
      var e := log[|log| - 1];
      assert EntryOk(cfg, e);
      WindowSpacing(cfg, front, from, to);
      if front != [] {
        assert PairOk(cfg, front[|front| - 1], e);
      }
    }
  }

  /** In any window of length w a run records at most floor(w / cooldown) + 1
      unforced hedges, however many forced ones are mixed in. */
  lemma WindowBound(cfg: HedgeConfig, tr: Trace, run: seq<RunEvent>, from: real, w: real)
    requires cfg.limits.maxDailyHedges >= 0 && cfg.threshold >= 0.0 && cfg.limits.cooldownSec > 0 && w >= 0.0
    requires Begins(tr) && IsOrderlyRun(cfg, tr, run)
    ensures UnforcedIn(Go(cfg, tr, run).log, from, from + w) <= (w / cfg.limits.cooldownSec as real).Floor + 1
  {
    EveryLogIsAdmissible(cfg, tr, run);
    var log := Go(cfg, tr, run).log;
    var k := UnforcedIn(log, from, from + w);
    WindowSpacing(cfg, log, from, from + w);
    if k > 0 {
      TimesIsProduct(k - 1, cfg.limits.cooldownSec);
    }
    FitsBelowQuotient(k, cfg.limits.cooldownSec, w);
  }

  lemma FitsBelowQuotient(k: nat, step: int, w: real)
    requires step > 0 && w >= 0.0
    requires k > 0 ==> ((k - 1) * step) as real <= w
    ensures k <= (w / step as real).Floor + 1
  {
    var s := step as real;
    var q := w / s;
    assert q * s == w;
    if k > 0 {
      var n := (k - 1) as real;
      assert ((k - 1) * step) as real == n * s;
      ScalingKeepsOrder(n, q, s);
    } else {
      assert q >= 0.0;
    }
  }
}

/**
 Faults latch. One event with an unsound snapshot sends the trading machine to
 Safe, and the way back to a hedge is long: a manual resume or a returning broker
 with a sound snapshot, and then the whole walk from Sync to Monitor.
 */
module FaultLatch {
  import opened Prelude
  import opened GammaScalper
  import opened HedgeFlow
  import opened HedgeLog
  import T = TradingFsm

  ghost predicate Sound(cfg: HedgeConfig, snap: T.Snapshot) {
    T.DataOk(snap, cfg.guards) && !T.GreeksBad(snap) && !T.BrokerDown(snap)
  }

  /** The event reaches the trading machine, with this snapshot. */
  ghost predicate Carries(ev: RunEvent, snap: T.Snapshot) {
    match ev
    case TickEvent(t) => !t.suspended && t.market.Some? && t.market.value.snapshot == snap
    case TradingSignal(_, s) => s == snap
    case _ => false
  }

  ghost predicate Resumes(cfg: HedgeConfig, ev: RunEvent) {
    ev.TradingSignal? && ev.e in {T.ManualResume, T.BrokerUpEvent} && Sound(cfg, ev.snap)
  }

  predicate Watching(s: T.TradingState) {
    s in {T.Monitor, T.NoTrade, T.PauseCost, T.PauseLiq, T.NeedHedge, T.Hedging}
  }

  /** An event that carries a fault ends in Safe, from every state, and records nothing. */
  lemma FaultStops(cfg: HedgeConfig, st: AppState, ev: RunEvent, snap: T.Snapshot)
    requires Carries(ev, snap) && !Sound(cfg, snap)
    ensures React(cfg, st, ev).0.trading == T.Safe && React(cfg, st, ev).1 == None
  {
  }

  /** The only ways into each stage of the walk. */
  ghost predicate Moves(cfg: HedgeConfig, s: T.TradingState, ev: RunEvent, s': T.TradingState) {
    && (s == T.Safe && s' != T.Safe ==> s' == T.Sync && Resumes(cfg, ev))
    && (s' == T.Boot ==> s == T.Boot)
    && (s' == T.Sync && s != T.Sync ==> s in {T.Boot, T.Safe})
    && (s' == T.Idle && s != T.Idle ==> s == T.Sync)
    && (s' == T.Armed && s != T.Armed ==> s == T.Idle)
    && (Watching(s') && !Watching(s) ==> s == T.Armed && s' == T.Monitor)
  }

  lemma SignalMoves(cfg: HedgeConfig, s: T.TradingState, e: T.TradingEvent, snap: T.Snapshot, retry: bool)
    ensures Moves(cfg, s, TradingSignal(e, snap), T.Applied(s, e, T.EvalAll(snap, cfg.guards, retry)))
  {
  }

  lemma OneMove(cfg: HedgeConfig, st: AppState, ev: RunEvent)
    requires AtRest(st)
    ensures Moves(cfg, st.trading, ev, React(cfg, st, ev).0.trading)
    ensures React(cfg, st, ev).1.Some? ==> Watching(st.trading)
  {
    match ev
    case TickEvent(t) => TickMoves(cfg, st, t);
    case TradingSignal(e, snap) => SignalMoves(cfg, st.trading, e, snap, Retry(cfg, st.guard));
    case _ =>
  }

  lemma TickMoves(cfg: HedgeConfig, st: AppState, t: TickInput)
    requires AtRest(st)
    ensures Moves(cfg, st.trading, TickEvent(t), EvalHedge(cfg, st, t).0.trading)
    ensures EvalHedge(cfg, st, t).1.Some? ==> Watching(st.trading)
  {
    TickFromRest(cfg, st, t);
    if EvalHedge(cfg, st, t).1 == None {
      TradingWithoutHedge(cfg, st, t);
    }
    if t.market.Some? {
      SignalMoves(cfg, st.trading, T.Tick, t.market.value.snapshot, Retry(cfg, st.guard));
      T.HedgeIsNeededExactlyWhen(st.trading, t.market.value.snapshot, cfg.guards, Retry(cfg, st.guard));
    }
  }

  /** The trading states along a run: before it, and after each event. */
  ghost function States(cfg: HedgeConfig, tr: Trace, run: seq<RunEvent>): (states: seq<T.TradingState>)
    ensures |states| == |run| + 1
    decreases |run|
  {
    if run == [] then [tr.st.trading]
    else [tr.st.trading] + States(cfg, Advance(cfg, tr, run[0]), run[1..])
  }

  ghost predicate RecordsAt(cfg: HedgeConfig, tr: Trace, run: seq<RunEvent>, k: nat)
    requires k < |run|
    decreases k
  {
    if k == 0 then React(cfg, tr.st, run[0]).1.Some?
    else RecordsAt(cfg, Advance(cfg, tr, run[0]), run[1..], k - 1)
  }

  ghost predicate NoForeignTargets(run: seq<RunEvent>) {
    forall i :: 0 <= i < |run| && run[i].TradingSignal? ==> run[i].e != T.TargetEmitted
  }

  lemma StatesShift(cfg: HedgeConfig, tr: Trace, run: seq<RunEvent>)
    requires run != []
    ensures States(cfg, tr, run)[0] == tr.st.trading
    ensures States(cfg, tr, run)[1] == Advance(cfg, tr, run[0]).st.trading
    ensures States(cfg, tr, run)[1..] == States(cfg, Advance(cfg, tr, run[0]), run[1..])
  {
  }

  lemma {:induction false} StatesMove(cfg: HedgeConfig, tr: Trace, run: seq<RunEvent>, k: nat)
    requires AtRest(tr.st) && NoForeignTargets(run) && k < |run|
    ensures Moves(cfg, States(cfg, tr, run)[k], run[k], States(cfg, tr, run)[k + 1])
    ensures RecordsAt(cfg, tr, run, k) ==> Watching(States(cfg, tr, run)[k])
    decreases k
  {
    StatesShift(cfg, tr, run);
    if k == 0 {
      OneMove(cfg, tr.st, run[0]);
    } else {
      GoesOnAtRest(cfg, tr, run[0]);
      StatesMove(cfg, Advance(cfg, tr, run[0]), run[1..], k - 1);
    }
  }

  /** The walk back: a resume at i, then the steps into Idle, Armed and Monitor by
      later and later events, and no relapse into Safe since the resume. `k` is
      how many events have been processed and `s` how far the walk has come. */
  ghost predicate Walked(cfg: HedgeConfig, run: seq<RunEvent>, states: seq<T.TradingState>, k: nat, s: T.TradingState,
        i: nat, a: nat, b: nat, c: nat)
    requires k <= |run| && |states| == |run| + 1
  {
    && i < k && Resumes(cfg, run[i])
    && states[i] == T.Safe && states[i + 1] == T.Sync
    && (forall j :: i < j <= k ==> states[j] != T.Safe)
    && (s != T.Sync ==> i < a < k && states[a + 1] == T.Idle)
    && (s != T.Sync && s != T.Idle ==> a < b < k && states[b + 1] == T.Armed)
    && (Watching(s) ==> b < c < k && states[c + 1] == T.Monitor)
  }

  lemma {:induction false} HowItGotHere(cfg: HedgeConfig, run: seq<RunEvent>, states: seq<T.TradingState>, k: nat)
    returns (i: nat, a: nat, b: nat, c: nat)
    requires k <= |run| && |states| == |run| + 1 && states[0] == T.Safe
    requires forall j :: 0 <= j < |run| ==> Moves(cfg, states[j], run[j], states[j + 1])
    ensures states[k] != T.Boot
    ensures states[k] != T.Safe ==> Walked(cfg, run, states, k, states[k], i, a, b, c)
    decreases k
  {
    i, a, b, c := 0, 0, 0, 0;
    if k > 0 {
      i, a, b, c := HowItGotHere(cfg, run, states, k - 1);
      var s, s' := states[k - 1], states[k];
      assert Moves(cfg, s, run[k - 1], s');
      if s == T.Safe && s' == T.Sync {
        i := k - 1;
      } else if s == T.Sync && s' == T.Idle {
        a := k - 1;
      } else if s == T.Idle && s' == T.Armed {
        b := k - 1;
      } else if s == T.Armed && Watching(s') {
        c := k - 1;
      }
    }
  }

  /** Fault latching: after Safe, a hedge is recorded only behind a resume with a
      sound snapshot and then, strictly later one after another, the steps into
      Idle, Armed and Monitor, with no relapse in between. */
  lemma NoHedgeBeforeTheWalk(cfg: HedgeConfig, tr: Trace, run: seq<RunEvent>, k: nat)
    returns (i: nat, a: nat, b: nat, c: nat)
    requires AtRest(tr.st) && tr.st.trading == T.Safe && NoForeignTargets(run)
    requires k < |run| && RecordsAt(cfg, tr, run, k)
    ensures Walked(cfg, run, States(cfg, tr, run), k, T.Monitor, i, a, b, c)
  {
    var states := States(cfg, tr, run);
    forall j | 0 <= j < |run|
      ensures Moves(cfg, states[j], run[j], states[j + 1])
    {
      StatesMove(cfg, tr, run, j);
    }
    StatesMove(cfg, tr, run, k);
    i, a, b, c := HowItGotHere(cfg, run, states, k);
  }

  /** With the events the daemon itself fires, Safe is absorbing: it never sends a
      resume or a broker-up, so no run leaves Safe or records another hedge. */
  lemma {:induction false} SafeIsAbsorbing(cfg: HedgeConfig, tr: Trace, run: seq<RunEvent>)
    requires AtRest(tr.st) && tr.st.trading == T.Safe
    requires forall i :: 0 <= i < |run| && run[i].TradingSignal? ==>
               run[i].e in {T.Start, T.Synced, T.Tick, T.HedgeDone}
    ensures Go(cfg, tr, run).st.trading == T.Safe && Go(cfg, tr, run).log == tr.log
    decreases |run|
  {
    if run != [] {
      OneMove(cfg, tr.st, run[0]);
      GoesOnAtRest(cfg, tr, run[0]);
      SafeIsAbsorbing(cfg, Advance(cfg, tr, run[0]), run[1..]);
    }
  }

  // ---- A report that raises ---------------------------------------------------------------

  /** A tick that hedges and then raises in the report it makes after the fill, so that
      HEDGE_DONE is never fired. */
  function RaisedTick(cfg: HedgeConfig, st: AppState, t: TickInput, i: HedgeIntent): AppState
    requires t.market.Some?
  {
    var m := t.market.value;
    var gated := ApplyHedgeGates(cfg, Fire(cfg, st, T.Tick, m.snapshot), i, m, t).0;
    var emitted := Fire(cfg, gated, T.TargetEmitted, m.snapshot);
    Filled(emitted, Planned(cfg, emitted.exec, i, m, t), m, t)
  }

  lemma RaiseLeavesHedging(cfg: HedgeConfig, st: AppState, t: TickInput, i: HedgeIntent)
    requires AtRest(st) && Hedges(cfg, st, t, i)
    ensures RaisedTick(cfg, st, t, i).trading == T.Hedging
  {
    var m := t.market.value;
    var gated := ApplyHedgeGates(cfg, Fire(cfg, st, T.Tick, m.snapshot), i, m, t).0;
    T.HedgeRoundTrip(m.snapshot, cfg.guards, st.trading, Retry(cfg, st.guard), Retry(cfg, gated.guard), true);
  }

  lemma StaysInHedging(cfg: HedgeConfig, tr: Trace, ev: RunEvent)
    requires tr.st.trading in {T.Hedging, T.Safe}
    requires ev.TradingSignal? ==> ev.e in {T.Start, T.Synced, T.Tick}
    ensures Advance(cfg, tr, ev).st.trading in {T.Hedging, T.Safe} && Advance(cfg, tr, ev).log == tr.log
  {
    match ev
    case TickEvent(t) => TickStaysInHedging(cfg, tr.st, t);
    case TradingSignal(e, snap) =>
      SignalStaysInHedging(tr.st.trading, e, T.EvalAll(snap, cfg.guards, Retry(cfg, tr.st.guard)));
    case _ =>
  }

  lemma SignalStaysInHedging(s: T.TradingState, e: T.TradingEvent, g: T.Guards)
    requires s in {T.Hedging, T.Safe} && e in {T.Start, T.Synced, T.Tick}
    ensures T.Applied(s, e, g) in {T.Hedging, T.Safe}
  {
  }

  lemma TickStaysInHedging(cfg: HedgeConfig, st: AppState, t: TickInput)
    requires st.trading in {T.Hedging, T.Safe}
    ensures EvalHedge(cfg, st, t).0.trading in {T.Hedging, T.Safe} && EvalHedge(cfg, st, t).1 == None
  {
    if !t.suspended && t.market.Some? {
      SignalStaysInHedging(st.trading, T.Tick,
                           T.EvalAll(t.market.value.snapshot, cfg.guards, Retry(cfg, st.guard)));
    }
  }

  /** Hedging is a dead end: with the events the daemon fires between ticks no run leaves
      it but for Safe, and none records another hedge. */
  lemma {:induction false} HedgingIsADeadEnd(cfg: HedgeConfig, tr: Trace, run: seq<RunEvent>)
    requires tr.st.trading in {T.Hedging, T.Safe}
    requires forall i :: 0 <= i < |run| && run[i].TradingSignal? ==> run[i].e in {T.Start, T.Synced, T.Tick}
    ensures Go(cfg, tr, run).st.trading in {T.Hedging, T.Safe} && Go(cfg, tr, run).log == tr.log
    decreases |run|
  {
    if run != [] {
      StaysInHedging(cfg, tr, run[0]);
      HedgingIsADeadEnd(cfg, Advance(cfg, tr, run[0]), run[1..]);
    }
  }

  /** What one such raise costs: the order is filled and counted, and no run after it
      ever records another. */
  lemma RaiseEndsHedgingForGood(cfg: HedgeConfig, tr: Trace, t: TickInput, i: HedgeIntent, run: seq<RunEvent>)
    requires AtRest(tr.st) && Hedges(cfg, tr.st, t, i)
    requires forall i :: 0 <= i < |run| && run[i].TradingSignal? ==> run[i].e in {T.Start, T.Synced, T.Tick}
    ensures var raised := tr.(st := RaisedTick(cfg, tr.st, t, i));
            && raised.st.storeCount == tr.st.storeCount + 1
            && Go(cfg, raised, run).log == tr.log
  {
    RaiseLeavesHedging(cfg, tr.st, t, i);
    HedgingIsADeadEnd(cfg, tr.(st := RaisedTick(cfg, tr.st, t, i)), run);
  }
}

/** The gate every hedge passes: cooldown, daily cap, position, spread and price move. */
module ExecutionGuard {
  import opened Prelude
  import opened GammaScalper

  datatype Limits = Limits(
    cooldownSec: int,
    maxDailyHedges: int,
    maxPositionShares: int,
    maxDailyLossUsd: real,
    maxSpreadPct: Option<real>,
    minPriceMovePct: real,
    tradingHoursOnly: bool)

  /** `dailyDate` is a day number; it stays None until the count is set from outside. */
  datatype GuardState = GuardState(
    lastHedgeTime: Option<real>,
    dailyCount: int,
    dailyDate: Option<int>,
    breaker: bool)

  const FRESH_GUARD := GuardState(None, 0, None, false)

  datatype Reason =
    | Allowed | CircuitBreaker | OutsideRth | EarningsBlackout | Cooldown
    | MaxDailyHedges | MaxPosition | SpreadTooWide | MinPriceMove

  /** One question to the gate, with what the calendar and the clock say. */
  datatype Ask = Ask(
    now: real,
    today: int,
    inRth: bool,
    inBlackout: bool,
    stock: int,
    side: Side,
    quantity: int,
    spot: real,
    lastHedgePrice: Option<real>,
    spreadPct: Option<real>,
    force: bool)

  function AfterPosition(a: Ask): int {
    a.stock + (if a.side == Buy then a.quantity else -a.quantity)
  }

  function ResetIfNewDay(g: GuardState, today: int): GuardState {
    if g.dailyDate.Some? && g.dailyDate.value != today
    then g.(dailyCount := 0, dailyDate := Some(today))
    else g
  }

  function Verdict(l: Limits, g: GuardState, a: Ask): Reason {
    if g.breaker then CircuitBreaker
    else if l.tradingHoursOnly && !a.inRth then OutsideRth
    else if a.inBlackout then EarningsBlackout
    else if !a.force && g.lastHedgeTime.Some? && a.now - g.lastHedgeTime.value < l.cooldownSec as real then Cooldown
    else if g.dailyCount >= l.maxDailyHedges then MaxDailyHedges
    else if AbsInt(AfterPosition(a)) > l.maxPositionShares then MaxPosition
    else if l.maxSpreadPct.Some? && a.spreadPct.Some? && a.spreadPct.value > l.maxSpreadPct.value then SpreadTooWide
    else if l.minPriceMovePct > 0.0 && a.lastHedgePrice.Some? && a.lastHedgePrice.value > 0.0
            && 100.0 * Abs(a.spot - a.lastHedgePrice.value) / a.lastHedgePrice.value < l.minPriceMovePct
    then MinPriceMove
    else Allowed
  }

  function Recorded(g: GuardState, today: int, now: real): GuardState {
    var r := ResetIfNewDay(g, today);
    r.(dailyCount := r.dailyCount + 1, lastHedgeTime := Some(now))
  }

  /** What being allowed means, as one condition on the question and the state:
      the order in which the gates are tried only chooses the reason. */
  lemma AllowedExactlyWhen(l: Limits, g: GuardState, a: Ask)
    ensures Verdict(l, g, a) == Allowed <==>
            && !g.breaker && (l.tradingHoursOnly ==> a.inRth) && !a.inBlackout
            && (a.force || g.lastHedgeTime == None || a.now >= g.lastHedgeTime.value + l.cooldownSec as real)
            && g.dailyCount < l.maxDailyHedges
            && -l.maxPositionShares <= AfterPosition(a) <= l.maxPositionShares
            && (l.maxSpreadPct.Some? && a.spreadPct.Some? ==> a.spreadPct.value <= l.maxSpreadPct.value)
            && (l.minPriceMovePct > 0.0 && a.lastHedgePrice.Some? && a.lastHedgePrice.value > 0.0 ==>
                  100.0 * Abs(a.spot - a.lastHedgePrice.value) / a.lastHedgePrice.value >= l.minPriceMovePct)
  {
  }

  /** The gates in the order in which they are tried, each as the condition it refuses on. */
  function Refusals(l: Limits, g: GuardState, a: Ask): seq<(bool, Reason)> {
    [(g.breaker, CircuitBreaker),
     (l.tradingHoursOnly && !a.inRth, OutsideRth),
     (a.inBlackout, EarningsBlackout),
     (!a.force && g.lastHedgeTime.Some? && a.now < g.lastHedgeTime.value + l.cooldownSec as real, Cooldown),
     (g.dailyCount >= l.maxDailyHedges, MaxDailyHedges),
     (AfterPosition(a) > l.maxPositionShares || AfterPosition(a) < -l.maxPositionShares, MaxPosition),
     (l.maxSpreadPct.Some? && a.spreadPct.Some? && a.spreadPct.value > l.maxSpreadPct.value, SpreadTooWide)]
  }

  /** The reason given is that of the first gate that refuses; a price that has not moved is
      the last one. */
  lemma ReasonIsTheFirst(l: Limits, g: GuardState, a: Ask, k: nat)
    requires k < |Refusals(l, g, a)| && Refusals(l, g, a)[k].0
    requires forall j :: 0 <= j < k ==> !Refusals(l, g, a)[j].0
    ensures Verdict(l, g, a) == Refusals(l, g, a)[k].1
  {
    assert forall j :: 0 <= j < k ==> !Refusals(l, g, a)[j].0;
    assert 0 < k ==> !Refusals(l, g, a)[0].0;
    assert 1 < k ==> !Refusals(l, g, a)[1].0;
    assert 2 < k ==> !Refusals(l, g, a)[2].0;
    assert 3 < k ==> !Refusals(l, g, a)[3].0;
    assert 4 < k ==> !Refusals(l, g, a)[4].0;
    assert 5 < k ==> !Refusals(l, g, a)[5].0;
  }

  /** A count set for a date still to come does not survive until it: a question asked
      on any other day first drops it, so on the date itself it starts from zero. */
  lemma FutureCountIsForgotten(g: GuardState, earlier: int, date: int)
    requires g.dailyDate == Some(date) && earlier < date
    ensures ResetIfNewDay(ResetIfNewDay(g, earlier), date) == g.(dailyCount := 0)
  {
  }

  class ExecutionGuardObject {
    const limits: Limits
    var lastHedgeTime: Option<real>
    var dailyCount: int
    var dailyDate: Option<int>
    var breaker: bool

    ghost function State(): GuardState
      reads this
    {
      GuardState(lastHedgeTime, dailyCount, dailyDate, breaker)
    }

    constructor (limits: Limits)
      ensures this.limits == limits && State() == FRESH_GUARD
    {
      this.limits := limits;
      lastHedgeTime, dailyCount, dailyDate, breaker := None, 0, None, false;
    }

    method ResetDailyIfNewDay(today: int)
      modifies this
      ensures State() == ResetIfNewDay(old(State()), today)
    {
      if dailyDate.Some? && dailyDate.value != today {
        dailyCount := 0;
        dailyDate := Some(today);
      }
    }

    /** Asking may itself roll the daily count over. */
    method AllowHedge(a: Ask) returns (reason: Reason)
      modifies this
      ensures State() == ResetIfNewDay(old(State()), a.today)
      ensures reason == Verdict(limits, State(), a)
    {
      ResetDailyIfNewDay(a.today);
      if breaker {
        return CircuitBreaker;
      }
      if limits.tradingHoursOnly && !a.inRth {
        return OutsideRth;
      }
      if a.inBlackout {
        return EarningsBlackout;
      }
      if !a.force && lastHedgeTime.Some? && a.now - lastHedgeTime.value < limits.cooldownSec as real {
        return Cooldown;
      }
      if dailyCount >= limits.maxDailyHedges {
        return MaxDailyHedges;
      }
      var after := a.stock + (if a.side == Buy then a.quantity else -a.quantity);
      if AbsInt(after) > limits.maxPositionShares {
        return MaxPosition;
      }
      if limits.maxSpreadPct.Some? && a.spreadPct.Some? {
        if a.spreadPct.value > limits.maxSpreadPct.value {
          return SpreadTooWide;
        }
      }
      if limits.minPriceMovePct > 0.0 && a.lastHedgePrice.Some? && a.lastHedgePrice.value > 0.0 {
        var move := 100.0 * Abs(a.spot - a.lastHedgePrice.value) / a.lastHedgePrice.value;
        if move < limits.minPriceMovePct {
          return MinPriceMove;
        }
      }
      reason := Allowed;
    }

    method RecordHedgeSent(today: int, now: real)
      modifies this
      ensures State() == Recorded(old(State()), today, now)
    {
      ResetDailyIfNewDay(today);
      dailyCount := dailyCount + 1;
      lastHedgeTime := Some(now);
    }

    method SetDailyHedgeCount(n: int, day: int)
      modifies this
      ensures State() == old(State()).(dailyCount := n, dailyDate := Some(day))
    {
      dailyCount := n;
      dailyDate := Some(day);
    }

    method SetCircuitBreaker(tripped: bool)
      modifies this
      ensures State() == old(State()).(breaker := tripped)
    {
      breaker := tripped;
    }

    /** A loss at or beyond the limit latches the breaker; no P&L clears it. */
    method SetDailyPnl(pnl: real)
      modifies this
      ensures State() == old(State()).(breaker := old(breaker) || pnl <= -limits.maxDailyLossUsd)
    {
      if pnl <= -limits.maxDailyLossUsd {
        breaker := true;
      }
    }
  }
}

/**
 The timing budget is exact, and the flag alone never is.

 From any start, a pod whose settings miss the budget can be driven by legal timing
 into sharing the Lease: it takes it with a slow clock, renews unsuccessfully for as
 long as its deadline lets it, and looks at the clock a last time one retry period
 and one tick later, when another pod with a fast clock has found the record expired.
 */
module LeaseTightness {
  import opened Prelude
  import opened Lease
  import opened LeaseProtocol
  import opened LeaseExclusion

  // ---- Reachability by timed runs -------------------------------------------------

  ghost predicate Reaches(cfg: Config, w: World, run: seq<Action>, s: World)
    requires w.pods.Keys == cfg.settings.Keys
  {
    IsTimedRun(cfg, w, run) && IsRun(cfg, w, run) && After(cfg, w, run) == s
  }

  /** ... by a calm run, unless said otherwise. */
  ghost predicate CanReach(cfg: Config, w: World, s: World, calm: bool := true) {
    && w.pods.Keys == cfg.settings.Keys
    && exists run :: Reaches(cfg, w, run, s) && (calm ==> IsCalm(cfg, w, run))
  }

  lemma {:induction false} TimedRunGrows(cfg: Config, w: World, run: seq<Action>, s: World, a: Action)
    requires w.pods.Keys == cfg.settings.Keys && Reaches(cfg, w, run, s)
    requires Enabled(cfg, s, a) && ReadsAreNear(cfg, s, a) && OnTime(Apply(cfg, s, a))
    ensures Reaches(cfg, w, run + [a], Apply(cfg, s, a))
    ensures IsCalm(cfg, w, run) && CalmStep(s, a) ==> IsCalm(cfg, w, run + [a])
    decreases |run|
  {
    if run == [] {
      assert (run + [a])[1..] == [];
    } else {
      assert (run + [a])[1..] == run[1..] + [a];
      TimedRunGrows(cfg, Apply(cfg, w, run[0]), run[1..], s, a);
    }
  }

  lemma CanStep(cfg: Config, w: World, s: World, a: Action, calm: bool := true) returns (s': World)
    requires CanReach(cfg, w, s, calm) && s.pods.Keys == cfg.settings.Keys && (calm ==> CalmStep(s, a))
    requires Enabled(cfg, s, a) && ReadsAreNear(cfg, s, a) && OnTime(Apply(cfg, s, a))
    ensures s' == Apply(cfg, s, a) && CanReach(cfg, w, s', calm)
  {
    s' := Apply(cfg, s, a);
    var run :| Reaches(cfg, w, run, s) && (calm ==> IsCalm(cfg, w, run));
    TimedRunGrows(cfg, w, run, s, a);
  }

  lemma CanStay(cfg: Config, w: World)
    requires w.pods.Keys == cfg.settings.Keys && OnTime(w)
    ensures CanReach(cfg, w, w)
  {
    assert Reaches(cfg, w, [], w);
  }

  // ---- One pod leads, the others wait ------------------------------------------------

  /** Every pod but `p` stands by between ticks. */
  ghost predicate OthersWait(cfg: Config, s: World, p: string) {
    forall q :: q in s.pods && q != p ==>
      s.pods[q].phase == Standing && s.pods[q].pc == Idle && !s.pods[q].stop && s.pods[q].clock <= s.time + cfg.skew
  }

  /** A step of `p`, or of time, while the others wait: only `p` can be late. */
  lemma CanStepAlone(cfg: Config, w: World, s: World, p: string, a: Action, calm: bool := true) returns (s': World)
    requires CanReach(cfg, w, s, calm) && (calm ==> CalmStep(s, a))
    requires s.pods.Keys == cfg.settings.Keys && p in s.pods && OthersWait(cfg, s, p)
    requires Enabled(cfg, s, a) && ReadsAreNear(cfg, s, a) && !a.Land? && (a.Advance? || a.p == p)
    requires var t := Apply(cfg, s, a); Bound(t.pods[p]) ==> t.time <= t.pods[p].due
    ensures s' == Apply(cfg, s, a) && CanReach(cfg, w, s', calm) && OthersWait(cfg, s', p)
    ensures s'.pods.Keys == cfg.settings.Keys
  {
    OthersStay(cfg, s, p, a);
    s' := CanStep(cfg, w, s, a, calm);
  }

  lemma OnTimeButForOne(cfg: Config, s: World, q: string, a: Action)
    requires s.pods.Keys == cfg.settings.Keys && OnTime(s) && Enabled(cfg, s, a) && IsOf(a, q)
    requires var t := Apply(cfg, s, a); Bound(t.pods[q]) ==> s.time <= t.pods[q].due
    ensures OnTime(Apply(cfg, s, a))
  {
    forall p | p in s.pods && p != q
      ensures Apply(cfg, s, a).pods[p] == s.pods[p]
    {
      OnlyItsPodMoves(cfg, s, a, p);
    }
  }

  /** A step of `q` while nobody is late: only `q` can become so. */
  lemma CanStepAmong(cfg: Config, w: World, s: World, q: string, a: Action, calm: bool) returns (s': World)
    requires CanReach(cfg, w, s, calm) && (calm ==> CalmStep(s, a))
    requires s.pods.Keys == cfg.settings.Keys && OnTime(s)
    requires Enabled(cfg, s, a) && ReadsAreNear(cfg, s, a) && IsOf(a, q)
    requires var t := Apply(cfg, s, a); Bound(t.pods[q]) ==> s.time <= t.pods[q].due
    ensures s' == Apply(cfg, s, a) && CanReach(cfg, w, s', calm) && OnTime(s') && s'.pods.Keys == cfg.settings.Keys
  {
    OnTimeButForOne(cfg, s, q, a);
    s' := CanStep(cfg, w, s, a, calm);
  }

  lemma OthersStay(cfg: Config, s: World, p: string, a: Action)
    requires s.pods.Keys == cfg.settings.Keys && p in s.pods && OthersWait(cfg, s, p)
    requires Enabled(cfg, s, a) && !a.Land? && (a.Advance? || a.p == p)
    ensures OthersWait(cfg, Apply(cfg, s, a), p) && Apply(cfg, s, a).pods.Keys == cfg.settings.Keys
  {
    var s' := Apply(cfg, s, a);
    assert s'.time >= s.time;
    assert forall q :: q in s.pods && q != p ==> s'.pods[q] == s.pods[q];
  }

  ghost predicate TopIs(cfg: Config, s: World, p: string, r: real)
    requires p in cfg.settings
  {
    && Versioned(s.log) && s.log != []
    && var top := s.log[|s.log| - 1];
       top.holder == p && top.renewTime == r && top.duration == cfg.settings[p].duration
  }

  /** `p` leads, between ticks, with its last success at `r` and a clock that is
      behind by all it may; it has just gone to sleep. */
  ghost predicate Leads(cfg: Config, s: World, p: string, r: real) {
    && s.pods.Keys == cfg.settings.Keys && p in s.pods && OthersWait(cfg, s, p) && TopIs(cfg, s, p, r)
    && var pod := s.pods[p];
       && pod.phase == Leading && pod.pc == Idle && pod.elector.isLeader && pod.elector.lastRenew == r
       && pod.service && !pod.stop && pod.clock <= s.time - cfg.skew
       && pod.due == s.time + cfg.settings[p].retryPeriod
  }

  /** Time can pass to a moment at which `p` is not late. */
  lemma CanWait(cfg: Config, w: World, s0: World, p: string, t: real) returns (s: World)
    requires CanReach(cfg, w, s0) && s0.pods.Keys == cfg.settings.Keys && p in s0.pods && OthersWait(cfg, s0, p)
    requires s0.time <= t && (Bound(s0.pods[p]) ==> t <= s0.pods[p].due)
    ensures s == s0.(time := t) && CanReach(cfg, w, s) && OthersWait(cfg, s, p)
  {
    s := CanStepAlone(cfg, w, s0, p, Advance(t));
  }

  /** The pod in a tick it began at `t` by a slow clock. */
  function Ticking(cfg: Config, pod: Pod, t: real): Pod {
    pod.(pc := Reading, clock := t - cfg.skew, due := t + cfg.tickBound)
  }

  lemma CanStart(cfg: Config, w: World, s0: World, p: string) returns (s: World)
    requires cfg.Ok() && CanReach(cfg, w, s0) && s0.pods.Keys == cfg.settings.Keys
    requires p in s0.pods && OthersWait(cfg, s0, p)
    requires var pod := s0.pods[p];
             pod.pc == Idle && pod.phase in {Standing, Leading} && !pod.stop && pod.clock <= s0.time - cfg.skew
    ensures s == s0.(pods := s0.pods[p := Ticking(cfg, s0.pods[p], s0.time)])
    ensures CanReach(cfg, w, s) && OthersWait(cfg, s, p)
  {
    s := CanStepAlone(cfg, w, s0, p, StartTick(p, s0.time - cfg.skew));
  }

  /** With a slow clock, and not after it is due if it leads, `p` can wait until `t` and
      then be in a tick for `l`. */
  lemma CanBegin(cfg: Config, w: World, s0: World, p: string, t: real, l: real) returns (s: World)
    requires cfg.Ok() && CanReach(cfg, w, s0) && s0.pods.Keys == cfg.settings.Keys
    requires p in s0.pods && OthersWait(cfg, s0, p) && 0.0 <= l <= cfg.tickBound && s0.time <= t
    requires var pod := s0.pods[p];
             && pod.pc == Idle && pod.phase in {Standing, Leading} && !pod.stop && pod.clock <= t - cfg.skew
             && (pod.phase == Leading ==> t <= pod.due)
    ensures s == s0.(time := t + l, pods := s0.pods[p := Ticking(cfg, s0.pods[p], t)])
    ensures CanReach(cfg, w, s) && OthersWait(cfg, s, p)
  {
    s := CanWait(cfg, w, s0, p, t);
    s := CanStart(cfg, w, s, p);
    s := CanWait(cfg, w, s, p, t + l);
  }

  /** From a start `p` can take the Lease with a slow clock, in a tick of length `l`. */
  lemma CanLead(cfg: Config, w: World, p: string, l: real) returns (s: World, r: real)
    requires cfg.Ok() && TimedInit(cfg, w) && p in w.pods && 0.0 <= l <= cfg.tickBound
    ensures CanReach(cfg, w, s) && Leads(cfg, s, p, r)
    ensures r == w.time + cfg.skew && s.time == r + cfg.skew + l
  {
    CanStay(cfg, w);
    r := w.time + cfg.skew;
    s := CanBegin(cfg, w, w, p, r + cfg.skew, l);
    s := CanStepAlone(cfg, w, s, p, Read(p, true));
    s := CanStepAlone(cfg, w, s, p, Write(p, Replied));
  }

  /** One fruitless renewal: a wait of `wait`, then a tick of length `l` whose read
      fails, still within the deadline. */
  lemma CanFail(cfg: Config, w: World, s0: World, p: string, r: real, wait: real, l: real) returns (s: World)
    requires cfg.Ok() && CanReach(cfg, w, s0) && p in cfg.settings && Leads(cfg, s0, p, r)
    requires 0.0 <= wait <= cfg.settings[p].retryPeriod && 0.0 <= l <= cfg.tickBound
    requires s0.time + wait + l - cfg.skew - r <= cfg.settings[p].renewDeadline
    ensures CanReach(cfg, w, s) && Leads(cfg, s, p, r) && s.time == s0.time + wait + l
  {
    s := CanBegin(cfg, w, s0, p, s0.time + wait, l);
    var now := s.time - cfg.skew;
    s := CanStepAlone(cfg, w, s, p, Read(p, false));
    s := CanStepAlone(cfg, w, s, p, Check(p, now));
  }

  function Spans(n: nat, span: real): (total: real)
    ensures span >= 0.0 ==> total >= 0.0
  {
    if n == 0 then 0.0 else span + Spans(n - 1, span)
  }

  lemma {:induction false} SpansIsProduct(n: nat, span: real)
    ensures Spans(n, span) == n as real * span
  {
    if n > 0 {
      SpansIsProduct(n - 1, span);
    }
  }

  lemma EnoughTimes(d: real, span: real) returns (n: nat)
    requires d >= 0.0 && span > 0.0
    ensures n as real * span >= d
  {
    var q := d / span;
    assert q * span == d && q >= 0.0;
    n := q.Floor + 1;
    var x := n as real;
    ScalingKeepsOrder(x, q, span);
    assert x * span > q * span;
  }

  lemma SpansCover(d: real, span: real) returns (n: nat)
    requires d >= 0.0 && span > 0.0
    ensures Spans(n, span) >= d
  {
    n := EnoughTimes(d, span);
    SpansIsProduct(n, span);
  }

  /** By fruitless renewals `p` can go on leading to any time its deadline allows. */
  lemma {:induction false} CanGoOn(cfg: Config, w: World, s0: World, p: string, r: real, to: real, n: nat)
    returns (s: World)
    requires cfg.Ok() && CanReach(cfg, w, s0) && p in cfg.settings && Leads(cfg, s0, p, r)
    requires s0.time <= to <= s0.time + Spans(n, cfg.settings[p].retryPeriod + cfg.tickBound)
    requires to == s0.time || to - cfg.skew - r <= cfg.settings[p].renewDeadline
    ensures CanReach(cfg, w, s) && Leads(cfg, s, p, r) && s.time == to
    decreases n
  {
    s := s0;
    if to > s0.time {
      var left, retry := to - s0.time, cfg.settings[p].retryPeriod;
      var wait := if left <= retry then left else retry;
      var l := if left - wait <= cfg.tickBound then left - wait else cfg.tickBound;
      s := CanFail(cfg, w, s0, p, r, wait, l);
      s := CanGoOn(cfg, w, s, p, r, to, n - 1);
    }
  }

  /** `p` can lead until its patience, one retry period and one tick have passed, and
      be in the middle of a tick then. */
  lemma CanOutstay(cfg: Config, w: World, p: string) returns (s: World, r: real)
    requires cfg.Ok() && TimedInit(cfg, w) && p in w.pods && cfg.settings[p].retryPeriod + cfg.tickBound > 0.0
    ensures CanReach(cfg, w, s) && s.pods.Keys == cfg.settings.Keys && OthersWait(cfg, s, p) && TopIs(cfg, s, p, r)
    ensures s.time == r + cfg.skew + Patience(cfg, cfg.settings[p]) + cfg.settings[p].retryPeriod + cfg.tickBound
    ensures var pod := s.pods[p];
            && pod.phase == Leading && pod.pc == Reading && pod.elector.isLeader && pod.elector.lastRenew == r
            && pod.service && pod.due == s.time && pod.clock <= s.time - cfg.skew
  {
    var me := cfg.settings[p];
    s, r := CanLead(cfg, w, p, cfg.tickBound);
    var to := r + cfg.skew + Patience(cfg, me);
    var n := SpansCover(to - s.time, me.retryPeriod + cfg.tickBound);
    s := CanGoOn(cfg, w, s, p, r, to, n);
    s := CanBegin(cfg, w, s, p, to + me.retryPeriod, cfg.tickBound);
  }

  /** ... and then be unwinding its service to the last moment. */
  lemma CanUnwind(cfg: Config, w: World, p: string) returns (s: World, r: real)
    requires cfg.Ok() && TimedInit(cfg, w) && p in w.pods && cfg.settings[p].retryPeriod + cfg.tickBound > 0.0
    ensures CanReach(cfg, w, s) && s.pods.Keys == cfg.settings.Keys && OthersWait(cfg, s, p) && TopIs(cfg, s, p, r)
    ensures s.time == r + cfg.skew + Patience(cfg, cfg.settings[p]) + cfg.settings[p].retryPeriod + cfg.tickBound
                      + cfg.unwindBound
    ensures var pod := s.pods[p];
            pod.phase == Unwinding && pod.pc == Idle && pod.service && pod.due == s.time
  {
    s, r := CanOutstay(cfg, w, p);
    var now := s.time;
    s := CanStepAlone(cfg, w, s, p, Read(p, false));
    s := CanStepAlone(cfg, w, s, p, Check(p, now - cfg.skew));
    s := CanStepAlone(cfg, w, s, p, Advance(now + cfg.unwindBound));
  }

  /** A waiting pod with a fast clock finds the record expired and has its write ready. */
  lemma CanAsk(cfg: Config, w: World, s0: World, p: string, q: string, r: real, calm: bool) returns (s: World)
    requires cfg.Ok() && CanReach(cfg, w, s0, calm) && s0.pods.Keys == cfg.settings.Keys && OnTime(s0)
    requires p in cfg.settings && q in cfg.settings && p != q && OthersWait(cfg, s0, p) && TopIs(cfg, s0, p, r)
    requires s0.time + cfg.skew - r > cfg.settings[p].duration
    ensures CanReach(cfg, w, s, calm) && s.pods.Keys == cfg.settings.Keys && OnTime(s) && s.pods[p] == s0.pods[p]
    ensures s.pods[q].phase == Standing && s.pods[q].pc.Writing? && Commit(s.log, s.pods[q].pc.request).Some?
  {
    var now := s0.time + cfg.skew;
    s := CanStepAmong(cfg, w, s0, q, StartTick(q, now), calm);
    assert Decide(cfg.settings[q], now, Current(s.log)).Send?;
    s := CanStepAmong(cfg, w, s, q, Read(q, true), calm);
  }

  /** ... and takes it over. */
  lemma CanTakeOver(cfg: Config, w: World, s0: World, p: string, q: string, r: real, calm: bool := true)
    returns (s: World)
    requires cfg.Ok() && CanReach(cfg, w, s0, calm) && s0.pods.Keys == cfg.settings.Keys && OnTime(s0)
    requires p in cfg.settings && q in cfg.settings && p != q && OthersWait(cfg, s0, p) && TopIs(cfg, s0, p, r)
    requires s0.time + cfg.skew - r > cfg.settings[p].duration
    ensures CanReach(cfg, w, s, calm) && s.pods.Keys == cfg.settings.Keys && s.pods[p] == s0.pods[p]
    ensures s.pods[q].phase == Leading && s.pods[q].elector.isLeader && s.pods[q].service
  {
    s := CanAsk(cfg, w, s0, p, q, r, calm);
    s := CanStepAmong(cfg, w, s, q, Write(q, Replied), calm);
  }

  // ---- The budget is exact ----------------------------------------------------------------

  /** Two pods share the Lease: two leaders with their flags set or, when unwinding
      counts, two pods with a service task running. */
  ghost predicate Share(s: World, p: string, q: string, unwinding: bool) {
    && p != q && p in s.pods && q in s.pods
    && Occupies(s.pods[p], unwinding) && Occupies(s.pods[q], unwinding)
    && Active(s.pods[p]) && Active(s.pods[q])
    && (!unwinding ==> TwoFlags(s, p, q))
    && (unwinding ==> s.pods[p].service && s.pods[q].service)
  }

  /** A pod that misses the budget can be made to share, from every start, by timing
      alone: nobody is asked to stop and no service ends of itself. */
  lemma OverBudgetShares(cfg: Config, w: World, p: string, q: string, unwinding: bool) returns (run: seq<Action>)
    requires cfg.Ok() && TimedInit(cfg, w) && p in w.pods && q in w.pods && p != q
    requires cfg.settings[p].retryPeriod + cfg.tickBound > 0.0 && !Budget(cfg, cfg.settings[p], unwinding)
    ensures IsTimedRun(cfg, w, run) && IsRun(cfg, w, run) && IsCalm(cfg, w, run)
    ensures Share(After(cfg, w, run), p, q, unwinding)
  {
    var s, r;
    if unwinding {
      s, r := CanUnwind(cfg, w, p);
    } else {
      s, r := CanOutstay(cfg, w, p);
    }
    s := CanTakeOver(cfg, w, s, p, q, r);
    run :| Reaches(cfg, w, run, s) && IsCalm(cfg, w, run);
  }

  ghost predicate Excludes(cfg: Config, w: World, unwinding: bool)
    requires w.pods.Keys == cfg.settings.Keys
  {
    forall run, p, q ::
      IsTimedRun(cfg, w, run) && IsRun(cfg, w, run) ==> !Share(After(cfg, w, run), p, q, unwinding)
  }

  lemma WithinBudgetExcludes(cfg: Config, w: World, unwinding: bool)
    requires BudgetOk(cfg, unwinding) && TimedInit(cfg, w)
    ensures Excludes(cfg, w, unwinding)
  {
    forall run, p, q | IsTimedRun(cfg, w, run) && IsRun(cfg, w, run)
      ensures !Share(After(cfg, w, run), p, q, unwinding)
    {
      InitInv(cfg, w);
      RunTimed(cfg, w, run, unwinding);
      var s := After(cfg, w, run);
      if p in s.pods && q in s.pods {
        assert PodTimed(cfg, s.time, s.log, p, s.pods[p], unwinding);
        assert PodTimed(cfg, s.time, s.log, q, s.pods[q], unwinding);
      }
    }
  }

  /** Exclusion holds over all timed runs if and only if every pod's settings meet the
      budget. (Were retry period and tick bound both zero, no time could pass while a
      pod leads.) */
  lemma ExclusionExactlyWhen(cfg: Config, w: World, unwinding: bool, p: string, q: string)
    requires cfg.Ok() && TimedInit(cfg, w) && p in w.pods && q in w.pods && p != q
    requires forall o :: o in cfg.settings ==> cfg.settings[o].retryPeriod + cfg.tickBound > 0.0
    ensures Excludes(cfg, w, unwinding) <==> BudgetOk(cfg, unwinding)
  {
    if BudgetOk(cfg, unwinding) {
      WithinBudgetExcludes(cfg, w, unwinding);
    } else {
      var o :| o in cfg.settings && !Budget(cfg, cfg.settings[o], unwinding);
      var run := OverBudgetShares(cfg, w, o, if o == p then q else p, unwinding);
    }
  }

  // ---- The flag alone -----------------------------------------------------------------------

  /** Two pods have their flags set, whatever they are doing. */
  ghost predicate BothFlagged(s: World, p: string, q: string) {
    p != q && p in s.pods && q in s.pods && s.pods[p].elector.isLeader && s.pods[q].elector.isLeader
  }

  /** The bare statement holds over all calm timed runs if and only if every pod's
      settings meet the budget, which need not pay for unwinding. */
  lemma OneFlagExactlyWhen(cfg: Config, w: World, p: string, q: string)
    requires cfg.Ok() && TimedInit(cfg, w) && p in w.pods && q in w.pods && p != q
    requires forall o :: o in cfg.settings ==> cfg.settings[o].retryPeriod + cfg.tickBound > 0.0
    ensures (forall run, a, b :: IsTimedRun(cfg, w, run) && IsRun(cfg, w, run) && IsCalm(cfg, w, run) ==>
               !BothFlagged(After(cfg, w, run), a, b)) <==> BudgetOk(cfg, false)
  {
    if BudgetOk(cfg, false) {
      forall run, a, b | IsTimedRun(cfg, w, run) && IsRun(cfg, w, run) && IsCalm(cfg, w, run)
        ensures !BothFlagged(After(cfg, w, run), a, b)
      {
        InitInv(cfg, w);
        CalmMeansNobodyLeaves(cfg, w, run);
        AtMostOneFlag(cfg, w, run, a, b);
      }
    } else {
      var o :| o in cfg.settings && !Budget(cfg, cfg.settings[o], false);
      var other := if o == p then q else p;
      var run := OverBudgetShares(cfg, w, o, other, false);
      assert BothFlagged(After(cfg, w, run), o, other);
    }
  }

  /** A leader between ticks can be stopped and return, its flag still set. */
  lemma CanReturn(cfg: Config, w: World, s0: World, p: string, r: real) returns (s: World)
    requires cfg.Ok() && CanReach(cfg, w, s0) && p in cfg.settings && Leads(cfg, s0, p, r)
    ensures CanReach(cfg, w, s, false) && s.pods.Keys == cfg.settings.Keys
    ensures OthersWait(cfg, s, p) && TopIs(cfg, s, p, r)
    ensures s.time == s0.time && s.pods[p].phase == Gone && s.pods[p].pc == Idle && s.pods[p].elector.isLeader
  {
    assert CanReach(cfg, w, s0, false);
    s := CanStepAlone(cfg, w, s0, p, RequestStop(p), false);
    s := CanStepAlone(cfg, w, s, p, LeaveLoop(p), false);
    s := CanStepAlone(cfg, w, s, p, ServiceEnds(p), false);
    s := CanStepAlone(cfg, w, s, p, Exit(p), false);
  }

  /** Within any budget, a leader that is stopped keeps its flag after it is gone, and
      another pod leads beside it. */
  lemma StoppedLeaderKeepsItsFlag(cfg: Config, w: World, p: string, q: string) returns (run: seq<Action>)
    requires cfg.Ok() && TimedInit(cfg, w) && p in w.pods && q in w.pods && p != q
    ensures IsTimedRun(cfg, w, run) && IsRun(cfg, w, run)
    ensures var s := After(cfg, w, run);
            && p in s.pods && q in s.pods
            && s.pods[p].phase == Gone && s.pods[p].elector.isLeader
            && s.pods[q].phase == Leading && s.pods[q].elector.isLeader
  {
    var s, r := CanLead(cfg, w, p, 0.0);
    s := CanReturn(cfg, w, s, p, r);
    s := CanStepAlone(cfg, w, s, p, Advance(s.time + cfg.settings[p].duration + 1.0), false);
    s := CanTakeOver(cfg, w, s, p, q, r, false);
    run :| Reaches(cfg, w, run, s);
  }
}

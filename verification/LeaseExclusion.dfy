/**
 At most one leader, and at most one running service.

 The flag alone excludes nothing: a pod that stops ticking keeps it. What makes
 it exclusive is timing. Every clock is within epsilon of true time, one tick
 takes at most L, the wait between two ticks of a leader at most its retry
 period, and a service unwinds within U. Nothing bounds how long a standby waits.
 */
module LeaseExclusion {
  import opened Prelude
  import opened Lease
  import opened LeaseProtocol

  // ---- Timed runs ---------------------------------------------------------------

  ghost predicate Near(cfg: Config, reading: real, time: real) {
    Abs(reading - time) <= cfg.skew
  }

  ghost predicate ReadsAreNear(cfg: Config, w: World, a: Action) {
    match a
    case StartTick(_, reading) => Near(cfg, reading, w.time)
    case Check(_, reading) => Near(cfg, reading, w.time)
    case _ => true
  }

  ghost predicate Bound(pod: Pod) {
    pod.phase in {Leading, Unwinding} || pod.pc != Idle
  }

  /** No pod has overslept, overrun its tick or overrun its unwinding. */
  ghost predicate OnTime(w: World) {
    forall p :: p in w.pods && Bound(w.pods[p]) ==> w.time <= w.pods[p].due
  }

  ghost predicate IsTimedRun(cfg: Config, w: World, run: seq<Action>)
    requires w.pods.Keys == cfg.settings.Keys
    decreases |run|
  {
    OnTime(w) &&
    (run != [] ==>
       && Enabled(cfg, w, run[0]) && ReadsAreNear(cfg, w, run[0])
       && IsTimedRun(cfg, Apply(cfg, w, run[0]), run[1..]))
  }

  lemma {:induction false} TimedRunIsRun(cfg: Config, w: World, run: seq<Action>)
    requires w.pods.Keys == cfg.settings.Keys && IsTimedRun(cfg, w, run)
    ensures IsRun(cfg, w, run) && OnTime(After(cfg, w, run))
    decreases |run|
  {
    if run != [] {
      TimedRunIsRun(cfg, Apply(cfg, w, run[0]), run[1..]);
    }
  }

  ghost predicate TimedInit(cfg: Config, w: World) {
    Init(cfg, w) && forall p :: p in w.pods ==> w.pods[p].clock <= w.time + cfg.skew
  }

  /** How long after a success a leader may still find its deadline met: the deadline,
      or the end of the successful tick itself if that comes later. */
  function Patience(cfg: Config, me: Settings): real {
    if me.renewDeadline >= cfg.tickBound then me.renewDeadline else cfg.tickBound
  }

  /** The hypothesis on one pod's own settings. With `unwinding` the budget also
      pays for the service to unwind. */
  ghost predicate Budget(cfg: Config, me: Settings, unwinding: bool) {
    Patience(cfg, me) + me.retryPeriod + cfg.tickBound + 2.0 * cfg.skew
    + (if unwinding then cfg.unwindBound else 0.0) <= me.duration
  }

  ghost predicate BudgetOk(cfg: Config, unwinding: bool) {
    cfg.Ok() && forall p :: p in cfg.settings ==> Budget(cfg, cfg.settings[p], unwinding)
  }

  // ---- The invariant --------------------------------------------------------------

  /** The pods that count as occupying the Lease: those in the renew loop and, when
      unwinding is paid for, those that have left it but not yet returned. */
  ghost predicate Occupies(pod: Pod, unwinding: bool) {
    pod.phase == Leading || (unwinding && pod.phase == Unwinding)
  }

  /** The true time by which a pod whose last success was `lastRenew` has looked at
      its deadline and stepped down. */
  function Horizon(cfg: Config, me: Settings, pod: Pod): real {
    pod.elector.lastRenew + Patience(cfg, me) + me.retryPeriod + cfg.tickBound + cfg.skew
  }

  ghost predicate Holds(log: Log, p: string, pod: Pod) {
    log != [] && log[|log| - 1].holder == p && log[|log| - 1].renewTime >= pod.elector.lastRenew
  }

  ghost predicate DueOk(cfg: Config, me: Settings, pod: Pod) {
    match pod.phase
    case Leading =>
      if pod.pc == Idle then pod.due <= Horizon(cfg, me, pod) - cfg.tickBound
      else pod.due <= Horizon(cfg, me, pod)
    case Unwinding => pod.due <= Horizon(cfg, me, pod) + cfg.unwindBound
    case _ => true
  }

  ghost predicate PodTimed(cfg: Config, time: real, log: Log, p: string, pod: Pod, unwinding: bool)
    requires p in cfg.settings
  {
    && pod.clock <= time + cfg.skew
    && (pod.pc == Reading || pod.pc.Writing? ==> pod.due <= pod.clock + cfg.skew + cfg.tickBound)
    && (Occupies(pod, unwinding) ==> Holds(log, p, pod) && DueOk(cfg, cfg.settings[p], pod))
  }

  ghost predicate TimedInv(cfg: Config, w: World, unwinding: bool) {
    && Inv(cfg, w)
    && forall p :: p in w.pods ==> PodTimed(cfg, w.time, w.log, p, w.pods[p], unwinding)
  }

  /** The heart of the matter. While `p` occupies the Lease and nobody is late, no
      request of another pod is granted, however long ago it was prepared. */
  lemma NoForeignCommit(cfg: Config, w: World, p: string, q: string, now: real, request: Request, unwinding: bool)
    requires BudgetOk(cfg, unwinding) && TimedInv(cfg, w, unwinding) && OnTime(w)
    requires p in w.pods && Occupies(w.pods[p], unwinding)
    requires q in w.pods && now <= w.pods[q].clock && Derived(cfg, w.log, q, now, request)
    requires Commit(w.log, request).Some?
    ensures p == q
  {
    var pod, me := w.pods[p], cfg.settings[p];
    assert PodTimed(cfg, w.time, w.log, p, pod, unwinding);
    assert PodTimed(cfg, w.time, w.log, q, w.pods[q], unwinding);
    assert Bound(pod) && Budget(cfg, me, unwinding);
    CommitIsAtomic(cfg, w.log, q, now, request);
    var held := w.log[|w.log| - 1];
    assert held.holder == p && held.duration == me.duration;
    assert now - pod.elector.lastRenew <= me.duration;
    assert !held.IsExpired(now);
  }

  /** A leader's tick never finds another holder. */
  lemma LeaderSeesItself(cfg: Config, w: World, p: string, unwinding: bool)
    requires TimedInv(cfg, w, unwinding) && p in w.pods && w.pods[p].phase == Leading
    requires cfg.Ok()
    ensures Decide(cfg.settings[p], w.pods[p].clock, Current(w.log)).Send?
  {
    assert PodTimed(cfg, w.time, w.log, p, w.pods[p], unwinding);
  }

  // ---- Steps keep it ----------------------------------------------------------------

  /** A commit by `q` leaves every occupant in possession. */
  lemma CommitTimed(cfg: Config, w: World, q: string, now: real, request: Request, unwinding: bool)
    requires BudgetOk(cfg, unwinding) && TimedInv(cfg, w, unwinding) && OnTime(w)
    requires q in w.pods && now <= w.pods[q].clock && Derived(cfg, w.log, q, now, request)
    requires Commit(w.log, request).Some?
    ensures TimedInv(cfg, w.(log := Commit(w.log, request).value), unwinding)
    ensures var log' := Commit(w.log, request).value;
            log'[|log'| - 1].holder == q && log'[|log'| - 1].renewTime == now
    ensures forall p :: p in w.pods && Occupies(w.pods[p], unwinding) ==> p == q
  {
    StoreStep(cfg, w, q, now, request);
    CommitIsAtomic(cfg, w.log, q, now, request);
    var log' := Commit(w.log, request).value;
    forall p | p in w.pods
      ensures PodTimed(cfg, w.time, log', p, w.pods[p], unwinding)
      ensures Occupies(w.pods[p], unwinding) ==> p == q
    {
      assert PodTimed(cfg, w.time, w.log, p, w.pods[p], unwinding);
      if Occupies(w.pods[p], unwinding) {
        NoForeignCommit(cfg, w, p, q, now, request, unwinding);
      }
    }
  }

  lemma FailTimed(cfg: Config, w: World, log: Log, p: string, pod: Pod, unwinding: bool)
    requires p in cfg.settings && (pod.pc == Reading || pod.pc.Writing?) && pod.phase in {Standing, Leading}
    requires PodTimed(cfg, w.time, log, p, pod, unwinding)
    ensures PodTimed(cfg, w.time, log, p, Fail(cfg.settings[p], w, pod), unwinding)
  {
  }

  lemma SucceedTimed(cfg: Config, w: World, log: Log, p: string, pod: Pod, unwinding: bool)
    requires p in cfg.settings && cfg.settings[p].identity == p && Budget(cfg, cfg.settings[p], unwinding)
    requires pod.pc.Writing? && pod.phase in {Standing, Leading} && w.time <= pod.due
    requires PodTimed(cfg, w.time, log, p, pod, unwinding)
    requires log != [] && log[|log| - 1].holder == p && log[|log| - 1].renewTime == pod.clock
    ensures PodTimed(cfg, w.time, log, p, Succeed(cfg.settings[p], w, pod), unwinding)
  {
  }

  lemma CheckTimed(cfg: Config, w: World, p: string, pod: Pod, reading: real, unwinding: bool)
    requires p in cfg.settings && PodTimed(cfg, w.time, w.log, p, pod, unwinding)
    requires pod.phase == Leading && pod.pc == Checking && w.time <= pod.due && Near(cfg, reading, w.time)
    ensures PodTimed(cfg, w.time, w.log, p, AfterCheck(cfg, cfg.settings[p], w, pod, reading), unwinding)
  {
  }

  lemma StartTimed(cfg: Config, w: World, p: string, pod: Pod, reading: real, unwinding: bool)
    requires p in cfg.settings && PodTimed(cfg, w.time, w.log, p, pod, unwinding)
    requires pod.pc == Idle && (pod.phase == Leading ==> w.time <= pod.due) && Near(cfg, reading, w.time)
    requires pod.phase in {Standing, Leading}
    ensures PodTimed(cfg, w.time, w.log, p,
                     pod.(pc := Reading, clock := reading, due := w.time + cfg.tickBound), unwinding)
  {
  }

  lemma ReadTimed(cfg: Config, w: World, p: string, ok: bool, unwinding: bool)
    requires BudgetOk(cfg, unwinding) && TimedInv(cfg, w, unwinding) && OnTime(w)
    requires Enabled(cfg, w, Read(p, ok))
    ensures PodTimed(cfg, w.time, w.log, p, AfterRead(cfg, cfg.settings[p], w, w.pods[p], ok), unwinding)
  {
    var pod := w.pods[p];
    assert PodInv(cfg, w.log, p, pod) && PodTimed(cfg, w.time, w.log, p, pod, unwinding);
    if pod.phase == Leading {
      LeaderSeesItself(cfg, w, p, unwinding);
    }
    FailTimed(cfg, w, w.log, p, pod, unwinding);
  }

  lemma GrantedPodTimed(cfg: Config, w: World, log: Log, p: string, pod: Pod, delivery: Delivery, unwinding: bool)
    requires p in cfg.settings && cfg.settings[p].identity == p && Budget(cfg, cfg.settings[p], unwinding)
    requires pod.pc.Writing? && w.time <= pod.due && PodInv(cfg, w.log, p, pod)
    requires PodTimed(cfg, w.time, log, p, pod, unwinding)
    requires log != [] && log[|log| - 1].holder == p && log[|log| - 1].renewTime == pod.clock
    ensures PodTimed(cfg, w.time, log, p,
                     if delivery == Replied then Succeed(cfg.settings[p], w, pod) else Fail(cfg.settings[p], w, pod),
                     unwinding)
  {
    if delivery == Replied {
      SucceedTimed(cfg, w, log, p, pod, unwinding);
    } else {
      FailTimed(cfg, w, log, p, pod, unwinding);
    }
  }

  /** A granted write leaves the store timed and its own pod timed. */
  lemma GrantedParts(cfg: Config, w: World, p: string, delivery: Delivery, unwinding: bool)
    requires BudgetOk(cfg, unwinding) && TimedInv(cfg, w, unwinding) && OnTime(w)
    requires Enabled(cfg, w, Write(p, delivery)) && delivery in {CommittedSilently, Replied}
    requires Commit(w.log, w.pods[p].pc.request).Some?
    ensures var w' := Apply(cfg, w, Write(p, delivery));
            && TimedInv(cfg, w.(log := w'.log), unwinding)
            && PodTimed(cfg, w.time, w'.log, p, w'.pods[p], unwinding)
  {
    var pod := w.pods[p];
    var log' := Commit(w.log, pod.pc.request).value;
    PodFacts(cfg, w, p, unwinding);
    assert TimedInv(cfg, w.(log := log'), unwinding)
           && log'[|log'| - 1].holder == p && log'[|log'| - 1].renewTime == pod.clock by {
      CommitTimed(cfg, w, p, pod.clock, pod.pc.request, unwinding);
    }
    assert PodTimed(cfg, w.time, log', p, pod, unwinding);
    GrantedPodTimed(cfg, w, log', p, pod, delivery, unwinding);
  }

  lemma GrantedTimed(cfg: Config, w: World, p: string, delivery: Delivery, unwinding: bool)
    requires BudgetOk(cfg, unwinding) && TimedInv(cfg, w, unwinding) && OnTime(w)
    requires Enabled(cfg, w, Write(p, delivery)) && delivery in {CommittedSilently, Replied}
    requires Commit(w.log, w.pods[p].pc.request).Some?
    requires Inv(cfg, Apply(cfg, w, Write(p, delivery)))
    ensures TimedInv(cfg, Apply(cfg, w, Write(p, delivery)), unwinding)
  {
    var w' := Apply(cfg, w, Write(p, delivery));
    GrantedParts(cfg, w, p, delivery, unwinding);
    TimedFromParts(cfg, w.(log := w'.log), w', p, unwinding);
  }

  lemma RefusedOnlyFails(cfg: Config, w: World, p: string, delivery: Delivery)
    requires w.pods.Keys == cfg.settings.Keys && Enabled(cfg, w, Write(p, delivery))
    requires Commit(w.log, w.pods[p].pc.request) == None || delivery in {Dropped, StillInFlight}
    ensures var w' := Apply(cfg, w, Write(p, delivery));
            w'.time == w.time && w'.log == w.log && w'.pods == w.pods[p := Fail(cfg.settings[p], w, w.pods[p])]
  {
  }

  lemma RefusedTimed(cfg: Config, w: World, p: string, delivery: Delivery, unwinding: bool)
    requires BudgetOk(cfg, unwinding) && TimedInv(cfg, w, unwinding)
    requires Enabled(cfg, w, Write(p, delivery))
    requires Commit(w.log, w.pods[p].pc.request) == None || delivery in {Dropped, StillInFlight}
    requires Inv(cfg, Apply(cfg, w, Write(p, delivery)))
    ensures TimedInv(cfg, Apply(cfg, w, Write(p, delivery)), unwinding)
  {
    var pod := w.pods[p];
    assert PodInv(cfg, w.log, p, pod) && PodTimed(cfg, w.time, w.log, p, pod, unwinding);
    FailTimed(cfg, w, w.log, p, pod, unwinding);
    RefusedOnlyFails(cfg, w, p, delivery);
    TimedFromParts(cfg, w, Apply(cfg, w, Write(p, delivery)), p, unwinding);
  }

  /** Only `p` moved, and it is still timely. */
  lemma TimedFromParts(cfg: Config, w: World, w': World, p: string, unwinding: bool)
    requires TimedInv(cfg, w, unwinding) && Inv(cfg, w') && p in w.pods
    requires w'.time == w.time && w'.log == w.log && w'.pods == w.pods[p := w'.pods[p]]
    requires PodTimed(cfg, w'.time, w'.log, p, w'.pods[p], unwinding)
    ensures TimedInv(cfg, w', unwinding)
  {
    forall q | q in w'.pods
      ensures PodTimed(cfg, w'.time, w'.log, q, w'.pods[q], unwinding)
    {
      assert q != p ==> w'.pods[q] == w.pods[q];
    }
  }

  /** The pod after a stop request, a leave, an end of service, an exit or a restart. */
  lemma QuietPodTimed(cfg: Config, w: World, a: Action, unwinding: bool)
    requires Enabled(cfg, w, a) && IsLocal(a) && !a.StartTick? && !a.Check?
    requires w.pods.Keys == cfg.settings.Keys && PodTimed(cfg, w.time, w.log, a.p, w.pods[a.p], unwinding)
    requires PodInv(cfg, w.log, a.p, w.pods[a.p]) && (Bound(w.pods[a.p]) ==> w.time <= w.pods[a.p].due)
    requires Budget(cfg, cfg.settings[a.p], unwinding) && cfg.Ok()
    ensures PodTimed(cfg, w.time, w.log, a.p, Apply(cfg, w, a).pods[a.p], unwinding)
  {
  }

  lemma QuietStepTimed(cfg: Config, w: World, a: Action, unwinding: bool)
    requires BudgetOk(cfg, unwinding) && TimedInv(cfg, w, unwinding) && OnTime(w)
    requires Enabled(cfg, w, a) && IsLocal(a) && !a.StartTick? && !a.Check? && Inv(cfg, Apply(cfg, w, a))
    ensures TimedInv(cfg, Apply(cfg, w, a), unwinding)
  {
    PodFacts(cfg, w, a.p, unwinding);
    QuietPodTimed(cfg, w, a, unwinding);
    TimedFromParts(cfg, w, Apply(cfg, w, a), a.p, unwinding);
  }

  lemma PodFacts(cfg: Config, w: World, p: string, unwinding: bool)
    requires BudgetOk(cfg, unwinding) && TimedInv(cfg, w, unwinding) && OnTime(w) && p in w.pods
    ensures PodInv(cfg, w.log, p, w.pods[p]) && PodTimed(cfg, w.time, w.log, p, w.pods[p], unwinding)
    ensures Bound(w.pods[p]) ==> w.time <= w.pods[p].due
    ensures Budget(cfg, cfg.settings[p], unwinding) && cfg.settings[p].identity == p
  {
  }

  lemma TickStepTimed(cfg: Config, w: World, p: string, a: Action, unwinding: bool)
    requires BudgetOk(cfg, unwinding) && TimedInv(cfg, w, unwinding) && OnTime(w)
    requires Enabled(cfg, w, a) && ReadsAreNear(cfg, w, a) && Inv(cfg, Apply(cfg, w, a))
    requires (a.StartTick? && a.p == p) || (a.Read? && a.p == p) || (a.Check? && a.p == p)
    ensures TimedInv(cfg, Apply(cfg, w, a), unwinding)
  {
    var w' := Apply(cfg, w, a);
    assert PodTimed(cfg, w.time, w.log, p, w'.pods[p], unwinding) by {
      PodFacts(cfg, w, p, unwinding);
      match a
      case Read(_, ok) => ReadTimed(cfg, w, p, ok, unwinding);
      case StartTick(_, reading) => StartTimed(cfg, w, p, w.pods[p], reading, unwinding);
      case Check(_, reading) => CheckTimed(cfg, w, p, w.pods[p], reading, unwinding);
    }
    TimedFromParts(cfg, w, w', p, unwinding);
  }

  lemma AdvanceTimed(cfg: Config, w: World, to: real, unwinding: bool)
    requires TimedInv(cfg, w, unwinding) && to >= w.time && Inv(cfg, w.(time := to))
    ensures TimedInv(cfg, w.(time := to), unwinding)
  {
  }

  lemma WriteTimed(cfg: Config, w: World, p: string, delivery: Delivery, unwinding: bool)
    requires BudgetOk(cfg, unwinding) && TimedInv(cfg, w, unwinding) && OnTime(w)
    requires Enabled(cfg, w, Write(p, delivery)) && Inv(cfg, Apply(cfg, w, Write(p, delivery)))
    ensures TimedInv(cfg, Apply(cfg, w, Write(p, delivery)), unwinding)
  {
    if Commit(w.log, w.pods[p].pc.request).Some? && delivery in {CommittedSilently, Replied} {
      GrantedTimed(cfg, w, p, delivery, unwinding);
    } else {
      RefusedTimed(cfg, w, p, delivery, unwinding);
    }
  }

  lemma LandTimed(cfg: Config, w: World, f: Flight, unwinding: bool)
    requires BudgetOk(cfg, unwinding) && TimedInv(cfg, w, unwinding) && OnTime(w)
    requires Enabled(cfg, w, Land(f)) && Inv(cfg, Apply(cfg, w, Land(f)))
    ensures TimedInv(cfg, Apply(cfg, w, Land(f)), unwinding)
  {
    if Commit(w.log, f.request).Some? {
      CommitTimed(cfg, w, f.pod, f.now, f.request, unwinding);
    }
  }

  lemma CrashTimed(cfg: Config, w: World, p: string, unwinding: bool)
    requires TimedInv(cfg, w, unwinding) && Enabled(cfg, w, Crash(p))
    requires Inv(cfg, Apply(cfg, w, Crash(p)))
    ensures TimedInv(cfg, Apply(cfg, w, Crash(p)), unwinding)
  {
    assert PodTimed(cfg, w.time, w.log, p, w.pods[p], unwinding);
    TimedFromParts(cfg, w, Apply(cfg, w, Crash(p)), p, unwinding);
  }

  lemma StepTimed(cfg: Config, w: World, a: Action, unwinding: bool)
    requires BudgetOk(cfg, unwinding) && TimedInv(cfg, w, unwinding) && OnTime(w)
    requires Enabled(cfg, w, a) && ReadsAreNear(cfg, w, a)
    ensures TimedInv(cfg, Apply(cfg, w, a), unwinding)
  {
    StepKeepsInv(cfg, w, a);
    match a
    case Advance(to) => AdvanceTimed(cfg, w, to, unwinding);
    case Write(p, delivery) => WriteTimed(cfg, w, p, delivery, unwinding);
    case Land(f) => LandTimed(cfg, w, f, unwinding);
    case StartTick(p, _) => TickStepTimed(cfg, w, p, a, unwinding);
    case Read(p, _) => TickStepTimed(cfg, w, p, a, unwinding);
    case Check(p, _) => TickStepTimed(cfg, w, p, a, unwinding);
    case Crash(p) => CrashTimed(cfg, w, p, unwinding);
    case _ => QuietStepTimed(cfg, w, a, unwinding);
  }

  lemma {:induction false} RunTimed(cfg: Config, w: World, run: seq<Action>, unwinding: bool)
    requires BudgetOk(cfg, unwinding) && TimedInv(cfg, w, unwinding) && IsTimedRun(cfg, w, run)
    ensures IsRun(cfg, w, run) && TimedInv(cfg, After(cfg, w, run), unwinding)
    decreases |run|
  {
    if run != [] {
      StepTimed(cfg, w, run[0], unwinding);
      RunTimed(cfg, Apply(cfg, w, run[0]), run[1..], unwinding);
    }
  }

  // ---- The theorems -------------------------------------------------------------------

  /** Leadership is exclusive: for any pods, any interleaving, any failed reads and
      writes, any late landings, any pods killed at any step and restarted under their
      identity, and any skew within epsilon, at most one pod of
      those still in their election loops has its flag set, and it is the holder
      of record. Each pod's own settings need only meet its own budget. */
  lemma AtMostOneLeader(cfg: Config, w: World, run: seq<Action>, p: string, q: string)
    requires BudgetOk(cfg, false) && TimedInit(cfg, w) && IsTimedRun(cfg, w, run)
    ensures IsRun(cfg, w, run)
    ensures var s := After(cfg, w, run);
            p in s.pods && q in s.pods
            && s.pods[p].phase in {Standing, Leading} && s.pods[p].elector.isLeader
            && s.pods[q].phase in {Standing, Leading} && s.pods[q].elector.isLeader
            ==> p == q && s.log != [] && s.log[|s.log| - 1].holder == p
  {
    InitInv(cfg, w);
    RunTimed(cfg, w, run, false);
    var s := After(cfg, w, run);
    forall r | r in s.pods
      ensures PodInv(cfg, s.log, r, s.pods[r]) && PodTimed(cfg, s.time, s.log, r, s.pods[r], false)
    {
    }
  }

  // ---- The bare flag -------------------------------------------------------------------

  /** No leader leaves its loop on a stop or at the end of its service: the one step
      that takes a pod out of the loops with its flag set. */
  ghost predicate NobodyLeaves(cfg: Config, w: World, run: seq<Action>)
    requires w.pods.Keys == cfg.settings.Keys && IsRun(cfg, w, run)
    decreases |run|
  {
    run != [] ==>
      && (run[0].LeaveLoop? ==> w.pods[run[0].p].phase != Leading)
      && NobodyLeaves(cfg, Apply(cfg, w, run[0]), run[1..])
  }

  /** Only leaders have their flag set. */
  ghost predicate FlagsLead(w: World) {
    forall p :: p in w.pods && w.pods[p].elector.isLeader ==> w.pods[p].phase == Leading
  }

  lemma OwnFlagLeads(cfg: Config, w: World, a: Action, p: string)
    requires w.pods.Keys == cfg.settings.Keys && Enabled(cfg, w, a) && IsOf(a, p)
    requires PodInv(cfg, w.log, p, w.pods[p])
    requires w.pods[p].elector.isLeader ==> w.pods[p].phase == Leading
    requires a.LeaveLoop? ==> w.pods[p].phase != Leading
    ensures var pod := Apply(cfg, w, a).pods[p]; pod.elector.isLeader ==> pod.phase == Leading
  {
  }

  lemma {:induction false} FlagsGoOnLeading(cfg: Config, w: World, run: seq<Action>)
    requires cfg.Ok() && Inv(cfg, w) && FlagsLead(w) && IsRun(cfg, w, run) && NobodyLeaves(cfg, w, run)
    ensures FlagsLead(After(cfg, w, run))
    decreases |run|
  {
    if run != [] {
      var w' := Apply(cfg, w, run[0]);
      StepKeepsInv(cfg, w, run[0]);
      forall p | p in w'.pods
        ensures w'.pods[p].elector.isLeader ==> w'.pods[p].phase == Leading
      {
        if IsOf(run[0], p) {
          OwnFlagLeads(cfg, w, run[0], p);
        } else {
          OnlyItsPodMoves(cfg, w, run[0], p);
        }
      }
      FlagsGoOnLeading(cfg, w', run[1..]);
    }
  }

  /** The bare statement. As long as no leader leaves its loop by a stop or the end of its
      service, at most one pod of all, gone or not, has its flag set: through losses,
      missed deadlines, crashes, restarts and takeovers. */
  lemma AtMostOneFlag(cfg: Config, w: World, run: seq<Action>, p: string, q: string)
    requires BudgetOk(cfg, false) && TimedInit(cfg, w) && IsTimedRun(cfg, w, run)
    requires IsRun(cfg, w, run) && NobodyLeaves(cfg, w, run)
    ensures var s := After(cfg, w, run);
            p in s.pods && q in s.pods && s.pods[p].elector.isLeader && s.pods[q].elector.isLeader ==> p == q
  {
    InitInv(cfg, w);
    FlagsGoOnLeading(cfg, w, run);
    AtMostOneLeader(cfg, w, run, p, q);
  }

  /** What the environment does in a calm run: it asks no pod to stop, and a service ends
      only by being unwound. */
  ghost predicate IsCalm(cfg: Config, w: World, run: seq<Action>)
    requires w.pods.Keys == cfg.settings.Keys && IsRun(cfg, w, run)
    decreases |run|
  {
    run != [] ==> CalmStep(w, run[0]) && IsCalm(cfg, Apply(cfg, w, run[0]), run[1..])
  }

  ghost predicate CalmStep(w: World, a: Action) {
    !a.RequestStop? && (a.ServiceEnds? ==> a.p in w.pods && w.pods[a.p].phase == Unwinding)
  }

  ghost predicate Unstopped(w: World) {
    forall p :: p in w.pods ==> !w.pods[p].stop && (w.pods[p].phase == Leading ==> w.pods[p].service)
  }

  lemma CalmStepKeepsOn(cfg: Config, w: World, a: Action, p: string)
    requires w.pods.Keys == cfg.settings.Keys && Enabled(cfg, w, a) && IsOf(a, p) && CalmStep(w, a)
    requires PodInv(cfg, w.log, p, w.pods[p])
    requires !w.pods[p].stop && (w.pods[p].phase == Leading ==> w.pods[p].service)
    ensures var pod := Apply(cfg, w, a).pods[p]; !pod.stop && (pod.phase == Leading ==> pod.service)
  {
  }

  /** In a calm run nobody leaves. */
  lemma {:induction false} CalmMeansNobodyLeaves(cfg: Config, w: World, run: seq<Action>)
    requires cfg.Ok() && Inv(cfg, w) && Unstopped(w) && IsRun(cfg, w, run) && IsCalm(cfg, w, run)
    ensures NobodyLeaves(cfg, w, run)
    decreases |run|
  {
    if run != [] {
      var w' := Apply(cfg, w, run[0]);
      StepKeepsInv(cfg, w, run[0]);
      forall p | p in w'.pods
        ensures !w'.pods[p].stop && (w'.pods[p].phase == Leading ==> w'.pods[p].service)
      {
        if IsOf(run[0], p) {
          CalmStepKeepsOn(cfg, w, run[0], p);
        } else {
          OnlyItsPodMoves(cfg, w, run[0], p);
        }
      }
      CalmMeansNobodyLeaves(cfg, w', run[1..]);
    }
  }

  // ---- Services --------------------------------------------------------------------------

  /** A pod that run_with_leadership has not returned from, with its flag set or
      its service task still running. */
  ghost predicate Active(pod: Pod) {
    pod.phase != Gone && (pod.elector.isLeader || pod.service)
  }

  /** Service exclusion: paying for the unwinding as well, no two pods are active
      at once, through loss, stop, crash of the service or of the pod, restart and
      takeover. */
  lemma AtMostOneService(cfg: Config, w: World, run: seq<Action>, p: string, q: string)
    requires BudgetOk(cfg, true) && TimedInit(cfg, w) && IsTimedRun(cfg, w, run)
    ensures IsRun(cfg, w, run)
    ensures var s := After(cfg, w, run);
            p in s.pods && q in s.pods && Active(s.pods[p]) && Active(s.pods[q]) ==> p == q
    ensures var s := After(cfg, w, run);
            p in s.pods && s.pods[p].service ==> Active(s.pods[p])
  {
    InitInv(cfg, w);
    RunTimed(cfg, w, run, true);
    ActiveHolds(cfg, After(cfg, w, run), p);
    ActiveHolds(cfg, After(cfg, w, run), q);
  }

  /** What the flag is worth: with the unwinding paid for, of any two pods whose flags
      are set one is gone, so all but at most one are. */
  lemma FlaggedPodsAreGone(cfg: Config, w: World, run: seq<Action>, p: string, q: string)
    requires BudgetOk(cfg, true) && TimedInit(cfg, w) && IsTimedRun(cfg, w, run)
    ensures IsRun(cfg, w, run)
    ensures var s := After(cfg, w, run);
            p in s.pods && q in s.pods && p != q && s.pods[p].elector.isLeader && s.pods[q].elector.isLeader ==>
              s.pods[p].phase == Gone || s.pods[q].phase == Gone
  {
    AtMostOneService(cfg, w, run, p, q);
  }

  lemma ActiveHolds(cfg: Config, s: World, p: string)
    requires TimedInv(cfg, s, true)
    ensures p in s.pods && Active(s.pods[p]) ==> s.log != [] && s.log[|s.log| - 1].holder == p
    ensures p in s.pods && s.pods[p].service ==> Active(s.pods[p])
  {
    if p in s.pods {
      assert PodInv(cfg, s.log, p, s.pods[p]) && PodTimed(cfg, s.time, s.log, p, s.pods[p], true);
    }
  }

  /** A pod whose stop is set while it stands by between ticks never runs the
      service, in any run from there that does not restart it. */
  lemma {:induction false} StoppedStandbyNeverServes(cfg: Config, w: World, run: seq<Action>, p: string)
    requires w.pods.Keys == cfg.settings.Keys && IsRun(cfg, w, run) && p in w.pods
    requires w.pods[p].pc == Idle && !w.pods[p].service
    requires w.pods[p].phase == Gone || (w.pods[p].phase == Standing && w.pods[p].stop)
    requires Restart(p) !in run
    ensures !After(cfg, w, run).pods[p].service
    decreases |run|
  {
    if run != [] {
      StoppedStandbyNeverServes(cfg, Apply(cfg, w, run[0]), run[1..], p);
    }
  }

  // ---- Why the hypothesis is there -----------------------------------------------------

  /** Without a bound on its ticks a pod keeps its flag. Whatever the settings, any
      two pods can both lead: one acquires and falls silent, the other reads a
      clock past the first record's duration and takes it over. */
  lemma SilentLeaderKeepsItsFlag(cfg: Config, w: World, p: string, q: string, first: real, second: real)
    requires cfg.Ok() && Init(cfg, w) && p in w.pods && q in w.pods && p != q
    requires w.pods[p].clock <= first && w.pods[q].clock <= second
    requires second - first > cfg.settings[p].duration
    ensures var run := TickOf(p, first) + TickOf(q, second);
            IsRun(cfg, w, run) && TwoFlags(After(cfg, w, run), p, q)
  {
    var w' := UndisturbedTick(cfg, w, p, first);
    assert w'.pods[q] == w.pods[q];
    var w'' := UndisturbedTick(cfg, w', q, second);
    assert w''.pods[p] == w'.pods[p];
    RunsCompose(cfg, w, TickOf(p, first), TickOf(q, second));
  }

  ghost predicate TwoFlags(s: World, p: string, q: string) {
    && p in s.pods && s.pods[p].phase == Leading && s.pods[p].elector.isLeader
    && q in s.pods && s.pods[q].phase == Leading && s.pods[q].elector.isLeader
    && p != q
  }

  function TickOf(p: string, reading: real): seq<Action> {
    [StartTick(p, reading), Read(p, true), Write(p, Replied)]
  }

  /** A standby ticking alone over a missing or expired record comes out leading. */
  lemma UndisturbedTick(cfg: Config, w: World, p: string, reading: real) returns (w': World)
    requires w.pods.Keys == cfg.settings.Keys && Enabled(cfg, w, StartTick(p, reading)) && Versioned(w.log)
    requires cfg.settings[p].identity == p
    requires Current(w.log).Some? ==> Current(w.log).value.IsExpired(reading)
    ensures IsRun(cfg, w, TickOf(p, reading)) && w' == After(cfg, w, TickOf(p, reading))
    ensures w'.time == w.time && w'.pods.Keys == w.pods.Keys
    ensures w'.pods[p].phase == Leading && w'.pods[p].elector.isLeader
    ensures forall q :: q in w.pods && q != p ==> w'.pods[q] == w.pods[q]
    ensures |w'.log| == |w.log| + 1 && Versioned(w'.log)
    ensures var last := w'.log[|w.log|];
            last.holder == p && last.renewTime == reading && last.duration == cfg.settings[p].duration
  {
    var w1 := Apply(cfg, w, StartTick(p, reading));
    var w2 := Apply(cfg, w1, Read(p, true));
    w' := Apply(cfg, w2, Write(p, Replied));
    RunOfOne(cfg, w2, Write(p, Replied), []);
    RunOfOne(cfg, w1, Read(p, true), [Write(p, Replied)]);
    RunOfOne(cfg, w, StartTick(p, reading), [Read(p, true)] + [Write(p, Replied)]);
    assert TickOf(p, reading) == [StartTick(p, reading)] + ([Read(p, true)] + [Write(p, Replied)]);
    assert [Write(p, Replied)] == [Write(p, Replied)] + [];
  }

  lemma RunOfOne(cfg: Config, w: World, a: Action, rest: seq<Action>)
    requires w.pods.Keys == cfg.settings.Keys && Enabled(cfg, w, a)
    requires IsRun(cfg, Apply(cfg, w, a), rest)
    ensures IsRun(cfg, w, [a] + rest)
    ensures After(cfg, w, [a] + rest) == After(cfg, Apply(cfg, w, a), rest)
  {
    assert ([a] + rest)[1..] == rest;
  }

  lemma {:induction false} RunsCompose(cfg: Config, w: World, run: seq<Action>, more: seq<Action>)
    requires w.pods.Keys == cfg.settings.Keys && IsRun(cfg, w, run) && IsRun(cfg, After(cfg, w, run), more)
    ensures IsRun(cfg, w, run + more)
    ensures After(cfg, w, run + more) == After(cfg, After(cfg, w, run), more)
    decreases |run|
  {
    if run == [] {
      assert run + more == more;
    } else {
      RunsCompose(cfg, Apply(cfg, w, run[0]), run[1..], more);
      assert (run + more)[1..] == run[1..] + more;
    }
  }
}

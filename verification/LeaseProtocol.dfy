/**
 Any number of pods electing a leader over one Lease record.

 Every pod runs the standby loop, then the service beside the renew loop. A tick
 is four separate steps (read the clock, read the record, write, look at the
 deadline), so the steps of different pods interleave in any order. Reads and
 writes may fail; a write may also commit while it is reported failed, at once or
 at any later time. A pod may die at any step and come back under its own identity.
 The functions that decide a tick are those of module Lease.
 */
module LeaseProtocol {
  import opened Prelude
  import opened Lease

  /** The settings of each pod, by identity, and the three bounds: L on one tick,
      U on unwinding the service, epsilon on every clock. */
  datatype Config = Config(settings: map<string, Settings>, tickBound: real, unwindBound: real, skew: real)
  {
    ghost predicate Ok() {
      && tickBound >= 0.0 && unwindBound >= 0.0 && skew >= 0.0
      && forall p :: p in settings ==>
           settings[p].identity == p && settings[p].duration >= 0.0 && settings[p].retryPeriod >= 0.0
    }
  }

  datatype Phase = Standing | Leading | Unwinding | Gone

  /** Idle is the wait between two ticks; Checking is a failed renewal that has
      yet to look at its deadline. */
  datatype Pc = Idle | Reading | Writing(request: Request, acquired: bool) | Checking

  /** `clock` is the pod's last clock reading; during a tick it is the tick's
      `now`. `due` is the true time by which the pod takes its next step. */
  datatype Pod = Pod(
    elector: Elector,
    phase: Phase,
    pc: Pc,
    clock: real,
    due: real,
    stop: bool,
    service: bool)

  /** A write that was reported failed and may still reach the store. */
  datatype Flight = Flight(pod: string, now: real, request: Request)

  datatype World = World(time: real, log: Log, pods: map<string, Pod>, flights: set<Flight>)

  datatype Delivery = Replied | Dropped | CommittedSilently | StillInFlight

  datatype Action =
    | Advance(to: real)
    | StartTick(p: string, reading: real)
    | Read(p: string, ok: bool)
    | Write(p: string, delivery: Delivery)
    | Check(p: string, reading: real)
    | Land(flight: Flight)
    | RequestStop(p: string)
    | LeaveLoop(p: string)
    | ServiceEnds(p: string)
    | Exit(p: string)
    | Crash(p: string)
    | Restart(p: string)

  ghost predicate Enabled(cfg: Config, w: World, a: Action) {
    match a
    case Advance(to) => to >= w.time
    case StartTick(p, reading) =>
      && p in w.pods && w.pods[p].pc == Idle && w.pods[p].phase in {Standing, Leading}
      && !w.pods[p].stop && reading >= w.pods[p].clock
    case Read(p, _) => p in w.pods && w.pods[p].pc == Reading
    case Write(p, _) => p in w.pods && w.pods[p].pc.Writing?
    case Check(p, reading) => p in w.pods && w.pods[p].pc == Checking && reading >= w.pods[p].clock
    case Land(f) => f in w.flights
    case RequestStop(p) => p in w.pods
    case LeaveLoop(p) =>
      && p in w.pods && w.pods[p].pc == Idle
      && ((w.pods[p].phase == Standing && w.pods[p].stop)
          || (w.pods[p].phase == Leading && (w.pods[p].stop || !w.pods[p].service)))
    case ServiceEnds(p) => p in w.pods && w.pods[p].service
    case Exit(p) => p in w.pods && w.pods[p].phase == Unwinding && !w.pods[p].service
    case Crash(p) => p in w.pods && w.pods[p].phase != Gone
    case Restart(p) => p in w.pods && w.pods[p].phase == Gone
  }

  /** Back to waiting for the next tick. */
  function Rest(me: Settings, w: World, pod: Pod): Pod {
    pod.(pc := Idle, due := w.time + me.retryPeriod)
  }

  function Unwind(cfg: Config, w: World, pod: Pod): Pod {
    pod.(phase := Unwinding, pc := Idle, due := w.time + cfg.unwindBound)
  }

  /** A tick that did not succeed: a standby waits, a leader looks at its deadline. */
  function Fail(me: Settings, w: World, pod: Pod): Pod {
    if pod.phase == Leading then pod.(pc := Checking) else Rest(me, w, pod)
  }

  /** A tick that succeeded: a standby starts the service with its first lead. */
  function Succeed(me: Settings, w: World, pod: Pod): Pod {
    Rest(me, w, pod.(elector := MarkLeader(pod.elector, pod.clock),
                     phase := Leading,
                     service := pod.service || pod.phase == Standing))
  }

  function AfterRead(cfg: Config, me: Settings, w: World, pod: Pod, ok: bool): Pod {
    if !ok then Fail(me, w, pod)
    else
      match Decide(me, pod.clock, Current(w.log))
      case Send(request, acquired) => pod.(pc := Writing(request, acquired))
      case Standby =>
        var down := pod.(elector := StepDown(pod.elector));
        if pod.phase == Leading then Unwind(cfg, w, down) else Rest(me, w, down)
  }

  function AfterCheck(cfg: Config, me: Settings, w: World, pod: Pod, reading: real): Pod {
    var p := pod.(clock := reading);
    if reading - p.elector.lastRenew > me.renewDeadline
    then Unwind(cfg, w, p.(elector := StepDown(p.elector)))
    else Rest(me, w, p)
  }

  function AfterWrite(me: Settings, w: World, p: string, pod: Pod, delivery: Delivery): World
    requires pod.pc.Writing?
  {
    var granted := Commit(w.log, pod.pc.request);
    match delivery
    case Dropped => w.(pods := w.pods[p := Fail(me, w, pod)])
    case StillInFlight =>
      w.(pods := w.pods[p := Fail(me, w, pod)], flights := w.flights + {Flight(p, pod.clock, pod.pc.request)})
    case CommittedSilently =>
      w.(pods := w.pods[p := Fail(me, w, pod)], log := if granted.Some? then granted.value else w.log)
    case Replied =>
      if granted == None then w.(pods := w.pods[p := Fail(me, w, pod)])
      else w.(pods := w.pods[p := Succeed(me, w, pod)], log := granted.value)
  }

  /** The process dies where it stands, its elector and its service with it. A write
      it had sent may still reach the store. */
  function AfterCrash(w: World, p: string, pod: Pod): World {
    w.(pods := w.pods[p := pod.(elector := FRESH_ELECTOR, phase := Gone, pc := Idle, service := false)],
       flights := w.flights + (if pod.pc.Writing? then {Flight(p, pod.clock, pod.pc.request)} else {}))
  }

  /** A pod that is gone comes back under its own identity as a fresh standby. */
  function Reborn(w: World, pod: Pod): Pod {
    Pod(FRESH_ELECTOR, Standing, Idle, pod.clock, w.time, false, false)
  }

  function Apply(cfg: Config, w: World, a: Action): World
    requires w.pods.Keys == cfg.settings.Keys && Enabled(cfg, w, a)
  {
    match a
    case Advance(to) => w.(time := to)
    case StartTick(p, reading) =>
      w.(pods := w.pods[p := w.pods[p].(pc := Reading, clock := reading, due := w.time + cfg.tickBound)])
    case Read(p, ok) => w.(pods := w.pods[p := AfterRead(cfg, cfg.settings[p], w, w.pods[p], ok)])
    case Write(p, delivery) => AfterWrite(cfg.settings[p], w, p, w.pods[p], delivery)
    case Check(p, reading) =>
      w.(pods := w.pods[p := AfterCheck(cfg, cfg.settings[p], w, w.pods[p], reading)])
    case Land(f) =>
      var granted := Commit(w.log, f.request);
      w.(flights := w.flights - {f}, log := if granted.Some? then granted.value else w.log)
    case RequestStop(p) => w.(pods := w.pods[p := w.pods[p].(stop := true)])
    case LeaveLoop(p) =>
      var pod := w.pods[p];
      w.(pods := w.pods[p := if pod.phase == Standing then pod.(phase := Gone) else Unwind(cfg, w, pod)])
    case ServiceEnds(p) => w.(pods := w.pods[p := w.pods[p].(service := false)])
    case Exit(p) => w.(pods := w.pods[p := w.pods[p].(phase := Gone)])
    case Crash(p) => AfterCrash(w, p, w.pods[p])
    case Restart(p) => w.(pods := w.pods[p := Reborn(w, w.pods[p])])
  }

  ghost predicate Init(cfg: Config, w: World) {
    && w.log == [] && w.flights == {} && w.pods.Keys == cfg.settings.Keys
    && forall p :: p in w.pods ==>
         && w.pods[p].elector == FRESH_ELECTOR && w.pods[p].phase == Standing && w.pods[p].pc == Idle
         && !w.pods[p].stop && !w.pods[p].service
  }

  // ---- Runs -------------------------------------------------------------------

  ghost predicate IsRun(cfg: Config, w: World, run: seq<Action>)
    requires w.pods.Keys == cfg.settings.Keys
    decreases |run|
  {
    run != [] ==> Enabled(cfg, w, run[0]) && IsRun(cfg, Apply(cfg, w, run[0]), run[1..])
  }

  ghost function After(cfg: Config, w: World, run: seq<Action>): (w': World)
    requires w.pods.Keys == cfg.settings.Keys && IsRun(cfg, w, run)
    ensures w'.pods.Keys == cfg.settings.Keys
    decreases |run|
  {
    if run == [] then w else After(cfg, Apply(cfg, w, run[0]), run[1..])
  }

  // ---- What every run keeps, whatever the clocks do -------------------------------

  function HolderChanges(log: Log): nat
    decreases |log|
  {
    if |log| <= 1 then 0
    else HolderChanges(log[..|log| - 1]) + (if log[|log| - 1].holder != log[|log| - 2].holder then 1 else 0)
  }

  /** When the last record's holder came to hold the Lease, as the history tells it. */
  function TenureStart(log: Log): real
    requires log != []
    decreases |log|
  {
    var last := log[|log| - 1];
    if |log| == 1 || log[|log| - 2].holder != last.holder then last.renewTime
    else TenureStart(log[..|log| - 1])
  }

  /** The stored history: renewals never go back, `acquireTime` is when the holder's
      tenure began and no later than its last renewal, and `transitions` counts the
      changes of holder. */
  ghost predicate HistoryOk(log: Log) {
    && (forall i :: 0 <= i < |log| ==> log[i].acquireTime <= log[i].renewTime)
    && (forall i, j :: 0 <= i < j < |log| ==> log[i].renewTime <= log[j].renewTime)
    && (log != [] ==>
          log[|log| - 1].transitions == HolderChanges(log) && log[|log| - 1].acquireTime == TenureStart(log))
  }

  /** `next` may follow `log`. */
  ghost predicate Follows(log: Log, next: LeaseRecord) {
    && next.acquireTime <= next.renewTime
    && (log == [] ==> next.transitions == 0 && next.acquireTime == next.renewTime)
    && (log != [] ==>
          var last := log[|log| - 1];
          && last.renewTime <= next.renewTime
          && next.transitions == last.transitions + (if next.holder != last.holder then 1 else 0)
          && next.acquireTime == (if next.holder != last.holder then next.renewTime else last.acquireTime))
  }

  lemma {:induction false} ChangesGrow(log: Log, next: LeaseRecord)
    requires log != []
    ensures HolderChanges(log + [next]) == HolderChanges(log) + (if next.holder != log[|log| - 1].holder then 1 else 0)
  {
    var log' := log + [next];
    assert log'[..|log'| - 1] == log && log'[|log'| - 1] == next && log'[|log'| - 2] == log[|log| - 1];
  }

  lemma {:induction false} TenureGrows(log: Log, next: LeaseRecord)
    requires log != []
    ensures TenureStart(log + [next]) ==
            (if next.holder != log[|log| - 1].holder then next.renewTime else TenureStart(log))
  {
    var log' := log + [next];
    assert log'[..|log'| - 1] == log && log'[|log'| - 1] == next && log'[|log'| - 2] == log[|log| - 1];
  }

  lemma HistoryGrows(log: Log, next: LeaseRecord)
    requires HistoryOk(log) && Follows(log, next)
    ensures HistoryOk(log + [next])
  {
    var log' := log + [next];
    if log != [] {
      ChangesGrow(log, next);
      TenureGrows(log, next);
    }
    forall i, j | 0 <= i < j < |log'|
      ensures log'[i].renewTime <= log'[j].renewTime
    {
      if j == |log| && i < |log| - 1 {
        assert log[i].renewTime <= log[|log| - 1].renewTime;
      }
    }
  }

  /** The request was decided, at a reading `now`, from a record that was current
      once and that is no newer than `now`. */
  ghost predicate Derived(cfg: Config, log: Log, p: string, now: real, request: Request)
    requires p in cfg.settings
  {
    var me := cfg.settings[p];
    match request
    case Create(_) => Decide(me, now, None).request == request
    case Update(r) =>
      && 1 <= r.version <= |log|
      && var read := log[r.version - 1];
         && read.renewTime <= now
         && Decide(me, now, Some(read)).Send?
         && Decide(me, now, Some(read)).request == request
  }

  ghost predicate PodInv(cfg: Config, log: Log, p: string, pod: Pod)
    requires p in cfg.settings
  {
    && (pod.pc.Writing? ==>
          && Derived(cfg, log, p, pod.clock, pod.pc.request)
          && pod.pc.acquired == (pod.pc.request.Create? || log[pod.pc.request.record.version - 1].holder != p))
    && (pod.phase == Standing ==> !pod.elector.isLeader && !pod.service)
    && (pod.phase == Leading ==> pod.elector.isLeader)
    && (pod.phase == Gone ==> !pod.service)
    && (pod.phase in {Unwinding, Gone} ==> pod.pc == Idle)
    && (pod.pc == Checking ==> pod.phase == Leading)
  }

  ghost predicate LogInv(cfg: Config, w: World)
    requires w.pods.Keys == cfg.settings.Keys
  {
    && Versioned(w.log)
    && HistoryOk(w.log)
    && (forall i :: 0 <= i < |w.log| ==>
          && w.log[i].holder in w.pods
          && w.log[i].duration == cfg.settings[w.log[i].holder].duration
          && w.log[i].renewTime <= w.pods[w.log[i].holder].clock)
  }

  ghost predicate Inv(cfg: Config, w: World) {
    && w.pods.Keys == cfg.settings.Keys
    && LogInv(cfg, w)
    && (forall p :: p in w.pods ==> PodInv(cfg, w.log, p, w.pods[p]))
    && (forall f :: f in w.flights ==>
          f.pod in w.pods && f.now <= w.pods[f.pod].clock && Derived(cfg, w.log, f.pod, f.now, f.request))
  }

  lemma InitInv(cfg: Config, w: World)
    requires cfg.Ok() && Init(cfg, w)
    ensures Inv(cfg, w)
  {
  }

  /** Committing a derived request is the atomic read-modify-write at the same
      reading: the record that lands is the one an undivided tick would have
      written over the current record, and the takeover test still holds of it. */
  lemma CommitIsAtomic(cfg: Config, log: Log, p: string, now: real, request: Request)
    requires p in cfg.settings && Versioned(log) && Derived(cfg, log, p, now, request)
    requires Commit(log, request).Some?
    ensures Decide(cfg.settings[p], now, Current(log)).Send?
    ensures Decide(cfg.settings[p], now, Current(log)).request == request
    ensures Commit(log, request).value == log + [request.record.(version := |log| + 1)]
    ensures log != [] ==>
              var held := log[|log| - 1];
              held.renewTime <= now && (held.holder == cfg.settings[p].identity || held.IsExpired(now))
  {
    if request.Update? {
      assert log[|log| - 1].version == |log|;
    } else {
      assert Commit(log, request).value == [] + [request.record.(version := 1)];
    }
  }

  lemma DerivedSurvives(cfg: Config, log: Log, log': Log, p: string, now: real, request: Request)
    requires p in cfg.settings && log <= log' && Derived(cfg, log, p, now, request)
    ensures Derived(cfg, log', p, now, request)
  {
  }

  lemma CommitFollows(cfg: Config, log: Log, p: string, now: real, request: Request)
    requires p in cfg.settings && Versioned(log) && HistoryOk(log) && Derived(cfg, log, p, now, request)
    requires Commit(log, request).Some?
    ensures Follows(log, request.record.(version := |log| + 1))
  {
    CommitIsAtomic(cfg, log, p, now, request);
    if log != [] {
      assert log[|log| - 1].acquireTime <= log[|log| - 1].renewTime;
    }
  }

  lemma CommitKeepsLogInv(cfg: Config, w: World, p: string, now: real, request: Request)
    requires cfg.Ok() && w.pods.Keys == cfg.settings.Keys && LogInv(cfg, w)
    requires p in w.pods && now <= w.pods[p].clock && Derived(cfg, w.log, p, now, request)
    requires Commit(w.log, request).Some?
    ensures LogInv(cfg, w.(log := Commit(w.log, request).value))
    ensures w.log <= Commit(w.log, request).value
  {
    var next := request.record.(version := |w.log| + 1);
    assert HistoryOk(w.log + [next]) by {
      CommitFollows(cfg, w.log, p, now, request);
      HistoryGrows(w.log, next);
    }
    assert Commit(w.log, request).value == w.log + [next] by {
      CommitIsAtomic(cfg, w.log, p, now, request);
    }
  }

  /** A step of `p` that leaves the store alone and keeps p's own part of the
      invariant keeps all of it. */
  lemma LocalStep(cfg: Config, w: World, p: string, pod': Pod)
    requires Inv(cfg, w) && p in w.pods && pod'.clock >= w.pods[p].clock
    requires PodInv(cfg, w.log, p, pod')
    ensures Inv(cfg, w.(pods := w.pods[p := pod']))
  {
    var w' := w.(pods := w.pods[p := pod']);
    forall q | q in w'.pods
      ensures PodInv(cfg, w'.log, q, w'.pods[q])
      ensures q in w.pods && w.pods[q].clock <= w'.pods[q].clock
    {
    }
    assert LogInv(cfg, w');
  }

  /** A request of `p` commits and nothing else changes. */
  lemma StoreStep(cfg: Config, w: World, p: string, now: real, request: Request)
    requires cfg.Ok() && Inv(cfg, w) && p in w.pods && now <= w.pods[p].clock
    requires Derived(cfg, w.log, p, now, request) && Commit(w.log, request).Some?
    ensures Inv(cfg, w.(log := Commit(w.log, request).value))
    ensures w.log <= Commit(w.log, request).value
  {
    CommitKeepsLogInv(cfg, w, p, now, request);
    var w' := w.(log := Commit(w.log, request).value);
    forall q | q in w'.pods
      ensures PodInv(cfg, w'.log, q, w'.pods[q])
    {
      assert PodInv(cfg, w.log, q, w.pods[q]);
      if w.pods[q].pc.Writing? {
        DerivedSurvives(cfg, w.log, w'.log, q, w.pods[q].clock, w.pods[q].pc.request);
      }
    }
    forall f | f in w'.flights
      ensures Derived(cfg, w'.log, f.pod, f.now, f.request)
    {
      DerivedSurvives(cfg, w.log, w'.log, f.pod, f.now, f.request);
    }
  }

  lemma ReadKeepsInv(cfg: Config, w: World, p: string, ok: bool)
    requires cfg.Ok() && Inv(cfg, w) && Enabled(cfg, w, Read(p, ok))
    ensures Inv(cfg, Apply(cfg, w, Read(p, ok)))
  {
    var pod := w.pods[p];
    assert PodInv(cfg, w.log, p, w.pods[p]);
    var me := cfg.settings[p];
    if ok && w.log != [] && Decide(me, pod.clock, Current(w.log)).Send? {
      var last := w.log[|w.log| - 1];
      assert last.version == |w.log|;
    }
    LocalStep(cfg, w, p, AfterRead(cfg, me, w, pod, ok));
  }

  lemma FlightKeepsInv(cfg: Config, w: World, f: Flight)
    requires Inv(cfg, w) && f.pod in w.pods && f.now <= w.pods[f.pod].clock
    requires Derived(cfg, w.log, f.pod, f.now, f.request)
    ensures Inv(cfg, w.(flights := w.flights + {f}))
  {
  }

  lemma WriteKeepsInv(cfg: Config, w: World, p: string, delivery: Delivery)
    requires cfg.Ok() && Inv(cfg, w) && Enabled(cfg, w, Write(p, delivery))
    ensures Inv(cfg, Apply(cfg, w, Write(p, delivery)))
    ensures w.log <= Apply(cfg, w, Write(p, delivery)).log
  {
    var pod := w.pods[p];
    assert PodInv(cfg, w.log, p, pod);
    WriteEndKeepsPod(cfg, w, Apply(cfg, w, Write(p, delivery)).log, p);
    if delivery == StillInFlight {
      var f := Flight(p, pod.clock, pod.pc.request);
      FlightKeepsInv(cfg, w, f);
      LocalStep(cfg, w.(flights := w.flights + {f}), p, Fail(cfg.settings[p], w, pod));
    } else {
      AnsweredWriteKeepsInv(cfg, w, p, delivery);
    }
  }

  lemma AnsweredWriteKeepsInv(cfg: Config, w: World, p: string, delivery: Delivery)
    requires cfg.Ok() && Inv(cfg, w) && Enabled(cfg, w, Write(p, delivery)) && delivery != StillInFlight
    ensures Inv(cfg, Apply(cfg, w, Write(p, delivery)))
    ensures w.log <= Apply(cfg, w, Write(p, delivery)).log
  {
    var pod := w.pods[p];
    var w' := Apply(cfg, w, Write(p, delivery));
    var w1 := w.(log := w'.log);
    assert PodInv(cfg, w.log, p, pod);
    WriteEndKeepsPod(cfg, w, w1.log, p);
    assert Inv(cfg, w1) && w.log <= w1.log by {
      if w1 != w {
        StoreStep(cfg, w, p, pod.clock, pod.pc.request);
      }
    }
    LocalStep(cfg, w1, p, w'.pods[p]);
  }

  /** Neither end of a write leaves the pod writing, so any store will do. */
  lemma WriteEndKeepsPod(cfg: Config, w: World, log: Log, p: string)
    requires p in cfg.settings && p in w.pods && PodInv(cfg, w.log, p, w.pods[p]) && w.pods[p].pc.Writing?
    ensures PodInv(cfg, log, p, Fail(cfg.settings[p], w, w.pods[p]))
    ensures PodInv(cfg, log, p, Succeed(cfg.settings[p], w, w.pods[p]))
  {
  }

  lemma LandKeepsInv(cfg: Config, w: World, f: Flight)
    requires cfg.Ok() && Inv(cfg, w) && f in w.flights
    ensures Inv(cfg, Apply(cfg, w, Land(f)))
    ensures w.log <= Apply(cfg, w, Land(f)).log
  {
    var w1 := w.(flights := w.flights - {f});
    assert Inv(cfg, w1);
    if Commit(w.log, f.request).Some? {
      StoreStep(cfg, w1, f.pod, f.now, f.request);
    }
  }

  lemma CrashKeepsInv(cfg: Config, w: World, p: string)
    requires cfg.Ok() && Inv(cfg, w) && Enabled(cfg, w, Crash(p))
    ensures Inv(cfg, Apply(cfg, w, Crash(p)))
  {
    var pod := w.pods[p];
    assert PodInv(cfg, w.log, p, pod);
    var w1 := w;
    if pod.pc.Writing? {
      var f := Flight(p, pod.clock, pod.pc.request);
      FlightKeepsInv(cfg, w, f);
      w1 := w.(flights := w.flights + {f});
    }
    LocalStep(cfg, w1, p, Apply(cfg, w, Crash(p)).pods[p]);
  }

  /** The action is a step of pod `p`. */
  predicate IsOf(a: Action, p: string) {
    !a.Advance? && !a.Land? && a.p == p
  }

  lemma OnlyItsPodMoves(cfg: Config, w: World, a: Action, p: string)
    requires w.pods.Keys == cfg.settings.Keys && Enabled(cfg, w, a) && p in w.pods && !IsOf(a, p)
    ensures Apply(cfg, w, a).pods[p] == w.pods[p]
  {
  }

  /** The actions of one pod that leave the store and the flights alone. */
  predicate IsLocal(a: Action) {
    a.StartTick? || a.Check? || a.RequestStop? || a.LeaveLoop? || a.ServiceEnds? || a.Exit? || a.Restart?
  }

  lemma LocalKeepsPod(cfg: Config, w: World, a: Action)
    requires w.pods.Keys == cfg.settings.Keys && Enabled(cfg, w, a) && IsLocal(a)
    requires PodInv(cfg, w.log, a.p, w.pods[a.p])
    ensures PodInv(cfg, w.log, a.p, Apply(cfg, w, a).pods[a.p])
    ensures Apply(cfg, w, a) == w.(pods := w.pods[a.p := Apply(cfg, w, a).pods[a.p]])
    ensures Apply(cfg, w, a).pods[a.p].clock >= w.pods[a.p].clock
  {
  }

  lemma LocalKeepsInv(cfg: Config, w: World, a: Action)
    requires Inv(cfg, w) && Enabled(cfg, w, a) && IsLocal(a)
    ensures Inv(cfg, Apply(cfg, w, a)) && Apply(cfg, w, a).log == w.log
  {
    assert PodInv(cfg, w.log, a.p, w.pods[a.p]);
    LocalKeepsPod(cfg, w, a);
    LocalStep(cfg, w, a.p, Apply(cfg, w, a).pods[a.p]);
  }

  lemma StepKeepsInv(cfg: Config, w: World, a: Action)
    requires cfg.Ok() && Inv(cfg, w) && Enabled(cfg, w, a)
    ensures Inv(cfg, Apply(cfg, w, a))
    ensures w.log <= Apply(cfg, w, a).log
  {
    match a
    case Advance(to) =>
    case Read(p, ok) => ReadKeepsInv(cfg, w, p, ok);
    case Write(p, delivery) => WriteKeepsInv(cfg, w, p, delivery);
    case Land(f) => LandKeepsInv(cfg, w, f);
    case Crash(p) => CrashKeepsInv(cfg, w, p);
    case _ => LocalKeepsInv(cfg, w, a);
  }

  lemma {:induction false} RunKeepsInv(cfg: Config, w: World, run: seq<Action>)
    requires cfg.Ok() && Inv(cfg, w) && IsRun(cfg, w, run)
    ensures Inv(cfg, After(cfg, w, run))
    ensures w.log <= After(cfg, w, run).log
    decreases |run|
  {
    if run != [] {
      StepKeepsInv(cfg, w, run[0]);
      RunKeepsInv(cfg, Apply(cfg, w, run[0]), run[1..]);
    }
  }

  /** Over every run from the start, with arbitrary skew between the pods and only
      each pod's own clock monotone, the stored history is sound, and a version
      identifies its record for good. */
  lemma HistoryIsSound(cfg: Config, w: World, run: seq<Action>)
    requires cfg.Ok() && Init(cfg, w) && IsRun(cfg, w, run)
    ensures HistoryOk(After(cfg, w, run).log) && Versioned(After(cfg, w, run).log)
  {
    InitInv(cfg, w);
    RunKeepsInv(cfg, w, run);
  }

  /** The store moves from `log` to `log'` by some pod's undivided read, decision
      and write at one of its own past clock readings. */
  ghost predicate AtomicStep(cfg: Config, w: World, log': Log, p: string, now: real)
    requires w.pods.Keys == cfg.settings.Keys
  {
    && p in w.pods && now <= w.pods[p].clock
    && var d := Decide(cfg.settings[p], now, Current(w.log));
       d.Send? && Commit(w.log, d.request) == Some(log')
  }

  lemma CommitStepIsAtomic(cfg: Config, w: World, a: Action)
    requires Inv(cfg, w) && Enabled(cfg, w, a) && Apply(cfg, w, a).log != w.log
    ensures exists p, now :: AtomicStep(cfg, w, Apply(cfg, w, a).log, p, now)
  {
    var log' := Apply(cfg, w, a).log;
    match a
    case Write(p, _) =>
      assert PodInv(cfg, w.log, p, w.pods[p]);
      CommitIsAtomic(cfg, w.log, p, w.pods[p].clock, w.pods[p].pc.request);
      assert AtomicStep(cfg, w, log', p, w.pods[p].clock);
    case Land(f) =>
      CommitIsAtomic(cfg, w.log, f.pod, f.now, f.request);
      assert AtomicStep(cfg, w, log', f.pod, f.now);
    case _ =>
  }

  /** The divided tick refines an atomic one: in every reachable world, a step
      that changes the store at all is one undivided tick's effect on the record
      current at that step, although the tick read and decided earlier. */
  lemma EveryCommitIsAtomic(cfg: Config, w: World, run: seq<Action>, a: Action)
    requires cfg.Ok() && Init(cfg, w) && IsRun(cfg, w, run) && Enabled(cfg, After(cfg, w, run), a)
    ensures var s := After(cfg, w, run);
            var s' := Apply(cfg, s, a);
            s'.log != s.log ==> exists p, now :: AtomicStep(cfg, s, s'.log, p, now)
  {
    InitInv(cfg, w);
    RunKeepsInv(cfg, w, run);
    var s := After(cfg, w, run);
    if Apply(cfg, s, a).log != s.log {
      CommitStepIsAtomic(cfg, s, a);
    }
  }

  // ---- What the environment can do ---------------------------------------------------------

  /** A write that is reported failed can reach the store at any later time, and one that a
      pod had sent when it was killed too: landing, it does what it would have done at once
      to the store of that time. */
  lemma LateWriteLands(cfg: Config, w: World, p: string, later: World)
    requires w.pods.Keys == cfg.settings.Keys && p in w.pods && w.pods[p].pc.Writing? && w.pods[p].phase != Gone
    requires later.pods.Keys == cfg.settings.Keys
    requires later.flights >= Apply(cfg, w, Write(p, StillInFlight)).flights
             || later.flights >= Apply(cfg, w, Crash(p)).flights
    ensures var f := Flight(p, w.pods[p].clock, w.pods[p].pc.request);
            && Enabled(cfg, later, Land(f))
            && Apply(cfg, later, Land(f)) ==
               later.(flights := later.flights - {f},
                      log := match Commit(later.log, f.request) case Some(log') => log' case None => later.log)
  {
  }

  /** Any pod can be killed at any step and come back: as a fresh standby, its clock kept,
      with the store and the other pods untouched. */
  lemma AnyPodCanBeKilled(cfg: Config, w: World, p: string)
    requires w.pods.Keys == cfg.settings.Keys && p in w.pods && w.pods[p].phase != Gone
    ensures Enabled(cfg, w, Crash(p)) && Enabled(cfg, Apply(cfg, w, Crash(p)), Restart(p))
    ensures var s := Apply(cfg, Apply(cfg, w, Crash(p)), Restart(p));
            && s.log == w.log && s.time == w.time
            && s.pods == w.pods[p := s.pods[p]]
            && s.pods[p].phase == Standing && s.pods[p].pc == Idle && s.pods[p].elector == FRESH_ELECTOR
            && !s.pods[p].service && !s.pods[p].stop && s.pods[p].clock == w.pods[p].clock
  {
  }

  // ---- The tick of the code ------------------------------------------------------------------

  function DeliveryOf(fate: Fate): Delivery {
    match fate
    case Answered => Replied
    case Lost => Dropped
    case CommittedUnreported => CommittedSilently
  }

  /** The class's undivided tick is the pod's divided one: reading the clock, then
      the record, then (after anything other pods did) writing, moves the flag,
      the callbacks and the store exactly as the specification of
      LeaderElector.TryAcquireOrRenew says. */
  lemma TickIsDivided(cfg: Config, w: World, p: string, now: real, weather: Weather, w2: World, delivery: Delivery)
    requires w.pods.Keys == cfg.settings.Keys && Enabled(cfg, w, StartTick(p, now))
    requires delivery == DeliveryOf(weather.fate)
    requires var w1 := Apply(cfg, Apply(cfg, w, StartTick(p, now)), Read(p, !weather.getFails));
             // the others act between the read and the write
             && w2.pods.Keys == w.pods.Keys && w2.pods[p] == w1.pods[p]
             && w2.log == (if w1.pods[p].pc.Writing? then CommitOthers(w.log, weather.others) else w.log)
    ensures var r := Tick(cfg.settings[p], w.pods[p].elector, now, w.log, weather);
            var w3 := if w2.pods[p].pc.Writing? then Apply(cfg, w2, Write(p, delivery)) else w2;
            w3.pods[p].elector == r.elector && w3.log == r.log
  {
  }
}

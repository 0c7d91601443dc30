/**
 Leader election over one versioned Lease record.

 The first half is the specification: what the store does with a request, what
 one elector tick decides, and how the elector's own flag and callbacks move.
 The second half is the code's form: the in-memory store and the elector as
 classes whose methods are proved to compute exactly that specification.

 A store is described by the sequence of records it has committed so far. The
 current record is the last one and its resource version is its position.
 */
module Lease {
  import opened Prelude

  // ---- Records and the store ------------------------------------------------

  /** Version 0 stands for a record that was never stored. Times are seconds. */
  datatype LeaseRecord = LeaseRecord(
    holder: string,
    duration: real,
    acquireTime: real,
    renewTime: real,
    transitions: int,
    version: nat)
  {
    predicate IsExpired(now: real) {
      now - renewTime > duration
    }
  }

  datatype Request = Create(record: LeaseRecord) | Update(record: LeaseRecord)

  type Log = seq<LeaseRecord>

  function Current(log: Log): Option<LeaseRecord> {
    if log == [] then None else Some(log[|log| - 1])
  }

  ghost predicate Versioned(log: Log) {
    forall i :: 0 <= i < |log| ==> log[i].version == i + 1
  }

  /** The log after a request is granted; None is a conflict. */
  function Commit(log: Log, request: Request): Option<Log> {
    match request
    case Create(r) =>
      if log != [] then None else Some([r.(version := 1)])
    case Update(r) =>
      if log == [] || r.version != log[|log| - 1].version then None
      else Some(log + [r.(version := |log| + 1)])
  }

  /** Compare-and-swap: equal versions mean equal records, so a granted update
      was computed from exactly the record it replaces. */
  lemma GrantedUpdateReplacesWhatItRead(log: Log, read: LeaseRecord, next: LeaseRecord)
    requires Versioned(log) && read in log
    requires next.version == read.version
    ensures Commit(log, Update(next)).Some? <==> Current(log) == Some(read)
    ensures Commit(log, Update(next)).Some? ==>
              var log' := Commit(log, Update(next)).value;
              Versioned(log') && log < log' && |log'| == |log| + 1
              && log'[|log|] == next.(version := |log| + 1)
  {
    var i :| 0 <= i < |log| && log[i] == read;
    assert log[i].version == i + 1;
    assert log[|log| - 1].version == |log|;
  }

  /** However many requests were prepared from the same observation, the store
      grants at most one of them. */
  lemma RaceHasOneWinner(log: Log, winner: Request, loser: Request, later: Log)
    requires Versioned(log)
    requires Commit(log, winner).Some? && Commit(log, loser).Some?
    requires Versioned(later) && Commit(log, winner).value <= later
    ensures Commit(later, loser) == None
  {
    var log' := Commit(log, winner).value;
    assert |later| >= |log| + 1;
    assert later[|later| - 1].version == |later|;
    if loser.Update? {
      assert log[|log| - 1].version == |log|;
    }
  }

  // ---- One elector ----------------------------------------------------------

  datatype Settings = Settings(identity: string, duration: real, renewDeadline: real, retryPeriod: real)

  datatype Callback = StartedLeading | StoppedLeading

  datatype Attempt = Acquired | Renewed | HeldByOther | Failed

  /** The elector's fields, and the callbacks it has fired so far. */
  datatype Elector = Elector(isLeader: bool, lastRenew: real, calls: seq<Callback>)

  const FRESH_ELECTOR := Elector(false, 0.0, [])

  datatype Decision = Standby | Send(request: Request, acquired: bool)

  /** What a tick does about the record it read at clock reading `now`. */
  function Decide(me: Settings, now: real, observed: Option<LeaseRecord>): Decision {
    match observed
    case None =>
      Send(Create(LeaseRecord(me.identity, me.duration, now, now, 0, 0)), true)
    case Some(o) =>
      if o.holder != me.identity && !o.IsExpired(now) then Standby
      else
        var candidate := o.(holder := me.identity, duration := me.duration, renewTime := now);
        if o.holder == me.identity then Send(Update(candidate), false)
        else Send(Update(candidate.(acquireTime := now, transitions := o.transitions + 1)), true)
  }

  function MarkLeader(e: Elector, now: real): Elector {
    Elector(true, now, if e.isLeader then e.calls else e.calls + [StartedLeading])
  }

  function LeaderAttempt(e: Elector, acquired: bool): Attempt {
    if acquired || !e.isLeader then Acquired else Renewed
  }

  function StepDown(e: Elector): Elector {
    if e.isLeader then e.(isLeader := false, calls := e.calls + [StoppedLeading]) else e
  }

  // ---- One tick against a failing, shared store -------------------------------

  /** Fate of a write: answered, lost before it commits, or committed while the
      caller is told it failed. */
  datatype Fate = Answered | Lost | CommittedUnreported

  /** What happens around one tick: whether its read fails, which records other
      pods commit between its read and its write, and the fate of the write. */
  datatype Weather = Weather(getFails: bool, others: seq<LeaseRecord>, fate: Fate)

  function CommitOthers(log: Log, others: seq<LeaseRecord>): (after: Log)
    ensures log <= after && |after| == |log| + |others|
    ensures Versioned(log) ==> Versioned(after)
    decreases |others|
  {
    if others == [] then log
    else CommitOthers(log + [others[0].(version := |log| + 1)], others[1..])
  }

  datatype TickResult = TickResult(elector: Elector, log: Log, attempt: Attempt)

  function Put(e: Elector, now: real, log: Log, request: Request, acquired: bool, fate: Fate): TickResult {
    var granted := Commit(log, request);
    if fate == Lost || granted == None then TickResult(e, log, Failed)
    else if fate == CommittedUnreported then TickResult(e, granted.value, Failed)
    else TickResult(MarkLeader(e, now), granted.value, LeaderAttempt(e, acquired))
  }

  function Tick(me: Settings, e: Elector, now: real, log: Log, w: Weather): TickResult {
    if w.getFails then TickResult(e, log, Failed)
    else
      match Decide(me, now, Current(log))
      case Standby => TickResult(StepDown(e), log, HeldByOther)
      case Send(request, acquired) => Put(e, now, CommitOthers(log, w.others), request, acquired, w.fate)
  }

  /** What each outcome says about the flag, on every tick: a failed tick moves
      nothing, a refusal always leaves the pod a standby, and only a pod that was
      already leading is told it renewed, whatever landed unreported before. */
  lemma AttemptMeaning(me: Settings, e: Elector, now: real, log: Log, w: Weather)
    ensures var r := Tick(me, e, now, log, w);
            && (r.attempt == Failed ==> r.elector == e)
            && (r.attempt == HeldByOther ==> !r.elector.isLeader && r.log == log)
            && (r.attempt == Renewed ==> e.isLeader)
            && (r.attempt in {Acquired, Renewed} <==>
                  r.elector.isLeader && r.elector.lastRenew == now && r.log != log && r.attempt != Failed)
            && (r.attempt in {Acquired, Renewed} ==>
                  var rec := r.log[|r.log| - 1];
                  rec.holder == me.identity && rec.renewTime == now && rec.duration == me.duration)
  {
    if !w.getFails {
      var d := Decide(me, now, Current(log));
      if d.Send? {
        var mid := CommitOthers(log, w.others);
        assert |mid| >= |log|;
      }
    }
  }

  /** Another pod holds the record and it has not expired. */
  predicate HeldByAnother(me: Settings, now: real, log: Log) {
    log != [] && log[|log| - 1].holder != me.identity && now - log[|log| - 1].renewTime <= log[|log| - 1].duration
  }

  /** The record on top is the pod's own, renewed at this reading. */
  predicate OwnRecordOnTop(me: Settings, at: real, log: Log) {
    log != [] && log[|log| - 1].holder == me.identity && log[|log| - 1].renewTime == at
  }

  /** The record a tick leaves on top when its write goes in: a renewal keeps the
      acquisition time and the count, a takeover begins a tenure and counts it, and the
      first record starts both. */
  function TopAfter(me: Settings, now: real, log: Log): LeaseRecord {
    if log == [] then LeaseRecord(me.identity, me.duration, now, now, 0, 1)
    else
      var last := log[|log| - 1];
      if last.holder == me.identity
      then LeaseRecord(me.identity, me.duration, last.acquireTime, now, last.transitions, |log| + 1)
      else LeaseRecord(me.identity, me.duration, now, now, last.transitions + 1, |log| + 1)
  }

  /** What a tick comes to, told by its circumstances. It is refused if it reads a valid
      record of another pod. Otherwise its write goes in if nobody writes in between and
      it is not lost on the way, and then it has renewed if it led and read its own
      record, and acquired if not; unless the news of the write is lost. Nothing else
      moves the flag, the callbacks or, of its own doing, the store. */
  function Outcome(me: Settings, e: Elector, now: real, log: Log, w: Weather): TickResult {
    if w.getFails then TickResult(e, log, Failed)
    else if HeldByAnother(me, now, log) then
      TickResult(Elector(false, e.lastRenew, e.calls + (if e.isLeader then [StoppedLeading] else [])), log, HeldByOther)
    else if w.others != [] then TickResult(e, CommitOthers(log, w.others), Failed)
    else if w.fate == Lost then TickResult(e, log, Failed)
    else if w.fate == CommittedUnreported then TickResult(e, log + [TopAfter(me, now, log)], Failed)
    else TickResult(Elector(true, now, e.calls + (if e.isLeader then [] else [StartedLeading])),
                    log + [TopAfter(me, now, log)],
                    if e.isLeader && log != [] && log[|log| - 1].holder == me.identity then Renewed else Acquired)
  }

  /** Compare-and-swap at work: the tick decides on what it read and writes under a
      version, and comes to exactly that. */
  lemma TickComesToItsOutcome(me: Settings, e: Elector, now: real, log: Log, w: Weather)
    requires Versioned(log)
    ensures Tick(me, e, now, log, w) == Outcome(me, e, now, log, w)
  {
    if !w.getFails && !HeldByAnother(me, now, log) {
      if w.others == [] {
        UndisturbedWriteLands(me, now, log);
      } else {
        OthersConflict(me, now, log, w.others);
      }
    }
  }

  lemma UndisturbedWriteLands(me: Settings, now: real, log: Log)
    requires Versioned(log) && !HeldByAnother(me, now, log)
    ensures var d := Decide(me, now, Current(log));
            && d.Send? && Commit(log, d.request) == Some(log + [TopAfter(me, now, log)])
            && (d.acquired <==> log == [] || log[|log| - 1].holder != me.identity)
  {
    assert log != [] ==> log[|log| - 1].version == |log|;
    assert log == [] ==> log + [TopAfter(me, now, log)] == [TopAfter(me, now, log)];
  }

  lemma OthersConflict(me: Settings, now: real, log: Log, others: seq<LeaseRecord>)
    requires Versioned(log) && !HeldByAnother(me, now, log) && others != []
    ensures var d := Decide(me, now, Current(log));
            d.Send? && Commit(CommitOthers(log, others), d.request) == None
  {
    var mid := CommitOthers(log, others);
    assert log != [] ==> log[|log| - 1].version == |log|;
    assert mid[|mid| - 1].version == |mid|;
  }

  // ---- The loops, pass by pass ---------------------------------------------------------

  /** One pass of either loop: what other pods commit while it waits, its tick, and the
      clock that a failed tick of the renew loop looks at again. */
  datatype Pass = Pass(waited: seq<LeaseRecord>, now: real, weather: Weather, checkNow: real)

  function AfterPass(me: Settings, e: Elector, log: Log, p: Pass): TickResult {
    Tick(me, e, p.now, CommitOthers(log, p.waited), p.weather)
  }

  /** The elector, the store and the attempt after each pass, a tick in every one. */
  ghost predicate IsTrace(me: Settings, trace: seq<TickResult>, passes: seq<Pass>) {
    && 0 < |trace| <= |passes| + 1
    && forall k :: 0 <= k < |trace| - 1 ==> IsPass(me, trace, passes, k)
  }

  ghost predicate IsPass(me: Settings, trace: seq<TickResult>, passes: seq<Pass>, k: nat)
    requires k < |passes| && k + 1 < |trace|
  {
    trace[k + 1] == AfterPass(me, trace[k].elector, trace[k].log, passes[k])
  }

  predicate Succeeded(a: Attempt) {
    a == Acquired || a == Renewed
  }

  /** The renew loop goes on: the tick succeeded, or failed within the deadline. */
  predicate Survives(me: Settings, r: TickResult, p: Pass) {
    Succeeded(r.attempt) || (r.attempt == Failed && p.checkNow - r.elector.lastRenew <= me.renewDeadline)
  }

  /** What a pass says about the elector and the record on top. */
  lemma PassMeaning(me: Settings, e: Elector, log: Log, p: Pass)
    ensures var r' := AfterPass(me, e, log, p);
            && (r'.attempt == Failed ==> r'.elector == e)
            && (r'.attempt == HeldByOther ==>
                  r'.elector == StepDown(e) && HeldByAnother(me, p.now, r'.log))
            && (Succeeded(r'.attempt) ==>
                  r'.elector == MarkLeader(e, p.now) && OwnRecordOnTop(me, p.now, r'.log))
  {
    AttemptMeaning(me, e, p.now, CommitOthers(log, p.waited), p.weather);
  }

  function NextResult(me: Settings, trace: seq<TickResult>, passes: seq<Pass>): TickResult
    requires 0 < |trace| <= |passes|
  {
    var last := trace[|trace| - 1];
    AfterPass(me, last.elector, last.log, passes[|trace| - 1])
  }

  lemma OneMorePass(me: Settings, trace: seq<TickResult>, passes: seq<Pass>)
    requires IsTrace(me, trace, passes) && |trace| <= |passes|
    ensures IsTrace(me, trace + [NextResult(me, trace, passes)], passes)
  {
    var trace' := trace + [NextResult(me, trace, passes)];
    forall k: nat | k < |trace'| - 1
      ensures IsPass(me, trace', passes, k)
    {
      assert k < |trace| - 1 ==> IsPass(me, trace, passes, k);
    }
  }

  /** While no tick succeeds a standby stays what it was. */
  lemma {:induction false} FruitlessTrace(me: Settings, trace: seq<TickResult>, passes: seq<Pass>, n: nat)
    requires IsTrace(me, trace, passes) && n < |trace| && !trace[0].elector.isLeader
    requires forall k :: 0 < k <= n ==> !Succeeded(trace[k].attempt)
    ensures trace[n].elector == trace[0].elector
    decreases n
  {
    if n > 0 {
      FruitlessTrace(me, trace, passes, n - 1);
      assert IsPass(me, trace, passes, n - 1);
      PassMeaning(me, trace[n - 1].elector, trace[n - 1].log, passes[n - 1]);
    }
  }

  /** The first tick that succeeds makes a standby lead, by its own record. */
  lemma FirstSuccess(me: Settings, trace: seq<TickResult>, passes: seq<Pass>)
    requires IsTrace(me, trace, passes) && |trace| > 1 && !trace[0].elector.isLeader
    requires forall k :: 0 < k < |trace| - 1 ==> !Succeeded(trace[k].attempt)
    requires Succeeded(trace[|trace| - 1].attempt)
    ensures var r := trace[|trace| - 1];
            && r.elector.isLeader && r.elector.lastRenew == passes[|trace| - 2].now
            && r.elector.calls == trace[0].elector.calls + [StartedLeading]
            && OwnRecordOnTop(me, r.elector.lastRenew, r.log)
  {
    var n := |trace| - 1;
    FruitlessTrace(me, trace, passes, n - 1);
    assert IsPass(me, trace, passes, n - 1);
    PassMeaning(me, trace[n - 1].elector, trace[n - 1].log, passes[n - 1]);
  }

  /** While every pass survives a leader goes on leading, with no callback, and its last
      success is either the last tick or at most one deadline old. */
  lemma {:induction false} SurvivingTrace(me: Settings, trace: seq<TickResult>, passes: seq<Pass>, n: nat)
    requires IsTrace(me, trace, passes) && n < |trace| && trace[0].elector.isLeader
    requires forall k :: 0 < k <= n ==> Survives(me, trace[k], passes[k - 1])
    ensures trace[n].elector.isLeader && trace[n].elector.calls == trace[0].elector.calls
    ensures n > 0 ==>
              || trace[n].elector.lastRenew == passes[n - 1].now
              || passes[n - 1].checkNow - trace[n].elector.lastRenew <= me.renewDeadline
    decreases n
  {
    if n > 0 {
      SurvivingTrace(me, trace, passes, n - 1);
      assert IsPass(me, trace, passes, n - 1);
      PassMeaning(me, trace[n - 1].elector, trace[n - 1].log, passes[n - 1]);
    }
  }

  /** The pass in which a leader may stop surviving. */
  lemma LastPass(me: Settings, trace: seq<TickResult>, passes: seq<Pass>)
    requires IsTrace(me, trace, passes) && |trace| > 1 && trace[0].elector.isLeader
    requires forall k :: 0 < k < |trace| - 1 ==> Survives(me, trace[k], passes[k - 1])
    ensures var n := |trace| - 1;
            var e := trace[n].elector;
            && (trace[n].attempt == Failed ==> e.isLeader && e.calls == trace[0].elector.calls)
            && (trace[n].attempt == HeldByOther ==>
                  && !e.isLeader && e.calls == trace[0].elector.calls + [StoppedLeading]
                  && HeldByAnother(me, passes[n - 1].now, trace[n].log))
  {
    var n := |trace| - 1;
    SurvivingTrace(me, trace, passes, n - 1);
    assert IsPass(me, trace, passes, n - 1);
    PassMeaning(me, trace[n - 1].elector, trace[n - 1].log, passes[n - 1]);
  }

  // ---- Callbacks over every history of one elector ------------------------------

  /** Everything that ever touches an elector: a tick, or the renew deadline. */
  datatype ElectorEvent = TickEvent(now: real, log: Log, weather: Weather) | DeadlineEvent

  function React(me: Settings, e: Elector, ev: ElectorEvent): Elector {
    match ev
    case TickEvent(now, log, w) => Tick(me, e, now, log, w).elector
    case DeadlineEvent => StepDown(e)
  }

  function ReactAll(me: Settings, e: Elector, evs: seq<ElectorEvent>): Elector
    decreases |evs|
  {
    if evs == [] then e else ReactAll(me, React(me, e, evs[0]), evs[1..])
  }

  ghost predicate Alternating(e: Elector) {
    && (forall i :: 0 <= i < |e.calls| ==> e.calls[i] == (if i % 2 == 0 then StartedLeading else StoppedLeading))
    && (e.isLeader <==> |e.calls| % 2 == 1)
  }

  /** Over every history the callbacks strictly alternate, beginning with a
      start, and the flag is set exactly between a start and its stop. */
  lemma {:induction false} CallbacksAlternate(me: Settings, e: Elector, evs: seq<ElectorEvent>)
    requires Alternating(e)
    ensures Alternating(ReactAll(me, e, evs))
    decreases |evs|
  {
    if evs != [] {
      CallbacksAlternate(me, React(me, e, evs[0]), evs[1..]);
    }
  }

  // ---- The same things as the code has them -------------------------------------

  /** The in-memory store: a record, a counter, and (ghost) all it committed. */
  class InMemoryLeaseBackend {
    var record: Option<LeaseRecord>
    var version: nat
    ghost var log: Log

    ghost predicate Valid()
      reads this
    {
      version == |log| && record == Current(log) && Versioned(log)
    }

    constructor ()
      ensures Valid() && log == []
    {
      record, version, log := None, 0, [];
    }

    method Get() returns (r: Option<LeaseRecord>)
      requires Valid()
      ensures r == Current(log)
    {
      r := record;
    }

    method Create(r: LeaseRecord) returns (ok: bool)
      requires Valid()
      modifies this
      ensures Valid()
      ensures ok <==> old(log) == []
      ensures ok ==> Commit(old(log), Request.Create(r)) == Some(log)
      ensures !ok ==> Commit(old(log), Request.Create(r)) == None && log == old(log)
    {
      if record != None {
        return false;
      }
      Store(r);
      assert log == [r.(version := 1)];
      ok := true;
    }

    method Update(r: LeaseRecord) returns (ok: bool)
      requires Valid()
      modifies this
      ensures Valid()
      ensures ok <==> old(log) != [] && r.version == |old(log)|
      ensures ok ==> Commit(old(log), Request.Update(r)) == Some(log)
      ensures !ok ==> Commit(old(log), Request.Update(r)) == None && log == old(log)
    {
      if record == None || r.version != record.value.version {
        return false;
      }
      Store(r);
      ok := true;
    }

    method Store(r: LeaseRecord)
      requires Valid()
      modifies this
      ensures Valid() && log == old(log) + [r.(version := |old(log)| + 1)]
    {
      version := version + 1;
      record := Some(r.(version := version));
      log := log + [record.value];
    }

    /** Other pods committing, in order, between two calls of this one. */
    method StoreAll(others: seq<LeaseRecord>)
      requires Valid()
      modifies this
      ensures Valid() && log == CommitOthers(old(log), others)
    {
      for i := 0 to |others|
        invariant Valid()
        invariant CommitOthers(log, others[i..]) == CommitOthers(old(log), others)
      {
        assert others[i..][0] == others[i] && others[i..][1..] == others[i + 1..];
        Store(others[i]);
      }
    }
  }

  datatype Ending = Stopped | LostToOther | DeadlinePassed

  class LeaderElector {
    const backend: InMemoryLeaseBackend
    const me: Settings
    var isLeader: bool
    var lastRenew: real
    var calls: seq<Callback>

    ghost function State(): Elector
      reads this
    {
      Elector(isLeader, lastRenew, calls)
    }

    constructor (backend: InMemoryLeaseBackend, me: Settings)
      ensures this.backend == backend && this.me == me && State() == FRESH_ELECTOR
    {
      this.backend, this.me := backend, me;
      isLeader, lastRenew, calls := false, 0.0, [];
    }

    /** A single tick: create, take over or renew. */
    method TryAcquireOrRenew(now: real, w: Weather) returns (attempt: Attempt)
      requires backend.Valid()
      modifies this, backend
      ensures backend.Valid()
      ensures TickResult(State(), backend.log, attempt) == Tick(me, old(State()), now, old(backend.log), w)
    {
      if w.getFails {
        return Failed;
      }
      var observed := backend.Get();
      if observed == None {
        var record := LeaseRecord(me.identity, me.duration, now, now, 0, 0);
        backend.StoreAll(w.others);
        if w.fate == Lost {
          return Failed;
        }
        var ok := backend.Create(record);
        if !ok || w.fate == CommittedUnreported {
          return Failed;
        }
        attempt := BecomeLeader(now, true);
        return;
      }
      var heldByUs := observed.value.holder == me.identity;
      if !heldByUs && !observed.value.IsExpired(now) {
        attempt := BecomeStandby();
        return;
      }
      var candidate := observed.value.(holder := me.identity, duration := me.duration, renewTime := now);
      if !heldByUs {
        candidate := candidate.(acquireTime := now, transitions := observed.value.transitions + 1);
      }
      backend.StoreAll(w.others);
      if w.fate == Lost {
        return Failed;
      }
      var ok := backend.Update(candidate);
      if !ok || w.fate == CommittedUnreported {
        return Failed;
      }
      attempt := BecomeLeader(now, !heldByUs);
    }

    method BecomeLeader(now: real, acquired: bool) returns (attempt: Attempt)
      modifies this
      ensures State() == MarkLeader(old(State()), now)
      ensures attempt == LeaderAttempt(old(State()), acquired)
    {
      lastRenew := now;
      var wasLeader := isLeader;
      isLeader := true;
      if !wasLeader {
        calls := calls + [StartedLeading];
      }
      attempt := if acquired || !wasLeader then Acquired else Renewed;
    }

    method BecomeStandby() returns (attempt: Attempt)
      modifies this
      ensures State() == StepDown(old(State())) && attempt == HeldByOther
    {
      if isLeader {
        isLeader := false;
        calls := calls + [StoppedLeading];
      }
      attempt := HeldByOther;
    }

    method ExpireSelf()
      modifies this
      ensures State() == StepDown(old(State()))
    {
      if isLeader {
        isLeader := false;
        calls := calls + [StoppedLeading];
      }
    }

    /** The tick of one pass, after whatever the others did during its wait. */
    method TickInPass(p: Pass) returns (attempt: Attempt)
      requires backend.Valid()
      modifies this, backend
      ensures backend.Valid() && old(backend.log) <= backend.log
      ensures TickResult(State(), backend.log, attempt) == AfterPass(me, old(State()), old(backend.log), p)
    {
      backend.StoreAll(p.waited);
      attempt := TryAcquireOrRenew(p.now, p.weather);
    }

    /** The standby loop; the stop event is set after the last pass given. It ticks in
        every pass, from the store the last pass and the others left, and comes back
        leading with the first tick that succeeds and only then, its own record, stamped
        with that tick's reading, on top of the store. (A write that lands unreported
        puts it there too, and the loop goes on.) */
    method Acquire(passes: seq<Pass>) returns (led: bool, used: nat, ghost trace: seq<TickResult>)
      requires backend.Valid() && !isLeader
      modifies this, backend
      ensures backend.Valid() && old(backend.log) <= backend.log
      ensures used <= |passes| && led == isLeader
      ensures IsTrace(me, trace, passes) && |trace| == used + 1
      ensures trace[0] == old(TickResult(State(), backend.log, Failed))
      ensures State() == trace[used].elector && backend.log == trace[used].log
      ensures forall k :: 0 < k < used ==> !Succeeded(trace[k].attempt)
      ensures led <==> Succeeded(trace[used].attempt)
      ensures !led ==> used == |passes| && State() == old(State())
      ensures led ==>
                && 0 < used && lastRenew == passes[used - 1].now
                && calls == old(calls) + [StartedLeading]
                && OwnRecordOnTop(me, lastRenew, backend.log)
    {
      trace := [TickResult(State(), backend.log, Failed)];
      used := 0;
      while used < |passes|
        invariant used <= |passes| && backend.Valid() && old(backend.log) <= backend.log
        invariant IsTrace(me, trace, passes) && |trace| == used + 1
        invariant trace[0] == old(TickResult(State(), backend.log, Failed))
        invariant State() == trace[used].elector && backend.log == trace[used].log
        invariant forall k :: 0 <= k <= used ==> !Succeeded(trace[k].attempt)
      {
        OneMorePass(me, trace, passes);
        trace := trace + [NextResult(me, trace, passes)];
        var attempt := TickInPass(passes[used]);
        used := used + 1;
        if attempt == Acquired || attempt == Renewed {
          FirstSuccess(me, trace, passes);
          return true, used, trace;
        }
      }
      FruitlessTrace(me, trace, passes, used);
      led := false;
    }

    /** The renew loop. It ticks in every pass and goes on exactly while the tick succeeds,
        or fails with the deadline not yet passed. It gives up the flag on a definitive
        loss or when a failed tick finds the deadline passed, and on no other path. */
    method RenewUntilLost(passes: seq<Pass>) returns (why: Ending, used: nat, ghost trace: seq<TickResult>)
      requires backend.Valid() && isLeader
      modifies this, backend
      ensures backend.Valid() && old(backend.log) <= backend.log
      ensures used <= |passes|
      ensures IsTrace(me, trace, passes) && |trace| == used + 1
      ensures trace[0] == old(TickResult(State(), backend.log, Failed))
      ensures backend.log == trace[used].log
      ensures State() == if why == DeadlinePassed then StepDown(trace[used].elector) else trace[used].elector
      ensures forall k :: 0 < k < used ==> Survives(me, trace[k], passes[k - 1])
      ensures why == Stopped && used > 0 ==> Survives(me, trace[used], passes[used - 1])
      ensures why == LostToOther ==> trace[used].attempt == HeldByOther
      ensures why == DeadlinePassed ==> trace[used].attempt == Failed
      ensures isLeader <==> why == Stopped
      ensures why == Stopped ==> used == |passes| && calls == old(calls)
      ensures why != Stopped ==> 0 < used && calls == old(calls) + [StoppedLeading]
      ensures why == DeadlinePassed ==> passes[used - 1].checkNow - lastRenew > me.renewDeadline
      ensures why == Stopped && used > 0 ==>
                lastRenew == passes[used - 1].now || passes[used - 1].checkNow - lastRenew <= me.renewDeadline
      ensures why == LostToOther ==> HeldByAnother(me, passes[used - 1].now, backend.log)
    {
      trace := [TickResult(State(), backend.log, Failed)];
      used := 0;
      while used < |passes|
        invariant used <= |passes| && backend.Valid() && old(backend.log) <= backend.log
        invariant IsTrace(me, trace, passes) && |trace| == used + 1
        invariant trace[0] == old(TickResult(State(), backend.log, Failed))
        invariant State() == trace[used].elector && backend.log == trace[used].log
        invariant forall k :: 0 < k <= used ==> Survives(me, trace[k], passes[k - 1])
      {
        OneMorePass(me, trace, passes);
        trace := trace + [NextResult(me, trace, passes)];
        var p := passes[used];
        var attempt := TickInPass(p);
        used := used + 1;
        if attempt == HeldByOther {
          LastPass(me, trace, passes);
          return LostToOther, used, trace;
        }
        if attempt == Failed && p.checkNow - lastRenew > me.renewDeadline {
          LastPass(me, trace, passes);
          ExpireSelf();
          return DeadlinePassed, used, trace;
        }
      }
      SurvivingTrace(me, trace, passes, used);
      why := Stopped;
    }
  }
}

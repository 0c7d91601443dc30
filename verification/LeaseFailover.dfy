/**
 Bounded failover: once the holder writes no more and the store answers, a prompt
 standby leads within a computable time of the expiry of the last record.
 */
module LeaseFailover {
  import opened Prelude
  import opened Lease
  import opened LeaseProtocol
  import opened LeaseExclusion

  /** A step in which `h` writes nothing, the store answers `p`, and no write lands
      that was reported failed. `h` may die, freeze or be cut off from the store,
      and the other pods' reads and writes may fail too. */
  ghost predicate Healthy(a: Action, h: string, p: string) {
    match a
    case Read(q, ok) => q == p ==> ok
    case Write(q, delivery) =>
      delivery != CommittedSilently && (q == h ==> delivery != Replied) && (q == p ==> delivery == Replied)
    case Land(_) => false
    case _ => true
  }

  /** The standby `p` is neither asked to stop nor killed. It wakes no later than its
      retry period after it last went to sleep, and no tick of its takes longer than
      L. Nothing is asked of the other pods' timing. */
  ghost predicate Prompt(w: World, a: Action, p: string) {
    && a != RequestStop(p) && a != Crash(p)
    && (p in w.pods && (w.pods[p].phase == Standing || Bound(w.pods[p])) ==> w.time <= w.pods[p].due)
  }

  ghost predicate IsQuietRun(cfg: Config, w: World, run: seq<Action>, h: string, p: string)
    requires w.pods.Keys == cfg.settings.Keys
    decreases |run|
  {
    && Prompt(w, Advance(w.time), p)
    && (run != [] ==>
          && Enabled(cfg, w, run[0]) && ReadsAreNear(cfg, w, run[0])
          && Healthy(run[0], h, p) && Prompt(w, run[0], p)
          && IsQuietRun(cfg, Apply(cfg, w, run[0]), run[1..], h, p))
  }

  lemma {:induction false} QuietRunIsRun(cfg: Config, w: World, run: seq<Action>, h: string, p: string)
    requires w.pods.Keys == cfg.settings.Keys && IsQuietRun(cfg, w, run, h, p)
    ensures IsRun(cfg, w, run)
    decreases |run|
  {
    if run != [] {
      QuietRunIsRun(cfg, Apply(cfg, w, run[0]), run[1..], h, p);
    }
  }

  /** The standby's situation when the wait for the takeover begins. */
  ghost predicate WaitStarts(cfg: Config, w: World, p: string, held: LeaseRecord)
    requires p in cfg.settings
  {
    && Current(w.log) == Some(held) && held.holder != p
    && p in w.pods && w.pods[p].phase == Standing && !w.pods[p].stop
    && w.pods[p].due <= w.time + (if w.pods[p].pc == Idle then cfg.settings[p].retryPeriod else cfg.tickBound)
  }

  /** By true time x every clock reads past the record's expiry. */
  function ExpiryTime(cfg: Config, held: LeaseRecord, start: real): (x: real)
    ensures x >= start && x >= held.renewTime + held.duration + cfg.skew
  {
    if held.renewTime + held.duration + cfg.skew > start then held.renewTime + held.duration + cfg.skew else start
  }

  /** What is true of `p` while the record is still the old one: a tick that began
      after x is bound to find it expired and to be granted. */
  ghost predicate Approaching(cfg: Config, w: World, p: string, log: Log, x: real)
    requires log != [] && p in cfg.settings
  {
    var held := log[|log| - 1];
    var l := cfg.tickBound;
    var retry := cfg.settings[p].retryPeriod;
    && w.log == log && held.holder != p && p in w.pods
    && var pod := w.pods[p];
       && pod.phase == Standing && !pod.stop
       && pod.due <= x + retry + 2.0 * l
       && match pod.pc
          case Idle => pod.due <= x + l + retry
          case Reading => pod.due <= x + l || held.IsExpired(pod.clock)
          case Writing(request, _) =>
            pod.due <= x + l || (request.Update? && request.record.version == |log|)
          case Checking => false
  }

  lemma StepApproaches(cfg: Config, w: World, a: Action, p: string, h: string, log: Log, x: real)
    requires cfg.Ok() && Inv(cfg, w) && p != h && log != [] && p in cfg.settings
    requires x >= log[|log| - 1].renewTime + log[|log| - 1].duration + cfg.skew
    requires Approaching(cfg, w, p, log, x)
    requires Enabled(cfg, w, a) && ReadsAreNear(cfg, w, a) && Healthy(a, h, p) && Prompt(w, a, p)
    requires Apply(cfg, w, a).log == log
    ensures Approaching(cfg, Apply(cfg, w, a), p, log, x)
  {
    if Apply(cfg, w, a).pods[p] != w.pods[p] {
      OwnStepApproaches(cfg, w, a, p, h, log, x);
    }
  }

  /** The standby's own steps: it begins a tick, or reads, or is refused. */
  lemma OwnStepApproaches(cfg: Config, w: World, a: Action, p: string, h: string, log: Log, x: real)
    requires cfg.Ok() && Inv(cfg, w) && p != h && log != [] && p in cfg.settings
    requires x >= log[|log| - 1].renewTime + log[|log| - 1].duration + cfg.skew
    requires Approaching(cfg, w, p, log, x)
    requires Enabled(cfg, w, a) && ReadsAreNear(cfg, w, a) && Healthy(a, h, p) && Prompt(w, a, p)
    requires Apply(cfg, w, a).log == log && Apply(cfg, w, a).pods[p] != w.pods[p]
    ensures Approaching(cfg, Apply(cfg, w, a), p, log, x)
  {
    assert cfg.settings[p].identity == p;
    match a
    case Write(_, _) => RefusalApproaches(cfg, w, p, log, x);
    case Read(_, _) => assert log[|log| - 1].version == |log|;
    case _ =>
  }

  lemma RefusalApproaches(cfg: Config, w: World, p: string, log: Log, x: real)
    requires cfg.Ok() && Inv(cfg, w) && log != [] && p in cfg.settings && Approaching(cfg, w, p, log, x)
    requires w.pods[p].pc.Writing? && w.time <= w.pods[p].due && Apply(cfg, w, Write(p, Replied)).log == log
    ensures Approaching(cfg, Apply(cfg, w, Write(p, Replied)), p, log, x)
  {
    assert log[|log| - 1].version == |log|;
    assert Derived(cfg, w.log, p, w.pods[p].clock, w.pods[p].pc.request);
  }

  /** The first step that changes the record is somebody else's answered write,
      and its writer leads. */
  lemma TakeoverLeads(cfg: Config, w: World, a: Action, h: string, p: string)
    requires cfg.Ok() && Inv(cfg, w) && Enabled(cfg, w, a) && Healthy(a, h, p)
    requires Apply(cfg, w, a).log != w.log
    ensures a.Write? && a.p != h && a.p in w.pods
    ensures var w' := Apply(cfg, w, a);
            && w'.pods[a.p].elector.isLeader && w'.pods[a.p].phase == Leading
            && w'.log[|w'.log| - 1].holder == a.p && |w'.log| == |w.log| + 1
  {
    assert PodInv(cfg, w.log, a.p, w.pods[a.p]);
    CommitIsAtomic(cfg, w.log, a.p, w.pods[a.p].clock, w.pods[a.p].pc.request);
  }

  /** After the first `k` steps of the run `q` has just taken the record over. */
  ghost predicate TakenOver(cfg: Config, w: World, run: seq<Action>, h: string, k: nat, q: string) {
    && w.pods.Keys == cfg.settings.Keys && k <= |run| && IsRun(cfg, w, run[..k])
    && var s := After(cfg, w, run[..k]);
       && q != h && q in s.pods && s.pods[q].elector.isLeader
       && |s.log| == |w.log| + 1 && s.log[|w.log|].holder == q
  }

  /** One step of the wait: either the record is replaced or the wait goes on. */
  lemma WaitGoesOn(cfg: Config, w: World, run: seq<Action>, h: string, p: string, log: Log, x: real)
    requires cfg.Ok() && Inv(cfg, w) && p != h && log != [] && p in cfg.settings
    requires x >= log[|log| - 1].renewTime + log[|log| - 1].duration + cfg.skew
    requires Approaching(cfg, w, p, log, x) && IsQuietRun(cfg, w, run, h, p) && IsRun(cfg, w, run) && run != []
    ensures var w' := Apply(cfg, w, run[0]);
            && Inv(cfg, w') && IsRun(cfg, w', run[1..]) && After(cfg, w, run) == After(cfg, w', run[1..])
            && IsQuietRun(cfg, w', run[1..], h, p)
            && (w'.log == log ==> Approaching(cfg, w', p, log, x))
  {
    StepKeepsInv(cfg, w, run[0]);
    if Apply(cfg, w, run[0]).log == log {
      StepApproaches(cfg, w, run[0], p, h, log, x);
    }
  }

  lemma {:induction false} FailoverFrom(cfg: Config, w: World, run: seq<Action>, h: string, p: string,
        log: Log, x: real)
    returns (k: nat, q: string)
    requires cfg.Ok() && Inv(cfg, w) && p != h && log != [] && p in cfg.settings
    requires x >= log[|log| - 1].renewTime + log[|log| - 1].duration + cfg.skew
    requires Approaching(cfg, w, p, log, x)
    requires IsQuietRun(cfg, w, run, h, p) && IsRun(cfg, w, run)
    requires After(cfg, w, run).time > x + cfg.settings[p].retryPeriod + 2.0 * cfg.tickBound
    ensures TakenOver(cfg, w, run, h, k, q)
    decreases |run|
  {
    ApproachingIsEarly(cfg, w, p, log, x);
    WaitGoesOn(cfg, w, run, h, p, log, x);
    var w' := Apply(cfg, w, run[0]);
    if w'.log != log {
      k, q := 1, run[0].p;
      TakenOverNow(cfg, w, run, h, p);
    } else {
      k, q := FailoverFrom(cfg, w', run[1..], h, p, log, x);
      TakenOverLater(cfg, w, run, h, k, q);
      k := k + 1;
    }
  }

  lemma TakenOverNow(cfg: Config, w: World, run: seq<Action>, h: string, p: string)
    requires cfg.Ok() && Inv(cfg, w) && IsRun(cfg, w, run) && run != [] && Healthy(run[0], h, p)
    requires Apply(cfg, w, run[0]).log != w.log
    ensures run[0].Write? && TakenOver(cfg, w, run, h, 1, run[0].p)
  {
    TakeoverLeads(cfg, w, run[0], h, p);
    assert run[..1][1..] == [];
  }

  lemma ApproachingIsEarly(cfg: Config, w: World, p: string, log: Log, x: real)
    requires log != [] && p in cfg.settings && Approaching(cfg, w, p, log, x)
    requires Prompt(w, Advance(w.time), p)
    ensures w.time <= x + cfg.settings[p].retryPeriod + 2.0 * cfg.tickBound
  {
  }

  lemma TakenOverLater(cfg: Config, w: World, run: seq<Action>, h: string, j: nat, q: string)
    requires w.pods.Keys == cfg.settings.Keys && run != [] && Enabled(cfg, w, run[0])
    requires Apply(cfg, w, run[0]).log == w.log
    requires TakenOver(cfg, Apply(cfg, w, run[0]), run[1..], h, j, q)
    ensures TakenOver(cfg, w, run, h, j + 1, q)
  {
    assert run[..j + 1][1..] == run[1..][..j];
  }

  /** Bounded failover. Let h write no more from here on: it may die, freeze, be cut
      off or come back, at any time. If some other pod stands by, keeps to its retry
      period and its ticks to L, and is answered by the store, then by the time the
      record has expired on every clock plus one retry period plus two ticks, some
      pod other than h has taken the record over and leads: at once, with the very
      write that replaced it. */
  lemma BoundedFailover(cfg: Config, w: World, run: seq<Action>, h: string, p: string, held: LeaseRecord)
    returns (k: nat, q: string)
    requires cfg.Ok() && Inv(cfg, w) && p != h && p in cfg.settings && WaitStarts(cfg, w, p, held)
    requires IsQuietRun(cfg, w, run, h, p) && IsRun(cfg, w, run)
    requires After(cfg, w, run).time > ExpiryTime(cfg, held, w.time) + cfg.settings[p].retryPeriod + 2.0 * cfg.tickBound
    ensures TakenOver(cfg, w, run, h, k, q)
  {
    var x := ExpiryTime(cfg, held, w.time);
    assert PodInv(cfg, w.log, p, w.pods[p]);
    assert Approaching(cfg, w, p, w.log, x);
    k, q := FailoverFrom(cfg, w, run, h, p, w.log, x);
  }

  lemma SupersededIsRefused(cfg: Config, log: Log, p: string, request: Request, now: real, later: Log)
    requires p in cfg.settings && Derived(cfg, log, p, now, request)
    requires Versioned(later) && |log| < |later|
    ensures Commit(later, request) == None
  {
    assert later[|later| - 1].version == |later|;
  }

  lemma RefusedChangesNothing(cfg: Config, s: World, q: string, delivery: Delivery)
    requires s.pods.Keys == cfg.settings.Keys && q in s.pods && s.pods[q].pc.Writing?
    requires Commit(s.log, s.pods[q].pc.request) == None
    ensures var s' := Apply(cfg, s, Write(q, delivery));
            && s'.log == s.log
            && s'.pods[q].elector == s.pods[q].elector && s'.pods[q].phase == s.pods[q].phase
  {
  }

  /** Exactly one takeover of a record succeeds however many pods race for it: once
      another write has gone in, a pod that still has its own to send is refused
      whatever becomes of it, and stays what it was. */
  lemma OneTakeoverPerRecord(cfg: Config, w: World, run: seq<Action>, q: string, delivery: Delivery)
    requires cfg.Ok() && Inv(cfg, w) && IsRun(cfg, w, run) && q in w.pods && w.pods[q].pc.Writing?
    requires var s := After(cfg, w, run); |w.log| < |s.log| && s.pods[q].pc == w.pods[q].pc
    ensures var s := After(cfg, w, run);
            var s' := Apply(cfg, s, Write(q, delivery));
            && s'.log == s.log
            && s'.pods[q].elector == s.pods[q].elector && s'.pods[q].phase == s.pods[q].phase
  {
    var s := After(cfg, w, run);
    assert Commit(s.log, s.pods[q].pc.request) == None by {
      RunKeepsInv(cfg, w, run);
      assert PodInv(cfg, w.log, q, w.pods[q]);
      SupersededIsRefused(cfg, w.log, q, w.pods[q].pc.request, w.pods[q].clock, s.log);
    }
    RefusedChangesNothing(cfg, s, q, delivery);
  }
}

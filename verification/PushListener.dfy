/**
 The listener that turns notifications into syncs.

 It coalesces: a message only marks work as pending, and a sync starts once the
 last one is a second old. It re-subscribes after any error, and reads the
 snapshot once after subscribing and before listening.
 */
module PushListener {
  const MIN_SYNC_INTERVAL := 1.0

  datatype Phase = Down | Subscribed | Listening

  /** The listener and everything that has happened around it. `published` holds
      the times at which versions were announced, `queue` those delivered to the
      current subscription and not yet read, `received` those read so far; `syncs`
      holds the start of every sync, and `session` of those of this subscription. */
  datatype State = State(
    phase: Phase,
    pending: bool,
    lastSync: real,
    now: real,
    published: seq<real>,
    queue: seq<real>,
    received: seq<real>,
    syncs: seq<real>,
    session: seq<real>)

  /** Publish happens outside; the rest are the listener's own steps. A pass reads
      one message (or times out), then reads the clock to decide on a sync, and
      reads it again as the sync starts. A first sync reads it only when done. */
  datatype Event =
    | Publish(at: real)
    | Subscribe(at: real)
    | FirstSync(start: real, done: real)
    | Pass(message: bool, check: real, start: real)
    | Error(at: real)

  ghost predicate Possible(s: State, e: Event) {
    match e
    case Publish(at) => at >= s.now
    case Subscribe(at) => s.phase == Down && at >= s.now
    case FirstSync(start, done) => s.phase == Subscribed && s.now <= start <= done
    case Pass(message, check, start) =>
      s.phase == Listening && s.now <= check <= start && (message ==> s.queue != [])
    case Error(at) => at >= s.now
  }

  predicate SyncDue(s: State, message: bool, check: real) {
    (s.pending || message) && check - s.lastSync >= MIN_SYNC_INTERVAL
  }

  function Step(s: State, e: Event): State
    requires e.Pass? && e.message ==> s.queue != []
  {
    match e
    case Publish(at) =>
      s.(published := s.published + [at], now := at,
         queue := if s.phase == Down then s.queue else s.queue + [at])
    case Subscribe(at) => s.(phase := Subscribed, queue := [], session := [], now := at)
    case FirstSync(start, done) =>
      s.(phase := Listening, pending := false, lastSync := done, now := done,
         syncs := s.syncs + [start], session := s.session + [start])
    case Pass(message, check, start) =>
      var t := if message then s.(queue := s.queue[1..], received := s.received + [s.queue[0]], pending := true) else s;
      if SyncDue(s, message, check)
      then t.(pending := false, lastSync := start, now := start,
              syncs := s.syncs + [start], session := s.session + [start])
      else t.(now := check)
    case Error(at) => s.(phase := Down, queue := [], now := at)
  }

  ghost predicate IsHistory(s: State, events: seq<Event>)
    decreases |events|
  {
    events != [] ==> Possible(s, events[0]) && IsHistory(Step(s, events[0]), events[1..])
  }

  function Run(s: State, events: seq<Event>): State
    requires IsHistory(s, events)
    decreases |events|
  {
    if events == [] then s else Run(Step(s, events[0]), events[1..])
  }

  const FRESH := State(Down, false, 0.0, 0.0, [], [], [], [], [])

  // ---- No notification is lost -----------------------------------------------------

  /** The latest sync started no earlier than this. */
  ghost predicate Covered(s: State, at: real) {
    s.syncs != [] && at <= s.syncs[|s.syncs| - 1]
  }

  ghost predicate NothingLost(s: State) {
    && (forall p :: p in s.published || p in s.queue || p in s.received ==> p <= s.now)
    && (forall p :: p in s.received ==> Covered(s, p) || s.pending)
    && (s.phase == Listening ==>
          && s.session != [] && s.syncs != []
          && s.session[|s.session| - 1] == s.syncs[|s.syncs| - 1] <= s.lastSync <= s.now
          && (forall p :: p in s.published ==> Covered(s, p) || p in s.queue || s.pending))
  }

  lemma StepLosesNothing(s: State, e: Event)
    requires NothingLost(s) && Possible(s, e)
    ensures NothingLost(Step(s, e))
  {
    match e
    case Pass(message, check, start) =>
      if message {
        TakingKeepsMembers(s.queue, s.received);
      }
    case _ =>
  }

  /** Receiving moves a message from the channel to the received ones. */
  lemma TakingKeepsMembers(queue: seq<real>, received: seq<real>)
    requires queue != []
    ensures forall p :: p in queue || p in received <==> p in queue[1..] || p in received + [queue[0]]
    ensures forall p :: p in received + [queue[0]] <==> p in received || p == queue[0]
  {
    assert queue == [queue[0]] + queue[1..];
  }

  lemma {:induction false} RunLosesNothing(s: State, events: seq<Event>)
    requires NothingLost(s) && IsHistory(s, events)
    ensures NothingLost(Run(s, events))
    decreases |events|
  {
    if events != [] {
      StepLosesNothing(s, events[0]);
      RunLosesNothing(Step(s, events[0]), events[1..]);
    }
  }

  /** No lost notification. In every history and at every moment of it, down, while
      re-subscribing or listening: if nothing is pending, every message ever received
      predates the start of the latest sync. While it listens, moreover, every version
      ever announced, received or not, is covered by that sync, or waits in the
      channel, or is pending. */
  lemma NoLostNotification(events: seq<Event>)
    requires IsHistory(FRESH, events)
    ensures var s := Run(FRESH, events);
            && (!s.pending ==> forall p :: p in s.received ==> Covered(s, p))
            && (s.phase == Listening ==> forall p :: p in s.published ==> Covered(s, p) || p in s.queue || s.pending)
  {
    RunLosesNothing(FRESH, events);
  }

  // ---- A due sync happens -------------------------------------------------------------

  /** In every history, a pass that has work pending, or receives some, and reads its clock
      a second or more after the last sync, syncs: it leaves nothing pending, and everything
      received and everything announced but still in the channel is covered. One that
      reads it earlier leaves the work pending. */
  lemma DueSyncHappens(events: seq<Event>, message: bool, check: real, start: real)
    requires IsHistory(FRESH, events) && Possible(Run(FRESH, events), Pass(message, check, start))
    ensures var s := Run(FRESH, events);
            var t := Step(s, Pass(message, check, start));
            var due := (s.pending || message) && check - s.lastSync >= 1.0;
            && t.syncs == (if due then s.syncs + [start] else s.syncs)
            && (t.pending <==> (s.pending || message) && !due)
            && (check - s.lastSync >= 1.0 ==>
                  && !t.pending
                  && (forall p :: p in t.received ==> Covered(t, p))
                  && (forall p :: p in t.published ==> Covered(t, p) || p in t.queue))
  {
    RunLosesNothing(FRESH, events);
    StepLosesNothing(Run(FRESH, events), Pass(message, check, start));
  }

  /** The first sync of every subscription catches up: in every history it covers all that
      was ever announced before it, heard or not, and leaves nothing pending. */
  lemma SubscriptionCatchesUp(events: seq<Event>, start: real, done: real)
    requires IsHistory(FRESH, events) && Possible(Run(FRESH, events), FirstSync(start, done))
    ensures var t := Step(Run(FRESH, events), FirstSync(start, done));
            && t.phase == Listening && !t.pending
            && (forall p :: p in t.published || p in t.received ==> Covered(t, p))
  {
    RunLosesNothing(FRESH, events);
  }

  // ---- Syncs are spaced --------------------------------------------------------------

  ghost predicate Spaced(starts: seq<real>) {
    forall i {:trigger starts[i]} :: 0 < i < |starts| ==> starts[i] - starts[i - 1] >= MIN_SYNC_INTERVAL
  }

  /** In every history the syncs of one subscription start at least the minimum
      interval apart. */
  lemma {:induction false} SyncsAreSpaced(s: State, events: seq<Event>)
    requires NothingLost(s) && IsHistory(s, events) && Spaced(s.session)
    requires s.phase == Subscribed ==> s.session == []
    ensures Spaced(Run(s, events).session)
    decreases |events|
  {
    if events != [] {
      StepLosesNothing(s, events[0]);
      SyncsAreSpaced(Step(s, events[0]), events[1..]);
    }
  }

  // ---- The loop ------------------------------------------------------------------------

  datatype PassInput = PassInput(message: bool, check: real, start: real)

  /** The listener's two variables, and the trace of its state. */
  class Listener {
    var pending: bool
    var lastSync: real
    ghost var s: State

    ghost predicate Valid()
      reads this
    {
      NothingLost(s) && (s.phase == Listening ==> pending == s.pending && lastSync == s.lastSync)
    }

    constructor ()
      ensures Valid() && s == FRESH
    {
      pending, lastSync, s := false, 0.0, FRESH;
    }

    ghost method Happens(e: Event)
      requires Valid() && Possible(s, e) && (e.Publish? || e.Subscribe? || e.Error?)
      modifies this
      ensures Valid() && s == Step(old(s), e)
    {
      StepLosesNothing(s, e);
      s := Step(s, e);
    }

    /** One pass of the inner loop. */
    method OnePass(p: PassInput) returns (synced: bool)
      requires Valid() && Possible(s, Pass(p.message, p.check, p.start))
      modifies this
      ensures Valid() && s == Step(old(s), Pass(p.message, p.check, p.start)) && s.phase == Listening
      ensures synced <==> |s.syncs| == |old(s).syncs| + 1
      ensures old(s).phase == Listening ==>
                (synced <==> (old(s).pending || p.message) && p.check - old(s).lastSync >= 1.0)
      ensures synced ==> !pending && lastSync == p.start
      ensures !synced ==> p.message ==> pending
    {
      StepLosesNothing(s, Pass(p.message, p.check, p.start));
      s := Step(s, Pass(p.message, p.check, p.start));
      if p.message {
        pending := true;
      }
      synced := pending && p.check - lastSync >= MIN_SYNC_INTERVAL;
      if synced {
        pending := false;
        lastSync := p.start;
      }
    }

    /** One subscription: the first sync and then the inner loop, among whatever is
        published meanwhile, until an error ends it after the last event given. */
    method Session(start: real, done: real, events: seq<Event>)
      requires Valid() && Possible(s, FirstSync(start, done)) && s.session == []
      requires IsHistory(Step(s, FirstSync(start, done)), events)
      requires forall e :: e in events ==> e.Publish? || e.Pass?
      modifies this
      ensures Valid() && s == Run(Step(old(s), FirstSync(start, done)), events)
      ensures s.phase == Listening && Spaced(s.session)
      ensures !pending ==> forall p :: p in s.received ==> Covered(s, p)
    {
      StepLosesNothing(s, FirstSync(start, done));
      s := Step(s, FirstSync(start, done));
      pending, lastSync := false, done;
      ghost var first := s;
      for i := 0 to |events|
        invariant Valid() && s.phase == Listening
        invariant IsHistory(s, events[i..]) && Run(s, events[i..]) == Run(first, events)
      {
        assert events[i..][0] == events[i] && events[i..][1..] == events[i + 1..];
        if events[i].Publish? {
          Happens(events[i]);
        } else {
          var _ := OnePass(PassInput(events[i].message, events[i].check, events[i].start));
        }
      }
      SyncsAreSpaced(first, events);
    }
  }
}

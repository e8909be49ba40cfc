/** The pull audit: it replays a recorded trace with depth counters and shadow queues, and accepts exactly the
    traces that obey a law about the order of events. */
module PullAudit {
  import opened Domain
  import opened Sums
  import B = Balancers

  // What a trace says, event by event

  /** The items that a selector picks from the events, in order. */
  function Pick<T>(events: seq<PullEvent>, sel: PullEvent -> seq<T>): seq<T>
  {
    if events == [] then [] else Pick(events[..|events| - 1], sel) + sel(events[|events| - 1])
  }

  function EnqueuedBy(b: nat): PullEvent -> seq<nat>
  {
    (e: PullEvent) => if e.TaskEnqueued? && e.lb == b then [e.taskId] else []
  }

  function PulledFrom(b: nat): PullEvent -> seq<nat>
  {
    (e: PullEvent) => if e.PullFulfilled? && e.lb == b then [e.pulledId] else []
  }

  function QueuedAt(s: nat): PullEvent -> seq<(nat, nat)>
  {
    (e: PullEvent) => if e.IntentQueued? && e.server == s then [(e.sender, e.requestId)] else []
  }

  function DrainedAt(s: nat): PullEvent -> seq<(nat, nat)>
  {
    (e: PullEvent) => if e.IntentDrained? && e.server == s then [(e.sender, e.requestId)] else []
  }

  function Sends(): PullEvent -> seq<PullEvent> { (e: PullEvent) => if e.IntentSent? then [e] else [] }
  function Queues(): PullEvent -> seq<PullEvent> { (e: PullEvent) => if e.IntentQueued? then [e] else [] }
  function Drains(): PullEvent -> seq<PullEvent> { (e: PullEvent) => if e.IntentDrained? then [e] else [] }
  function Fulfils(): PullEvent -> seq<PullEvent> { (e: PullEvent) => if e.PullFulfilled? then [e] else [] }

  function Bag(s: seq<nat>): multiset<nat>
  {
    multiset(s)
  }

  lemma PickAppend<T>(events: seq<PullEvent>, e: PullEvent, sel: PullEvent -> seq<T>)
    ensures Pick(events + [e], sel) == Pick(events, sel) + sel(e)
  {
    assert (events + [e])[..|events|] == events;
  }

  lemma PickMultiset(events: seq<PullEvent>, e: PullEvent, sel: PullEvent -> seq<nat>)
    ensures Bag(Pick(events + [e], sel)) == Bag(Pick(events, sel)) + Bag(sel(e))
  {
    PickAppend(events, e, sel);
  }

  // The laws

  type Law = (seq<PullEvent>, PullEvent) -> bool

  /** Every event obeys the law, given the events before it. */
  ghost predicate Throughout(events: seq<PullEvent>, law: Law)
  {
    forall k :: 0 <= k < |events| ==> law(events[..k], events[k])
  }

  lemma ThroughoutPrefix(events: seq<PullEvent>, law: Law)
    requires events != [] && Throughout(events, law)
    ensures var n := |events| - 1; Throughout(events[..n], law) && law(events[..n], events[n])
  {
    var before := events[..|events| - 1];
    forall k | 0 <= k < |before| ensures law(before[..k], before[k]) {
      assert before[..k] == events[..k];
    }
  }

  lemma ThroughoutAppend(events: seq<PullEvent>, e: PullEvent, law: Law)
    requires Throughout(events, law) && law(events, e)
    ensures Throughout(events + [e], law)
  {
    var all := events + [e];
    forall k | 0 <= k < |all| ensures law(all[..k], all[k]) {
      assert all[..k] == events[..k];
      assert events[..|events|] == events;
    }
  }

  /** Queue lengths are what the earlier events say; an intent leaves a server only while a slot is unreserved, and
      only the oldest one that has not left yet. */
  ghost predicate Common(before: seq<PullEvent>, e: PullEvent)
  {
    match e
    case TaskEnqueued(b, _, len) => |Pick(before, PulledFrom(b))| + len == |Pick(before, EnqueuedBy(b))|
    case IntentSent(_, _, _) => true
    case IntentQueued(s, _, _, len) => |Pick(before, DrainedAt(s))| + len == |Pick(before, QueuedAt(s))|
    case IntentDrained(s, sender, id, len, pending, inFlight, max) =>
      && inFlight + pending < max
      && len > 0 && |Pick(before, DrainedAt(s))| + len == |Pick(before, QueuedAt(s))|
      && Pick(before, QueuedAt(s))[|Pick(before, DrainedAt(s))|] == (sender, id)
    case PullFulfilled(b, _, _, _, len, _) =>
      len > 0 && |Pick(before, PulledFrom(b))| + len == |Pick(before, EnqueuedBy(b))|
  }

  /** Bound pulls take the very task their intent names, and each task once. */
  ghost predicate Bound(before: seq<PullEvent>, e: PullEvent)
  {
    e.PullFulfilled? ==>
      && e.intentId == Some(e.pulledId)
      && Bag(Pick(before, PulledFrom(e.lb)))[e.pulledId] < Bag(Pick(before, EnqueuedBy(e.lb)))[e.pulledId]
  }

  /** Unbound pulls take tasks in the order they were enqueued. */
  ghost predicate Fcfs(before: seq<PullEvent>, e: PullEvent)
  {
    e.PullFulfilled? ==>
      && e.headId == Some(e.pulledId)
      && |Pick(before, PulledFrom(e.lb))| < |Pick(before, EnqueuedBy(e.lb))|
      && Pick(before, EnqueuedBy(e.lb))[|Pick(before, PulledFrom(e.lb))|] == e.pulledId
  }

  /** Every intent sent was queued, drained and answered, and no queue is left with anything in it. */
  ghost predicate Complete(events: seq<PullEvent>)
  {
    && |Pick(events, Sends())| == |Pick(events, Queues())| == |Pick(events, Drains())| == |Pick(events, Fulfils())|
    && (forall s: nat :: |Pick(events, DrainedAt(s))| == |Pick(events, QueuedAt(s))|)
    && AllPulled(events)
  }

  ghost predicate AllPulled(events: seq<PullEvent>)
  {
    forall b: nat :: |Pick(events, PulledFrom(b))| == |Pick(events, EnqueuedBy(b))|
  }

  ghost predicate AcceptedCommon(events: seq<PullEvent>)
  {
    Throughout(events, Common) && Complete(events) && Pick(events, Sends()) != []
  }

  ghost predicate AcceptedBound(events: seq<PullEvent>)
  {
    AcceptedCommon(events) && Throughout(events, Bound)
  }

  ghost predicate AcceptedNoBind(events: seq<PullEvent>)
  {
    AcceptedCommon(events) && Throughout(events, Fcfs) && SawMismatch(events)
  }

  /** Coverage: some unbound pull took another task than the one its intent was sent for. */
  ghost predicate SawMismatch(events: seq<PullEvent>)
  {
    exists k :: 0 <= k < |events| && Mismatch(events[k])
  }

  predicate Mismatch(e: PullEvent)
  {
    e.PullFulfilled? && e.intentId.Some? && e.intentId.value != e.pulledId
  }

  // Soundness: what the law means

  /** At any time the intents drained at a server are the first ones queued there, in the same order. */
  lemma {:induction false} DrainedIsPrefix(events: seq<PullEvent>, s: nat)
    requires Throughout(events, Common)
    ensures Pick(events, DrainedAt(s)) <= Pick(events, QueuedAt(s))
  {
    if events != [] {
      var before, e := events[..|events| - 1], events[|events| - 1];
      ThroughoutPrefix(events, Common);
      DrainedIsPrefix(before, s);
      assert Pick(events, DrainedAt(s)) == Pick(before, DrainedAt(s)) + DrainedAt(s)(e);
      assert Pick(events, QueuedAt(s)) == Pick(before, QueuedAt(s)) + QueuedAt(s)(e);
    }
  }

  lemma {:induction false} PulledIsPrefix(events: seq<PullEvent>, b: nat)
    requires Throughout(events, Fcfs)
    ensures Pick(events, PulledFrom(b)) <= Pick(events, EnqueuedBy(b))
  {
    if events != [] {
      var before, e := events[..|events| - 1], events[|events| - 1];
      ThroughoutPrefix(events, Fcfs);
      PulledIsPrefix(before, b);
      assert Pick(events, PulledFrom(b)) == Pick(before, PulledFrom(b)) + PulledFrom(b)(e);
      assert Pick(events, EnqueuedBy(b)) == Pick(before, EnqueuedBy(b)) + EnqueuedBy(b)(e);
    }
  }

  lemma {:induction false} PulledIsPart(events: seq<PullEvent>, b: nat)
    requires Throughout(events, Bound)
    ensures Bag(Pick(events, PulledFrom(b))) <= Bag(Pick(events, EnqueuedBy(b)))
  {
    if events != [] {
      var before, e := events[..|events| - 1], events[|events| - 1];
      ThroughoutPrefix(events, Bound);
      PulledIsPart(before, b);
      assert before + [e] == events;
      PartNext(before, e, b);
    }
  }

  lemma PartNext(before: seq<PullEvent>, e: PullEvent, b: nat)
    requires Bag(Pick(before, PulledFrom(b))) <= Bag(Pick(before, EnqueuedBy(b))) && Bound(before, e)
    ensures Bag(Pick(before + [e], PulledFrom(b))) <= Bag(Pick(before + [e], EnqueuedBy(b)))
  {
    StillPart(Bag(Pick(before, PulledFrom(b))), Bag(Pick(before, EnqueuedBy(b))), e, b);
    PickMultiset(before, e, PulledFrom(b));
    PickMultiset(before, e, EnqueuedBy(b));
  }

  lemma StillPart(pulled: multiset<nat>, enqueued: multiset<nat>, e: PullEvent, b: nat)
    requires pulled <= enqueued
    requires e.PullFulfilled? && e.lb == b ==> pulled[e.pulledId] < enqueued[e.pulledId]
    ensures pulled + Bag(PulledFrom(b)(e)) <= enqueued + Bag(EnqueuedBy(b)(e))
  {
  }

  /** An accepted trace drained every server's intents in exactly the order they were queued. */
  lemma AcceptedDrainsInOrder(events: seq<PullEvent>, s: nat)
    requires AcceptedCommon(events)
    ensures Pick(events, DrainedAt(s)) == Pick(events, QueuedAt(s))
  {
    DrainedIsPrefix(events, s);
  }

  /** An accepted unbound trace pulled every balancer's tasks in exactly the order they were enqueued. */
  lemma AcceptedPullsInOrder(events: seq<PullEvent>, b: nat)
    requires AcceptedNoBind(events)
    ensures Pick(events, PulledFrom(b)) == Pick(events, EnqueuedBy(b))
  {
    PulledIsPrefix(events, b);
  }

  /** An accepted bound trace pulled exactly the enqueued tasks, each as often as it was enqueued. */
  lemma AcceptedPullsEachOnce(events: seq<PullEvent>, b: nat)
    requires AcceptedBound(events)
    ensures Bag(Pick(events, PulledFrom(b))) == Bag(Pick(events, EnqueuedBy(b)))
  {
    PulledIsPart(events, b);
    SameSize(Bag(Pick(events, PulledFrom(b))), Bag(Pick(events, EnqueuedBy(b))));
  }

  lemma SameSize(a: multiset<nat>, b: multiset<nat>)
    requires a <= b && |a| == |b|
    ensures a == b
  {
    assert b == a + (b - a);
  }

  // The replay

  function Get(m: map<nat, nat>, k: nat): nat
  {
    if k in m then m[k] else 0
  }

  function GetQueue<T>(m: map<nat, seq<T>>, k: nat): seq<T>
  {
    if k in m then m[k] else []
  }

  method AllZero(m: map<nat, nat>) returns (ok: bool)
    ensures ok <==> forall k :: k in m ==> m[k] == 0
  {
    var keys := m.Keys;
    while keys != {}
      invariant keys <= m.Keys
      invariant forall k :: k in m && k !in keys ==> m[k] == 0
      decreases |keys|
    {
      var k :| k in keys;
      if m[k] != 0 {
        return false;
      }
      keys := keys - {k};
    }
    ok := true;
  }

  method AllEmpty(m: map<nat, seq<nat>>) returns (ok: bool)
    ensures ok <==> forall k :: k in m ==> m[k] == []
  {
    var keys := m.Keys;
    while keys != {}
      invariant keys <= m.Keys
      invariant forall k :: k in m && k !in keys ==> m[k] == []
      decreases |keys|
    {
      var k :| k in keys;
      if m[k] != [] {
        return false;
      }
      keys := keys - {k};
    }
    ok := true;
  }

  /** The counters and shadow queues of the common replay. */
  datatype Replay = Replay(
    depth: map<nat, nat>, fifo: map<nat, seq<(nat, nat)>>, tasks: map<nat, nat>,
    sent: nat, queued: nat, drained: nat, fulfilled: nat)

  /** The replay state tells what the trace so far says. */
  ghost predicate Tells(r: Replay, before: seq<PullEvent>)
  {
    && (forall s: nat :: TellsServer(r, before, s))
    && (forall b: nat :: TellsBalancer(r, before, b))
    && r.sent == |Pick(before, Sends())| && r.queued == |Pick(before, Queues())|
    && r.drained == |Pick(before, Drains())| && r.fulfilled == |Pick(before, Fulfils())|
  }

  ghost predicate TellsServer(r: Replay, before: seq<PullEvent>, s: nat)
  {
    && Pick(before, DrainedAt(s)) + GetQueue(r.fifo, s) == Pick(before, QueuedAt(s))
    && Get(r.depth, s) == |GetQueue(r.fifo, s)|
  }

  ghost predicate TellsBalancer(r: Replay, before: seq<PullEvent>, b: nat)
  {
    |Pick(before, PulledFrom(b))| + Get(r.tasks, b) == |Pick(before, EnqueuedBy(b))|
  }

  /** The replay state after an event that obeys the law. */
  ghost predicate Advances(r: Replay, e: PullEvent, next: Replay)
  {
    match e
    case TaskEnqueued(b, _, _) => next == r.(tasks := r.tasks[b := Get(r.tasks, b) + 1])
    case IntentSent(_, _, _) => next == r.(sent := r.sent + 1)
    case IntentQueued(s, sender, id, _) =>
      next == r.(depth := r.depth[s := Get(r.depth, s) + 1],
                 fifo := r.fifo[s := GetQueue(r.fifo, s) + [(sender, id)]], queued := r.queued + 1)
    case IntentDrained(s, sender, id, _, _, _, _) =>
      var fifo := GetQueue(r.fifo, s);
      && fifo != [] && fifo[0] == (sender, id) && Get(r.depth, s) > 0
      && next == r.(depth := r.depth[s := Get(r.depth, s) - 1], fifo := r.fifo[s := fifo[1..]], drained := r.drained + 1)
    case PullFulfilled(b, _, _, _, _, _) =>
      && Get(r.tasks, b) > 0
      && next == r.(tasks := r.tasks[b := Get(r.tasks, b) - 1], fulfilled := r.fulfilled + 1)
  }

  /** One event of the common replay. */
  method ReplayEvent(r: Replay, e: PullEvent, ghost before: seq<PullEvent>) returns (next: Option<Replay>)
    requires Tells(r, before)
    ensures next.Some? <==> Common(before, e)
    ensures next.Some? ==> Tells(next.value, before + [e])
  {
    match e {
      case TaskEnqueued(b, _, len) =>
        assert TellsBalancer(r, before, b);
        var expected := Get(r.tasks, b);
        if len != expected {
          return None;
        }
        next := Some(r.(tasks := r.tasks[b := expected + 1]));
      case IntentSent(_, _, _) =>
        next := Some(r.(sent := r.sent + 1));
      case IntentQueued(s, sender, id, len) =>
        assert TellsServer(r, before, s);
        var expected := Get(r.depth, s);
        if len != expected {
          return None;
        }
        next := Some(r.(depth := r.depth[s := expected + 1],
                        fifo := r.fifo[s := GetQueue(r.fifo, s) + [(sender, id)]], queued := r.queued + 1));
      case IntentDrained(s, sender, id, len, pending, inFlight, max) =>
        assert TellsServer(r, before, s);
        if inFlight + pending >= max {
          return None;
        }
        var expected := Get(r.depth, s);
        if len != expected || expected == 0 {
          return None;
        }
        var fifo := GetQueue(r.fifo, s);
        assert Pick(before, QueuedAt(s))[|Pick(before, DrainedAt(s))|] == fifo[0];
        if fifo[0] != (sender, id) {
          return None;
        }
        next := Some(r.(depth := r.depth[s := expected - 1], fifo := r.fifo[s := fifo[1..]], drained := r.drained + 1));
      case PullFulfilled(b, _, _, _, len, _) =>
        assert TellsBalancer(r, before, b);
        var expected := Get(r.tasks, b);
        if len != expected || expected == 0 {
          return None;
        }
        next := Some(r.(tasks := r.tasks[b := expected - 1], fulfilled := r.fulfilled + 1));
    }
    TellsNext(r, next.value, before, e);
  }

  lemma ServerNext(r: Replay, next: Replay, before: seq<PullEvent>, e: PullEvent, s: nat)
    requires TellsServer(r, before, s) && Advances(r, e, next)
    ensures TellsServer(next, before + [e], s)
  {
    PickAppend(before, e, DrainedAt(s));
    PickAppend(before, e, QueuedAt(s));
    var q, d := Pick(before, QueuedAt(s)), Pick(before, DrainedAt(s));
    if e.IntentDrained? && e.server == s {
      var fifo := GetQueue(r.fifo, s);
      assert fifo == [fifo[0]] + fifo[1..];
      assert d + [fifo[0]] + fifo[1..] == q;
    } else if e.IntentQueued? && e.server == s {
      assert d + (GetQueue(r.fifo, s) + [(e.sender, e.requestId)]) == q + [(e.sender, e.requestId)];
    } else {
      assert GetQueue(next.fifo, s) == GetQueue(r.fifo, s);
      assert d + [] == d && q + [] == q;
    }
  }

  lemma BalancerNext(r: Replay, next: Replay, before: seq<PullEvent>, e: PullEvent, b: nat)
    requires TellsBalancer(r, before, b) && Advances(r, e, next)
    ensures TellsBalancer(next, before + [e], b)
  {
    PickAppend(before, e, PulledFrom(b));
    PickAppend(before, e, EnqueuedBy(b));
  }

  lemma TellsNext(r: Replay, next: Replay, before: seq<PullEvent>, e: PullEvent)
    requires Tells(r, before) && Advances(r, e, next)
    ensures Tells(next, before + [e])
  {
    forall s: nat ensures TellsServer(next, before + [e], s) {
      assert TellsServer(r, before, s);
      ServerNext(r, next, before, e, s);
    }
    forall b: nat ensures TellsBalancer(next, before + [e], b) {
      assert TellsBalancer(r, before, b);
      BalancerNext(r, next, before, e, b);
    }
    PickAppend(before, e, Sends());
    PickAppend(before, e, Queues());
    PickAppend(before, e, Drains());
    PickAppend(before, e, Fulfils());
  }

  lemma TellsAll(r: Replay, events: seq<PullEvent>)
    requires Tells(r, events)
    ensures Complete(events) <==>
              && r.sent == r.queued == r.drained == r.fulfilled
              && (forall s :: s in r.depth ==> r.depth[s] == 0)
              && (forall b :: b in r.tasks ==> r.tasks[b] == 0)
  {
    if r.sent == r.queued == r.drained == r.fulfilled {
      if (forall s :: s in r.depth ==> r.depth[s] == 0) && (forall b :: b in r.tasks ==> r.tasks[b] == 0) {
        forall s: nat ensures |Pick(events, DrainedAt(s))| == |Pick(events, QueuedAt(s))| {
          assert TellsServer(r, events, s);
        }
        forall b: nat ensures |Pick(events, PulledFrom(b))| == |Pick(events, EnqueuedBy(b))| {
          assert TellsBalancer(r, events, b);
        }
      }
    }
    if Complete(events) {
      forall s | s in r.depth ensures r.depth[s] == 0 {
        assert TellsServer(r, events, s);
      }
      forall b | b in r.tasks ensures r.tasks[b] == 0 {
        assert TellsBalancer(r, events, b);
      }
    }
  }

  class LbPullAudit {
    var events: seq<PullEvent>

    constructor ()
      ensures events == []
    {
      events := [];
    }

    method Record(e: PullEvent)
      modifies this
      ensures events == old(events) + [e]
    {
      events := events + [e];
    }

    /** Accepts exactly the complete traces that obey the common law and contain an intent. */
    method ValidateCommon() returns (ok: bool)
      ensures ok <==> AcceptedCommon(events)
    {
      if events == [] {
        return false;
      }
      var r := Replay(map[], map[], map[], 0, 0, 0, 0);
      var i := 0;
      while i < |events|
        invariant i <= |events|
        invariant Tells(r, events[..i])
        invariant Throughout(events[..i], Common)
      {
        var next := ReplayEvent(r, events[i], events[..i]);
        if next.None? {
          assert !Common(events[..i], events[i]);
          return false;
        }
        ThroughoutAppend(events[..i], events[i], Common);
        assert events[..i + 1] == events[..i] + [events[i]];
        r := next.value;
        i := i + 1;
      }
      assert events[..i] == events;
      TellsAll(r, events);
      if r.sent == 0 || r.sent != r.queued || r.sent != r.drained || r.sent != r.fulfilled {
        return false;
      }
      ok := AllZero(r.depth);
      if ok {
        ok := AllZero(r.tasks);
      }
    }

    /** Accepts exactly the commonly accepted traces in which every pull takes the task its intent names. */
    method ValidateBound() returns (ok: bool)
      ensures ok <==> AcceptedBound(events)
    {
      ok := ValidateCommon();
      if !ok {
        return;
      }
      ok := ReplayBound(events);
    }

    /** Accepts exactly the commonly accepted traces in which every pull takes the head of its balancer's queue, and
        some pull takes another task than its intent named. */
    method ValidateNoBind() returns (ok: bool)
      ensures ok <==> AcceptedNoBind(events)
    {
      ok := ValidateCommon();
      if !ok {
        return;
      }
      ok := ReplayNoBind(events);
    }
  }

  // The shadow queues of the two task replays

  ghost predicate HoldsAt(q: map<nat, seq<nat>>, before: seq<PullEvent>, b: nat)
  {
    Pick(before, PulledFrom(b)) + GetQueue(q, b) == Pick(before, EnqueuedBy(b))
  }

  ghost predicate Holds(q: map<nat, seq<nat>>, before: seq<PullEvent>)
  {
    forall b: nat :: HoldsAt(q, before, b)
  }

  ghost predicate HoldsUnorderedAt(q: map<nat, seq<nat>>, before: seq<PullEvent>, b: nat)
  {
    Bag(Pick(before, PulledFrom(b))) + Bag(GetQueue(q, b)) == Bag(Pick(before, EnqueuedBy(b)))
  }

  ghost predicate HoldsUnordered(q: map<nat, seq<nat>>, before: seq<PullEvent>)
  {
    forall b: nat :: HoldsUnorderedAt(q, before, b)
  }

  method ReplayBound(events: seq<PullEvent>) returns (ok: bool)
    requires AllPulled(events)
    ensures ok <==> Throughout(events, Bound)
  {
    var queues: map<nat, seq<nat>> := map[];
    var i := 0;
    while i < |events|
      invariant i <= |events|
      invariant HoldsUnordered(queues, events[..i])
      invariant Throughout(events[..i], Bound)
    {
      var next := BoundEvent(queues, events[i], events[..i]);
      if next.None? {
        assert !Bound(events[..i], events[i]);
        return false;
      }
      ThroughoutAppend(events[..i], events[i], Bound);
      assert events[..i + 1] == events[..i] + [events[i]];
      queues := next.value;
      i := i + 1;
    }
    assert events[..i] == events;
    NothingHeldUnordered(queues, events);
    ok := AllEmpty(queues);
  }

  method ReplayNoBind(events: seq<PullEvent>) returns (ok: bool)
    requires AllPulled(events)
    ensures ok <==> Throughout(events, Fcfs) && SawMismatch(events)
  {
    var queues: map<nat, seq<nat>> := map[];
    var sawMismatch := false;
    var i := 0;
    while i < |events|
      invariant i <= |events|
      invariant Holds(queues, events[..i])
      invariant Throughout(events[..i], Fcfs)
      invariant sawMismatch <==> exists k :: 0 <= k < i && Mismatch(events[k])
    {
      var next := FcfsEvent(queues, events[i], events[..i]);
      if next.None? {
        assert !Fcfs(events[..i], events[i]);
        return false;
      }
      ThroughoutAppend(events[..i], events[i], Fcfs);
      assert events[..i + 1] == events[..i] + [events[i]];
      queues := next.value;
      if Mismatch(events[i]) {
        sawMismatch := true;
      }
      i := i + 1;
    }
    assert events[..i] == events;
    NothingHeld(queues, events);
    ok := AllEmpty(queues);
    ok := ok && sawMismatch;
  }

  method FcfsEvent(q: map<nat, seq<nat>>, e: PullEvent, ghost before: seq<PullEvent>)
    returns (next: Option<map<nat, seq<nat>>>)
    requires Holds(q, before)
    ensures next.Some? <==> Fcfs(before, e)
    ensures next.Some? ==> Holds(next.value, before + [e])
  {
    var r := q;
    if e.TaskEnqueued? {
      r := q[e.lb := GetQueue(q, e.lb) + [e.taskId]];
    } else if e.PullFulfilled? {
      assert HoldsAt(q, before, e.lb);
      if e.headId != Some(e.pulledId) || e.lb !in q || q[e.lb] == [] {
        return None;
      }
      assert Pick(before, EnqueuedBy(e.lb))[|Pick(before, PulledFrom(e.lb))|] == q[e.lb][0];
      if q[e.lb][0] != e.pulledId {
        return None;
      }
      assert q[e.lb] == [q[e.lb][0]] + q[e.lb][1..];
      r := q[e.lb := q[e.lb][1..]];
    }
    forall b: nat ensures HoldsAt(r, before + [e], b) {
      assert HoldsAt(q, before, b);
      assert GetQueue(q, b) + EnqueuedBy(b)(e) == PulledFrom(b)(e) + GetQueue(r, b);
      HeldNext(before, e, b, GetQueue(q, b), GetQueue(r, b));
    }
    next := Some(r);
  }

  lemma HeldNext(before: seq<PullEvent>, e: PullEvent, b: nat, held: seq<nat>, after: seq<nat>)
    requires Pick(before, PulledFrom(b)) + held == Pick(before, EnqueuedBy(b))
    requires held + EnqueuedBy(b)(e) == PulledFrom(b)(e) + after
    ensures Pick(before + [e], PulledFrom(b)) + after == Pick(before + [e], EnqueuedBy(b))
  {
    PickAppend(before, e, PulledFrom(b));
    PickAppend(before, e, EnqueuedBy(b));
    var p := Pick(before, PulledFrom(b));
    assert p + PulledFrom(b)(e) + after == p + (PulledFrom(b)(e) + after);
    assert p + held + EnqueuedBy(b)(e) == p + (held + EnqueuedBy(b)(e));
  }

  method BoundEvent(q: map<nat, seq<nat>>, e: PullEvent, ghost before: seq<PullEvent>)
    returns (next: Option<map<nat, seq<nat>>>)
    requires HoldsUnordered(q, before)
    ensures next.Some? <==> Bound(before, e)
    ensures next.Some? ==> HoldsUnordered(next.value, before + [e])
  {
    if e.TaskEnqueued? {
      EnqueueMoves(q, e, before);
      return Some(q[e.lb := GetQueue(q, e.lb) + [e.taskId]]);
    }
    if e.PullFulfilled? {
      BoundIff(q, e, before);
      if e.intentId != Some(e.pulledId) || e.lb !in q {
        return None;
      }
      var at := B.Position(q[e.lb], e.pulledId);
      if at == |q[e.lb]| {
        return None;
      }
      PullMoves(q, e, before, at);
      return Some(q[e.lb := RemoveAt(q[e.lb], at)]);
    }
    SkipMoves(q, e, before);
    next := Some(q);
  }

  lemma BoundIff(q: map<nat, seq<nat>>, e: PullEvent, before: seq<PullEvent>)
    requires HoldsUnordered(q, before) && e.PullFulfilled?
    ensures Bound(before, e) <==>
              e.intentId == Some(e.pulledId) && e.lb in q && B.Position(q[e.lb], e.pulledId) < |q[e.lb]|
  {
    assert HoldsUnorderedAt(q, before, e.lb);
    Pending(Bag(Pick(before, PulledFrom(e.lb))), GetQueue(q, e.lb), Bag(Pick(before, EnqueuedBy(e.lb))), e.pulledId);
  }

  lemma UnorderedMoves(q: map<nat, seq<nat>>, r: map<nat, seq<nat>>, before: seq<PullEvent>, e: PullEvent)
    requires HoldsUnordered(q, before)
    requires forall b: nat :: Moves(e, b, GetQueue(q, b), GetQueue(r, b))
    ensures HoldsUnordered(r, before + [e])
  {
    forall b: nat ensures HoldsUnorderedAt(r, before + [e], b) {
      assert HoldsUnorderedAt(q, before, b) && Moves(e, b, GetQueue(q, b), GetQueue(r, b));
      UnorderedNext(before, e, b, GetQueue(q, b), GetQueue(r, b));
    }
  }

  /** What an event does to the identifiers held for a balancer. */
  ghost predicate Moves(e: PullEvent, b: nat, held: seq<nat>, after: seq<nat>)
  {
    Bag(held) + Bag(EnqueuedBy(b)(e)) == Bag(PulledFrom(b)(e)) + Bag(after)
  }

  lemma StillMoves(e: PullEvent, b: nat, held: seq<nat>)
    requires EnqueuedBy(b)(e) == PulledFrom(b)(e) == []
    ensures Moves(e, b, held, held)
  {
  }

  lemma EnqueueMoves(q: map<nat, seq<nat>>, e: PullEvent, before: seq<PullEvent>)
    requires HoldsUnordered(q, before) && e.TaskEnqueued?
    ensures HoldsUnordered(q[e.lb := GetQueue(q, e.lb) + [e.taskId]], before + [e])
  {
    var r := q[e.lb := GetQueue(q, e.lb) + [e.taskId]];
    forall b: nat ensures Moves(e, b, GetQueue(q, b), GetQueue(r, b)) {
      if b != e.lb {
        StillMoves(e, b, GetQueue(q, b));
      }
    }
    UnorderedMoves(q, r, before, e);
  }

  lemma PullMoves(q: map<nat, seq<nat>>, e: PullEvent, before: seq<PullEvent>, at: nat)
    requires HoldsUnordered(q, before) && e.PullFulfilled? && e.lb in q && at < |q[e.lb]| && q[e.lb][at] == e.pulledId
    ensures HoldsUnordered(q[e.lb := RemoveAt(q[e.lb], at)], before + [e])
  {
    var r := q[e.lb := RemoveAt(q[e.lb], at)];
    forall b: nat ensures Moves(e, b, GetQueue(q, b), GetQueue(r, b)) {
      if b != e.lb {
        StillMoves(e, b, GetQueue(q, b));
      } else {
        TakenOut(q[e.lb], at);
        assert PulledFrom(b)(e) == [e.pulledId];
      }
    }
    UnorderedMoves(q, r, before, e);
  }

  lemma SkipMoves(q: map<nat, seq<nat>>, e: PullEvent, before: seq<PullEvent>)
    requires HoldsUnordered(q, before) && !e.TaskEnqueued? && !e.PullFulfilled?
    ensures HoldsUnordered(q, before + [e])
  {
    forall b: nat ensures Moves(e, b, GetQueue(q, b), GetQueue(q, b)) {
      StillMoves(e, b, GetQueue(q, b));
    }
    UnorderedMoves(q, q, before, e);
  }

  lemma Pending(pulled: multiset<nat>, held: seq<nat>, enqueued: multiset<nat>, id: nat)
    requires pulled + Bag(held) == enqueued
    ensures id in held <==> pulled[id] < enqueued[id]
  {
    assert enqueued[id] == pulled[id] + Bag(held)[id];
  }

  lemma UnorderedNext(before: seq<PullEvent>, e: PullEvent, b: nat, held: seq<nat>, after: seq<nat>)
    requires Bag(Pick(before, PulledFrom(b))) + Bag(held) == Bag(Pick(before, EnqueuedBy(b)))
    requires Bag(held) + Bag(EnqueuedBy(b)(e)) == Bag(PulledFrom(b)(e)) + Bag(after)
    ensures Bag(Pick(before + [e], PulledFrom(b))) + Bag(after) == Bag(Pick(before + [e], EnqueuedBy(b)))
  {
    PickMultiset(before, e, PulledFrom(b));
    PickMultiset(before, e, EnqueuedBy(b));
    Shift(Bag(Pick(before, PulledFrom(b))), Bag(held), Bag(Pick(before, EnqueuedBy(b))),
          Bag(EnqueuedBy(b)(e)), Bag(PulledFrom(b)(e)), Bag(after));
  }

  lemma Shift(pulled: multiset<nat>, held: multiset<nat>, enqueued: multiset<nat>,
              more: multiset<nat>, taken: multiset<nat>, after: multiset<nat>)
    requires pulled + held == enqueued && held + more == taken + after
    ensures (pulled + taken) + after == enqueued + more
  {
    assert (pulled + taken) + after == pulled + (taken + after);
  }

  lemma TakenOut(q: seq<nat>, at: nat)
    requires at < |q|
    ensures Bag(q) == Bag(RemoveAt(q, at)) + multiset{q[at]}
  {
    assert q == q[..at] + [q[at]] + q[at + 1..];
  }

  lemma NothingHeld(q: map<nat, seq<nat>>, events: seq<PullEvent>)
    requires Holds(q, events) && AllPulled(events)
    ensures forall b :: b in q ==> q[b] == []
  {
    forall b | b in q ensures q[b] == [] {
      assert HoldsAt(q, events, b);
    }
  }

  lemma NothingHeldUnordered(q: map<nat, seq<nat>>, events: seq<PullEvent>)
    requires HoldsUnordered(q, events) && AllPulled(events)
    ensures forall b :: b in q ==> q[b] == []
  {
    forall b | b in q ensures q[b] == [] {
      assert HoldsUnorderedAt(q, events, b);
      assert |Bag(q[b])| == |q[b]|;
    }
  }
}

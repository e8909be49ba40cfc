/** The pull audit of the microservice simulation: it replays intent queues and call queues from a recorded trace. Each of
    its validations accepts exactly the traces that obey a declared law. */
module ReplicaPullAudit {
  import opened Domain
  import opened Replicas
  import opened ReplicaPulls
  import opened QueueReplays

  // What a trace says

  /** A claim: who announced it, for which request. */
  type Claim = (nat, nat)
  /** A call queue: its balancer and the target microservice. */
  type CallKey = (nat, string)

  function IntentOp(e: AuditEvent): seq<Keyed<Address, Claim>>
  {
    match e
    case Received(at, sender, id, deadline, _) => [Keyed(at, Insert((sender, id), deadline))]
    case Drained(at, sender, id, _, _, _, _) => [Keyed(at, Take((sender, id)))]
    case _ => []
  }

  function CallOp(e: AuditEvent): seq<Keyed<CallKey, nat>>
  {
    match e
    case Announced(sender, target, _, id, deadline) => [Keyed((sender, target), Insert(id, deadline))]
    case Fulfilled(handler, target, _, _, pulled, _, _) => [Keyed((handler, target), Take(pulled))]
    case _ => []
  }

  function Intents(events: seq<AuditEvent>): seq<Keyed<Address, Claim>> { Project(events, IntentOp) }
  function Calls(events: seq<AuditEvent>): seq<Keyed<CallKey, nat>> { Project(events, CallOp) }

  function AnnouncedClaim(e: AuditEvent): seq<Claim> { if e.Announced? then [(e.sender, e.requestId)] else [] }
  function ReceivedClaim(e: AuditEvent): seq<Claim> { if e.Received? then [(e.sender, e.requestId)] else [] }
  function DrainedClaim(e: AuditEvent): seq<Claim> { if e.Drained? then [(e.sender, e.requestId)] else [] }
  function FulfilledClaim(e: AuditEvent): seq<Claim> { if e.Fulfilled? then [(e.handler, e.intentId)] else [] }

  function Announcements(events: seq<AuditEvent>): seq<Claim> { Project(events, AnnouncedClaim) }
  function Receipts(events: seq<AuditEvent>): seq<Claim> { Project(events, ReceivedClaim) }
  function Drains(events: seq<AuditEvent>): seq<Claim> { Project(events, DrainedClaim) }
  function Fulfilments(events: seq<AuditEvent>): seq<Claim> { Project(events, FulfilledClaim) }

  // The laws

  /** Queue lengths are what the earlier events say; an intent leaves a queue only while a slot is free. */
  ghost predicate LengthLaw(before: seq<AuditEvent>, e: AuditEvent)
  {
    match e
    case Announced(_, _, _, _, _) => true
    case Received(at, _, _, _, len) => len == Level(Intents(before), at)
    case Drained(at, _, _, len, pending, inFlight, max) =>
      inFlight + pending < max && len > 0 && len == Level(Intents(before), at)
    case Fulfilled(handler, target, _, _, _, len, _) => len > 0 && len == Level(Calls(before), (handler, target))
  }

  ghost predicate Lawful(events: seq<AuditEvent>)
  {
    forall k :: 0 <= k < |events| ==> LengthLaw(events[..k], events[k])
  }

  ghost predicate NothingWaits(events: seq<AuditEvent>)
  {
    (forall at: Address :: Level(Intents(events), at) == 0) && (forall key: CallKey :: Level(Calls(events), key) == 0)
  }

  ghost predicate SameNumbers(events: seq<AuditEvent>)
  {
    |Announcements(events)| == |Receipts(events)| == |Drains(events)| == |Fulfilments(events)|
  }

  ghost predicate AcceptedCommon(events: seq<AuditEvent>)
  {
    Lawful(events) && Announcements(events) != [] && SameNumbers(events) && NothingWaits(events)
  }

  /** Unbound pulls take the head of their queue, and some took another call than their intent was sent for. */
  ghost predicate AcceptedCalls(events: seq<AuditEvent>, d: Discipline)
  {
    && Heads(events, |events|)
    && Emptied(Calls(events), d)
    && SawMismatch(events, |events|)
  }

  ghost predicate Heads(events: seq<AuditEvent>, n: nat)
  {
    forall k :: 0 <= k < n <= |events| ==> TakesHead(events[k])
  }

  predicate TakesHead(e: AuditEvent)
  {
    e.Fulfilled? ==> e.headId == Some(e.pulledId)
  }

  predicate Mismatch(e: AuditEvent)
  {
    e.Fulfilled? && e.intentId != e.pulledId
  }

  ghost predicate SawMismatch(events: seq<AuditEvent>, n: nat)
  {
    exists k :: 0 <= k < n <= |events| && Mismatch(events[k])
  }

  /** Every claim that was drained was fulfilled, and every claim that was fulfilled was drained once. */
  ghost predicate OneToOne(drained: seq<Claim>, fulfilled: seq<Claim>)
  {
    && (forall i :: 0 <= i < |drained| ==> drained[i] in fulfilled)
    && (forall i :: 0 <= i < |fulfilled| ==> multiset(drained)[fulfilled[i]] == 1)
  }

  ghost predicate AcceptedBound(events: seq<AuditEvent>)
  {
    && AcceptedCommon(events) && InOrder(Intents(events), Fifo)
    && (forall k :: 0 <= k < |events| ==> !Mismatch(events[k]))
    && Emptied(Calls(events), AnyOrder)
    && OneToOne(Drains(events), Fulfilments(events))
  }

  ghost predicate AcceptedNoBind(events: seq<AuditEvent>, intents: Discipline, calls: Discipline)
  {
    AcceptedCommon(events) && InOrder(Intents(events), intents) && AcceptedCalls(events, calls)
  }

  // Soundness

  /** An accepted trace drains each server's intents in the order they were queued, or by deadline. */
  lemma AcceptedDrains(events: seq<AuditEvent>, d: Discipline, at: Address)
    requires AcceptedCommon(events) && InOrder(Intents(events), d)
    ensures multiset(Taken(Of(Intents(events), at))) == multiset(Inserted(Of(Intents(events), at)))
    ensures d == Fifo ==> Taken(Of(Intents(events), at)) == Inserted(Of(Intents(events), at))
  {
    assert Replay(Of(Intents(events), at), d).Some? && Level(Intents(events), at) == 0;
    ReplayedWhole(Intents(events), at, d);
  }

  lemma AcceptedDrainIsEarliest(events: seq<AuditEvent>, k: nat)
    requires AcceptedNoBind(events, ByDeadline, ByDeadline)
    requires k < |Intents(events)| && Intents(events)[k].op.Take?
    ensures var ops := Intents(events);
            TakesLeast(Of(ops[..k], ops[k].key), ops[k].op.item)
  {
    var key := Intents(events)[k].key;
    assert Replay(Of(Intents(events), key), ByDeadline).Some?;
    EveryTakeIsLeast(Intents(events), k);
  }

  /** An accepted trace fulfils exactly the announced calls of each queue, each as often as announced; unbound and without
      deadlines, in the order in which they were announced. */
  lemma AcceptedFulfils(events: seq<AuditEvent>, d: Discipline, key: CallKey)
    requires AcceptedCommon(events) && Emptied(Calls(events), d)
    ensures multiset(Taken(Of(Calls(events), key))) == multiset(Inserted(Of(Calls(events), key)))
    ensures d == Fifo ==> Taken(Of(Calls(events), key)) == Inserted(Of(Calls(events), key))
  {
    assert ReplaysTo(Calls(events), key, d, []) && Level(Calls(events), key) == 0;
    ReplayedWhole(Calls(events), key, d);
  }

  /** An accepted EDF trace never passes over a call with an earlier deadline. */
  lemma AcceptedFulfilIsEarliest(events: seq<AuditEvent>, k: nat)
    requires Emptied(Calls(events), ByDeadline)
    requires k < |Calls(events)| && Calls(events)[k].op.Take?
    ensures var ops := Calls(events);
            TakesLeast(Of(ops[..k], ops[k].key), ops[k].op.item)
  {
    assert ReplaysTo(Calls(events), Calls(events)[k].key, ByDeadline, []);
    EveryTakeIsLeast(Calls(events), k);
  }

  // The replays

  function GetDepth<K>(depths: map<K, nat>, key: K): nat
  {
    if key in depths then depths[key] else 0
  }

  ghost predicate TellsLevels<K(!new), T>(depths: map<K, nat>, ops: seq<Keyed<K, T>>)
  {
    forall key: K :: Level(ops, key) == GetDepth(depths, key)
  }

  lemma LevelsNext<K(!new), T>(depths: map<K, nat>, ops: seq<Keyed<K, T>>, op: Keyed<K, T>, depth: nat)
    requires TellsLevels(depths, ops)
    requires depth == GetDepth(depths, op.key) + if op.op.Insert? then 1 else -1
    ensures TellsLevels(depths[op.key := depth], ops + [op])
  {
    var next := depths[op.key := depth];
    forall key: K ensures Level(ops + [op], key) == GetDepth(next, key) {
      assert Level(ops, key) == GetDepth(depths, key);
      LevelAppend(ops, op, key);
    }
  }

  method AllZero<K(==)>(depths: map<K, nat>) returns (ok: bool)
    ensures ok <==> forall key :: key in depths ==> depths[key] == 0
  {
    var keys := depths.Keys;
    while keys != {}
      invariant keys <= depths.Keys
      invariant forall key :: key in depths && key !in keys ==> depths[key] == 0
      decreases |keys|
    {
      var key :| key in keys;
      if depths[key] != 0 {
        return false;
      }
      keys := keys - {key};
    }
    ok := true;
  }

  /** The counters of the common replay. */
  datatype Depths = Depths(intents: map<Address, nat>, calls: map<CallKey, nat>, sent: nat, queued: nat, drained: nat, fulfilled: nat)

  ghost predicate DepthsTell(r: Depths, events: seq<AuditEvent>)
  {
    && TellsLevels(r.intents, Intents(events)) && TellsLevels(r.calls, Calls(events))
    && r.sent == |Announcements(events)| && r.queued == |Receipts(events)|
    && r.drained == |Drains(events)| && r.fulfilled == |Fulfilments(events)|
  }

  lemma TraceAppend(events: seq<AuditEvent>, e: AuditEvent)
    ensures Intents(events + [e]) == Intents(events) + IntentOp(e) && Calls(events + [e]) == Calls(events) + CallOp(e)
    ensures Announcements(events + [e]) == Announcements(events) + AnnouncedClaim(e)
    ensures Receipts(events + [e]) == Receipts(events) + ReceivedClaim(e)
    ensures Drains(events + [e]) == Drains(events) + DrainedClaim(e)
    ensures Fulfilments(events + [e]) == Fulfilments(events) + FulfilledClaim(e)
  {
    ProjectAppend(events, e, IntentOp);
    ProjectAppend(events, e, CallOp);
    ProjectAppend(events, e, AnnouncedClaim);
    ProjectAppend(events, e, ReceivedClaim);
    ProjectAppend(events, e, DrainedClaim);
    ProjectAppend(events, e, FulfilledClaim);
  }

  lemma IntentDepth(r: Depths, before: seq<AuditEvent>, e: AuditEvent, depth: nat)
    requires DepthsTell(r, before) && (e.Received? || e.Drained?)
    requires depth == GetDepth(r.intents, e.at) + if e.Received? then 1 else -1
    ensures TellsLevels(r.intents[e.at := depth], Intents(before + [e])) && Calls(before + [e]) == Calls(before)
  {
    TraceAppend(before, e);
    LevelsNext(r.intents, Intents(before), IntentOp(e)[0], depth);
  }

  lemma CallDepth(r: Depths, before: seq<AuditEvent>, e: AuditEvent, depth: nat)
    requires DepthsTell(r, before) && (e.Announced? || e.Fulfilled?)
    requires depth == GetDepth(r.calls, CallOp(e)[0].key) + if e.Announced? then 1 else -1
    ensures TellsLevels(r.calls[CallOp(e)[0].key := depth], Calls(before + [e])) && Intents(before + [e]) == Intents(before)
  {
    TraceAppend(before, e);
    LevelsNext(r.calls, Calls(before), CallOp(e)[0], depth);
  }

  /** One event of the common replay. */
  method ReplayDepth(r: Depths, e: AuditEvent, ghost before: seq<AuditEvent>) returns (next: Option<Depths>)
    requires DepthsTell(r, before)
    ensures next.Some? <==> LengthLaw(before, e)
    ensures next.Some? ==> DepthsTell(next.value, before + [e])
  {
    TraceAppend(before, e);
    match e {
      case Announced(sender, target, _, _, _) =>
        var depth := GetDepth(r.calls, (sender, target)) + 1;
        CallDepth(r, before, e, depth);
        next := Some(r.(calls := r.calls[(sender, target) := depth], sent := r.sent + 1));
      case Received(at, _, _, _, len) =>
        var expected := GetDepth(r.intents, at);
        assert Level(Intents(before), at) == expected;
        if len != expected {
          return None;
        }
        IntentDepth(r, before, e, expected + 1);
        next := Some(r.(intents := r.intents[at := expected + 1], queued := r.queued + 1));
      case Drained(at, _, _, len, pending, inFlight, max) =>
        if inFlight + pending >= max {
          return None;
        }
        var expected := GetDepth(r.intents, at);
        assert Level(Intents(before), at) == expected;
        if len != expected || expected == 0 {
          return None;
        }
        IntentDepth(r, before, e, expected - 1);
        next := Some(r.(intents := r.intents[at := expected - 1], drained := r.drained + 1));
      case Fulfilled(handler, target, _, _, _, len, _) =>
        var expected := GetDepth(r.calls, (handler, target));
        assert Level(Calls(before), (handler, target)) == expected;
        if len != expected || expected == 0 {
          return None;
        }
        CallDepth(r, before, e, expected - 1);
        next := Some(r.(calls := r.calls[(handler, target) := expected - 1], fulfilled := r.fulfilled + 1));
    }
  }

  lemma LawfulNext(events: seq<AuditEvent>, i: nat)
    requires i < |events|
    ensures Lawful(events[..i + 1]) <==> Lawful(events[..i]) && LengthLaw(events[..i], events[i])
    ensures Lawful(events) ==> Lawful(events[..i + 1])
    ensures events[..i + 1] == events[..i] + [events[i]]
  {
    var next := events[..i + 1];
    assert forall k :: 0 <= k <= i ==> next[..k] == events[..k];
    assert forall k :: 0 <= k <= i ==> events[..i][..k] == events[..k];
    assert next[i] == events[i];
    if Lawful(next) {
      forall k | 0 <= k < i ensures LengthLaw(events[..i][..k], events[..i][k]) {
        assert LengthLaw(next[..k], next[k]);
      }
      assert LengthLaw(next[..i], next[i]);
    }
    if Lawful(events) {
      forall k | 0 <= k < |next| ensures LengthLaw(next[..k], next[k]) {
        assert LengthLaw(events[..k], events[k]);
      }
    }
  }

  lemma AllLevels(r: Depths, events: seq<AuditEvent>)
    requires DepthsTell(r, events)
    ensures NothingWaits(events) <==>
              (forall at :: at in r.intents ==> r.intents[at] == 0) && (forall key :: key in r.calls ==> r.calls[key] == 0)
  {
    if NothingWaits(events) {
      forall at | at in r.intents ensures r.intents[at] == 0 {
        assert Level(Intents(events), at) == 0;
      }
      forall key | key in r.calls ensures r.calls[key] == 0 {
        assert Level(Calls(events), key) == 0;
      }
    }
  }

  // The validations

  /** Accepts exactly the complete traces whose lengths are right. */
  method ValidateCommon(events: seq<AuditEvent>) returns (ok: bool)
    ensures ok <==> AcceptedCommon(events)
  {
    var r := Depths(map[], map[], 0, 0, 0, 0);
    var i := 0;
    while i < |events|
      invariant i <= |events| && DepthsTell(r, events[..i]) && Lawful(events[..i])
    {
      LawfulNext(events, i);
      var next := ReplayDepth(r, events[i], events[..i]);
      if next.None? {
        return false;
      }
      r := next.value;
      i := i + 1;
    }
    assert events[..i] == events;
    AllLevels(r, events);
    if r.sent == 0 || r.sent != r.queued || r.sent != r.drained || r.sent != r.fulfilled {
      return false;
    }
    var noIntents := AllZero(r.intents);
    var noCalls := AllZero(r.calls);
    ok := noIntents && noCalls;
  }

  /** First come, first served or by deadline: accepts exactly the traces whose drains take the replayed heads. */
  method ValidateIntents(events: seq<AuditEvent>, d: Discipline) returns (ok: bool)
    ensures ok <==> InOrder(Intents(events), d)
  {
    var queues: map<Address, seq<Queued<Claim>>> := map[];
    var i := 0;
    while i < |events|
      invariant i <= |events| && Tells(queues, Intents(events[..i]), d)
    {
      EventReplays(queues, events, i, IntentOp, d);
      if events[i].Received? || events[i].Drained? {
        var op := IntentOp(events[i])[0];
        var after := ReplayOp(GetQueue(queues, op.key), op.op, d);
        if after.None? {
          return false;
        }
        queues := queues[op.key := after.value];
      }
      i := i + 1;
    }
    assert events[..i] == events;
    TellsEmptied(queues, Intents(events), d);
    ok := true;
  }

  lemma HeadsNext(events: seq<AuditEvent>, i: nat)
    requires i < |events|
    ensures SawMismatch(events, i + 1) <==> SawMismatch(events, i) || Mismatch(events[i])
    ensures Heads(events, i + 1) <==> Heads(events, i) && TakesHead(events[i])
    ensures Heads(events, |events|) ==> Heads(events, i + 1)
  {
  }

  /** Accepts exactly the traces whose pulls take the replayed heads and leave nothing, and show a mismatch. */
  method ValidateCalls(events: seq<AuditEvent>, d: Discipline) returns (ok: bool)
    ensures ok <==> AcceptedCalls(events, d)
  {
    var queues: map<CallKey, seq<Queued<nat>>> := map[];
    var sawMismatch := false;
    var i := 0;
    while i < |events|
      invariant i <= |events| && Tells(queues, Calls(events[..i]), d)
      invariant Heads(events, i) && sawMismatch == SawMismatch(events, i)
    {
      EventReplays(queues, events, i, CallOp, d);
      HeadsNext(events, i);
      if !TakesHead(events[i]) {
        return false;
      }
      if events[i].Announced? || events[i].Fulfilled? {
        var op := CallOp(events[i])[0];
        var after := ReplayOp(GetQueue(queues, op.key), op.op, d);
        if after.None? {
          return false;
        }
        queues := queues[op.key := after.value];
      }
      if Mismatch(events[i]) {
        sawMismatch := true;
      }
      i := i + 1;
    }
    assert events[..i] == events;
    TellsEmptied(queues, Calls(events), d);
    ok := AllEmpty(queues);
    ok := ok && sawMismatch;
  }

  /** The part of the bound validation that replays calls: every pull takes the pending call its intent names. */
  method ValidateBoundCalls(events: seq<AuditEvent>) returns (ok: bool, drained: seq<Claim>, fulfilled: seq<Claim>)
    ensures ok <==> (forall k :: 0 <= k < |events| ==> !Mismatch(events[k])) && Emptied(Calls(events), AnyOrder)
    ensures ok ==> drained == Drains(events) && fulfilled == Fulfilments(events)
  {
    var queues: map<CallKey, seq<Queued<nat>>> := map[];
    drained, fulfilled := [], [];
    var i := 0;
    while i < |events|
      invariant i <= |events| && Tells(queues, Calls(events[..i]), AnyOrder)
      invariant forall k :: 0 <= k < i ==> !Mismatch(events[k])
      invariant drained == Drains(events[..i]) && fulfilled == Fulfilments(events[..i])
    {
      EventReplays(queues, events, i, CallOp, AnyOrder);
      ProjectAt(events, i, DrainedClaim);
      ProjectAt(events, i, FulfilledClaim);
      if Mismatch(events[i]) {
        return false, drained, fulfilled;
      }
      if events[i].Announced? || events[i].Fulfilled? {
        var op := CallOp(events[i])[0];
        var after := ReplayOp(GetQueue(queues, op.key), op.op, AnyOrder);
        if after.None? {
          return false, drained, fulfilled;
        }
        queues := queues[op.key := after.value];
      }
      drained := drained + DrainedClaim(events[i]);
      fulfilled := fulfilled + FulfilledClaim(events[i]);
      i := i + 1;
    }
    assert events[..i] == events;
    TellsEmptied(queues, Calls(events), AnyOrder);
    ok := AllEmpty(queues);
  }

  method Occurrences(claims: seq<Claim>, claim: Claim) returns (n: nat)
    ensures n == multiset(claims)[claim]
  {
    n := 0;
    for i := 0 to |claims|
      invariant n == multiset(claims[..i])[claim]
    {
      assert claims[..i + 1] == claims[..i] + [claims[i]];
      if claims[i] == claim {
        n := n + 1;
      }
    }
    assert claims[..|claims|] == claims;
  }

  method CheckOneToOne(drained: seq<Claim>, fulfilled: seq<Claim>) returns (ok: bool)
    ensures ok <==> OneToOne(drained, fulfilled)
  {
    for i := 0 to |drained|
      invariant forall k :: 0 <= k < i ==> drained[k] in fulfilled
    {
      if drained[i] !in fulfilled {
        return false;
      }
    }
    for i := 0 to |fulfilled|
      invariant forall k :: 0 <= k < i ==> multiset(drained)[fulfilled[k]] == 1
    {
      var n := Occurrences(drained, fulfilled[i]);
      if n != 1 {
        return false;
      }
    }
    ok := true;
  }

  method ValidateBound(events: seq<AuditEvent>) returns (ok: bool)
    ensures ok <==> AcceptedBound(events)
  {
    ok := ValidateCommon(events);
    if ok {
      ok := ValidateIntents(events, Fifo);
    }
    if ok {
      var drained, fulfilled;
      ok, drained, fulfilled := ValidateBoundCalls(events);
      if ok {
        ok := CheckOneToOne(drained, fulfilled);
      }
    }
  }

  /** First come, first served, or calls by deadline, or intents by deadline too. */
  method ValidateNoBind(events: seq<AuditEvent>, intents: Discipline, calls: Discipline) returns (ok: bool)
    ensures ok <==> AcceptedNoBind(events, intents, calls)
  {
    ok := ValidateCommon(events);
    if ok {
      ok := ValidateIntents(events, intents);
    }
    if ok {
      ok := ValidateCalls(events, calls);
    }
  }
}

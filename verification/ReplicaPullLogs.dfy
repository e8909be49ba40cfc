/** The pull audit accepts what the protocol between replicas does: at any time the trace replays to the queues that the
    models really hold, whatever the discipline. */
module ReplicaPullLogs {
  import opened Domain
  import opened Sums
  import opened Replicas
  import opened ReplicaPulls
  import opened ReplicaPullRuns
  import opened ReplicaPullSafety
  import opened QueueReplays
  import opened ReplicaPullAudit
  import D = Downstreams
  import S = Sidecars

  function IntentOrder(sched: Sched): Discipline
  {
    if IntentsByDeadline(sched) then ByDeadline else Fifo
  }

  function CallOrder(sched: Sched): Discipline
  {
    if sched.Bound? then AnyOrder else if CallsByDeadline(sched) then ByDeadline else Fifo
  }

  function QueuedIntents(q: seq<PullIntent>): (r: seq<Queued<Claim>>)
    ensures |r| == |q| && forall i :: 0 <= i < |q| ==> r[i] == Queued((q[i].senderId, q[i].requestId), q[i].deadline)
  {
    seq(|q|, i requires 0 <= i < |q| => Queued((q[i].senderId, q[i].requestId), q[i].deadline))
  }

  function QueuedCalls(q: seq<OutboundCall>): (r: seq<Queued<nat>>)
    ensures |r| == |q| && forall i :: 0 <= i < |q| ==> r[i] == Queued(q[i].hop.requestId, q[i].hop.deadline)
  {
    seq(|q|, i requires 0 <= i < |q| => Queued(q[i].hop.requestId, q[i].hop.deadline))
  }

  ghost predicate IntentsLogged(log: seq<AuditEvent>, at: Address, intents: seq<PullIntent>, sched: Sched)
  {
    ReplaysTo(Intents(log), at, IntentOrder(sched), QueuedIntents(intents))
  }

  ghost predicate CallsLogged(log: seq<AuditEvent>, b: nat, t: string, calls: seq<OutboundCall>, sched: Sched)
  {
    ReplaysTo(Calls(log), (b, t), CallOrder(sched), QueuedCalls(calls))
  }

  // The queues themselves follow the disciplines

  lemma EnqueueReplays(q: seq<PullIntent>, intent: PullIntent, sched: Sched)
    ensures QueuedIntents(S.Enqueue(q, intent, IntentsByDeadline(sched)))
         == Added(QueuedIntents(q), Queued((intent.senderId, intent.requestId), intent.deadline), IntentOrder(sched))
  {
    assert S.IntentDeadlines(q) == QueuedDeadlines(QueuedIntents(q));
  }

  lemma InsertReplays(q: seq<OutboundCall>, call: OutboundCall, sched: Sched)
    ensures QueuedCalls(D.Insert(q, call, CallsByDeadline(sched)))
         == Added(QueuedCalls(q), Queued(call.hop.requestId, call.hop.deadline), CallOrder(sched))
  {
    assert D.CallDeadlines(q) == QueuedDeadlines(QueuedCalls(q));
  }

  lemma {:induction false} SameIndex(q: seq<OutboundCall>, id: nat)
    ensures IndexOf(QueuedCalls(q), id) == CallFor(q, id)
  {
    if q != [] {
      SameIndex(q[1..], id);
      assert QueuedCalls(q)[1..] == QueuedCalls(q[1..]);
    }
  }

  /** The call that a pull takes is the one that the replay takes. */
  lemma SelectReplays(q: seq<OutboundCall>, id: nat, sched: Sched)
    requires Selected(q, id, sched).Some?
    ensures var i := Selected(q, id, sched).value;
            Replayed(QueuedCalls(q), Take(q[i].hop.requestId), CallOrder(sched)) == Some(QueuedCalls(RemoveAt(q, i)))
  {
    var i := Selected(q, id, sched).value;
    SameIndex(q, id);
    assert QueuedCalls(RemoveAt(q, i)) == RemoveAt(QueuedCalls(q), i);
  }

  // One more event

  lemma LawfulAppend(log: seq<AuditEvent>, e: AuditEvent)
    requires Lawful(log) && LengthLaw(log, e)
    ensures Lawful(log + [e])
  {
    var all := log + [e];
    assert all[..|log|] == log;
    LawfulNext(all, |log|);
    assert all[..|log| + 1] == all;
  }

  lemma KeptByOne<K, T>(log: seq<AuditEvent>, e: AuditEvent, sel: AuditEvent -> seq<Keyed<K, T>>, key: K, d: Discipline,
                        q: seq<Queued<T>>)
    requires ReplaysTo(Project(log, sel), key, d, q) && |sel(e)| <= 1 && (sel(e) != [] ==> sel(e)[0].key != key)
    ensures ReplaysTo(Project(log + [e], sel), key, d, q)
  {
    ProjectAppend(log, e, sel);
    var ops := Project(log, sel);
    if sel(e) == [] {
      assert ops + [] == ops;
    } else {
      assert sel(e) == [sel(e)[0]];
      ReplaysAppend(ops, sel(e)[0], key, d, q);
    }
  }

  lemma {:induction false} KeptBy<K, T>(log: seq<AuditEvent>, audit: seq<AuditEvent>, sel: AuditEvent -> seq<Keyed<K, T>>, key: K,
                                        d: Discipline, q: seq<Queued<T>>)
    requires ReplaysTo(Project(log, sel), key, d, q)
    requires forall e :: e in audit ==> |sel(e)| <= 1 && (sel(e) != [] ==> sel(e)[0].key != key)
    ensures ReplaysTo(Project(log + audit, sel), key, d, q)
    decreases |audit|
  {
    if audit == [] {
      assert log + audit == log;
    } else {
      KeptByOne(log, audit[0], sel, key, d, q);
      KeptBy(log + [audit[0]], audit[1..], sel, key, d, q);
      assert log + audit == log + [audit[0]] + audit[1..];
    }
  }

  ghost predicate PullerLogged(log: seq<AuditEvent>, s: PullerState, sched: Sched)
  {
    Lawful(log) && IntentsLogged(log, s.cfg.at, s.intents, sched)
  }

  lemma ReceivedLogged(log: seq<AuditEvent>, s: PullerState, intent: PullIntent, sched: Sched)
    requires PullerLogged(log, s, sched) && s.cfg.edf == IntentsByDeadline(sched)
    ensures PullerLogged(log + [Received(s.cfg.at, intent.senderId, intent.requestId, intent.deadline, |s.intents|)],
                         s.(intents := S.Enqueue(s.intents, intent, s.cfg.edf)), sched)
  {
    var e := Received(s.cfg.at, intent.senderId, intent.requestId, intent.deadline, |s.intents|);
    var d := IntentOrder(sched);
    LevelIsLength(Intents(log), s.cfg.at, d, QueuedIntents(s.intents));
    LawfulAppend(log, e);
    ProjectAppend(log, e, IntentOp);
    EnqueueReplays(s.intents, intent, sched);
    ReplaysAppend(Intents(log), IntentOp(e)[0], s.cfg.at, d, QueuedIntents(s.intents));
  }

  lemma DrainedLogged(log: seq<AuditEvent>, fx: Pulled, sched: Sched)
    requires PullerLogged(log + fx.audit, fx.puller, sched)
    ensures PullerLogged(log + Drain(fx).audit, Drain(fx).puller, sched)
  {
    var s, all := fx.puller, log + fx.audit;
    if s.inFlight + s.pending < s.cfg.slots && s.intents != [] {
      var i := s.intents[0];
      var e := Drained(s.cfg.at, i.senderId, i.requestId, |s.intents|, s.pending, s.inFlight, s.cfg.slots);
      var d := IntentOrder(sched);
      LevelIsLength(Intents(all), s.cfg.at, d, QueuedIntents(s.intents));
      LawfulAppend(all, e);
      ProjectAppend(all, e, IntentOp);
      ReplaysAppend(Intents(all), IntentOp(e)[0], s.cfg.at, d, QueuedIntents(s.intents));
      assert RemoveAt(QueuedIntents(s.intents), 0) == QueuedIntents(s.intents[1..]);
      assert log + Drain(fx).audit == all + [e];
    }
  }

  ghost predicate CallerLogged(log: seq<AuditEvent>, c: CallerState, t: string)
  {
    Lawful(log) && CallsLogged(log, c.cfg.rbId, t, CallsTo(c, t), c.cfg.sched)
  }

  lemma OutboundLogged(log: seq<AuditEvent>, c: CallerState, call: OutboundCall, pick: nat)
    requires c.Valid() && Known(c, call.target) && pick < |c.cfg.indices[call.target]|
    requires CallerLogged(log, c, call.target)
    ensures CallerLogged(log + Outbound(c, call, pick).audit, Outbound(c, call, pick).caller, call.target)
  {
    var t, d := call.target, CallOrder(c.cfg.sched);
    var e := Outbound(c, call, pick).audit[0];
    LawfulAppend(log, e);
    ProjectAppend(log, e, CallOp);
    InsertReplays(CallsTo(c, t), call, c.cfg.sched);
    ReplaysAppend(Calls(log), CallOp(e)[0], (c.cfg.rbId, t), d, QueuedCalls(CallsTo(c, t)));
  }

  lemma FulfilLogged(log: seq<AuditEvent>, c: CallerState, pull: CallPull)
    requires Fulfil(c, pull).Some? && CallerLogged(log, c, pull.target)
    ensures CallerLogged(log + Fulfil(c, pull).value.audit, Fulfil(c, pull).value.caller, pull.target)
  {
    var t, d := pull.target, CallOrder(c.cfg.sched);
    var q, e := CallsTo(c, t), Fulfil(c, pull).value.audit[0];
    LevelIsLength(Calls(log), (c.cfg.rbId, t), d, QueuedCalls(q));
    LawfulAppend(log, e);
    ProjectAppend(log, e, CallOp);
    SelectReplays(q, pull.requestId, c.cfg.sched);
    ReplaysAppend(Calls(log), CallOp(e)[0], (c.cfg.rbId, t), d, QueuedCalls(q));
  }

  // Every step

  ghost predicate AllIntentsLogged(m: Machine)
  {
    && (forall r :: 0 <= r < |m.pullers| ==> PullerLogged(m.log, m.pullers[r], m.sched))
    && (forall at :: !HasPuller(m, at) ==> IntentsLogged(m.log, at, [], m.sched))
  }

  ghost predicate AllCallsLogged(m: Machine)
  {
    forall b: nat, t: string :: CallsLogged(m.log, b, t, QueueOf(m, b, t), m.sched)
  }

  /** The trace is lawful, and replays to the queues that the models hold. */
  ghost predicate Logged(m: Machine)
  {
    Lawful(m.log) && AllIntentsLogged(m) && AllCallsLogged(m)
  }

  /** Events of one replica only. */
  ghost predicate OnlyAt(audit: seq<AuditEvent>, at: Address)
  {
    forall e :: e in audit ==> (e.Received? || e.Drained?) && e.at == at
  }

  /** Events of one call queue only. */
  ghost predicate OnlyFor(audit: seq<AuditEvent>, b: nat, t: string)
  {
    forall e :: e in audit ==> (e.Announced? && e.sender == b && e.target == t) || (e.Fulfilled? && e.handler == b && e.target == t)
  }

  lemma PullerKeepsLogged(m: Machine, r: nat, fx: Pulled)
    requires Wired(m) && Logged(m) && r < |m.pullers| && fx.puller.cfg == m.pullers[r].cfg
    requires OnlyAt(fx.audit, m.pullers[r].cfg.at) && PullerLogged(m.log + fx.audit, fx.puller, m.sched)
    ensures Logged(AfterPuller(m, r, fx))
  {
    var n, d := AfterPuller(m, r, fx), IntentOrder(m.sched);
    assert SameModels(m, n) && SameModels(n, m);
    AllSamePlaces(m, n);
    forall x | 0 <= x < |n.pullers| ensures PullerLogged(n.log, n.pullers[x], m.sched) {
      if x != r {
        Addresses(m, r, x);
        assert PullerLogged(m.log, m.pullers[x], m.sched);
        KeptBy(m.log, fx.audit, IntentOp, m.pullers[x].cfg.at, d, QueuedIntents(m.pullers[x].intents));
      }
    }
    forall at | !HasPuller(n, at) ensures IntentsLogged(n.log, at, [], m.sched) {
      assert IntentsLogged(m.log, at, [], m.sched);
      KeptBy(m.log, fx.audit, IntentOp, at, d, QueuedIntents([]));
    }
    forall b: nat, t: string ensures CallsLogged(n.log, b, t, QueueOf(n, b, t), m.sched) {
      assert CallsLogged(m.log, b, t, QueueOf(m, b, t), m.sched);
      KeptBy(m.log, fx.audit, CallOp, (b, t), CallOrder(m.sched), QueuedCalls(QueueOf(m, b, t)));
    }
  }

  lemma CallerKeepsLogged(m: Machine, b: nat, fx: Posted, t: string)
    requires Logged(m) && b < |m.callers| && fx.caller.cfg == m.callers[b].cfg
    requires m.callers[b].cfg.rbId == b && m.callers[b].cfg.sched == m.sched
    requires forall u :: u != t ==> CallsTo(fx.caller, u) == CallsTo(m.callers[b], u)
    requires OnlyFor(fx.audit, b, t) && CallerLogged(m.log + fx.audit, fx.caller, t)
    ensures Logged(AfterCaller(m, b, fx))
  {
    var n := AfterCaller(m, b, fx);
    forall r | 0 <= r < |n.pullers| ensures PullerLogged(n.log, n.pullers[r], m.sched) {
      assert PullerLogged(m.log, m.pullers[r], m.sched);
      KeptBy(m.log, fx.audit, IntentOp, m.pullers[r].cfg.at, IntentOrder(m.sched), QueuedIntents(m.pullers[r].intents));
    }
    forall at | !HasPuller(n, at) ensures IntentsLogged(n.log, at, [], m.sched) {
      assert !HasPuller(m, at);
      KeptBy(m.log, fx.audit, IntentOp, at, IntentOrder(m.sched), QueuedIntents([]));
    }
    forall x: nat, u: string ensures CallsLogged(n.log, x, u, QueueOf(n, x, u), m.sched) {
      assert CallsLogged(m.log, x, u, QueueOf(m, x, u), m.sched);
      if x != b || u != t {
        KeptBy(m.log, fx.audit, CallOp, (x, u), CallOrder(m.sched), QueuedCalls(QueueOf(m, x, u)));
      }
    }
  }

  lemma LessLogged(m: Machine, step: Step)
    requires Logged(m) && Enabled(m, step)
    ensures Logged(Less(m, step)) && Less(m, step).log == m.log
  {
    var n := Less(m, step);
    AllSamePlaces(n, m);
    forall b: nat, t: string ensures CallsLogged(n.log, b, t, QueueOf(n, b, t), n.sched) {
      assert CallsLogged(m.log, b, t, QueueOf(m, b, t), m.sched);
    }
  }

  lemma PostLogged(m: Machine, b: nat, call: OutboundCall, pick: nat)
    requires Wired(m) && Logged(m) && Enabled(m, Post(b, call, pick))
    ensures Logged(Next(m, Post(b, call, pick)).value)
  {
    var c, t := m.callers[b], call.target;
    var fx := Outbound(c, call, pick);
    assert CallerWired(m, b);
    assert CallsLogged(m.log, b, t, QueueOf(m, b, t), m.sched);
    if Known(c, t) {
      OutboundLogged(m.log, c, call, pick);
    } else {
      assert m.log + fx.audit == m.log;
    }
    CallerKeepsLogged(m, b, fx, t);
  }

  lemma PullLogged(m: Machine, i: nat)
    requires Wired(m) && Logged(m) && Enabled(m, TakePull(i)) && Next(m, TakePull(i)).Some?
    ensures Logged(Next(m, TakePull(i)).value)
  {
    var b, pull := m.pulls[i].to, m.pulls[i].pull;
    var c := m.callers[b];
    assert CallerWired(m, b);
    assert CallsLogged(m.log, b, pull.target, QueueOf(m, b, pull.target), m.sched);
    FulfilLogged(m.log, c, pull);
    LessLogged(m, TakePull(i));
    CallerKeepsLogged(Less(m, TakePull(i)), b, Fulfil(c, pull).value, pull.target);
  }

  lemma ReceiveLogged(log: seq<AuditEvent>, s: PullerState, intent: PullIntent, sched: Sched)
    requires PullerLogged(log, s, sched) && s.cfg.edf == IntentsByDeadline(sched) && s.cfg.senders != {}
    ensures PullerLogged(log + ReceiveIntent(s, intent).audit, ReceiveIntent(s, intent).puller, sched)
    ensures OnlyAt(ReceiveIntent(s, intent).audit, s.cfg.at) && ReceiveIntent(s, intent).puller.cfg == s.cfg
  {
    ReceivedLogged(log, s, intent, sched);
    var e := Received(s.cfg.at, intent.senderId, intent.requestId, intent.deadline, |s.intents|);
    DrainedLogged(log, Pulled(s.(intents := S.Enqueue(s.intents, intent, s.cfg.edf)), [], [], [e]), sched);
  }

  lemma FinishLogged(log: seq<AuditEvent>, s: PullerState, sched: Sched)
    requires PullerLogged(log, s, sched) && s.cfg.senders != {}
    ensures PullerLogged(log + Finish(s).audit, Finish(s).puller, sched)
    ensures OnlyAt(Finish(s).audit, s.cfg.at) && Finish(s).puller.cfg == s.cfg
  {
    assert log + [] == log;
    DrainedLogged(log, Pulled(s.(inFlight := SaturatingSub(s.inFlight, 1)), [], [], []), sched);
  }

  lemma IntentLogged(m: Machine, i: nat, r: nat)
    requires Wired(m) && Logged(m) && Enabled(m, TakeIntent(i, r))
    ensures Logged(Next(m, TakeIntent(i, r)).value)
  {
    KnownSenders(m, r);
    assert PullerLogged(m.log, m.pullers[r], m.sched);
    ReceiveLogged(m.log, m.pullers[r], m.intents[i].intent, m.sched);
    LessLogged(m, TakeIntent(i, r));
    LessWired(m, TakeIntent(i, r));
    PullerKeepsLogged(Less(m, TakeIntent(i, r)), r, ReceiveIntent(m.pullers[r], m.intents[i].intent));
  }

  lemma EndLogged(m: Machine, i: nat, r: nat)
    requires Wired(m) && Logged(m) && Enabled(m, EndService(i, r))
    ensures Logged(Next(m, EndService(i, r)).value)
  {
    KnownSenders(m, r);
    assert PullerLogged(m.log, m.pullers[r], m.sched);
    FinishLogged(m.log, m.pullers[r], m.sched);
    LessLogged(m, EndService(i, r));
    LessWired(m, EndService(i, r));
    PullerKeepsLogged(Less(m, EndService(i, r)), r, Finish(m.pullers[r]));
  }

  lemma CallTakenLogged(m: Machine, i: nat, r: nat, duration: nat, now: Time)
    requires Wired(m) && Logged(m) && Enabled(m, TakeCall(i, r, duration, now))
    ensures Logged(Next(m, TakeCall(i, r, duration, now)).value)
  {
    var s := m.pullers[r];
    assert PullerLogged(m.log, s, m.sched);
    assert m.log + [] == m.log;
    LessLogged(m, TakeCall(i, r, duration, now));
    LessWired(m, TakeCall(i, r, duration, now));
    PullerKeepsLogged(Less(m, TakeCall(i, r, duration, now)), r, Arrive(s, m.calls[i].hop, duration, now));
  }

  /** Whatever happens next, the trace stays lawful and replays to the queues. */
  lemma NextLogged(m: Machine, step: Step)
    requires Wired(m) && Logged(m) && Enabled(m, step) && Next(m, step).Some?
    ensures Logged(Next(m, step).value)
  {
    match step
    case Post(b, call, pick) => PostLogged(m, b, call, pick);
    case TakeIntent(i, r) => IntentLogged(m, i, r);
    case TakePull(i) => PullLogged(m, i);
    case TakeCall(i, r, duration, now) => CallTakenLogged(m, i, r, duration, now);
    case EndService(i, r) => EndLogged(m, i, r);
  }

  // Heads and names

  /** Bound pulls take the call they name, the others the head of the queue. */
  ghost predicate Marked(log: seq<AuditEvent>, sched: Sched)
  {
    forall i :: 0 <= i < |log| ==> if sched.Bound? then !Mismatch(log[i]) else TakesHead(log[i])
  }

  lemma OtherMarked(log: seq<AuditEvent>, audit: seq<AuditEvent>, sched: Sched)
    requires Marked(log, sched) && forall i :: 0 <= i < |audit| ==> !audit[i].Fulfilled?
    ensures Marked(log + audit, sched)
  {
  }

  lemma PullMarked(m: Machine, i: nat)
    requires Wired(m) && Marked(m.log, m.sched) && Enabled(m, TakePull(i)) && Next(m, TakePull(i)).Some?
    ensures Marked(Next(m, TakePull(i)).value.log, m.sched)
  {
    assert CallerWired(m, m.pulls[i].to);
  }

  lemma NextMarked(m: Machine, step: Step)
    requires Wired(m) && Marked(m.log, m.sched) && Enabled(m, step) && Next(m, step).Some?
    ensures Marked(Next(m, step).value.log, m.sched)
  {
    match step
    case Post(b, call, pick) => OtherMarked(m.log, Outbound(m.callers[b], call, pick).audit, m.sched);
    case TakeIntent(i, r) => OtherMarked(m.log, ReceiveIntent(m.pullers[r], m.intents[i].intent).audit, m.sched);
    case TakePull(i) => PullMarked(m, i);
    case TakeCall(i, r, duration, now) => OtherMarked(m.log, Arrive(m.pullers[r], m.calls[i].hop, duration, now).audit, m.sched);
    case EndService(i, r) => OtherMarked(m.log, Finish(m.pullers[r]).audit, m.sched);
  }

  // Numbers

  type ByClaim = Claim -> int

  function Any(g: ByClaim): Weight { (b: nat, _: Address, id: nat) => g((b, id)) }

  /** Announced intents are on their way or received; received ones wait or were drained; for drained ones a pull is on its
      way or was fulfilled. */
  ghost predicate Ledger(m: Machine, g: ByClaim)
  {
    && Sum(Announcements(m.log), g) == Sum(m.intents, OfIntent(Any(g))) + Sum(Receipts(m.log), g)
    && Sum(Receipts(m.log), g) == Sum(m.pullers, OfPuller(Any(g))) + Sum(Drains(m.log), g)
    && Sum(Drains(m.log), g) == Sum(m.pulls, OfPull(Any(g))) + Sum(Fulfilments(m.log), g)
  }

  lemma SumProject(log: seq<AuditEvent>, audit: seq<AuditEvent>, sel: AuditEvent -> seq<Claim>, g: ByClaim)
    ensures Sum(Project(log + audit, sel), g) == Sum(Project(log, sel), g) + Sum(Project(audit, sel), g)
  {
    ProjectSplit(log + audit, |log|, sel);
    assert (log + audit)[..|log|] == log && (log + audit)[|log|..] == audit;
    SumConcat(Project(log, sel), Project(audit, sel), g);
  }

  lemma SumsProject(log: seq<AuditEvent>, audit: seq<AuditEvent>, g: ByClaim)
    ensures Sum(Announcements(log + audit), g) == Sum(Announcements(log), g) + Sum(Announcements(audit), g)
    ensures Sum(Receipts(log + audit), g) == Sum(Receipts(log), g) + Sum(Receipts(audit), g)
    ensures Sum(Drains(log + audit), g) == Sum(Drains(log), g) + Sum(Drains(audit), g)
    ensures Sum(Fulfilments(log + audit), g) == Sum(Fulfilments(log), g) + Sum(Fulfilments(audit), g)
  {
    SumProject(log, audit, AnnouncedClaim, g);
    SumProject(log, audit, ReceivedClaim, g);
    SumProject(log, audit, DrainedClaim, g);
    SumProject(log, audit, FulfilledClaim, g);
  }

  /** What one event adds. */
  lemma OneEvent(e: AuditEvent, g: ByClaim)
    ensures Sum(Announcements([e]), g) == if e.Announced? then g((e.sender, e.requestId)) else 0
    ensures Sum(Receipts([e]), g) == if e.Received? then g((e.sender, e.requestId)) else 0
    ensures Sum(Drains([e]), g) == if e.Drained? then g((e.sender, e.requestId)) else 0
    ensures Sum(Fulfilments([e]), g) == if e.Fulfilled? then g((e.handler, e.intentId)) else 0
  {
    TraceAppend([], e);
    assert [] + [e] == [e];
    SumOneOrNone(AnnouncedClaim(e), g);
    SumOneOrNone(ReceivedClaim(e), g);
    SumOneOrNone(DrainedClaim(e), g);
    SumOneOrNone(FulfilledClaim(e), g);
  }

  lemma SumOneOrNone(s: seq<Claim>, g: ByClaim)
    requires |s| <= 1
    ensures Sum([] + s, g) == if s == [] then 0 else g(s[0])
  {
    if s != [] {
      assert [] + s == [s[0]];
      SumOne(s[0], g);
    }
  }

  /** For each intent that is drained a pull is sent. */
  lemma DrainLedger(fx: Pulled, g: ByClaim)
    requires forall i :: 0 <= i < |fx.puller.intents| ==> fx.puller.intents[i].senderId in fx.puller.cfg.senders
    ensures var n := Drain(fx);
            && Sum(Announcements(n.audit), g) == Sum(Announcements(fx.audit), g)
            && Sum(Receipts(n.audit), g) == Sum(Receipts(fx.audit), g)
            && Sum(Fulfilments(n.audit), g) == Sum(Fulfilments(fx.audit), g)
            && Sum(Drains(n.audit), g) - Sum(Drains(fx.audit), g) == Sum(n.pulls, OfPull(Any(g))) - Sum(fx.pulls, OfPull(Any(g)))
  {
    var s := fx.puller;
    if s.inFlight + s.pending < s.cfg.slots && s.intents != [] {
      var i, at := s.intents[0], s.cfg.at;
      var e := Drained(at, i.senderId, i.requestId, |s.intents|, s.pending, s.inFlight, s.cfg.slots);
      SumsProject(fx.audit, [e], g);
      OneEvent(e, g);
      SumAppend(fx.pulls, PullTo(i.senderId, CallPull(at.microservice, at.server, at.server, i.requestId)), OfPull(Any(g)));
    }
  }

  lemma PullerLedger(m: Machine, r: nat, fx: Pulled, g: ByClaim)
    requires r < |m.pullers|
    requires Sum(Announcements(fx.audit), g) == 0 && Sum(Fulfilments(fx.audit), g) == 0
    requires Sum(Drains(fx.audit), g) == Sum(fx.pulls, OfPull(Any(g)))
    requires HeldBy(fx, Any(g)) == OfPuller(Any(g))(m.pullers[r]) + Sum(Receipts(fx.audit), g)
    requires fx.puller.cfg == m.pullers[r].cfg
    requires Sum(Announcements(m.log), g)
          == Sum(m.intents, OfIntent(Any(g))) + Sum(Receipts(m.log), g) + Sum(Receipts(fx.audit), g)
    requires Sum(Receipts(m.log), g) == Sum(m.pullers, OfPuller(Any(g))) + Sum(Drains(m.log), g)
    requires Sum(Drains(m.log), g) == Sum(m.pulls, OfPull(Any(g))) + Sum(Fulfilments(m.log), g)
    ensures Ledger(AfterPuller(m, r, fx), g)
  {
    SumsProject(m.log, fx.audit, g);
    SumUpdate(m.pullers, r, fx.puller, OfPuller(Any(g)));
    SumConcat(m.pulls, fx.pulls, OfPull(Any(g)));
  }

  lemma IntentLedger(m: Machine, i: nat, r: nat, g: ByClaim)
    requires Wired(m) && Ledger(m, g) && Enabled(m, TakeIntent(i, r))
    ensures Ledger(Next(m, TakeIntent(i, r)).value, g)
  {
    var s, intent := m.pullers[r], m.intents[i].intent;
    KnownSenders(m, r);
    SumRemove(m.intents, i, OfIntent(Any(g)));
    ReceiveKeepsClaims(s, intent, Any(g));
    EnqueueKnown(s.intents, intent, s.cfg.edf, s.cfg.senders);
    var e := Received(s.cfg.at, intent.senderId, intent.requestId, intent.deadline, |s.intents|);
    OneEvent(e, g);
    DrainLedger(Pulled(s.(intents := S.Enqueue(s.intents, intent, s.cfg.edf)), [], [], [e]), g);
    PullerLedger(Less(m, TakeIntent(i, r)), r, ReceiveIntent(s, intent), g);
  }

  lemma EndLedger(m: Machine, i: nat, r: nat, g: ByClaim)
    requires Wired(m) && Ledger(m, g) && Enabled(m, EndService(i, r))
    ensures Ledger(Next(m, EndService(i, r)).value, g)
  {
    var s := m.pullers[r];
    KnownSenders(m, r);
    var freed := Pulled(s.(inFlight := SaturatingSub(s.inFlight, 1)), [], [], []);
    DrainKeepsClaims(freed, Any(g));
    DrainLedger(freed, g);
    PullerLedger(Less(m, EndService(i, r)), r, Finish(s), g);
  }

  lemma CallerLedger(m: Machine, b: nat, fx: Posted, g: ByClaim)
    requires b < |m.callers|
    requires Sum(Receipts(fx.audit), g) == 0 && Sum(Drains(fx.audit), g) == 0
    requires Sum(Announcements(fx.audit), g) == Sum(fx.intents, OfIntent(Any(g)))
    requires Sum(Announcements(m.log), g) == Sum(m.intents, OfIntent(Any(g))) + Sum(Receipts(m.log), g)
    requires Sum(Receipts(m.log), g) == Sum(m.pullers, OfPuller(Any(g))) + Sum(Drains(m.log), g)
    requires Sum(Drains(m.log), g) == Sum(m.pulls, OfPull(Any(g))) + Sum(Fulfilments(m.log), g) + Sum(Fulfilments(fx.audit), g)
    ensures Ledger(AfterCaller(m, b, fx), g)
  {
    SumsProject(m.log, fx.audit, g);
    SumConcat(m.intents, fx.intents, OfIntent(Any(g)));
  }

  lemma PostLedger(m: Machine, b: nat, call: OutboundCall, pick: nat, g: ByClaim)
    requires Ledger(m, g) && Enabled(m, Post(b, call, pick))
    ensures Ledger(Next(m, Post(b, call, pick)).value, g)
  {
    var fx := Outbound(m.callers[b], call, pick);
    if Known(m.callers[b], call.target) {
      OneEvent(fx.audit[0], g);
      SumOne(fx.intents[0], OfIntent(Any(g)));
    }
    CallerLedger(m, b, fx, g);
  }

  lemma PullLedger(m: Machine, i: nat, g: ByClaim)
    requires Wired(m) && Ledger(m, g) && Enabled(m, TakePull(i)) && Next(m, TakePull(i)).Some?
    ensures Ledger(Next(m, TakePull(i)).value, g)
  {
    var b := m.pulls[i].to;
    var fx := Fulfil(m.callers[b], m.pulls[i].pull).value;
    assert CallerWired(m, b);
    OneEvent(fx.audit[0], g);
    SumRemove(m.pulls, i, OfPull(Any(g)));
    CallerLedger(Less(m, TakePull(i)), b, fx, g);
  }

  lemma NextLedger(m: Machine, step: Step, g: ByClaim)
    requires Wired(m) && Ledger(m, g) && Enabled(m, step) && Next(m, step).Some?
    ensures Ledger(Next(m, step).value, g)
  {
    match step
    case Post(b, call, pick) => PostLedger(m, b, call, pick, g);
    case TakeIntent(i, r) => IntentLedger(m, i, r, g);
    case TakePull(i) => PullLedger(m, i, g);
    case TakeCall(i, r, duration, now) =>
      PullerLedger(Less(m, step), r, Arrive(m.pullers[r], m.calls[i].hop, duration, now), g);
    case EndService(i, r) => EndLedger(m, i, r, g);
  }
}

/** A sidecar with its replicas. Reports travel in order and may be late; still no replica ever gets more than it has
    slots for, provided that the two reports of an arrival are taken together. */
module SidecarRuns {
  import opened Domain
  import opened Sums
  import opened Sidecars

  /** What a replica reports, in order: the arrival of a pulled request together with the new level, a new level, or a
      completion. */
  datatype Report = Arrived(level: nat) | Level(level: nat) | Done

  /** A pull-only replica: its running services, the returned requests in its queue, its pulled requests that have not
      arrived yet, and its reports on their way to the sidecar. */
  datatype ReplicaView = ReplicaView(inFlight: nat, queued: nat, outstanding: nat, reports: seq<Report>)

  datatype Machine = Machine(sidecar: SidecarState, replicas: map<nat, ReplicaView>)

  datatype Step =
    | Intent(intent: PullIntent)
    | Arrive(r: nat)
    | Finish(r: nat, left: nat)
    | Return(r: nat, left: nat)
    | Deliver(r: nat)

  ghost predicate Enabled(m: Machine, step: Step)
  {
    match step
    case Intent(_) => true
    case Arrive(r) => r in m.replicas && m.replicas[r].outstanding > 0
    case Finish(r, left) => r in m.replicas && m.replicas[r].inFlight > 0 && left <= m.replicas[r].queued
    case Return(r, left) => r in m.replicas && left <= m.replicas[r].queued + 1
    case Deliver(r) => r in m.replicas && m.replicas[r].reports != []
  }

  /** The sidecar takes a report. An arrival is two messages of one handler, taken together. */
  function Take(s: SidecarState, r: nat, report: Report): Effects
  {
    match report
    case Arrived(level) => OnCapacityEvent(OnCapacityEvent(s, PullArrived(r)).sidecar, Occupancy(r, level))
    case Level(level) => OnCapacityEvent(s, Occupancy(r, level))
    case Done => OnCapacityEvent(s, Completed(r))
  }

  function PulledFor(r: nat): ReplicaPull -> int
  {
    (p: ReplicaPull) => if p.server == r then 1 else 0
  }

  /** The replicas that the sidecar has pulled for have one more request to come for each pull. */
  ghost predicate Credited(before: map<nat, ReplicaView>, pulls: seq<ReplicaPull>, after: map<nat, ReplicaView>)
  {
    && after.Keys == before.Keys
    && forall r :: r in before ==> Credit(before[r], pulls, r, after[r])
  }

  ghost predicate Credit(v: ReplicaView, pulls: seq<ReplicaPull>, r: nat, w: ReplicaView)
  {
    w == v.(outstanding := w.outstanding) && w.outstanding == v.outstanding + Sum(pulls, PulledFor(r))
  }

  ghost predicate Next(m: Machine, step: Step, n: Machine)
    requires Enabled(m, step)
  {
    match step
    case Intent(intent) =>
      var fx := ReceiveIntent(m.sidecar, intent);
      n.sidecar == fx.sidecar && Credited(m.replicas, fx.pulls, n.replicas)
    case Arrive(r) =>
      var v := m.replicas[r];
      n == m.(replicas := m.replicas[r := ReplicaView(v.inFlight + 1, v.queued, v.outstanding - 1,
                                                      v.reports + [Arrived(v.queued + v.inFlight + 1)])])
    case Finish(r, left) =>
      // The handler reports the level, the completion, and the level after it has worked on its queue.
      var v := m.replicas[r];
      n == m.(replicas := m.replicas[r := ReplicaView(v.inFlight - 1, left, v.outstanding,
                v.reports + [Level(v.queued + v.inFlight - 1), Done, Level(left + v.inFlight - 1)])])
    case Return(r, left) =>
      var v := m.replicas[r];
      n == m.(replicas := m.replicas[r := v.(queued := left, reports := v.reports + [Level(left + v.inFlight)])])
    case Deliver(r) =>
      var v := m.replicas[r];
      var fx := Take(m.sidecar, r, v.reports[0]);
      n.sidecar == fx.sidecar && Credited(m.replicas[r := v.(reports := v.reports[1..])], fx.pulls, n.replicas)
  }

  function Arrivals(reports: seq<Report>): nat
  {
    if reports == [] then 0 else (if reports[0].Arrived? then 1 else 0) + Arrivals(reports[1..])
  }

  function Believed(level: nat, report: Report): nat
  {
    if report.Done? then level else report.level
  }

  /** However many of the reports are taken, the level then believed and the arrivals then unreported cover what runs. */
  ghost predicate Covers(level: nat, reports: seq<Report>, inFlight: nat)
    decreases |reports|
  {
    && level + Arrivals(reports) >= inFlight
    && (reports != [] ==> Covers(Believed(level, reports[0]), reports[1..], inFlight))
  }

  ghost predicate ReplicaOk(s: SidecarState, r: nat, v: ReplicaView)
  {
    && r in s.pending && Pending(s, r) == v.outstanding + Arrivals(v.reports)
    && v.inFlight + v.outstanding <= Slots(s, r)
    && Covers(Occupied(s, r), v.reports, v.inFlight)
  }

  ghost predicate Safe(m: Machine)
  {
    forall r :: r in m.replicas ==> ReplicaOk(m.sidecar, r, m.replicas[r])
  }

  /** Intents wait only while every replica is full in the sidecar's view. */
  ghost predicate Busy(s: SidecarState)
  {
    s.intents != [] ==> forall r :: r in s.cfg.replicas ==> !HasCapacity(s, r)
  }

  // Draining

  /** Draining adds to a replica's pending count one for each pull, and only while there is room. */
  ghost predicate Drains(s: SidecarState, fx: Effects, pulls0: seq<ReplicaPull>, r: nat)
  {
    && fx.sidecar.cfg == s.cfg && fx.sidecar.occupancy == s.occupancy
    && (r in s.pending ==> r in fx.sidecar.pending)
    && Pending(fx.sidecar, r) - Sum(fx.pulls, PulledFor(r)) == Pending(s, r) - Sum(pulls0, PulledFor(r))
    && Pending(fx.sidecar, r) >= Pending(s, r)
    && (Pending(fx.sidecar, r) > Pending(s, r) ==> Occupied(s, r) + Pending(fx.sidecar, r) <= Slots(s, r))
    && |fx.sidecar.intents| <= |s.intents|
  }

  lemma DrainOne(fx: Effects, t: nat, r: nat)
    ensures Drains(fx.sidecar, DrainIntent(fx, t), fx.pulls, r)
  {
    var s := fx.sidecar;
    if HasCapacity(s, t) && s.intents != [] {
      SumAppend(fx.pulls, ReplicaPull(s.intents[0].senderId, t, s.intents[0].requestId), PulledFor(r));
    }
  }

  lemma {:induction false} DrainAll(fx: Effects, t: nat, r: nat)
    ensures Drains(fx.sidecar, DrainCapacity(fx, t), fx.pulls, r)
    ensures DrainCapacity(fx, t).sidecar.intents != [] ==> !HasCapacity(DrainCapacity(fx, t).sidecar, t)
    decreases |fx.sidecar.intents|
  {
    if HasCapacity(fx.sidecar, t) && fx.sidecar.intents != [] {
      DrainOne(fx, t, r);
      DrainAll(DrainIntent(fx, t), t, r);
    }
  }

  lemma {:induction false} DrainEach(fx: Effects, replicas: seq<nat>, r: nat)
    ensures Drains(fx.sidecar, DrainReplicas(fx, replicas), fx.pulls, r)
    ensures DrainReplicas(fx, replicas).sidecar.intents != [] && r in replicas ==> !HasCapacity(DrainReplicas(fx, replicas).sidecar, r)
    decreases |replicas|
  {
    if replicas != [] {
      DrainAll(fx, replicas[0], r);
      DrainEach(DrainCapacity(fx, replicas[0]), replicas[1..], r);
    }
  }

  /** A pull that the sidecar's view allows is one that the replica really has a slot for. */
  lemma PullsAreSafe(s: SidecarState, fx: Effects, r: nat, v: ReplicaView, w: ReplicaView)
    requires ReplicaOk(s, r, v) && Drains(s, fx, [], r)
    requires Credit(v, fx.pulls, r, w)
    ensures ReplicaOk(fx.sidecar, r, w)
  {
  }

  // Reports

  lemma {:induction false} ArrivalsAppend(a: seq<Report>, b: seq<Report>)
    ensures Arrivals(a + b) == Arrivals(a) + Arrivals(b)
  {
    if a == [] {
      assert a + b == b;
    } else {
      ArrivalsAppend(a[1..], b);
      assert (a + b)[1..] == a[1..] + b;
    }
  }

  lemma {:induction false} CoversLess(level: nat, a: seq<Report>, inFlight: nat, after: nat)
    requires Covers(level, a, inFlight) && after <= inFlight
    ensures Covers(level, a, after)
    decreases |a|
  {
    if a != [] {
      CoversLess(Believed(level, a[0]), a[1..], inFlight, after);
    }
  }

  /** A report that tells at least what runs, or that tells of one more, keeps what runs covered. */
  lemma {:induction false} CoversAppend(level: nat, a: seq<Report>, b: Report, inFlight: nat, after: nat)
    requires Covers(level, a, inFlight)
    requires after <= inFlight + Arrivals([b]) && (!b.Done? ==> b.level >= after)
    ensures Covers(level, a + [b], after)
    decreases |a|
  {
    ArrivalsAppend(a, [b]);
    assert [b][1..] == [];
    if a == [] {
      assert a + [b] == [b];
    } else {
      assert (a + [b])[1..] == a[1..] + [b] && (a + [b])[0] == a[0];
      CoversAppend(Believed(level, a[0]), a[1..], b, inFlight, after);
    }
  }

  lemma ReportSafe(s: SidecarState, r: nat, v: ReplicaView, report: Report)
    requires ReplicaOk(s, r, v) && !report.Arrived? && (report.Level? ==> report.level >= v.inFlight)
    ensures ReplicaOk(s, r, v.(reports := v.reports + [report]))
  {
    ArrivalsAppend(v.reports, [report]);
    CoversAppend(Occupied(s, r), v.reports, report, v.inFlight, v.inFlight);
  }

  lemma ArriveSafe(s: SidecarState, r: nat, v: ReplicaView)
    requires ReplicaOk(s, r, v) && v.outstanding > 0
    ensures ReplicaOk(s, r, ReplicaView(v.inFlight + 1, v.queued, v.outstanding - 1,
                                        v.reports + [Arrived(v.queued + v.inFlight + 1)]))
  {
    var b := Arrived(v.queued + v.inFlight + 1);
    ArrivalsAppend(v.reports, [b]);
    CoversAppend(Occupied(s, r), v.reports, b, v.inFlight, v.inFlight + 1);
  }

  lemma FinishSafe(s: SidecarState, r: nat, v: ReplicaView, left: nat)
    requires ReplicaOk(s, r, v) && v.inFlight > 0
    ensures ReplicaOk(s, r, ReplicaView(v.inFlight - 1, left, v.outstanding,
                              v.reports + [Level(v.queued + v.inFlight - 1), Done, Level(left + v.inFlight - 1)]))
  {
    CoversLess(Occupied(s, r), v.reports, v.inFlight, v.inFlight - 1);
    var v0 := ReplicaView(v.inFlight - 1, left, v.outstanding, v.reports);
    var first, last := Level(v.queued + v.inFlight - 1), Level(left + v.inFlight - 1);
    ReportSafe(s, r, v0, first);
    var v1 := v0.(reports := v0.reports + [first]);
    ReportSafe(s, r, v1, Done);
    var v2 := v1.(reports := v1.reports + [Done]);
    ReportSafe(s, r, v2, last);
    assert v2.reports + [last] == v.reports + [first, Done, last];
  }

  lemma ReturnSafe(s: SidecarState, r: nat, v: ReplicaView, left: nat)
    requires ReplicaOk(s, r, v)
    ensures ReplicaOk(s, r, v.(queued := left, reports := v.reports + [Level(left + v.inFlight)]))
  {
    ReportSafe(s, r, v.(queued := left), Level(left + v.inFlight));
  }

  /** Taking the first report leaves the sidecar's view right for the rest. */
  lemma TakeSafe(s: SidecarState, t: nat, v: ReplicaView, r: nat, u: ReplicaView)
    requires ReplicaOk(s, t, v) && v.reports != [] && ReplicaOk(s, r, u) && (r == t ==> u == v)
    ensures var fx := Take(s, t, v.reports[0]);
            var rest := if r == t then v.(reports := v.reports[1..]) else u;
            forall w: ReplicaView :: Credit(rest, fx.pulls, r, w) ==> ReplicaOk(fx.sidecar, r, w)
  {
    var rest := if r == t then v.(reports := v.reports[1..]) else u;
    var seen := match v.reports[0]
      case Arrived(level) => OnCapacityEvent(s, PullArrived(t)).sidecar.(occupancy := s.occupancy[t := level])
      case Level(level) => s.(occupancy := s.occupancy[t := level])
      case Done => s;
    assert ReplicaOk(seen, r, rest);
    DrainAll(Effects(seen, []), t, r);
    forall w: ReplicaView | Credit(rest, Take(s, t, v.reports[0]).pulls, r, w)
      ensures ReplicaOk(Take(s, t, v.reports[0]).sidecar, r, w)
    {
      PullsAreSafe(seen, Take(s, t, v.reports[0]), r, rest, w);
    }
  }

  lemma IntentSafe(m: Machine, intent: PullIntent, n: Machine, r: nat)
    requires Safe(m) && Next(m, Intent(intent), n) && r in n.replicas
    ensures ReplicaOk(n.sidecar, r, n.replicas[r])
  {
    var s := m.sidecar.(intents := Enqueue(m.sidecar.intents, intent, m.sidecar.cfg.edf));
    DrainEach(Effects(s, []), s.cfg.replicas, r);
    assert ReplicaOk(m.sidecar, r, m.replicas[r]);
    assert ReplicaOk(s, r, m.replicas[r]);
    PullsAreSafe(s, ReceiveIntent(m.sidecar, intent), r, m.replicas[r], n.replicas[r]);
  }

  lemma DeliverSafe(m: Machine, t: nat, n: Machine, r: nat)
    requires Safe(m) && Enabled(m, Deliver(t)) && Next(m, Deliver(t), n) && r in n.replicas
    ensures ReplicaOk(n.sidecar, r, n.replicas[r])
  {
    assert ReplicaOk(m.sidecar, r, m.replicas[r]) && ReplicaOk(m.sidecar, t, m.replicas[t]);
    TakeSafe(m.sidecar, t, m.replicas[t], r, m.replicas[r]);
  }

  /** Safety: a replica's running services and the requests on their way to it never exceed its slots, although the
      sidecar acts on late reports. */
  lemma NextSafe(m: Machine, step: Step, n: Machine)
    requires Safe(m) && Enabled(m, step) && Next(m, step, n)
    ensures Safe(n)
  {
    forall r | r in n.replicas ensures ReplicaOk(n.sidecar, r, n.replicas[r]) {
      match step
      case Intent(intent) => IntentSafe(m, intent, n, r);
      case Deliver(t) => DeliverSafe(m, t, n, r);
      case Arrive(t) =>
        assert ReplicaOk(m.sidecar, r, m.replicas[r]);
        if t == r { ArriveSafe(m.sidecar, r, m.replicas[r]); }
      case Finish(t, left) =>
        assert ReplicaOk(m.sidecar, r, m.replicas[r]);
        if t == r { FinishSafe(m.sidecar, r, m.replicas[r], left); }
      case Return(t, left) =>
        assert ReplicaOk(m.sidecar, r, m.replicas[r]);
        if t == r { ReturnSafe(m.sidecar, r, m.replicas[r], left); }
    }
  }

  /** Progress: after every step intents are left waiting only if the sidecar sees every replica full. */
  lemma NextBusy(m: Machine, step: Step, n: Machine)
    requires Safe(m) && Busy(m.sidecar) && Enabled(m, step) && Next(m, step, n)
    ensures Busy(n.sidecar) && n.sidecar.cfg == m.sidecar.cfg
  {
    match step {
      case Intent(intent) =>
        var s := m.sidecar.(intents := Enqueue(m.sidecar.intents, intent, m.sidecar.cfg.edf));
        DrainEach(Effects(s, []), s.cfg.replicas, 0);
        forall r | r in s.cfg.replicas && n.sidecar.intents != [] ensures !HasCapacity(n.sidecar, r) {
          DrainEach(Effects(s, []), s.cfg.replicas, r);
        }
      case Deliver(t) =>
        assert ReplicaOk(m.sidecar, t, m.replicas[t]);
        DeliverBusy(m.sidecar, t, m.replicas[t].reports[0]);
      case _ =>
    }
  }

  lemma DeliverBusy(s: SidecarState, t: nat, report: Report)
    requires Busy(s) && t in s.pending
    ensures Busy(Take(s, t, report).sidecar) && Take(s, t, report).sidecar.cfg == s.cfg
  {
    var seen := match report
      case Arrived(level) => OnCapacityEvent(s, PullArrived(t)).sidecar.(occupancy := s.occupancy[t := level])
      case Level(level) => s.(occupancy := s.occupancy[t := level])
      case Done => s;
    var n := Take(s, t, report).sidecar;
    DrainAll(Effects(seen, []), t, t);
    forall r | r in s.cfg.replicas && n.intents != [] ensures !HasCapacity(n, r) {
      DrainAll(Effects(seen, []), t, r);
    }
  }

  // Whole runs

  ghost predicate Initial(m: Machine)
  {
    && m.sidecar.intents == []
    && forall r :: r in m.replicas ==>
         m.replicas[r] == ReplicaView(0, 0, 0, []) && r in m.sidecar.pending && m.sidecar.pending[r] == 0
  }

  ghost predicate Run(states: seq<Machine>, steps: seq<Step>)
  {
    && |states| == |steps| + 1 && Initial(states[0])
    && forall i :: 0 <= i < |steps| ==> Enabled(states[i], steps[i]) && Next(states[i], steps[i], states[i + 1])
  }

  lemma {:induction false} EveryRunIsSafe(states: seq<Machine>, steps: seq<Step>, k: nat)
    requires Run(states, steps) && k <= |steps|
    ensures Safe(states[k]) && Busy(states[k].sidecar)
  {
    if k > 0 {
      EveryRunIsSafe(states, steps, k - 1);
      NextSafe(states[k - 1], steps[k - 1], states[k]);
      NextBusy(states[k - 1], steps[k - 1], states[k]);
    }
  }

  /** In every state of every run a replica runs and expects at most as much as it has slots for, and no intent waits
      while the sidecar sees a free slot. */
  lemma NeverOverbooked(states: seq<Machine>, steps: seq<Step>, k: nat, r: nat)
    requires Run(states, steps) && k <= |steps| && r in states[k].replicas
    ensures states[k].replicas[r].inFlight + states[k].replicas[r].outstanding <= Slots(states[k].sidecar, r)
    ensures states[k].sidecar.intents != [] && r in states[k].sidecar.cfg.replicas ==> !HasCapacity(states[k].sidecar, r)
  {
    EveryRunIsSafe(states, steps, k);
    assert ReplicaOk(states[k].sidecar, r, states[k].replicas[r]);
  }

  // Why the two reports of an arrival must be taken together

  /** What a replica has free in the sidecar's view. */
  function Room(s: SidecarState, r: nat): nat
  {
    SaturatingSub(Slots(s, r), Occupied(s, r) + Pending(s, r))
  }

  /** What the replicas before `r` in the list have free. */
  function RoomBefore(s: SidecarState, replicas: seq<nat>, r: nat): nat
  {
    if replicas == [] || replicas[0] == r then 0 else Room(s, replicas[0]) + RoomBefore(s, replicas[1..], r)
  }

  ghost predicate KnownSenders(s: SidecarState, intents: seq<PullIntent>)
  {
    forall i :: 0 <= i < |intents| ==> intents[i].senderId in s.cfg.senders
  }

  ghost predicate DistinctReplicas(replicas: seq<nat>)
  {
    forall i, j :: 0 <= i < j < |replicas| ==> replicas[i] != replicas[j]
  }

  /** Draining for one replica takes as many intents as it has room for, or all, and changes no other replica's room. */
  ghost predicate Takes(fx: Effects, t: nat, n: nat, after: Effects)
  {
    && after.sidecar.cfg == fx.sidecar.cfg && |after.sidecar.intents| == |fx.sidecar.intents| - n
    && KnownSenders(after.sidecar, after.sidecar.intents)
    && (forall r :: Sum(after.pulls, PulledFor(r)) == Sum(fx.pulls, PulledFor(r)) + if r == t then n else 0)
    && (forall r :: r != t ==> Room(after.sidecar, r) == Room(fx.sidecar, r))
  }

  lemma TakesOne(fx: Effects, t: nat)
    requires KnownSenders(fx.sidecar, fx.sidecar.intents) && HasCapacity(fx.sidecar, t) && fx.sidecar.intents != []
    ensures Takes(fx, t, 1, DrainIntent(fx, t))
    ensures Room(DrainIntent(fx, t).sidecar, t) == Room(fx.sidecar, t) - 1
  {
    var s := fx.sidecar;
    var pull := ReplicaPull(s.intents[0].senderId, t, s.intents[0].requestId);
    forall r ensures Sum(DrainIntent(fx, t).pulls, PulledFor(r)) == Sum(fx.pulls, PulledFor(r)) + if r == t then 1 else 0 {
      SumAppend(fx.pulls, pull, PulledFor(r));
    }
  }

  lemma {:induction false} TakesAll(fx: Effects, t: nat)
    requires KnownSenders(fx.sidecar, fx.sidecar.intents)
    ensures Takes(fx, t, Min(Room(fx.sidecar, t), |fx.sidecar.intents|), DrainCapacity(fx, t))
    decreases |fx.sidecar.intents|
  {
    if HasCapacity(fx.sidecar, t) && fx.sidecar.intents != [] {
      TakesOne(fx, t);
      TakesAll(DrainIntent(fx, t), t);
    }
  }

  lemma {:induction false} SameRoomBefore(s: SidecarState, after: SidecarState, t: nat, replicas: seq<nat>, r: nat)
    requires t !in replicas && forall q :: q != t ==> Room(after, q) == Room(s, q)
    ensures RoomBefore(after, replicas, r) == RoomBefore(s, replicas, r)
  {
    if replicas != [] && replicas[0] != r {
      SameRoomBefore(s, after, t, replicas[1..], r);
    }
  }

  /** Draining a list of replicas pulls for `r` what is left over by those before it, as far as it has room. */
  lemma {:induction false} PulledCount(fx: Effects, replicas: seq<nat>, r: nat)
    requires KnownSenders(fx.sidecar, fx.sidecar.intents) && DistinctReplicas(replicas)
    ensures Sum(DrainReplicas(fx, replicas).pulls, PulledFor(r))
         == Sum(fx.pulls, PulledFor(r))
            + if r in replicas then Min(Room(fx.sidecar, r), SaturatingSub(|fx.sidecar.intents|, RoomBefore(fx.sidecar, replicas, r)))
              else 0
    decreases |replicas|
  {
    if replicas != [] {
      var t, rest := replicas[0], replicas[1..];
      var next := DrainCapacity(fx, t);
      TakesAll(fx, t);
      PulledCount(next, rest, r);
      forall i | 0 <= i < |rest| ensures rest[i] != t {
        assert rest[i] == replicas[i + 1];
      }
      SameRoomBefore(fx.sidecar, next.sidecar, t, rest, r);
      assert r in replicas <==> r == t || r in rest;
    }
  }

  lemma EnqueueKnown(s: SidecarState, intent: PullIntent)
    requires KnownSenders(s, s.intents) && intent.senderId in s.cfg.senders
    ensures var q := Enqueue(s.intents, intent, s.cfg.edf); |q| == |s.intents| + 1 && KnownSenders(s, q)
  {
  }

  /** The replica runs, or has been promised, more than it has slots for. */
  ghost predicate Overbooked(s: SidecarState, r: nat, v: ReplicaView, pulls: seq<ReplicaPull>)
  {
    v.inFlight + v.outstanding + Sum(pulls, PulledFor(r)) > Slots(s, r)
  }

  /** An intent that comes between the two reports of an arrival at replica `r`. The sidecar no longer counts the pull and
      does not count the request yet. Exactly when is the replica overbooked: when its requests, and the intents that the
      replicas before it leave over, as far as the stale view has room for them, exceed its slots. */
  lemma SplitArrival(s: SidecarState, r: nat, v: ReplicaView, intent: PullIntent)
    requires r in s.cfg.replicas && DistinctReplicas(s.cfg.replicas)
    requires KnownSenders(s, s.intents) && intent.senderId in s.cfg.senders
    ensures var between := OnCapacityEvent(s, PullArrived(r)).sidecar;
            var leftOver := SaturatingSub(|s.intents| + 1, RoomBefore(between, s.cfg.replicas, r));
            Overbooked(s, r, v, ReceiveIntent(between, intent).pulls) <==>
              v.inFlight + v.outstanding + Min(Room(between, r), leftOver) > Slots(s, r)
  {
    var between := OnCapacityEvent(s, PullArrived(r)).sidecar;
    EnqueueKnown(between, intent);
    var queued := between.(intents := Enqueue(between.intents, intent, between.cfg.edf));
    PulledCount(Effects(queued, []), between.cfg.replicas, r);
    SameRooms(between, queued, between.cfg.replicas, r);
  }

  lemma {:induction false} SameRooms(s: SidecarState, after: SidecarState, replicas: seq<nat>, r: nat)
    requires after == s.(intents := after.intents)
    ensures RoomBefore(after, replicas, r) == RoomBefore(s, replicas, r)
  {
    if replicas != [] && replicas[0] != r {
      SameRooms(s, after, replicas[1..], r);
    }
  }

  /** So a replica of one slot, running the request it has pulled, is sent a second one. */
  lemma SplitArrivalOverbooks(s: SidecarState, intent: PullIntent)
    requires s.cfg.replicas == [0] && s.intents == [] && s.pending == map[0 := 1] && s.occupancy == map[0 := 0]
    requires Slots(s, 0) == 1 && intent.senderId in s.cfg.senders
    ensures var between := OnCapacityEvent(s, PullArrived(0)).sidecar;
            Overbooked(s, 0, ReplicaView(1, 0, 0, []), ReceiveIntent(between, intent).pulls)
  {
    SplitArrival(s, 0, ReplicaView(1, 0, 0, []), intent);
  }
}

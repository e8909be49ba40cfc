/** The AmphiQueue protocol between replicas over whole runs: safety, an end to every run, and audits that accept it. */
module ReplicaPullResults {
  import opened Domain
  import opened Sums
  import opened Replicas
  import opened ReplicaPulls
  import opened ReplicaPullRuns
  import opened ReplicaPullSafety
  import opened QueueReplays
  import opened ReplicaPullAudit
  import opened ReplicaPullLogs

  ghost predicate AllLoadsExact(m: Machine)
  {
    forall b: nat, t: string, server: nat :: b < |m.callers| ==> LoadExact(m, b, t, server)
  }

  ghost predicate AllLedgers(m: Machine)
  {
    forall g: ByClaim :: Ledger(m, g)
  }

  ghost predicate Good(m: Machine)
  {
    && Wired(m) && AllBalanced(m) && AllLoadsExact(m) && AllSlotsExact(m)
    && Logged(m) && Marked(m.log, m.sched) && AllLedgers(m)
  }

  ghost predicate Idle(s: PullerState)
  {
    s.inFlight == 0 && s.pending == 0 && s.intents == []
  }

  ghost predicate Fresh(c: CallerState)
  {
    (forall t :: CallsTo(c, t) == []) && (forall t: string, server: nat :: LoadAt(c, t, server) == 0)
  }

  ghost predicate Initial(m: Machine)
  {
    && Wired(m) && m.intents == [] && m.pulls == [] && m.calls == [] && m.running == [] && m.log == []
    && (forall b :: 0 <= b < |m.callers| ==> Fresh(m.callers[b]))
    && (forall r :: 0 <= r < |m.pullers| ==> Idle(m.pullers[r]))
  }

  lemma NoClaims(m: Machine, f: Weight)
    requires m.intents == [] && m.pulls == [] && forall r :: 0 <= r < |m.pullers| ==> m.pullers[r].intents == []
    ensures Claims(m, f) == 0 && Sum(m.pullers, OfPuller(f)) == 0
  {
    SumZero(m.pullers, OfPuller(f));
  }

  lemma InitialCounts(m: Machine)
    requires Initial(m)
    ensures AllBalanced(m) && AllLoadsExact(m) && AllLedgers(m) && AllSlotsExact(m) && AllBusy(m)
  {
    forall b: nat, t: string, h: ByRequest ensures Balanced(m, b, t, h) {
      NoClaims(m, On(b, t, h));
    }
    forall b: nat, t: string, server: nat | b < |m.callers| ensures LoadExact(m, b, t, server) {
      assert Fresh(m.callers[b]);
      NoClaims(m, Via(b, Address(t, server)));
    }
    forall g: ByClaim ensures Ledger(m, g) {
      NoClaims(m, Any(g));
    }
    forall r | 0 <= r < |m.pullers| ensures SlotsExact(m, r) && Busy(m.pullers[r]) {
      assert Idle(m.pullers[r]) && PullerWired(m, r);
    }
  }

  lemma InitialGood(m: Machine)
    requires Initial(m)
    ensures Good(m) && AllBusy(m)
  {
    InitialCounts(m);
    forall r | 0 <= r < |m.pullers| ensures PullerLogged(m.log, m.pullers[r], m.sched) {
      assert Idle(m.pullers[r]);
      assert QueuedIntents(m.pullers[r].intents) == [];
    }
    assert QueuedIntents([]) == [];
    forall b: nat, t: string ensures CallsLogged(m.log, b, t, QueueOf(m, b, t), m.sched) {
      assert b < |m.callers| ==> Fresh(m.callers[b]);
      assert QueuedCalls(QueueOf(m, b, t)) == [];
    }
  }

  lemma NextCounts(m: Machine, step: Step)
    requires Good(m) && Enabled(m, step) && Next(m, step).Some?
    ensures var n := Next(m, step).value; AllBalanced(n) && AllLoadsExact(n) && AllLedgers(n)
  {
    var n := Next(m, step).value;
    NextWired(m, step);
    CallersNext(m, step, 0);
    forall b: nat, t: string, h: ByRequest | n.sched.Bound? || Counts(h) ensures Balanced(n, b, t, h) {
      assert Balanced(m, b, t, h);
      NextBalanced(m, step, b, t, h);
    }
    forall b: nat, t: string, server: nat | b < |n.callers| ensures LoadExact(n, b, t, server) {
      assert LoadExact(m, b, t, server);
      NextLoadExact(m, step, b, t, server);
    }
    forall g: ByClaim ensures Ledger(n, g) {
      assert Ledger(m, g);
      NextLedger(m, step, g);
    }
  }

  /** Every step that can be made succeeds, and keeps all of it. */
  lemma NextGood(m: Machine, step: Step)
    requires Good(m) && Enabled(m, step)
    ensures Next(m, step).Some? && Good(Next(m, step).value)
    ensures AllBusy(m) && Timed(m, step) ==> AllBusy(Next(m, step).value)
  {
    NeverAborts(m, step);
    NextWired(m, step);
    NextCounts(m, step);
    NextSlots(m, step);
    NextLogged(m, step);
    NextMarked(m, step);
  }

  // Whole runs

  ghost predicate Leads(m: Machine, step: Step, n: Machine)
  {
    Enabled(m, step) && Next(m, step) == Some(n)
  }

  ghost predicate Run(states: seq<Machine>, steps: seq<Step>)
  {
    && |states| == |steps| + 1 && Initial(states[0])
    && forall i {:trigger steps[i]} :: 0 <= i < |steps| ==> Leads(states[i], steps[i], states[i + 1])
  }

  /** Every call that comes to a server has a service time there. */
  ghost predicate TimedRun(states: seq<Machine>, steps: seq<Step>)
  {
    Run(states, steps) && forall i {:trigger steps[i]} :: 0 <= i < |steps| ==> Timed(states[i], steps[i])
  }

  lemma {:induction false} EveryRunIsGood(states: seq<Machine>, steps: seq<Step>, k: nat)
    requires Run(states, steps) && k <= |steps|
    ensures Good(states[k])
    ensures TimedRun(states, steps) ==> AllBusy(states[k])
  {
    if k == 0 {
      InitialGood(states[0]);
    } else {
      EveryRunIsGood(states, steps, k - 1);
      NextGood(states[k - 1], steps[k - 1]);
    }
  }

  /** No pull ever aborts: whatever is due next in any run succeeds. */
  lemma EveryPullIsAnswered(states: seq<Machine>, steps: seq<Step>, k: nat, step: Step)
    requires Run(states, steps) && k <= |steps| && Enabled(states[k], step)
    ensures Next(states[k], step).Some?
  {
    EveryRunIsGood(states, steps, k);
    NeverAborts(states[k], step);
  }

  /** In every state of every run a replica's services and promises are exact and fit its slots, and its announced load is
      what each balancer believes. */
  lemma EveryRunIsSafe(states: seq<Machine>, steps: seq<Step>, k: nat, r: nat, b: nat)
    requires Run(states, steps) && k <= |steps| && r < |states[k].pullers| && b < |states[k].callers|
    ensures var (m, at) := (states[k], states[k].pullers[r].cfg.at);
            && m.pullers[r].inFlight + m.pullers[r].pending <= m.pullers[r].cfg.slots
            && m.pullers[r].inFlight == Sum(m.running, AtHost(at))
            && LoadAt(m.callers[b], at.microservice, at.server) == Claims(m, Via(b, at))
  {
    EveryRunIsGood(states, steps, k);
    assert SlotsExact(states[k], r);
    var at := states[k].pullers[r].cfg.at;
    assert LoadExact(states[k], b, at.microservice, at.server);
  }

  // An end to every run

  function Ones(): Weight { (_: nat, _: Address, _: nat) => 1 }

  /** What remains to be done for the calls that have been announced. */
  ghost function Remaining(m: Machine): int
  {
    Sum(m.intents, OfIntent(Ones())) + 3 * Claims(m, Ones()) + 2 * |m.calls| + |m.running|
  }

  /** Calls that have been announced and not yet been served. */
  ghost function Unserved(m: Machine): int
  {
    Claims(m, Ones()) + |m.calls| + |m.running|
  }

  lemma OnesCount(s: seq<IntentTo>)
    ensures Sum(s, OfIntent(Ones())) == |s|
  {
    SumConstant(s, OfIntent(Ones()), 1);
  }

  lemma AnnouncedNext(m: Machine, step: Step)
    requires Enabled(m, step) && Next(m, step).Some?
    ensures |Announcements(Next(m, step).value.log)| == |Announcements(m.log)| + if step.Post? then Change(m, step, Ones()) else 0
  {
    match step
    case Post(b, call, pick) => Grown(m.log, Outbound(m.callers[b], call, pick).audit);
    case TakeIntent(i, r) => Grown(m.log, ReceiveIntent(m.pullers[r], m.intents[i].intent).audit);
    case TakePull(i) => Grown(m.log, Fulfil(m.callers[m.pulls[i].to], m.pulls[i].pull).value.audit);
    case TakeCall(i, r, duration, now) => Grown(m.log, Arrive(m.pullers[r], m.calls[i].hop, duration, now).audit);
    case EndService(i, r) => Grown(m.log, Finish(m.pullers[r]).audit);
  }

  lemma GrownByOne(log: seq<AuditEvent>, e: AuditEvent)
    ensures |Announcements(log + [e])| == |Announcements(log)| + if e.Announced? then 1 else 0
  {
    ProjectAppend(log, e, AnnouncedClaim);
  }

  lemma Grown(log: seq<AuditEvent>, audit: seq<AuditEvent>)
    requires |audit| <= 2 && (|audit| == 2 ==> !audit[1].Announced?)
    ensures |Announcements(log + audit)| == |Announcements(log)| + if audit != [] && audit[0].Announced? then 1 else 0
  {
    if audit == [] {
      assert log + audit == log;
    } else {
      GrownByOne(log, audit[0]);
      if |audit| == 2 {
        GrownByOne(log + [audit[0]], audit[1]);
        assert log + audit == log + [audit[0]] + [audit[1]];
      } else {
        assert log + audit == log + [audit[0]];
      }
    }
  }

  /** What a step does to the numbers of messages and services. */
  lemma Flow(m: Machine, step: Step)
    requires Wired(m) && Enabled(m, step) && Next(m, step).Some?
    ensures var n := Next(m, step).value;
            && |n.intents| == |m.intents|
                 + (if step.Post? then Change(m, step, Ones()) else if step.TakeIntent? then -1 else 0)
            && |n.calls| == |m.calls| + (if step.TakePull? then 1 else if step.TakeCall? then -1 else 0)
            && (if step.TakeCall? then |m.running| <= |n.running| <= |m.running| + 1
                else |n.running| == |m.running| - if step.EndService? then 1 else 0)
            && (step.TakeCall? && Timed(m, step) ==> |n.running| == |m.running| + 1)
  {
    match step
    case Post(b, call, pick) => PostFlow(m, b, call, pick);
    case TakeIntent(i, r) => NothingBegun(m.pullers[r], m.intents[i].intent);
    case TakePull(i) => assert |Fulfil(m.callers[m.pulls[i].to], m.pulls[i].pull).value.calls| == 1;
    case TakeCall(i, r, duration, now) => assert |Arrive(m.pullers[r], m.calls[i].hop, duration, now).begun| <= 1;
    case EndService(i, r) => NothingBegun(m.pullers[r], PullIntent(0, 0, 0));
  }

  lemma PostFlow(m: Machine, b: nat, call: OutboundCall, pick: nat)
    requires Enabled(m, Post(b, call, pick))
    ensures |Outbound(m.callers[b], call, pick).intents| == Change(m, Post(b, call, pick), Ones())
    ensures Outbound(m.callers[b], call, pick).calls == []
  {
  }

  lemma NothingBegun(s: PullerState, intent: PullIntent)
    ensures ReceiveIntent(s, intent).begun == [] && Finish(s).begun == []
  {
  }

  /** Every step but a new call brings the end nearer; calls are lost only where they have no service time. */
  lemma NextRemaining(m: Machine, step: Step)
    requires Wired(m) && Enabled(m, step) && Next(m, step).Some?
    ensures var n := Next(m, step).value;
            var made := |Announcements(n.log)| - |Announcements(m.log)|;
            && (if step.Post? then Remaining(n) == Remaining(m) + 4 * made else made == 0 && Remaining(n) < Remaining(m))
            && (Timed(m, step) ==> Unserved(n) == Unserved(m) + made - if step.EndService? then 1 else 0)
  {
    NextClaims(m, step, Ones());
    AnnouncedNext(m, step);
    OnesCount(m.intents);
    OnesCount(Next(m, step).value.intents);
    Flow(m, step);
  }

  /** Services that have ended, and messages and services that have been handled, in the first `k` steps. */
  function Ends(steps: seq<Step>, k: nat): nat
    requires k <= |steps|
  {
    if k == 0 then 0 else Ends(steps, k - 1) + if steps[k - 1].EndService? then 1 else 0
  }

  function Handled(steps: seq<Step>, k: nat): nat
    requires k <= |steps|
  {
    if k == 0 then 0 else Handled(steps, k - 1) + if steps[k - 1].Post? then 0 else 1
  }

  /** What the announced calls have used up of the four steps each, and how many of them have been served. */
  ghost function Used(m: Machine): int
  {
    4 * |Announcements(m.log)| - Remaining(m)
  }

  ghost function Served(m: Machine): int
  {
    |Announcements(m.log)| - Unserved(m)
  }

  ghost predicate UsedBy(m: Machine, step: Step, n: Machine, timed: bool)
  {
    && Used(n) >= Used(m) + (if step.Post? then 0 else 1)
    && (timed ==> Served(n) == Served(m) + if step.EndService? then 1 else 0)
  }

  ghost predicate Advancing(states: seq<Machine>, steps: seq<Step>, timed: bool)
  {
    && |states| == |steps| + 1
    && forall i {:trigger steps[i]} :: 0 <= i < |steps| ==> UsedBy(states[i], steps[i], states[i + 1], timed)
  }

  lemma EveryRunAdvances(states: seq<Machine>, steps: seq<Step>, timed: bool)
    requires Run(states, steps) && (timed ==> TimedRun(states, steps))
    ensures Advancing(states, steps, timed) && Used(states[0]) == 0 && Served(states[0]) == 0
  {
    forall i {:trigger steps[i]} | 0 <= i < |steps| ensures UsedBy(states[i], steps[i], states[i + 1], timed) {
      EveryRunIsGood(states, steps, i);
      assert Leads(states[i], steps[i], states[i + 1]) && (timed ==> Timed(states[i], steps[i]));
      NextRemaining(states[i], steps[i]);
    }
    InitialRemaining(states[0]);
  }

  lemma {:induction false} Progress(states: seq<Machine>, steps: seq<Step>, k: nat, timed: bool)
    requires Advancing(states, steps, timed) && k <= |steps|
    ensures Used(states[k]) >= Used(states[0]) + Handled(steps, k)
    ensures timed ==> Served(states[k]) == Served(states[0]) + Ends(steps, k)
  {
    if k > 0 {
      Progress(states, steps, k - 1, timed);
      assert UsedBy(states[k - 1], steps[k - 1], states[k], timed);
    }
  }

  lemma InitialRemaining(m: Machine)
    requires Initial(m)
    ensures Remaining(m) == 0 && Unserved(m) == 0 && Announcements(m.log) == []
  {
    assert forall r :: 0 <= r < |m.pullers| ==> Idle(m.pullers[r]);
    NoClaims(m, Ones());
  }

  lemma RemainingIsNatural(m: Machine)
    ensures Remaining(m) >= 0
  {
    NonNegativeClaims(Ones());
    SumNonNegative(m.intents, OfIntent(Ones()));
    SumNonNegative(m.pullers, OfPuller(Ones()));
    SumNonNegative(m.pulls, OfPull(Ones()));
  }

  /** A run handles at most four messages and services for each announced call. */
  lemma EveryRunEnds(states: seq<Machine>, steps: seq<Step>)
    requires Run(states, steps)
    ensures Handled(steps, |steps|) <= 4 * |Announcements(states[|steps|].log)|
  {
    EveryRunAdvances(states, steps, false);
    Progress(states, steps, |steps|, false);
    RemainingIsNatural(states[|steps|]);
  }

  /** Nothing is on its way, running or waiting. */
  ghost predicate Settled(m: Machine)
  {
    && m.intents == [] && m.pulls == [] && m.calls == [] && m.running == []
    && (forall r :: 0 <= r < |m.pullers| ==> Idle(m.pullers[r]))
    && (forall b: nat, t: string :: QueueOf(m, b, t) == [])
  }

  /** Nothing can happen unless a new call comes. */
  ghost predicate Stuck(m: Machine)
  {
    forall step :: Enabled(m, step) ==> step.Post?
  }

  lemma SomethingIsDue(m: Machine) returns (step: Step)
    requires Good(m) && (m.intents != [] || m.pulls != [] || m.calls != [] || m.running != [])
    ensures Enabled(m, step) && !step.Post?
  {
    if m.intents != [] {
      assert HasPuller(m, m.intents[0].to);
      var r :| 0 <= r < |m.pullers| && m.pullers[r].cfg.at == m.intents[0].to;
      step := TakeIntent(0, r);
    } else if m.pulls != [] {
      step := TakePull(0);
    } else if m.calls != [] {
      assert HasPuller(m, m.calls[0].to);
      var r :| 0 <= r < |m.pullers| && m.pullers[r].cfg.at == m.calls[0].to;
      step := TakeCall(0, r, 0, 0);
    } else {
      assert HasPuller(m, m.running[0].host);
      var r :| 0 <= r < |m.pullers| && m.pullers[r].cfg.at == m.running[0].host;
      step := EndService(0, r);
    }
  }

  lemma StuckIsEmpty(m: Machine)
    requires Good(m) && Stuck(m)
    ensures m.intents == [] && m.pulls == [] && m.calls == [] && m.running == []
  {
    if m.intents != [] || m.pulls != [] || m.calls != [] || m.running != [] {
      var step := SomethingIsDue(m);
    }
  }

  lemma NothingQueued(m: Machine, b: nat, t: string)
    requires AllBalanced(m) && m.intents == [] && m.pulls == [] && forall r :: 0 <= r < |m.pullers| ==> m.pullers[r].intents == []
    ensures QueueOf(m, b, t) == []
  {
    assert Balanced(m, b, t, Each());
    NoClaims(m, On(b, t, Each()));
    SumConstant(QueueOf(m, b, t), OfCall(Each()), 1);
  }

  /** A run that cannot go on has served every call that was announced, and left nothing behind. */
  lemma StuckMeansServed(states: seq<Machine>, steps: seq<Step>)
    requires TimedRun(states, steps) && Stuck(states[|steps|])
    ensures Settled(states[|steps|])
    ensures Ends(steps, |steps|) == |Announcements(states[|steps|].log)|
  {
    var m := states[|steps|];
    EveryRunIsGood(states, steps, |steps|);
    StuckIsEmpty(m);
    SettledIffBusy(states, steps);
    EveryRunAdvances(states, steps, true);
    Progress(states, steps, |steps|, true);
    NoClaims(m, Ones());
  }

  // Calls without a service time

  /** A call is dropped where its endpoint has no service time, while intents wait at that server. */
  ghost predicate Strands(m: Machine, step: Step)
    requires Enabled(m, step)
  {
    step.TakeCall? && !Timed(m, step) && m.pullers[step.r].intents != []
  }

  /** A step leaves intents waiting beside a free slot exactly if it drops a call where intents wait. */
  lemma BusyUnlessStranded(m: Machine, step: Step)
    requires Good(m) && AllBusy(m) && Enabled(m, step) && Next(m, step).Some?
    ensures AllBusy(Next(m, step).value) <==> !Strands(m, step)
  {
    NextSlots(m, step);
    NextWired(m, step);
    if step.TakeCall? && !Timed(m, step) {
      DropBusy(m, step.i, step.r, step.duration, step.now);
    }
  }

  lemma DropBusy(m: Machine, i: nat, x: nat, duration: nat, now: Time)
    requires Good(m) && AllBusy(m) && Enabled(m, TakeCall(i, x, duration, now)) && !Timed(m, TakeCall(i, x, duration, now))
    ensures var n := Next(m, TakeCall(i, x, duration, now)).value;
            AllBusy(n) <==> m.pullers[x].intents == []
  {
    var s := m.pullers[x];
    assert SlotsExact(m, x) && PullerWired(m, x) && Busy(s);
    SumAtLeast(m.calls, i, For(s.cfg.at));
    SumNonNegative(m.pulls, PullsFor(s.cfg.at));
    var n := Next(m, TakeCall(i, x, duration, now)).value;
    assert n.pullers[x] == s.(pending := s.pending - 1);
    forall r | 0 <= r < |n.pullers| && r != x ensures Busy(n.pullers[r]) {
      assert Busy(m.pullers[r]);
    }
  }

  /** A run that cannot go on has left nothing behind exactly if no intents wait beside a free slot. */
  lemma SettledIffBusy(states: seq<Machine>, steps: seq<Step>)
    requires Run(states, steps) && Stuck(states[|steps|])
    ensures Settled(states[|steps|]) <==> AllBusy(states[|steps|])
  {
    var m := states[|steps|];
    EveryRunIsGood(states, steps, |steps|);
    StuckIsEmpty(m);
    if Settled(m) {
      forall r | 0 <= r < |m.pullers| ensures Busy(m.pullers[r]) {
        assert Idle(m.pullers[r]);
      }
    }
    if AllBusy(m) {
      AllIdle(m);
      forall b: nat, t: string ensures QueueOf(m, b, t) == [] {
        NothingQueued(m, b, t);
      }
    }
  }

  lemma AllIdle(m: Machine)
    requires Good(m) && AllBusy(m) && m.pulls == [] && m.calls == [] && m.running == []
    ensures forall r :: 0 <= r < |m.pullers| ==> Idle(m.pullers[r])
  {
    forall r | 0 <= r < |m.pullers| ensures Idle(m.pullers[r]) {
      assert SlotsExact(m, r) && PullerWired(m, r) && Busy(m.pullers[r]);
    }
  }

  /** No call is dropped where intents wait. */
  ghost predicate UnstrandedRun(states: seq<Machine>, steps: seq<Step>)
  {
    Run(states, steps)
    && forall i {:trigger steps[i]} :: 0 <= i < |steps| ==> Leads(states[i], steps[i], states[i + 1]) && !Strands(states[i], steps[i])
  }

  lemma {:induction false} UnstrandedBusy(states: seq<Machine>, steps: seq<Step>, k: nat)
    requires UnstrandedRun(states, steps) && k <= |steps|
    ensures AllBusy(states[k])
    decreases k
  {
    if k == 0 {
      InitialGood(states[0]);
    } else {
      UnstrandedBusy(states, steps, k - 1);
      EveryRunIsGood(states, steps, k - 1);
      assert Leads(states[k - 1], steps[k - 1], states[k]) && !Strands(states[k - 1], steps[k - 1]);
      BusyUnlessStranded(states[k - 1], steps[k - 1]);
    }
  }

  /** A run that cannot go on, and has dropped calls at most where no intents waited, has left nothing behind. */
  lemma StuckMeansSettled(states: seq<Machine>, steps: seq<Step>)
    requires UnstrandedRun(states, steps) && Stuck(states[|steps|])
    ensures Settled(states[|steps|])
  {
    UnstrandedBusy(states, steps, |steps|);
    SettledIffBusy(states, steps);
  }

  // The audits accept settled runs

  lemma SettledQueues(m: Machine)
    requires Good(m) && Settled(m)
    ensures InOrder(Intents(m.log), IntentOrder(m.sched)) && Emptied(Calls(m.log), CallOrder(m.sched))
    ensures NothingWaits(m.log)
  {
    forall at: Address ensures Replay(Of(Intents(m.log), at), IntentOrder(m.sched)).Some? && Level(Intents(m.log), at) == 0 {
      if HasPuller(m, at) {
        var r :| 0 <= r < |m.pullers| && m.pullers[r].cfg.at == at;
        assert PullerLogged(m.log, m.pullers[r], m.sched) && Idle(m.pullers[r]);
      } else {
        assert IntentsLogged(m.log, at, [], m.sched);
      }
      assert QueuedIntents([]) == [];
      LevelIsLength(Intents(m.log), at, IntentOrder(m.sched), []);
    }
    forall key: CallKey ensures ReplaysTo(Calls(m.log), key, CallOrder(m.sched), []) && Level(Calls(m.log), key) == 0 {
      assert CallsLogged(m.log, key.0, key.1, QueueOf(m, key.0, key.1), m.sched);
      assert QueuedCalls(QueueOf(m, key.0, key.1)) == [];
      LevelIsLength(Calls(m.log), key, CallOrder(m.sched), []);
    }
  }

  lemma SettledLedger(m: Machine, g: ByClaim)
    requires Good(m) && Settled(m)
    ensures Sum(Announcements(m.log), g) == Sum(Receipts(m.log), g) == Sum(Drains(m.log), g) == Sum(Fulfilments(m.log), g)
  {
    assert Ledger(m, g);
    assert forall r :: 0 <= r < |m.pullers| ==> Idle(m.pullers[r]);
    NoClaims(m, Any(g));
  }

  /** The common validation accepts every settled run in which a call was announced. */
  lemma CommonAudit(m: Machine)
    requires Good(m) && Settled(m)
    ensures AcceptedCommon(m.log) <==> Announcements(m.log) != []
  {
    SettledQueues(m);
    SettledLedger(m, One<Claim>());
    SumOfOnes(Announcements(m.log));
    SumOfOnes(Receipts(m.log));
    SumOfOnes(Drains(m.log));
    SumOfOnes(Fulfilments(m.log));
  }

  /** The unbound validations, by their disciplines, accept a settled run exactly if a pull took another call than its
      intent was sent for. */
  lemma NoBindAudit(m: Machine)
    requires Good(m) && Settled(m) && !m.sched.Bound?
    ensures AcceptedNoBind(m.log, IntentOrder(m.sched), CallOrder(m.sched)) <==> SawMismatch(m.log, |m.log|)
  {
    SettledQueues(m);
    CommonAudit(m);
    assert Heads(m.log, |m.log|);
    if SawMismatch(m.log, |m.log|) {
      var k :| 0 <= k < |m.log| && Mismatch(m.log[k]);
      Fulfils(m.log, k);
      SettledLedger(m, One<Claim>());
      SumOfOnes(Announcements(m.log));
      SumOfOnes(Fulfilments(m.log));
    }
  }

  lemma Fulfils(log: seq<AuditEvent>, k: nat)
    requires k < |log| && log[k].Fulfilled?
    ensures Fulfilments(log) != []
  {
    ProjectAt(log, k, FulfilledClaim);
  }

  function Is(c: Claim): ByClaim { (x: Claim) => if x == c then 1 else 0 }

  lemma {:induction false} CountIsSum(s: seq<Claim>, c: Claim)
    ensures multiset(s)[c] == Sum(s, Is(c))
  {
    if s != [] {
      CountIsSum(s[..|s| - 1], c);
      assert s == s[..|s| - 1] + [s[|s| - 1]];
    }
  }

  lemma SameClaims(m: Machine, c: Claim)
    requires Good(m) && Settled(m)
    ensures multiset(Announcements(m.log))[c] == multiset(Drains(m.log))[c] == multiset(Fulfilments(m.log))[c]
  {
    SettledLedger(m, Is(c));
    CountIsSum(Announcements(m.log), c);
    CountIsSum(Drains(m.log), c);
    CountIsSum(Fulfilments(m.log), c);
  }

  /** No balancer has announced two calls for one request. */
  ghost predicate OneCallEach(log: seq<AuditEvent>)
  {
    forall c: Claim :: multiset(Announcements(log))[c] <= 1
  }

  lemma OneToOneIff(m: Machine)
    requires Good(m) && Settled(m)
    ensures OneToOne(Drains(m.log), Fulfilments(m.log)) <==> OneCallEach(m.log)
  {
    var (drained, fulfilled) := (Drains(m.log), Fulfilments(m.log));
    forall i | 0 <= i < |drained| ensures drained[i] in fulfilled {
      SameClaims(m, drained[i]);
      assert drained[i] in multiset(drained);
      assert drained[i] in multiset(fulfilled);
    }
    if OneToOne(drained, fulfilled) {
      forall c: Claim ensures multiset(Announcements(m.log))[c] <= 1 {
        SameClaims(m, c);
        if c in multiset(fulfilled) {
          assert c in fulfilled;
        }
      }
    }
    if OneCallEach(m.log) {
      forall i | 0 <= i < |fulfilled| ensures multiset(drained)[fulfilled[i]] == 1 {
        SameClaims(m, fulfilled[i]);
        assert fulfilled[i] in multiset(fulfilled);
      }
    }
  }

  /** The bound validation accepts a settled bound run exactly if no balancer has sent two calls for one request; a request
      that calls two services from one replica is refused. */
  lemma BoundAudit(m: Machine)
    requires Good(m) && Settled(m) && m.sched.Bound? && Announcements(m.log) != []
    ensures AcceptedBound(m.log) <==> OneCallEach(m.log)
  {
    SettledQueues(m);
    CommonAudit(m);
    OneToOneIff(m);
  }

  /** All of it for the runs that cannot go on. */
  lemma EveryRunPassesItsAudit(states: seq<Machine>, steps: seq<Step>)
    requires UnstrandedRun(states, steps) && Stuck(states[|steps|]) && Announcements(states[|steps|].log) != []
    ensures var m := states[|steps|];
            && AcceptedCommon(m.log)
            && (m.sched.Bound? ==> (AcceptedBound(m.log) <==> OneCallEach(m.log)))
            && (!m.sched.Bound? ==>
                  (AcceptedNoBind(m.log, IntentOrder(m.sched), CallOrder(m.sched)) <==> SawMismatch(m.log, |m.log|)))
  {
    var m := states[|steps|];
    EveryRunIsGood(states, steps, |steps|);
    StuckMeansSettled(states, steps);
    CommonAudit(m);
    if m.sched.Bound? {
      BoundAudit(m);
    } else {
      NoBindAudit(m);
    }
  }

  // A bound run that the audit refuses

  ghost function Times(m: Machine, c: Claim): nat
  {
    multiset(Announcements(m.log))[c]
  }

  lemma AnnouncementsGrow(m: Machine, step: Step, n: Machine, c: Claim)
    requires Leads(m, step, n)
    ensures Times(n, c) >= Times(m, c)
  {
    assert m.log == n.log[..|m.log|];
    ProjectSplit(n.log, |m.log|, AnnouncedClaim);
  }

  ghost predicate Growing(states: seq<Machine>, c: Claim)
  {
    forall i {:trigger states[i]} :: 0 < i < |states| ==> Times(states[i], c) >= Times(states[i - 1], c)
  }

  lemma RunGrows(states: seq<Machine>, steps: seq<Step>, c: Claim)
    requires Run(states, steps)
    ensures Growing(states, c)
  {
    forall i {:trigger states[i]} | 0 < i < |states| ensures Times(states[i], c) >= Times(states[i - 1], c) {
      assert Leads(states[i - 1], steps[i - 1], states[i]);
      AnnouncementsGrow(states[i - 1], steps[i - 1], states[i], c);
    }
  }

  lemma {:induction false} AnnouncedStays(states: seq<Machine>, j: nat, k: nat, c: Claim)
    requires Growing(states, c) && j <= k < |states|
    ensures Times(states[k], c) >= Times(states[j], c)
  {
    if j < k {
      AnnouncedStays(states, j, k - 1, c);
      assert Times(states[k], c) >= Times(states[k - 1], c);
    }
  }

  /** However a run goes on in which a balancer has sent two calls for one request, its audit refuses it. */
  lemma TwoCallsAreRefused(states: seq<Machine>, steps: seq<Step>, j: nat, c: Claim)
    requires UnstrandedRun(states, steps) && Stuck(states[|steps|]) && states[|steps|].sched.Bound?
    requires j <= |steps| && Times(states[j], c) > 1
    ensures !AcceptedBound(states[|steps|].log)
  {
    RunGrows(states, steps, c);
    AnnouncedStays(states, j, |steps|, c);
    EveryRunIsGood(states, steps, |steps|);
    StuckMeansSettled(states, steps);
    BoundAudit(states[|steps|]);
  }

  function CallTo(t: string): OutboundCall
  {
    OutboundCall(t, Hop(7, "api", t, 0, 0, 9, 0, 0, None, None, None))
  }

  function Server(t: string): PullerState
  {
    PullerState(PullerConfig(Address(t, 0), 1, false, {0}, {t}), 0, 0, [])
  }

  function Caller(): CallerState
  {
    CallerState(CallerConfig(0, map["a" := [0], "b" := [0]], Bound), map["a" := [], "b" := []], map["a" := [0], "b" := [0]])
  }

  function TwoServers(): Machine
  {
    Machine(Bound, [Caller()], [Server("a"), Server("b")], [], [], [], [], [])
  }

  lemma TwoServersReached()
    ensures HasPuller(TwoServers(), Address("a", 0)) && HasPuller(TwoServers(), Address("b", 0))
  {
    var m := TwoServers();
    assert m.pullers[0].cfg.at == Address("a", 0) && m.pullers[1].cfg.at == Address("b", 0);
  }

  lemma TwoServersWired()
    ensures Wired(TwoServers())
  {
    var m := TwoServers();
    TwoServersReached();
    assert CallerWired(m, 0);
    forall r | 0 <= r < |m.pullers| ensures PullerWired(m, r) {
      assert m.pullers[r] == if r == 0 then Server("a") else Server("b");
    }
  }

  lemma TwoServersInitial()
    ensures Initial(TwoServers()) && OneCaller(TwoServers()) && Announcements(TwoServers().log) == []
  {
    TwoServersWired();
    assert Fresh(Caller()) && Idle(Server("a")) && Idle(Server("b"));
  }

  ghost predicate OneCaller(m: Machine)
  {
    |m.callers| == 1 && m.callers[0].Valid() && m.callers[0].cfg == Caller().cfg
  }

  lemma PostedTo(m: Machine, t: string) returns (n: Machine)
    requires OneCaller(m) && (t == "a" || t == "b")
    ensures Leads(m, Post(0, CallTo(t), 0), n) && OneCaller(n)
    ensures Announcements(n.log) == Announcements(m.log) + [(0, 7)]
  {
    OutboundValid(m.callers[0], CallTo(t), 0);
    ProjectAppend(m.log, Announced(0, t, 0, 7, 9), AnnouncedClaim);
    n := Next(m, Post(0, CallTo(t), 0)).value;
  }

  lemma TwiceCounted(s: seq<Claim>, c: Claim)
    requires s == [] + [c] + [c]
    ensures multiset(s)[c] == 2
  {
  }

  /** A run that starts with a request calling two services from one replica is refused, however it goes on. */
  lemma TwoServicesCalled() returns (m1: Machine, m2: Machine)
    ensures Initial(TwoServers()) && TwoServers().sched.Bound?
    ensures Leads(TwoServers(), Post(0, CallTo("a"), 0), m1) && Leads(m1, Post(0, CallTo("b"), 0), m2)
    ensures Times(m2, (0, 7)) == 2
  {
    var m0 := TwoServers();
    TwoServersInitial();
    m1 := PostedTo(m0, "a");
    m2 := PostedTo(m1, "b");
    TwiceCounted(Announcements(m2.log), (0, 7));
  }
}

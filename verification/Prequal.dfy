/** The Prequal candidate pool of a balancer: fresh probe replies, at most one for each server, each used up by a bounded
    number of dispatches. Debts are kept as exact fractions. */
module Prequal {
  import opened Domain
  import opened Sums

  const R_PROBE: real := 1.5
  const R_REMOVE: real := 0.3
  const B_REUSE: nat := 1

  datatype Candidate = Candidate(server: nat, rif: nat, uses: nat)

  function Position(entries: seq<Candidate>, server: nat): (i: nat)
    ensures i <= |entries|
    ensures i < |entries| ==> entries[i].server == server
    ensures forall j :: 0 <= j < i ==> entries[j].server != server
  {
    if entries == [] || entries[0].server == server then 0 else 1 + Position(entries[1..], server)
  }

  predicate Contains(entries: seq<Candidate>, server: nat)
  {
    Position(entries, server) < |entries|
  }

  /** The candidate with the highest load, the oldest among equals. */
  ghost predicate Worst(entries: seq<Candidate>, i: nat)
  {
    && i < |entries|
    && (forall j :: 0 <= j < |entries| ==> entries[j].rif <= entries[i].rif)
    && (forall j :: 0 <= j < i ==> entries[j].rif < entries[i].rif)
  }

  function WorstIndex(entries: seq<Candidate>): (i: nat)
    requires entries != []
    ensures Worst(entries, i)
  {
    if |entries| == 1 then 0
    else
      var i := WorstIndex(entries[..|entries| - 1]);
      if entries[|entries| - 1].rif > entries[i].rif then |entries| - 1 else i
  }

  /** The pool after the removal of its worst candidate, `n` times over. */
  function WithoutWorst(entries: seq<Candidate>, n: nat): (r: seq<Candidate>)
    requires n <= |entries|
    ensures |r| == |entries| - n
    decreases n
  {
    if n == 0 then entries
    else
      var fewer := WithoutWorst(entries, n - 1);
      RemoveAt(fewer, WorstIndex(fewer))
  }

  /** The candidate with the least load, the oldest among equals. */
  ghost predicate Best(entries: seq<Candidate>, i: nat)
  {
    && i < |entries|
    && (forall j :: 0 <= j < |entries| ==> entries[i].rif <= entries[j].rif)
    && (forall j :: 0 <= j < i ==> entries[i].rif < entries[j].rif)
  }

  /** The pool when a reply comes: at the newest end, in place of the server's previous one, or of the oldest. */
  function Ingested(entries: seq<Candidate>, cap: nat, server: nat, rif: nat): seq<Candidate>
  {
    var i := Position(entries, server);
    var newest := Candidate(server, rif, 0);
    if i < |entries| then RemoveAt(entries, i) + [newest]
    else if |entries| >= cap && entries != [] then entries[1..] + [newest]
    else entries + [newest]
  }

  /** The pool when a request has been sent to a server. */
  function Dispatched(entries: seq<Candidate>, server: nat, reuse: nat): seq<Candidate>
  {
    var i := Position(entries, server);
    if i == |entries| then entries
    else
      var used := entries[i].(rif := entries[i].rif + 1, uses := entries[i].uses + 1);
      if used.uses >= reuse then RemoveAt(entries, i) else entries[i := used]
  }

  /** The debt pays for the removal of the `removed` worst candidates. What is not paid stays owed, and a whole removal is
      owed only when the pool has run empty. */
  predicate Removes(before: seq<Candidate>, debt: real, removed: nat, left: real)
  {
    left + removed as real == debt + R_REMOVE && left >= 0.0 && removed <= |before| && (left >= 1.0 ==> removed == |before|)
  }

  /** The debt pays for every whole probe. */
  predicate Probes(debt: real, probes: nat, left: real)
  {
    left + probes as real == debt + R_PROBE && 0.0 <= left < 1.0
  }

  class CandidatePool {
    var entries: seq<Candidate>
    const cap: nat

    constructor (cap: nat)
      ensures entries == [] && this.cap == if cap == 0 then 1 else cap
    {
      entries := [];
      this.cap := if cap == 0 then 1 else cap;
    }

    method RemoveWorst() returns (removed: Option<Candidate>)
      modifies this`entries
      ensures old(entries) == [] ==> removed == None && entries == []
      ensures old(entries) != [] ==>
                var i := WorstIndex(old(entries));
                removed == Some(old(entries)[i]) && entries == RemoveAt(old(entries), i)
    {
      if entries == [] {
        return None;
      }
      var worst := 0;
      for i := 1 to |entries|
        invariant 0 <= worst < i
        invariant forall j :: 0 <= j < i ==> entries[j].rif <= entries[worst].rif
        invariant forall j :: 0 <= j < worst ==> entries[j].rif < entries[worst].rif
      {
        if entries[i].rif > entries[worst].rif {
          worst := i;
        }
      }
      assert Worst(entries, worst) && worst == WorstIndex(entries);
      removed := Some(entries[worst]);
      entries := entries[..worst] + entries[worst + 1..];
    }

    method SelectBest() returns (server: Option<nat>)
      ensures entries == [] ==> server == None
      ensures entries != [] ==> exists i: nat :: Best(entries, i) && server == Some(entries[i].server)
    {
      if entries == [] {
        return None;
      }
      var best, bestRif := 0, entries[0].rif;
      for i := 1 to |entries|
        invariant 0 <= best < i && bestRif == entries[best].rif
        invariant forall j :: 0 <= j < i ==> bestRif <= entries[j].rif
        invariant forall j :: 0 <= j < best ==> bestRif < entries[j].rif
      {
        if entries[i].rif < bestRif {
          best, bestRif := i, entries[i].rif;
        }
      }
      assert Best(entries, best);
      server := Some(entries[best].server);
    }

    method AfterDispatch(server: nat, reuse: nat)
      modifies this`entries
      ensures entries == Dispatched(old(entries), server, reuse)
    {
      var i := Position(entries, server);
      if i == |entries| {
        return;
      }
      var used := entries[i].(rif := entries[i].rif + 1, uses := entries[i].uses + 1);
      if used.uses >= reuse {
        entries := entries[..i] + entries[i + 1..];
      } else {
        entries := entries[i := used];
      }
    }

    method IngestReply(server: nat, rif: nat)
      requires cap >= 1
      modifies this`entries
      ensures entries == Ingested(old(entries), cap, server, rif)
    {
      var i := Position(entries, server);
      if i < |entries| {
        entries := entries[..i] + entries[i + 1..] + [Candidate(server, rif, 0)];
        return;
      }
      if |entries| >= cap {
        entries := entries[1..];
      }
      entries := entries + [Candidate(server, rif, 0)];
    }

    /** Removes the worst candidates that the debt pays for. What cannot be removed stays owed, and a whole removal
        is owed only when the pool has run empty. */
    method ApplyRemove(debt: real) returns (left: real, removed: nat)
      requires debt >= 0.0
      modifies this`entries
      ensures Removes(old(entries), debt, removed, left) && entries == WithoutWorst(old(entries), removed)
    {
      left, removed := debt + R_REMOVE, 0;
      while left >= 1.0 && entries != []
        invariant left >= 0.0 && left + removed as real == debt + R_REMOVE
        invariant removed <= |old(entries)| && entries == WithoutWorst(old(entries), removed)
        decreases |entries|
      {
        var worst := RemoveWorst();
        left, removed := left - 1.0, removed + 1;
      }
    }
  }

  /** Probes that the debt pays for: every whole unit, so that less than one is left owed. */
  method ApplyProbe(debt: real) returns (left: real, probes: nat)
    requires 0.0 <= debt < 1.0
    ensures Probes(debt, probes, left)
  {
    left, probes := debt + R_PROBE, 0;
    while left >= 1.0
      invariant left >= 0.0 && left + probes as real == debt + R_PROBE
      decreases left.Floor
    {
      left, probes := left - 1.0, probes + 1;
    }
  }

  /** The servers that have no candidate in the pool. */
  function Outside(nServers: nat, entries: seq<Candidate>): (outside: seq<nat>)
    ensures forall x: nat :: x in outside <==> x < nServers && !Contains(entries, x)
    ensures forall x: nat :: multiset(outside)[x] <= 1
  {
    if nServers == 0 then []
    else Outside(nServers - 1, entries) + if Contains(entries, nServers - 1) then [] else [nServers - 1]
  }

  /** The servers to probe: the first `n` of a shuffle of the servers outside the pool. */
  method SampleProbeTargets(nServers: nat, pool: CandidatePool, n: nat, shuffled: seq<nat>) returns (targets: seq<nat>)
    requires multiset(shuffled) == multiset(Outside(nServers, pool.entries))
    ensures |targets| == Min(n, |Outside(nServers, pool.entries)|)
    ensures forall i :: 0 <= i < |targets| ==> targets[i] < nServers && !Contains(pool.entries, targets[i])
    ensures forall i, j :: 0 <= i < j < |targets| ==> targets[i] != targets[j]
  {
    var outside := Outside(nServers, pool.entries);
    assert |shuffled| == |multiset(shuffled)| == |outside|;
    targets := shuffled[..Min(n, |shuffled|)];
    forall i | 0 <= i < |targets| ensures targets[i] in outside {
      assert shuffled[i] in multiset(shuffled);
    }
    forall i, j | 0 <= i < j < |targets| ensures targets[i] != targets[j] {
      Twice(shuffled, i, j);
    }
  }

  lemma Twice(s: seq<nat>, i: nat, j: nat)
    requires i < j < |s|
    ensures s[i] == s[j] ==> multiset(s)[s[i]] >= 2
  {
    assert s == s[..i] + [s[i]] + s[i + 1..j] + [s[j]] + s[j + 1..];
  }

  // What every run keeps

  /** The last time a server has replied. */
  function LastReply(replies: seq<nat>, server: nat): (i: int)
    ensures i < |replies|
  {
    if replies == [] then -1
    else if replies[|replies| - 1] == server then |replies| - 1
    else LastReply(replies[..|replies| - 1], server)
  }

  /** One candidate for a server, in the order of their replies, none of them used up. */
  ghost predicate Current(entries: seq<Candidate>, replies: seq<nat>, reuse: nat)
  {
    && (forall i, j :: 0 <= i < j < |entries| ==> LastReply(replies, entries[i].server) < LastReply(replies, entries[j].server))
    && (forall i :: 0 <= i < |entries| ==> 0 <= LastReply(replies, entries[i].server) && entries[i].uses < reuse)
  }

  lemma NextReply(replies: seq<nat>, server: nat, other: nat)
    ensures LastReply(replies + [server], other) == if other == server then |replies| else LastReply(replies, other)
  {
    assert (replies + [server])[..|replies|] == replies;
  }

  /** The order of replies tells servers apart. */
  lemma CurrentDistinct(entries: seq<Candidate>, replies: seq<nat>, reuse: nat)
    requires Current(entries, replies, reuse)
    ensures forall i, j :: 0 <= i < j < |entries| ==> entries[i].server != entries[j].server
  {
  }

  lemma RemoveKeepsCurrent(entries: seq<Candidate>, k: nat, replies: seq<nat>, reuse: nat)
    requires Current(entries, replies, reuse) && k < |entries|
    ensures Current(RemoveAt(entries, k), replies, reuse)
    ensures forall i :: 0 <= i < |RemoveAt(entries, k)| ==> RemoveAt(entries, k)[i].server != entries[k].server
  {
    var rest := RemoveAt(entries, k);
    CurrentDistinct(entries, replies, reuse);
    forall i | 0 <= i < |rest| ensures rest[i] == entries[if i < k then i else i + 1] {
    }
  }

  lemma AppendKeepsCurrent(rest: seq<Candidate>, replies: seq<nat>, server: nat, rif: nat, reuse: nat)
    requires Current(rest, replies, reuse) && reuse >= 1 && forall i :: 0 <= i < |rest| ==> rest[i].server != server
    ensures Current(rest + [Candidate(server, rif, 0)], replies + [server], reuse)
  {
    forall other: nat ensures LastReply(replies + [server], other) == if other == server then |replies| else LastReply(replies, other) {
      NextReply(replies, server, other);
    }
  }

  /** A reply moves its server to the newest end, and pushes out the oldest when the pool is full. */
  lemma IngestKeepsCurrent(entries: seq<Candidate>, cap: nat, replies: seq<nat>, server: nat, rif: nat, reuse: nat)
    requires Current(entries, replies, reuse) && |entries| <= cap && cap >= 1 && reuse >= 1
    ensures Current(Ingested(entries, cap, server, rif), replies + [server], reuse)
    ensures |Ingested(entries, cap, server, rif)| <= cap
  {
    var k := Position(entries, server);
    if k < |entries| {
      RemoveKeepsCurrent(entries, k, replies, reuse);
      AppendKeepsCurrent(RemoveAt(entries, k), replies, server, rif, reuse);
    } else if |entries| >= cap {
      RemoveKeepsCurrent(entries, 0, replies, reuse);
      assert RemoveAt(entries, 0) == entries[1..];
      AppendKeepsCurrent(entries[1..], replies, server, rif, reuse);
    } else {
      AppendKeepsCurrent(entries, replies, server, rif, reuse);
    }
  }

  /** A dispatch counts against the reply that decided it: after `reuse` dispatches the candidate leaves the pool. */
  lemma DispatchKeepsCurrent(entries: seq<Candidate>, replies: seq<nat>, server: nat, reuse: nat)
    requires Current(entries, replies, reuse)
    ensures Current(Dispatched(entries, server, reuse), replies, reuse)
    ensures |Dispatched(entries, server, reuse)| <= |entries|
    ensures var k := Position(entries, server);
            k < |entries| && entries[k].uses + 1 >= reuse ==> !Contains(Dispatched(entries, server, reuse), server)
  {
    var k := Position(entries, server);
    if k < |entries| {
      RemoveKeepsCurrent(entries, k, replies, reuse);
    }
  }

  lemma {:induction false} RemovalsKeepCurrent(entries: seq<Candidate>, n: nat, replies: seq<nat>, reuse: nat)
    requires Current(entries, replies, reuse) && n <= |entries|
    ensures Current(WithoutWorst(entries, n), replies, reuse)
  {
    if n > 0 {
      RemovalsKeepCurrent(entries, n - 1, replies, reuse);
      RemoveKeepsCurrent(WithoutWorst(entries, n - 1), WorstIndex(WithoutWorst(entries, n - 1)), replies, reuse);
    }
  }

  // Whole runs of a pool

  /** A pool with its debts, and what it has done so far. */
  datatype Pool = Pool(
    entries: seq<Candidate>, removeDebt: real, probeDebt: real, requests: nat, removed: nat, probed: nat)

  /** A request is sent to the best candidate, or to an outside server if the pool is empty. */
  datatype Event = Reply(server: nat, rif: nat) | Request(outside: nat)

  /** The server that a request is sent to. */
  ghost predicate Chosen(entries: seq<Candidate>, outside: nat, server: nat)
  {
    if entries == [] then server == outside else exists i: nat :: Best(entries, i) && server == entries[i].server
  }

  /** The request pays its removals, uses the pool, and pays its probes; the server is reported if the pool chose it. */
  ghost predicate Requested(b: Pool, outside: nat, a: Pool, choice: Option<nat>, removed: nat, probed: nat)
  {
    && Removes(b.entries, b.removeDebt, removed, a.removeDebt) && Probes(b.probeDebt, probed, a.probeDebt)
    && a.requests == b.requests + 1 && a.removed == b.removed + removed && a.probed == b.probed + probed
    && UsedThrough(WithoutWorst(b.entries, removed), outside, a.entries, choice)
  }

  ghost predicate UsedThrough(entries: seq<Candidate>, outside: nat, after: seq<Candidate>, choice: Option<nat>)
  {
    if entries == [] then choice == None && after == Dispatched(entries, outside, B_REUSE)
    else choice.Some? && Chosen(entries, outside, choice.value) && after == Dispatched(entries, choice.value, B_REUSE)
  }

  ghost predicate Next(b: Pool, cap: nat, e: Event, a: Pool, choice: Option<nat>)
  {
    match e
    case Reply(server, rif) => a == b.(entries := Ingested(b.entries, cap, server, rif)) && choice == None
    case Request(outside) => exists removed: nat, probed: nat :: Requested(b, outside, a, choice, removed, probed)
  }

  /** What a balancer does with its pool for one request. */
  method ServeRequest(pool: CandidatePool, before: Pool, outside: nat) returns (after: Pool, server: nat)
    requires pool.entries == before.entries && before.removeDebt >= 0.0 && 0.0 <= before.probeDebt < 1.0
    modifies pool
    ensures pool.entries == after.entries
    ensures Next(before, pool.cap, Request(outside), after, Some(server))
            || (server == outside && Next(before, pool.cap, Request(outside), after, None))
  {
    var removeDebt, removed := pool.ApplyRemove(before.removeDebt);
    ghost var rest := pool.entries;
    var best := pool.SelectBest();
    server := if best.Some? then best.value else outside;
    pool.AfterDispatch(server, B_REUSE);
    var probeDebt, probed := ApplyProbe(before.probeDebt);
    after := Pool(pool.entries, removeDebt, probeDebt, before.requests + 1, before.removed + removed, before.probed + probed);
    assert rest != [] ==> Chosen(rest, outside, server);
    assert Requested(before, outside, after, best, removed, probed);
  }

  ghost predicate Fresh(p: Pool)
  {
    p == Pool([], 0.0, 0.0, 0, 0, 0)
  }

  ghost predicate Run(pools: seq<Pool>, cap: nat, events: seq<Event>, choices: seq<Option<nat>>)
  {
    && |pools| == |events| + 1 && |choices| == |events| && Fresh(pools[0])
    && forall i {:trigger events[i]} :: 0 <= i < |events| ==> Next(pools[i], cap, events[i], pools[i + 1], choices[i])
  }

  /** The servers that replied among the first `k` events. */
  function Replies(events: seq<Event>, k: nat): seq<nat>
    requires k <= |events|
  {
    if k == 0 then [] else Replies(events, k - 1) + RepliesOf(events[k - 1])
  }

  function RepliesOf(e: Event): seq<nat>
  {
    if e.Reply? then [e.server] else []
  }

  lemma RequestKeepsCurrent(before: seq<Candidate>, replies: seq<nat>, removals: nat, server: nat)
    requires Current(before, replies, B_REUSE) && removals <= |before|
    ensures var after := Dispatched(WithoutWorst(before, removals), server, B_REUSE);
            Current(after, replies, B_REUSE) && |after| <= |before|
  {
    RemovalsKeepCurrent(before, removals, replies, B_REUSE);
    DispatchKeepsCurrent(WithoutWorst(before, removals), replies, server, B_REUSE);
  }

  lemma NextKeepsCurrent(b: Pool, cap: nat, replies: seq<nat>, e: Event, a: Pool, choice: Option<nat>)
    requires Current(b.entries, replies, B_REUSE) && |b.entries| <= cap && cap >= 1 && Next(b, cap, e, a, choice)
    ensures Current(a.entries, replies + RepliesOf(e), B_REUSE) && |a.entries| <= cap
  {
    match e
    case Reply(server, rif) => IngestKeepsCurrent(b.entries, cap, replies, server, rif, B_REUSE);
    case Request(outside) =>
      var removed: nat, probed: nat :| Requested(b, outside, a, choice, removed, probed);
      RequestKeepsCurrent(b.entries, replies, removed, if choice.Some? then choice.value else outside);
      assert replies + [] == replies;
  }

  ghost predicate CurrentAt(p: Pool, cap: nat, events: seq<Event>, k: nat)
    requires k <= |events|
  {
    Current(p.entries, Replies(events, k), B_REUSE) && |p.entries| <= cap
  }

  lemma StepKeepsCurrent(pools: seq<Pool>, cap: nat, events: seq<Event>, choices: seq<Option<nat>>, k: nat)
    requires Run(pools, cap, events, choices) && cap >= 1 && k < |events| && CurrentAt(pools[k], cap, events, k)
    ensures CurrentAt(pools[k + 1], cap, events, k + 1)
  {
    assert Next(pools[k], cap, events[k], pools[k + 1], choices[k]);
    NextKeepsCurrent(pools[k], cap, Replies(events, k), events[k], pools[k + 1], choices[k]);
  }

  lemma {:induction false} CurrentThroughout(pools: seq<Pool>, cap: nat, events: seq<Event>, choices: seq<Option<nat>>, k: nat)
    requires Run(pools, cap, events, choices) && cap >= 1 && k <= |events|
    ensures CurrentAt(pools[k], cap, events, k)
  {
    if k > 0 {
      CurrentThroughout(pools, cap, events, choices, k - 1);
      StepKeepsCurrent(pools, cap, events, choices, k - 1);
    }
  }

  /** In every run the pool holds at most `cap` candidates, of distinct servers, oldest reply first, none used up. */
  lemma PoolStaysCurrent(pools: seq<Pool>, cap: nat, events: seq<Event>, choices: seq<Option<nat>>, k: nat)
    requires Run(pools, cap, events, choices) && cap >= 1 && k <= |events|
    ensures Current(pools[k].entries, Replies(events, k), B_REUSE) && |pools[k].entries| <= cap
    ensures Distinct(pools[k].entries)
  {
    CurrentThroughout(pools, cap, events, choices, k);
    CurrentDistinct(pools[k].entries, Replies(events, k), B_REUSE);
  }

  // Debts over a run

  /** Nothing is lost: what has been done and what is still owed is what the requests have earned. */
  ghost predicate Balanced(p: Pool)
  {
    && p.removed as real + p.removeDebt == R_REMOVE * p.requests as real && p.removeDebt >= 0.0
    && p.probed as real + p.probeDebt == R_PROBE * p.requests as real && 0.0 <= p.probeDebt < 1.0
  }

  lemma OneMore(rate: real, n: nat)
    ensures rate * (n + 1) as real == rate * n as real + rate
  {
    assert (n + 1) as real == n as real + 1.0;
  }

  lemma NextBalanced(b: Pool, cap: nat, e: Event, a: Pool, choice: Option<nat>)
    requires Balanced(b) && Next(b, cap, e, a, choice)
    ensures Balanced(a)
  {
    if e.Request? {
      var removed: nat, probed: nat :| Requested(b, e.outside, a, choice, removed, probed);
      OneMore(R_REMOVE, b.requests);
      OneMore(R_PROBE, b.requests);
    }
  }

  /** After k requests the removals and the debt are 0.3 k, and the probes paid for are the whole part of 1.5 k. */
  lemma {:induction false} DebtsBalance(pools: seq<Pool>, cap: nat, events: seq<Event>, choices: seq<Option<nat>>, k: nat)
    requires Run(pools, cap, events, choices) && k <= |events|
    ensures Balanced(pools[k]) && pools[k].probed == (R_PROBE * pools[k].requests as real).Floor
    decreases k
  {
    if k > 0 {
      DebtsBalance(pools, cap, events, choices, k - 1);
      assert Next(pools[k - 1], cap, events[k - 1], pools[k], choices[k - 1]);
      NextBalanced(pools[k - 1], cap, events[k - 1], pools[k], choices[k - 1]);
    }
  }

  /** A whole removal stays owed only after a request that has emptied the pool, and that was therefore sent outside it. */
  lemma OwedOnlyWhenEmpty(pools: seq<Pool>, cap: nat, events: seq<Event>, choices: seq<Option<nat>>, k: nat)
    requires Run(pools, cap, events, choices) && k < |events| && events[k].Request?
    ensures pools[k + 1].removeDebt >= 1.0 ==>
              && pools[k + 1].removed - pools[k].removed == |pools[k].entries|
              && pools[k + 1].entries == [] && choices[k] == None
  {
    assert Next(pools[k], cap, events[k], pools[k + 1], choices[k]);
    var removed: nat, probed: nat :| Requested(pools[k], events[k].outside, pools[k + 1], choices[k], removed, probed);
  }

  // Uses of a reply

  /** How often the pool may still choose a server. */
  function UsesLeft(entries: seq<Candidate>, server: nat): nat
  {
    var i := Position(entries, server);
    if i < |entries| then SaturatingSub(B_REUSE, entries[i].uses) else 0
  }

  ghost predicate Distinct(entries: seq<Candidate>)
  {
    forall i, j :: 0 <= i < j < |entries| ==> entries[i].server != entries[j].server
  }

  lemma Placed(entries: seq<Candidate>, i: nat)
    requires Distinct(entries) && i < |entries|
    ensures Position(entries, entries[i].server) == i
  {
  }

  lemma RemovalUses(entries: seq<Candidate>, k: nat, server: nat)
    requires Distinct(entries) && k < |entries|
    ensures Distinct(RemoveAt(entries, k)) && UsesLeft(RemoveAt(entries, k), server) <= UsesLeft(entries, server)
    ensures entries[k].server == server ==> UsesLeft(RemoveAt(entries, k), server) == 0
  {
    var rest := RemoveAt(entries, k);
    var i := Position(rest, server);
    if i < |rest| {
      Placed(entries, if i < k then i else i + 1);
    }
  }

  lemma {:induction false} RemovalsUses(entries: seq<Candidate>, n: nat, server: nat)
    requires Distinct(entries) && n <= |entries|
    ensures Distinct(WithoutWorst(entries, n)) && UsesLeft(WithoutWorst(entries, n), server) <= UsesLeft(entries, server)
  {
    if n > 0 {
      RemovalsUses(entries, n - 1, server);
      RemovalUses(WithoutWorst(entries, n - 1), WorstIndex(WithoutWorst(entries, n - 1)), server);
    }
  }

  /** A choice uses up one use of its server's reply, and none of another's. */
  lemma ChoiceUses(entries: seq<Candidate>, chosen: nat, server: nat)
    requires Distinct(entries) && Contains(entries, chosen)
    requires forall i :: 0 <= i < |entries| ==> entries[i].uses < B_REUSE
    ensures UsesLeft(Dispatched(entries, chosen, B_REUSE), server) + (if chosen == server then 1 else 0) <= UsesLeft(entries, server)
  {
    var k := Position(entries, chosen);
    RemovalUses(entries, k, server);
  }

  lemma RequestUses(b: Pool, outside: nat, a: Pool, choice: Option<nat>, replies: seq<nat>, server: nat)
    requires Current(b.entries, replies, B_REUSE) && Next(b, 1, Request(outside), a, choice)
    ensures UsesLeft(a.entries, server) + (if choice == Some(server) then 1 else 0) <= UsesLeft(b.entries, server)
  {
    var removed: nat, probed: nat :| Requested(b, outside, a, choice, removed, probed);
    CurrentDistinct(b.entries, replies, B_REUSE);
    RemovalsUses(b.entries, removed, server);
    RemovalsKeepCurrent(b.entries, removed, replies, B_REUSE);
    var rest := WithoutWorst(b.entries, removed);
    if rest != [] {
      var i: nat :| Best(rest, i) && choice.value == rest[i].server;
      Placed(rest, i);
      ChoiceUses(rest, choice.value, server);
    }
  }

  lemma OtherReplyUses(entries: seq<Candidate>, cap: nat, other: nat, rif: nat, server: nat)
    requires Distinct(entries) && other != server
    ensures UsesLeft(Ingested(entries, cap, other, rif), server) <= UsesLeft(entries, server)
  {
    var k := Position(entries, other);
    var newest := Candidate(other, rif, 0);
    if k < |entries| {
      RemovalUses(entries, k, server);
      AppendUses(RemoveAt(entries, k), newest, server);
    } else if |entries| >= cap && entries != [] {
      assert RemoveAt(entries, 0) == entries[1..];
      RemovalUses(entries, 0, server);
      AppendUses(entries[1..], newest, server);
    } else {
      AppendUses(entries, newest, server);
    }
  }

  lemma {:induction false} AppendUses(entries: seq<Candidate>, newest: Candidate, server: nat)
    requires newest.server != server
    ensures UsesLeft(entries + [newest], server) == UsesLeft(entries, server)
  {
    var i := Position(entries, server);
    var j := Position(entries + [newest], server);
    if i < |entries| {
      assert (entries + [newest])[i].server == server;
    }
  }

  /** How often the pool chose a server for the requests `i` to `j`. */
  function Choices(choices: seq<Option<nat>>, server: nat, i: nat, j: nat): nat
    requires i <= j <= |choices|
    decreases j - i
  {
    if i == j then 0 else Choices(choices, server, i, j - 1) + if choices[j - 1] == Some(server) then 1 else 0
  }

  lemma {:induction false} ChoicesUsed(pools: seq<Pool>, cap: nat, events: seq<Event>, choices: seq<Option<nat>>, server: nat, i: nat, j: nat)
    requires Run(pools, cap, events, choices) && cap >= 1 && i <= j <= |events|
    requires forall k :: i <= k < j ==> !(events[k].Reply? && events[k].server == server)
    ensures Choices(choices, server, i, j) + UsesLeft(pools[j].entries, server) <= UsesLeft(pools[i].entries, server)
    decreases j - i
  {
    if i < j {
      ChoicesUsed(pools, cap, events, choices, server, i, j - 1);
      assert Next(pools[j - 1], cap, events[j - 1], pools[j], choices[j - 1]);
      PoolStaysCurrent(pools, cap, events, choices, j - 1);
      match events[j - 1]
      case Reply(other, rif) => OtherReplyUses(pools[j - 1].entries, cap, other, rif, server);
      case Request(outside) =>
        RequestUses(pools[j - 1], outside, pools[j], choices[j - 1], Replies(events, j - 1), server);
    }
  }

  /** Between two replies of a server, as long as it has not replied again, the pool chooses it for at most `B_REUSE`
      requests. */
  lemma ReplyUsedAtMost(pools: seq<Pool>, cap: nat, events: seq<Event>, choices: seq<Option<nat>>, server: nat, i: nat, j: nat)
    requires Run(pools, cap, events, choices) && cap >= 1 && i <= j <= |events|
    requires forall k :: i <= k < j ==> !(events[k].Reply? && events[k].server == server)
    ensures Choices(choices, server, i, j) <= B_REUSE
  {
    ChoicesUsed(pools, cap, events, choices, server, i, j);
  }
}

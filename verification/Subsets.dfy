/** Deterministic subsetting: the clients of one round share out a shuffle of the servers, `k` servers each. */
module Subsets {
  import opened Domain

  /** A shuffle of the servers for each round. */
  type Shuffles = nat -> seq<nat>

  ghost predicate Shuffle(s: seq<nat>, n: nat)
  {
    && |s| == n && (forall i :: 0 <= i < n ==> s[i] < n)
    && (forall i, j :: 0 <= i < j < n ==> s[i] != s[j])
    && (forall x: nat :: x < n ==> x in s)
  }

  ghost predicate AllShuffles(shuffles: Shuffles, n: nat)
  {
    forall round: nat :: Shuffle(shuffles(round), n)
  }

  function SubsetSize(n: nat, size: nat): (k: nat)
    requires n > 0
    ensures 1 <= k <= n
  {
    if size == 0 then n else Max(Min(size, n), 1)
  }

  function All(n: nat): (s: seq<nat>)
    ensures |s| == n && forall i :: 0 <= i < n ==> s[i] == i
  {
    seq(n, i => i)
  }

  /** The subset of a client, given the shuffles of the rounds. */
  function DeterministicSubset(n: nat, client: nat, k: nat, shuffles: Shuffles): seq<nat>
    requires 1 <= k && forall round: nat :: |shuffles(round)| == n
  {
    if k >= n then All(n)
    else
      SliceFits(n, client, k);
      var start := client % (n / k) * k;
      shuffles(client / (n / k))[start..start + k]
  }

  lemma SliceFits(n: nat, client: nat, k: nat)
    requires 1 <= k < n
    ensures n / k >= 1 && 0 <= client % (n / k) * k && client % (n / k) * k + k <= n / k * k <= n
  {
    var s := n / k;
    assert s >= 1;
    var id := client % s;
    assert (id + 1) * k <= s * k;
  }

  function AssignSubset(n: nat, client: nat, size: nat, shuffles: Shuffles): seq<nat>
    requires forall round: nat :: |shuffles(round)| == n
  {
    if n == 0 then [] else DeterministicSubset(n, client, SubsetSize(n, size), shuffles)
  }

  /** The number, within a round, of the client that position `at` of the shuffle goes to. */
  function Owner(at: nat, k: nat): nat
    requires k >= 1
  {
    at / k
  }

  lemma InSlice(at: nat, id: nat, k: nat)
    requires k >= 1
    ensures id * k <= at < id * k + k <==> Owner(at, k) == id
  {
    assert at == at / k * k + at % k;
    if id < at / k {
      assert (id + 1) * k <= at / k * k;
    } else if id > at / k {
      assert (at / k + 1) * k <= id * k;
    }
  }

  /** A server belongs to the subset that its position in the round's shuffle falls in. */
  lemma Belongs(n: nat, client: nat, k: nat, shuffles: Shuffles, at: nat)
    requires 1 <= k < n && AllShuffles(shuffles, n) && at < n
    ensures n / k >= 1
    ensures shuffles(client / (n / k))[at] in DeterministicSubset(n, client, k, shuffles)
       <==> Owner(at, k) == client % (n / k)
  {
    SliceFits(n, client, k);
    var shuffle := shuffles(client / (n / k));
    assert Shuffle(shuffle, n);
    var start := client % (n / k) * k;
    InSlice(at, client % (n / k), k);
    var subset := shuffle[start..start + k];
    if shuffle[at] in subset {
      var j :| 0 <= j < k && subset[j] == shuffle[at];
      assert shuffle[start + j] == shuffle[at];
    }
    if start <= at < start + k {
      assert subset[at - start] == shuffle[at];
    }
  }

  /** Client number `id` of a round. */
  ghost predicate InRound(client: nat, s: nat, round: nat, id: nat)
  {
    s >= 1 && client / s == round && client % s == id
  }

  /** Whether a server is a client's, told by the client's round and number. */
  lemma ServedBy(n: nat, client: nat, k: nat, shuffles: Shuffles, server: nat, round: nat, id: nat)
    requires 1 <= k < n && AllShuffles(shuffles, n) && server < n && InRound(client, n / k, round, id)
    ensures Shuffle(shuffles(round), n)
    ensures server in DeterministicSubset(n, client, k, shuffles) <==> Owner(PositionIn(shuffles(round), server), k) == id
  {
    assert Shuffle(shuffles(round), n);
    Belongs(n, client, k, shuffles, PositionIn(shuffles(round), server));
  }

  lemma SameNumber(a: nat, b: nat, s: nat)
    requires s >= 1 && a / s == b / s && a % s == b % s
    ensures a == b
  {
    assert a == a / s * s + a % s && b == b / s * s + b % s;
  }

  /** Clients of one round never share a server. */
  lemma DisjointInRound(n: nat, a: nat, b: nat, k: nat, shuffles: Shuffles, server: nat)
    requires 1 <= k < n && AllShuffles(shuffles, n) && n / k >= 1 && a != b && a / (n / k) == b / (n / k) && server < n
    ensures !(server in DeterministicSubset(n, a, k, shuffles) && server in DeterministicSubset(n, b, k, shuffles))
  {
    var s := n / k;
    ServedBy(n, a, k, shuffles, server, a / s, a % s);
    ServedBy(n, b, k, shuffles, server, a / s, b % s);
    if a % s == b % s {
      SameNumber(a, b, s);
    }
  }

  function CountBelow(p: nat -> bool, m: nat): nat
  {
    if m == 0 then 0 else CountBelow(p, m - 1) + if p(m - 1) then 1 else 0
  }

  /** Whether a client has the server in its subset. */
  function Has(n: nat, k: nat, shuffles: Shuffles, server: nat): nat -> bool
    requires 1 <= k && forall round: nat :: |shuffles(round)| == n
  {
    (client: nat) => server in DeterministicSubset(n, client, k, shuffles)
  }

  /** The clients below `m` that have the server in their subset. */
  function Load(n: nat, k: nat, shuffles: Shuffles, server: nat, m: nat): nat
    requires 1 <= k && forall round: nat :: |shuffles(round)| == n
  {
    CountBelow(Has(n, k, shuffles, server), m)
  }

  /** Counting through `s` numbers of which exactly one, or none, counts. */
  lemma {:induction false} CountRound(p: nat -> bool, start: nat, s: nat, owner: nat, q: nat)
    requires q <= s && forall c: nat :: start <= c < start + s ==> (p(c) <==> c - start == owner)
    ensures CountBelow(p, start + q) == CountBelow(p, start) + if owner < q then 1 else 0
    decreases q
  {
    if q > 0 {
      CountRound(p, start, s, owner, q - 1);
    }
  }

  /** Where a server stands in a shuffle. */
  function PositionIn(s: seq<nat>, server: nat): (at: nat)
    requires server in s
    ensures at < |s| && s[at] == server
  {
    if s[0] == server then 0 else 1 + PositionIn(s[1..], server)
  }

  lemma Quotient(round: nat, q: nat, s: nat)
    requires s >= 1 && q < s
    ensures InRound(round * s + q, s, round, q)
  {
    assert (round * s + q) / s * s + (round * s + q) % s == round * s + q;
    var d := (round * s + q) / s - round;
    assert d * s == q - (round * s + q) % s;
  }

  /** The first client of a round. */
  function FirstOf(round: nat, s: nat): nat
  {
    if round == 0 then 0 else FirstOf(round - 1, s) + s
  }

  lemma {:induction false} FirstIsProduct(round: nat, s: nat)
    ensures FirstOf(round, s) == round * s
  {
    if round > 0 {
      FirstIsProduct(round - 1, s);
      assert (round - 1) * s + s == round * s;
    }
  }

  lemma InItsRound(round: nat, id: nat, s: nat)
    requires s >= 1 && id < s
    ensures InRound(FirstOf(round, s) + id, s, round, id)
  {
    FirstIsProduct(round, s);
    Quotient(round, id, s);
  }

  lemma SplitClients(clients: nat, s: nat)
    requires s >= 1
    ensures clients == FirstOf(clients / s, s) + clients % s && clients % s < s
  {
    FirstIsProduct(clients / s, s);
  }

  lemma OwnerInRange(at: nat, n: nat, k: nat)
    requires 1 <= k && at < n && n % k == 0
    ensures Owner(at, k) < n / k
  {
    InSlice(at, Owner(at, k), k);
    assert n == n / k * k;
    MoreSlices(Owner(at, k), n / k, k);
  }

  lemma MoreSlices(a: nat, b: nat, k: nat)
    ensures a >= b ==> a * k >= b * k
  {
  }

  /** The number within the round of the client that gets the server. */
  ghost function OwnerOf(k: nat, shuffle: seq<nat>, server: nat): nat
    requires 1 <= k && server in shuffle
  {
    Owner(PositionIn(shuffle, server), k)
  }

  lemma OwnedInRound(n: nat, k: nat, shuffles: Shuffles, server: nat, round: nat, s: nat, c: nat)
    requires 1 <= k < n && AllShuffles(shuffles, n) && server < n && s == n / k >= 1
    requires FirstOf(round, s) <= c < FirstOf(round, s) + s
    ensures Shuffle(shuffles(round), n)
    ensures Has(n, k, shuffles, server)(c) <==> c - FirstOf(round, s) == OwnerOf(k, shuffles(round), server)
  {
    InItsRound(round, c - FirstOf(round, s), s);
    ServedBy(n, c, k, shuffles, server, round, c - FirstOf(round, s));
  }

  lemma RoundOwned(n: nat, k: nat, shuffles: Shuffles, server: nat, round: nat, s: nat)
    requires 1 <= k < n && AllShuffles(shuffles, n) && server < n && s == n / k >= 1
    ensures Shuffle(shuffles(round), n)
    ensures forall c: nat :: FirstOf(round, s) <= c < FirstOf(round, s) + s ==>
              (Has(n, k, shuffles, server)(c) <==> c - FirstOf(round, s) == OwnerOf(k, shuffles(round), server))
  {
    assert Shuffle(shuffles(round), n);
    forall c: nat | FirstOf(round, s) <= c < FirstOf(round, s) + s
      ensures Has(n, k, shuffles, server)(c) <==> c - FirstOf(round, s) == OwnerOf(k, shuffles(round), server)
    {
      OwnedInRound(n, k, shuffles, server, round, s, c);
    }
  }

  /** Within a round a server gets one client at most. */
  lemma LoadInRound(n: nat, k: nat, shuffles: Shuffles, server: nat, round: nat, s: nat, q: nat)
    requires 1 <= k < n && AllShuffles(shuffles, n) && server < n && s == n / k >= 1 && q <= s
    ensures server in shuffles(round)
    ensures Load(n, k, shuffles, server, FirstOf(round, s) + q)
         == Load(n, k, shuffles, server, FirstOf(round, s)) + if OwnerOf(k, shuffles(round), server) < q then 1 else 0
  {
    RoundOwned(n, k, shuffles, server, round, s);
    CountRound(Has(n, k, shuffles, server), FirstOf(round, s), s, OwnerOf(k, shuffles(round), server), q);
  }

  lemma OwnerBelow(n: nat, k: nat, shuffles: Shuffles, server: nat, round: nat, s: nat)
    requires 1 <= k < n && n % k == 0 && AllShuffles(shuffles, n) && server < n && s == n / k
    ensures server in shuffles(round) && OwnerOf(k, shuffles(round), server) < s
  {
    assert Shuffle(shuffles(round), n);
    OwnerInRange(PositionIn(shuffles(round), server), n, k);
  }

  /** When `k` divides the number of servers, each full round gives every server exactly one client. */
  lemma {:induction false} LoadInRounds(n: nat, k: nat, shuffles: Shuffles, server: nat, round: nat, s: nat)
    requires 1 <= k < n && n % k == 0 && AllShuffles(shuffles, n) && server < n && s == n / k >= 1
    ensures Load(n, k, shuffles, server, FirstOf(round, s)) == round
    decreases round
  {
    if round > 0 {
      LoadInRounds(n, k, shuffles, server, round - 1, s);
      LoadInRound(n, k, shuffles, server, round - 1, s, s);
      OwnerBelow(n, k, shuffles, server, round - 1, s);
    }
  }

  /** Balance: when `k` divides the number of servers, a server has one client for each full round of clients, and one
      more or not from the round under way. So no server has two clients more than another. */
  lemma Balanced(n: nat, k: nat, shuffles: Shuffles, server: nat, clients: nat)
    requires 1 <= k < n && n % k == 0 && AllShuffles(shuffles, n) && server < n && n / k >= 1
    ensures clients / (n / k) <= Load(n, k, shuffles, server, clients) <= clients / (n / k) + 1
  {
    var s := n / k;
    SplitClients(clients, s);
    LoadInRounds(n, k, shuffles, server, clients / s, s);
    LoadInRound(n, k, shuffles, server, clients / s, s, clients % s);
  }

  /** Some client of the round has the server. */
  ghost predicate Covered(n: nat, k: nat, shuffles: Shuffles, round: nat, server: nat)
    requires 1 <= k < n && AllShuffles(shuffles, n) && n / k >= 1
  {
    exists client: nat :: client / (n / k) == round && server in DeterministicSubset(n, client, k, shuffles)
  }

  lemma CoveredBy(n: nat, k: nat, shuffles: Shuffles, round: nat, server: nat)
    requires 1 <= k < n && n % k == 0 && AllShuffles(shuffles, n) && server < n && n / k >= 1
    ensures Covered(n, k, shuffles, round, server)
  {
    var s := n / k;
    OwnerBelow(n, k, shuffles, server, round, s);
    var id := OwnerOf(k, shuffles(round), server);
    InItsRound(round, id, s);
    ServedBy(n, FirstOf(round, s) + id, k, shuffles, server, round, id);
  }

  /** Any round reaches every server exactly when `k` divides their number. */
  lemma CoversIffDivides(n: nat, k: nat, shuffles: Shuffles, round: nat)
    requires 1 <= k < n && AllShuffles(shuffles, n) && n / k >= 1
    ensures (forall server: nat :: server < n ==> Covered(n, k, shuffles, round, server)) <==> n % k == 0
  {
    var s := n / k;
    assert Shuffle(shuffles(round), n);
    if n % k == 0 {
      forall server: nat | server < n ensures Covered(n, k, shuffles, round, server) {
        CoveredBy(n, k, shuffles, round, server);
      }
    } else {
      assert n == s * k + n % k;
      var server := shuffles(round)[s * k];
      InSlice(s * k, s, k);
      forall client: nat | client / s == round ensures server !in DeterministicSubset(n, client, k, shuffles) {
        Belongs(n, client, k, shuffles, s * k);
      }
      assert !Covered(n, k, shuffles, round, server);
    }
  }

  /** Every client gets as many servers of the pool as its subset size says, no two of them the same. */
  lemma AssignedSubset(n: nat, client: nat, size: nat, shuffles: Shuffles)
    requires n > 0 && AllShuffles(shuffles, n)
    ensures forall round: nat :: |shuffles(round)| == n
    ensures var subset := AssignSubset(n, client, size, shuffles);
            && |subset| == SubsetSize(n, size) && (forall i :: 0 <= i < |subset| ==> subset[i] < n)
            && (forall i, j :: 0 <= i < j < |subset| ==> subset[i] != subset[j])
  {
    assert forall round: nat :: Shuffle(shuffles(round), n);
    var k := SubsetSize(n, size);
    if k < n {
      SliceFits(n, client, k);
      assert Shuffle(shuffles(client / (n / k)), n);
    }
  }

  // The side conditions of centralized subsetting

  /** Central pull queues need a strict partition; other policies and the whole pool are always fine. */
  function ValidCentralizedSubset(central: bool, servers: nat, clients: nat, size: nat, deterministic: bool): bool
  {
    if !central || size == 0 then true
    else if !deterministic then false
    else
      var n := Max(servers, 1);
      var k := Max(Min(size, n), 1);
      n % k == 0 && Max(clients, 1) % (n / k) == 0
  }

  /** The clients below `m` that are wired to balancer `lb` of `s`. */
  function Wired(lb: nat, s: nat, m: nat): nat
    requires s >= 1
  {
    if m == 0 then 0 else Wired(lb, s, m - 1) + if (m - 1) % s == lb then 1 else 0
  }

  lemma {:induction false} WiredInRounds(lb: nat, s: nat, round: nat, q: nat)
    requires lb < s && q <= s
    ensures Wired(lb, s, FirstOf(round, s) + q) == round + if lb < q then 1 else 0
    decreases round, q
  {
    if q > 0 {
      WiredInRounds(lb, s, round, q - 1);
      InItsRound(round, q - 1, s);
    } else if round > 0 {
      WiredInRounds(lb, s, round - 1, s);
    }
  }

  /** Under the validated conditions every server is wired to exactly one balancer, and every balancer serves the same
      number of clients. */
  lemma CentralizedPartition(servers: nat, clients: nat, size: nat, shuffles: Shuffles, server: nat, lb: nat)
    requires servers >= 1 && clients >= 1 && 1 <= size < servers && AllShuffles(shuffles, servers) && servers / size >= 1
    requires ValidCentralizedSubset(true, servers, clients, size, true)
    requires server < servers && lb < servers / size
    ensures Load(servers, size, shuffles, server, servers / size) == 1
    ensures Wired(lb, servers / size, clients) == clients / (servers / size)
  {
    var s := servers / size;
    assert FirstOf(1, s) == FirstOf(0, s) + s == s;
    LoadInRounds(servers, size, shuffles, server, 1, s);
    SplitClients(clients, s);
    WiredInRounds(lb, s, clients / s, 0);
  }
}

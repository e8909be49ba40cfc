/** Earliest-deadline-first queues. Inserting at the scanned index keeps a queue sorted by deadline, first come first
    served among equal deadlines; so every pop takes the least pending entry. */
module Edf {

  /** Inserts before the first strictly later deadline. */
  function InsertIndex(deadlines: seq<nat>, deadline: nat): (i: nat)
    ensures i <= |deadlines|
    ensures forall j :: 0 <= j < i ==> deadlines[j] <= deadline
    ensures i < |deadlines| ==> deadlines[i] > deadline
  {
    if deadlines == [] || deadlines[0] > deadline then 0 else 1 + InsertIndex(deadlines[1..], deadline)
  }

  method EdfInsertIndex(deadlines: seq<nat>, deadline: nat) returns (index: nat)
    ensures index == InsertIndex(deadlines, deadline)
  {
    index := 0;
    for k := 0 to |deadlines|
      invariant index == k
      invariant forall j :: 0 <= j < k ==> deadlines[j] <= deadline
    {
      if deadlines[k] > deadline {
        return;
      }
      index := index + 1;
    }
  }

  /** A queued item with its deadline and its arrival number. */
  datatype Entry<T> = Entry(deadline: nat, arrival: nat, item: T)

  function Deadlines<T>(q: seq<Entry<T>>): (d: seq<nat>)
    ensures |d| == |q| && forall i :: 0 <= i < |q| ==> d[i] == q[i].deadline
  {
    seq(|q|, i requires 0 <= i < |q| => q[i].deadline)
  }

  function Insert<T>(q: seq<Entry<T>>, e: Entry<T>): seq<Entry<T>>
  {
    var i := InsertIndex(Deadlines(q), e.deadline);
    q[..i] + [e] + q[i..]
  }

  predicate Before<T>(a: Entry<T>, b: Entry<T>)
  {
    a.deadline < b.deadline || (a.deadline == b.deadline && a.arrival < b.arrival)
  }

  predicate Sorted<T>(q: seq<Entry<T>>)
  {
    forall i, j :: 0 <= i < j < |q| ==> Before(q[i], q[j])
  }

  /** What a queue is for: the pending entries, and the number of the next arrival. */
  datatype Pending<T(==)> = Pending(entries: set<Entry<T>>, next: nat)

  datatype Op<T> = Push(deadline: nat, item: T) | Pop

  /** The queue after a sequence of operations; popping an empty queue changes nothing. */
  function QueueAfter<T>(ops: seq<Op<T>>): (seq<Entry<T>>, nat)
  {
    if ops == [] then ([], 0)
    else
      var (q, next) := QueueAfter(ops[..|ops| - 1]);
      match ops[|ops| - 1]
      case Push(d, item) => (Insert(q, Entry(d, next, item)), next + 1)
      case Pop => (if q == [] then [] else q[1..], next)
  }

  ghost predicate Least<T(!new)>(x: Entry<T>, entries: set<Entry<T>>)
  {
    x in entries && forall y :: y in entries && y != x ==> Before(x, y)
  }

  /** The specification: a pop removes the least pending entry, if there is one. */
  ghost predicate Allowed<T(!new)>(before: Pending<T>, op: Op<T>, after: Pending<T>)
  {
    match op
    case Push(d, item) =>
      after == Pending(before.entries + {Entry(d, before.next, item)}, before.next + 1)
    case Pop =>
      && after.next == before.next
      && (if before.entries == {} then after.entries == {}
          else exists x :: Least(x, before.entries) && after.entries == before.entries - {x})
  }

  ghost function Abstract<T(!new)>(q: seq<Entry<T>>, next: nat): Pending<T>
  {
    Pending((set x | x in q), next)
  }

  ghost predicate Numbered<T>(q: seq<Entry<T>>, next: nat)
  {
    Sorted(q) && forall i :: 0 <= i < |q| ==> q[i].arrival < next
  }

  lemma InsertBag<T>(q: seq<Entry<T>>, e: Entry<T>)
    ensures multiset(Insert(q, e)) == multiset(q) + multiset{e}
    ensures forall x :: x in Insert(q, e) <==> x in q || x == e
  {
    var i := InsertIndex(Deadlines(q), e.deadline);
    assert q == q[..i] + q[i..];
    forall x ensures x in Insert(q, e) <==> x in q || x == e {
      assert x in Insert(q, e) <==> x in multiset(Insert(q, e));
    }
  }

  lemma Joined<T>(a: seq<Entry<T>>, e: Entry<T>, b: seq<Entry<T>>)
    requires Sorted(a + b)
    requires (forall x :: x in a ==> Before(x, e)) && (forall y :: y in b ==> Before(e, y))
    ensures Sorted(a + [e] + b)
  {
    var r := a + [e] + b;
    forall i, j | 0 <= i < j < |r| ensures Before(r[i], r[j]) {
      if i < |a| && j > |a| {
        assert Before((a + b)[i], (a + b)[j - 1]);
      } else if j < |a| {
        assert Before((a + b)[i], (a + b)[j]);
      } else if i > |a| {
        assert Before((a + b)[i - 1], (a + b)[j - 1]);
      }
    }
  }

  lemma Later<T>(q: seq<Entry<T>>, e: Entry<T>, i: nat, k: nat)
    requires Sorted(q) && i <= k < |q| && q[i].deadline > e.deadline
    ensures Before(e, q[k])
  {
    if k > i {
      assert Before(q[i], q[k]);
    }
  }

  lemma AllLater<T>(q: seq<Entry<T>>, e: Entry<T>, i: nat)
    requires Sorted(q) && i <= |q| && (i < |q| ==> q[i].deadline > e.deadline)
    ensures forall y :: y in q[i..] ==> Before(e, y)
  {
    forall y | y in q[i..] ensures Before(e, y) {
      var k :| 0 <= k < |q[i..]| && q[i..][k] == y;
      Later(q, e, i, i + k);
    }
  }

  lemma AllEarlier<T>(q: seq<Entry<T>>, e: Entry<T>, i: nat)
    requires i <= |q| && forall j :: 0 <= j < i ==> q[j].deadline <= e.deadline && q[j].arrival < e.arrival
    ensures forall x :: x in q[..i] ==> Before(x, e)
  {
    forall x | x in q[..i] ensures Before(x, e) {
      var k :| 0 <= k < i && q[k] == x;
    }
  }

  lemma InsertSorts<T>(q: seq<Entry<T>>, e: Entry<T>)
    requires Numbered(q, e.arrival)
    ensures Sorted(Insert(q, e))
  {
    var i := InsertIndex(Deadlines(q), e.deadline);
    assert q[..i] + q[i..] == q;
    AllLater(q, e, i);
    assert forall j :: 0 <= j < i ==> Deadlines(q)[j] <= e.deadline;
    AllEarlier(q, e, i);
    Joined(q[..i], e, q[i..]);
  }

  lemma InsertKeepsSorted<T>(q: seq<Entry<T>>, e: Entry<T>)
    requires Numbered(q, e.arrival)
    ensures Numbered(Insert(q, e), e.arrival + 1)
  {
    InsertSorts(q, e);
    InsertBag(q, e);
    var r := Insert(q, e);
    forall k | 0 <= k < |r| ensures r[k].arrival < e.arrival + 1 {
      assert r[k] in r;
    }
  }

  /** After any operations the queue is sorted, and it holds what the specification says. */
  lemma {:induction false} QueueIsSorted<T>(ops: seq<Op<T>>)
    ensures var (q, next) := QueueAfter(ops); Numbered(q, next)
    decreases |ops|
  {
    if ops != [] {
      QueueIsSorted(ops[..|ops| - 1]);
      var (q, next) := QueueAfter(ops[..|ops| - 1]);
      match ops[|ops| - 1]
      case Push(d, item) => InsertKeepsSorted(q, Entry(d, next, item));
      case Pop =>
    }
  }

  /** Each operation on the queue is one that the specification allows: in particular a pop takes the entry with the
      earliest deadline, and among those the one that came first. */
  lemma QueueRefines<T(!new)>(ops: seq<Op<T>>, op: Op<T>)
    ensures var (q, next) := QueueAfter(ops);
            var (r, after) := QueueAfter(ops + [op]);
            Allowed(Abstract(q, next), op, Abstract(r, after))
            && (op.Pop? && q != [] ==> Least(q[0], Abstract(q, next).entries))
  {
    assert (ops + [op])[..|ops|] == ops;
    QueueIsSorted(ops);
    var (q, next) := QueueAfter(ops);
    match op {
      case Push(d, item) =>
        InsertBag(q, Entry(d, next, item));
        assert Abstract(Insert(q, Entry(d, next, item)), next + 1).entries
            == Abstract(q, next).entries + {Entry(d, next, item)};
      case Pop =>
        if q != [] {
          PopLeast(q, next);
        } else {
          assert Abstract(q, next).entries == {};
        }
    }
  }

  lemma PopLeast<T(!new)>(q: seq<Entry<T>>, next: nat)
    requires Sorted(q) && q != []
    ensures Least(q[0], Abstract(q, next).entries)
    ensures Abstract(q[1..], next).entries == Abstract(q, next).entries - {q[0]}
  {
    var all, rest := Abstract(q, next).entries, Abstract(q[1..], next).entries;
    forall x | x in all && x != q[0] ensures Before(q[0], x) && x in rest {
      var k :| 0 <= k < |q| && q[k] == x;
      assert q[1..][k - 1] == x;
    }
    forall x | x in rest ensures x in all && x != q[0] {
      var k :| 0 <= k < |q[1..]| && q[1..][k] == x;
      assert q[k + 1] == x && Before(q[0], q[k + 1]);
    }
  }

  lemma HeadFirst<T>(q: seq<Entry<T>>, x: Entry<T>)
    requires Sorted(q) && x in q
    ensures x == q[0] || Before(q[0], x)
  {
    var i :| 0 <= i < |q| && q[i] == x;
  }

  lemma SameHead<T>(a: seq<Entry<T>>, b: seq<Entry<T>>)
    requires Sorted(a) && Sorted(b) && a != [] && b != [] && a[0] in b && b[0] in a
    ensures a[0] == b[0]
  {
    HeadFirst(a, b[0]);
    HeadFirst(b, a[0]);
  }

  /** The order leaves no choice: two sorted queues with the same entries are the same queue. */
  lemma {:induction false} SortedIsUnique<T>(a: seq<Entry<T>>, b: seq<Entry<T>>)
    requires Sorted(a) && Sorted(b) && multiset(a) == multiset(b)
    ensures a == b
    decreases |a|
  {
    assert |multiset(b)| == |multiset(a)|;
    if a != [] {
      assert a[0] in multiset(a) && b[0] in multiset(b);
      SameHead(a, b);
      assert a == [a[0]] + a[1..] && b == [b[0]] + b[1..];
      SameTail(a[0], a[1..], b[1..]);
      SortedIsUnique(a[1..], b[1..]);
    }
  }

  lemma SameTail<T>(x: Entry<T>, a: seq<Entry<T>>, b: seq<Entry<T>>)
    requires multiset([x] + a) == multiset([x] + b)
    ensures multiset(a) == multiset(b)
  {
    assert multiset(a) == multiset([x] + a) - multiset{x};
    assert multiset(b) == multiset([x] + b) - multiset{x};
  }
}

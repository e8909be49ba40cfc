/** Replaying queues from a trace. A trace is a sequence of keyed operations, one queue for each key; a replay takes
    items from the queue that the earlier operations built up, in the order that its discipline allows. */
module QueueReplays {
  import opened Domain
  import opened Sums
  import Edf

  /** Which item may be taken: the oldest, the one with the earliest deadline, or any. */
  datatype Discipline = Fifo | ByDeadline | AnyOrder

  datatype QueueOp<T> = Insert(item: T, deadline: nat) | Take(item: T)
  datatype Keyed<K, T> = Keyed(key: K, op: QueueOp<T>)
  datatype Queued<T> = Queued(item: T, deadline: nat)

  /** What a selector picks from the events, in order. */
  function Project<E, X>(events: seq<E>, sel: E -> seq<X>): seq<X>
  {
    if events == [] then [] else Project(events[..|events| - 1], sel) + sel(events[|events| - 1])
  }

  lemma ProjectAppend<E, X>(events: seq<E>, e: E, sel: E -> seq<X>)
    ensures Project(events + [e], sel) == Project(events, sel) + sel(e)
  {
    assert (events + [e])[..|events|] == events;
  }

  /** A projected trace around event `i`. */
  lemma ProjectAt<E, X>(events: seq<E>, i: nat, sel: E -> seq<X>)
    requires i < |events|
    ensures Project(events[..i + 1], sel) == Project(events[..i], sel) + sel(events[i])
    ensures Project(events, sel) == Project(events[..i], sel) + sel(events[i]) + Project(events[i + 1..], sel)
  {
    ProjectNext(events, i, sel);
    ProjectSplit(events, i + 1, sel);
  }

  lemma ProjectNext<E, X>(events: seq<E>, i: nat, sel: E -> seq<X>)
    requires i < |events|
    ensures Project(events[..i + 1], sel) == Project(events[..i], sel) + sel(events[i])
  {
    assert events[..i + 1][..i] == events[..i];
  }

  lemma {:induction false} ProjectSplit<E, X>(events: seq<E>, i: nat, sel: E -> seq<X>)
    requires i <= |events|
    ensures Project(events, sel) == Project(events[..i], sel) + Project(events[i..], sel)
    decreases |events| - i
  {
    if i < |events| {
      var before, last := events[..|events| - 1], events[|events| - 1];
      ProjectAppend(before, last, sel);
      ProjectSplit(before, i, sel);
      assert before[..i] == events[..i];
      ProjectAppend(before[i..], last, sel);
      assert before[i..] + [last] == events[i..];
    } else {
      assert events[..i] == events && events[i..] == [];
    }
  }

  // One queue

  function QueuedDeadlines<T>(q: seq<Queued<T>>): (d: seq<nat>)
    ensures |d| == |q| && forall i :: 0 <= i < |q| ==> d[i] == q[i].deadline
  {
    seq(|q|, i requires 0 <= i < |q| => q[i].deadline)
  }

  function Added<T>(q: seq<Queued<T>>, x: Queued<T>, d: Discipline): seq<Queued<T>>
  {
    if d == ByDeadline then
      var i := Edf.InsertIndex(QueuedDeadlines(q), x.deadline);
      q[..i] + [x] + q[i..]
    else q + [x]
  }

  /** The first position of an item. */
  function IndexOf<T(==)>(q: seq<Queued<T>>, item: T): (r: Option<nat>)
    ensures r.Some? ==> r.value < |q| && q[r.value].item == item && forall j :: 0 <= j < r.value ==> q[j].item != item
    ensures r.None? ==> forall j :: 0 <= j < |q| ==> q[j].item != item
  {
    if q == [] then None
    else if q[0].item == item then Some(0)
    else match IndexOf(q[1..], item) case None => None case Some(i) => Some(i + 1)
  }

  /** The position that a taken item must have. */
  function Place<T(==)>(q: seq<Queued<T>>, item: T, d: Discipline): (r: Option<nat>)
    ensures r.Some? ==> r.value < |q| && q[r.value].item == item
  {
    if d == AnyOrder then IndexOf(q, item) else if q == [] || q[0].item != item then None else Some(0)
  }

  /** The queue after one more operation, or nothing if its item is not to be taken now. */
  function Replayed<T(==)>(q: seq<Queued<T>>, op: QueueOp<T>, d: Discipline): Option<seq<Queued<T>>>
  {
    match op
    case Insert(x, deadline) => Some(Added(q, Queued(x, deadline), d))
    case Take(x) => match Place(q, x, d) case None => None case Some(i) => Some(RemoveAt(q, i))
  }

  function Replay<T(==)>(ops: seq<QueueOp<T>>, d: Discipline): Option<seq<Queued<T>>>
  {
    if ops == [] then Some([])
    else
      match Replay(ops[..|ops| - 1], d)
      case None => None
      case Some(q) => Replayed(q, ops[|ops| - 1], d)
  }

  lemma ReplayAppend<T>(ops: seq<QueueOp<T>>, op: QueueOp<T>, d: Discipline)
    ensures Replay(ops + [op], d) == if Replay(ops, d).None? then None else Replayed(Replay(ops, d).value, op, d)
  {
    assert (ops + [op])[..|ops|] == ops;
  }

  lemma ReplayPrefix<T>(ops: seq<QueueOp<T>>, d: Discipline)
    requires ops != [] && Replay(ops, d).Some?
    ensures var before := ops[..|ops| - 1];
            Replay(before, d).Some? && Replay(ops, d) == Replayed(Replay(before, d).value, ops[|ops| - 1], d)
  {
  }

  /** One operation on a replayed queue. */
  method ReplayOp<T(==)>(queue: seq<Queued<T>>, op: QueueOp<T>, d: Discipline) returns (after: Option<seq<Queued<T>>>)
    ensures after == Replayed(queue, op, d)
  {
    match op {
      case Insert(item, deadline) =>
        if d == ByDeadline {
          var index := Edf.EdfInsertIndex(QueuedDeadlines(queue), deadline);
          return Some(queue[..index] + [Queued(item, deadline)] + queue[index..]);
        }
        after := Some(queue + [Queued(item, deadline)]);
      case Take(item) =>
        if d == AnyOrder {
          var place := Position(queue, item);
          return if place.None? then None else Some(RemoveAt(queue, place.value));
        }
        if queue == [] || queue[0].item != item {
          return None;
        }
        assert RemoveAt(queue, 0) == queue[1..];
        after := Some(queue[1..]);
    }
  }

  method Position<T(==)>(queue: seq<Queued<T>>, item: T) returns (place: Option<nat>)
    ensures place == IndexOf(queue, item)
  {
    for i := 0 to |queue|
      invariant forall j :: 0 <= j < i ==> queue[j].item != item
    {
      if queue[i].item == item {
        return Some(i);
      }
    }
    place := None;
  }

  // What a replay means

  function Inserted<T>(ops: seq<QueueOp<T>>): seq<T>
  {
    if ops == [] then []
    else Inserted(ops[..|ops| - 1]) + match ops[|ops| - 1] case Insert(x, _) => [x] case Take(_) => []
  }

  function Taken<T>(ops: seq<QueueOp<T>>): seq<T>
  {
    if ops == [] then []
    else Taken(ops[..|ops| - 1]) + match ops[|ops| - 1] case Insert(_, _) => [] case Take(x) => [x]
  }

  function Items<T>(q: seq<Queued<T>>): (items: seq<T>)
    ensures |items| == |q| && forall i :: 0 <= i < |q| ==> items[i] == q[i].item
  {
    seq(|q|, i requires 0 <= i < |q| => q[i].item)
  }

  lemma FifoStep<T>(q: seq<Queued<T>>, op: QueueOp<T>)
    requires Replayed(q, op, Fifo).Some?
    ensures var after := Items(Replayed(q, op, Fifo).value);
            match op case Insert(x, _) => after == Items(q) + [x] case Take(x) => [x] + after == Items(q)
  {
  }

  lemma Shift<T>(taken: seq<T>, x: T, queued: seq<T>)
    ensures taken + [x] + queued == taken + ([x] + queued)
  {
  }

  /** First come, first served: what was taken and what is queued are what came, in the same order. */
  lemma {:induction false} FifoMeans<T>(ops: seq<QueueOp<T>>)
    requires Replay(ops, Fifo).Some?
    ensures Taken(ops) + Items(Replay(ops, Fifo).value) == Inserted(ops)
    decreases |ops|
  {
    if ops != [] {
      var before, op := ops[..|ops| - 1], ops[|ops| - 1];
      ReplayPrefix(ops, Fifo);
      FifoMeans(before);
      FifoStep(Replay(before, Fifo).value, op);
      match op
      case Insert(_, _) => assert Taken(ops) == Taken(before);
      case Take(x) =>
        assert Inserted(ops) == Inserted(before);
        Shift(Taken(before), x, Items(Replay(ops, Fifo).value));
    }
  }

  lemma RemovedBag<T>(s: seq<T>, i: nat)
    requires i < |s|
    ensures multiset(s) == multiset(RemoveAt(s, i)) + multiset{s[i]}
  {
    assert s == s[..i] + [s[i]] + s[i + 1..];
  }

  lemma AddedBag<T>(q: seq<Queued<T>>, x: Queued<T>, d: Discipline)
    ensures multiset(Items(Added(q, x, d))) == multiset(Items(q)) + multiset{x.item}
  {
    if d == ByDeadline {
      var i := Edf.InsertIndex(QueuedDeadlines(q), x.deadline);
      assert Items(Added(q, x, d)) == Items(q)[..i] + [x.item] + Items(q)[i..];
      assert Items(q) == Items(q)[..i] + Items(q)[i..];
    } else {
      assert Items(Added(q, x, d)) == Items(q) + [x.item];
    }
  }

  /** What one operation does to the items of a queue. */
  lemma ReplayedBag<T>(q: seq<Queued<T>>, op: QueueOp<T>, d: Discipline)
    requires Replayed(q, op, d).Some?
    ensures var after := multiset(Items(Replayed(q, op, d).value));
            match op
            case Insert(x, _) => after == multiset(Items(q)) + multiset{x}
            case Take(x) => after + multiset{x} == multiset(Items(q))
  {
    match op
    case Insert(x, deadline) => AddedBag(q, Queued(x, deadline), d);
    case Take(x) =>
      var i := Place(q, x, d).value;
      RemovedBag(Items(q), i);
      assert Items(RemoveAt(q, i)) == RemoveAt(Items(q), i);
  }

  /** Whatever the discipline, what was taken and what is queued are what came, each as often. */
  lemma {:induction false} TakenAndQueued<T>(ops: seq<QueueOp<T>>, d: Discipline)
    requires Replay(ops, d).Some?
    ensures multiset(Taken(ops)) + multiset(Items(Replay(ops, d).value)) == multiset(Inserted(ops))
    decreases |ops|
  {
    if ops != [] {
      var before, op := ops[..|ops| - 1], ops[|ops| - 1];
      ReplayPrefix(ops, d);
      TakenAndQueued(before, d);
      ReplayedBag(Replay(before, d).value, op, d);
      match op
      case Insert(x, _) => assert Inserted(ops) == Inserted(before) + [x] && Taken(ops) == Taken(before);
      case Take(x) => assert Taken(ops) == Taken(before) + [x] && Inserted(ops) == Inserted(before);
    }
  }

  // By deadline

  /** The trace as operations on a queue by deadline. */
  function EdfOps<T>(ops: seq<QueueOp<T>>): (r: seq<Edf.Op<T>>)
    ensures |r| == |ops|
  {
    if ops == [] then [] else EdfOps(ops[..|ops| - 1]) + [EdfOp(ops[|ops| - 1])]
  }

  function EdfOp<T>(op: QueueOp<T>): Edf.Op<T>
  {
    match op case Insert(x, deadline) => Edf.Push(deadline, x) case Take(_) => Edf.Pop
  }

  function Plain<T>(q: seq<Edf.Entry<T>>): (r: seq<Queued<T>>)
    ensures |r| == |q| && forall i :: 0 <= i < |q| ==> r[i] == Queued(q[i].item, q[i].deadline)
  {
    seq(|q|, i requires 0 <= i < |q| => Queued(q[i].item, q[i].deadline))
  }

  lemma ReplayedIsEdf<T>(q: seq<Edf.Entry<T>>, next: nat, op: QueueOp<T>)
    requires Replayed(Plain(q), op, ByDeadline).Some?
    ensures Replayed(Plain(q), op, ByDeadline).value
         == match EdfOp(op)
            case Push(d, x) => Plain(Edf.Insert(q, Edf.Entry(d, next, x)))
            case Pop => if q == [] then [] else Plain(q[1..])
  {
    assert Edf.Deadlines(q) == QueuedDeadlines(Plain(q));
    match op
    case Insert(x, d) =>
      var i := Edf.InsertIndex(QueuedDeadlines(Plain(q)), d);
      assert Plain(q[..i]) == Plain(q)[..i] && Plain(q[i..]) == Plain(q)[i..];
      assert Plain(Edf.Insert(q, Edf.Entry(d, next, x))) == Plain(q)[..i] + [Queued(x, d)] + Plain(q)[i..];
    case Take(_) => assert Plain(q[1..]) == RemoveAt(Plain(q), 0);
  }

  /** The replayed queue is the abstract queue by deadline, without its arrival numbers. */
  lemma {:induction false} ReplayIsEdf<T>(ops: seq<QueueOp<T>>)
    requires Replay(ops, ByDeadline).Some?
    ensures Plain(Edf.QueueAfter(EdfOps(ops)).0) == Replay(ops, ByDeadline).value
    decreases |ops|
  {
    if ops != [] {
      var before, op := ops[..|ops| - 1], ops[|ops| - 1];
      ReplayPrefix(ops, ByDeadline);
      ReplayIsEdf(before);
      assert EdfOps(ops)[..|before|] == EdfOps(before);
      ReplayedIsEdf(Edf.QueueAfter(EdfOps(before)).0, Edf.QueueAfter(EdfOps(before)).1, op);
    }
  }

  /** Of the pending items, the one with the earliest deadline, and among those with that deadline the one that came first. */
  ghost predicate TakesLeast<T(!new)>(before: seq<QueueOp<T>>, item: T)
  {
    var (q, next) := Edf.QueueAfter(EdfOps(before));
    q != [] && q[0].item == item && Edf.Least(q[0], Edf.Abstract(q, next).entries)
  }

  /** By deadline, only that item is taken. */
  lemma TakenIsLeast<T(!new)>(ops: seq<QueueOp<T>>, item: T)
    requires Replay(ops + [Take(item)], ByDeadline).Some?
    ensures TakesLeast(ops, item)
  {
    ReplayAppend(ops, Take(item), ByDeadline);
    ReplayIsEdf(ops);
    Edf.QueueRefines(EdfOps(ops), Edf.Pop);
  }

  // Many queues

  /** The operations on one queue, in order. */
  function Of<K(==), T>(ops: seq<Keyed<K, T>>, key: K): seq<QueueOp<T>>
  {
    if ops == [] then []
    else Of(ops[..|ops| - 1], key) + if ops[|ops| - 1].key == key then [ops[|ops| - 1].op] else []
  }

  lemma OfAppend<K, T>(ops: seq<Keyed<K, T>>, op: Keyed<K, T>, key: K)
    ensures Of(ops + [op], key) == if op.key == key then Of(ops, key) + [op.op] else Of(ops, key)
  {
    assert (ops + [op])[..|ops|] == ops;
  }

  ghost predicate ReplaysTo<K, T>(ops: seq<Keyed<K, T>>, key: K, d: Discipline, q: seq<Queued<T>>)
  {
    Replay(Of(ops, key), d) == Some(q)
  }

  /** Every item was taken in its turn. */
  ghost predicate InOrder<K(!new), T>(ops: seq<Keyed<K, T>>, d: Discipline)
  {
    forall key: K :: Replay(Of(ops, key), d).Some?
  }

  /** So it was, and nothing is left. */
  ghost predicate Emptied<K(!new), T>(ops: seq<Keyed<K, T>>, d: Discipline)
  {
    forall key: K :: ReplaysTo(ops, key, d, [])
  }

  lemma ReplaysAppend<K, T>(ops: seq<Keyed<K, T>>, op: Keyed<K, T>, key: K, d: Discipline, q: seq<Queued<T>>)
    requires ReplaysTo(ops, key, d, q)
    ensures op.key != key ==> ReplaysTo(ops + [op], key, d, q)
    ensures op.key == key ==> Replay(Of(ops + [op], key), d) == Replayed(q, op.op, d)
  {
    OfAppend(ops, op, key);
    if op.key == key {
      ReplayAppend(Of(ops, key), op.op, d);
    }
  }

  /** A rejected prefix stays rejected. */
  lemma {:induction false} StaysRejected<K, T>(ops: seq<Keyed<K, T>>, more: seq<Keyed<K, T>>, key: K, d: Discipline)
    requires Replay(Of(ops, key), d).None?
    ensures Replay(Of(ops + more, key), d).None?
    decreases |more|
  {
    if more == [] {
      assert ops + more == ops;
    } else {
      var before, last := more[..|more| - 1], more[|more| - 1];
      StaysRejected(ops, before, key, d);
      OfAppend(ops + before, last, key);
      assert ops + before + [last] == ops + more;
      if last.key == key {
        ReplayAppend(Of(ops + before, key), last.op, d);
      }
    }
  }

  function GetQueue<K, T>(queues: map<K, seq<Queued<T>>>, key: K): seq<Queued<T>>
  {
    if key in queues then queues[key] else []
  }

  /** The replayed queues tell what the operations so far have built up. */
  ghost predicate Tells<K(!new), T>(queues: map<K, seq<Queued<T>>>, ops: seq<Keyed<K, T>>, d: Discipline)
  {
    forall key: K :: ReplaysTo(ops, key, d, GetQueue(queues, key))
  }

  lemma TellsNext<K(!new), T>(queues: map<K, seq<Queued<T>>>, ops: seq<Keyed<K, T>>, op: Keyed<K, T>, d: Discipline,
                              after: seq<Queued<T>>)
    requires Tells(queues, ops, d) && Replayed(GetQueue(queues, op.key), op.op, d) == Some(after)
    ensures Tells(queues[op.key := after], ops + [op], d)
  {
    var next := queues[op.key := after];
    forall key: K ensures ReplaysTo(ops + [op], key, d, GetQueue(next, key)) {
      assert ReplaysTo(ops, key, d, GetQueue(queues, key));
      ReplaysAppend(ops, op, key, d, GetQueue(queues, key));
    }
  }

  lemma Refused<K(!new), T>(queues: map<K, seq<Queued<T>>>, ops: seq<Keyed<K, T>>, op: Keyed<K, T>, d: Discipline,
                            more: seq<Keyed<K, T>>)
    requires Tells(queues, ops, d) && Replayed(GetQueue(queues, op.key), op.op, d).None?
    ensures !InOrder(ops + [op] + more, d) && !Emptied(ops + [op] + more, d)
  {
    assert ReplaysTo(ops, op.key, d, GetQueue(queues, op.key));
    ReplaysAppend(ops, op, op.key, d, GetQueue(queues, op.key));
    StaysRejected(ops + [op], more, op.key, d);
    assert !ReplaysTo(ops + [op] + more, op.key, d, []);
  }

  /** What event `i` of a trace does to the replayed queues. */
  lemma EventReplays<E, K(!new), T>(queues: map<K, seq<Queued<T>>>, events: seq<E>, i: nat, sel: E -> seq<Keyed<K, T>>,
                                    d: Discipline)
    requires i < |events| && |sel(events[i])| <= 1 && Tells(queues, Project(events[..i], sel), d)
    ensures sel(events[i]) == [] ==> Tells(queues, Project(events[..i + 1], sel), d)
    ensures sel(events[i]) != [] ==>
              var op := sel(events[i])[0];
              match Replayed(GetQueue(queues, op.key), op.op, d)
              case None => !InOrder(Project(events, sel), d) && !Emptied(Project(events, sel), d)
              case Some(q) => Tells(queues[op.key := q], Project(events[..i + 1], sel), d)
  {
    ProjectAt(events, i, sel);
    var before := Project(events[..i], sel);
    if sel(events[i]) == [] {
      assert Project(events[..i + 1], sel) == before;
    } else {
      var op := sel(events[i])[0];
      assert sel(events[i]) == [op];
      match Replayed(GetQueue(queues, op.key), op.op, d)
      case None => Refused(queues, before, op, d, Project(events[i + 1..], sel));
      case Some(q) => TellsNext(queues, before, op, d, q);
    }
  }

  lemma TellsEmptied<K(!new), T>(queues: map<K, seq<Queued<T>>>, ops: seq<Keyed<K, T>>, d: Discipline)
    requires Tells(queues, ops, d)
    ensures InOrder(ops, d)
    ensures Emptied(ops, d) <==> forall key :: key in queues ==> queues[key] == []
  {
    forall key: K ensures Replay(Of(ops, key), d).Some? && (ReplaysTo(ops, key, d, []) <==> GetQueue(queues, key) == []) {
      assert ReplaysTo(ops, key, d, GetQueue(queues, key));
    }
    if Emptied(ops, d) {
      forall key | key in queues ensures queues[key] == [] {
        assert ReplaysTo(ops, key, d, []);
      }
    }
  }

  method AllEmpty<K(==), T(==)>(queues: map<K, seq<Queued<T>>>) returns (ok: bool)
    ensures ok <==> forall key :: key in queues ==> queues[key] == []
  {
    var keys := queues.Keys;
    while keys != {}
      invariant keys <= queues.Keys
      invariant forall key :: key in queues && key !in keys ==> queues[key] == []
      decreases |keys|
    {
      var key :| key in keys;
      if queues[key] != [] {
        return false;
      }
      keys := keys - {key};
    }
    ok := true;
  }

  // Lengths

  /** How many items have come to a queue and not been taken. */
  function Level<K(==), T>(ops: seq<Keyed<K, T>>, key: K): int
  {
    |Inserted(Of(ops, key))| - |Taken(Of(ops, key))|
  }

  lemma LevelAppend<K, T>(ops: seq<Keyed<K, T>>, op: Keyed<K, T>, key: K)
    ensures Level(ops + [op], key) == Level(ops, key) + if op.key != key then 0 else if op.op.Insert? then 1 else -1
  {
    OfAppend(ops, op, key);
    if op.key == key {
      var all := Of(ops, key) + [op.op];
      assert all[..|all| - 1] == Of(ops, key);
    }
  }

  lemma LevelIsLength<K, T>(ops: seq<Keyed<K, T>>, key: K, d: Discipline, q: seq<Queued<T>>)
    requires ReplaysTo(ops, key, d, q)
    ensures Level(ops, key) == |q|
  {
    TakenAndQueued(Of(ops, key), d);
    var a, b, c := Taken(Of(ops, key)), Items(q), Inserted(Of(ops, key));
    assert |multiset(a) + multiset(b)| == |multiset(a)| + |multiset(b)| == |multiset(c)|;
  }

  // Accepted traces

  /** A queue that was replayed in order and has let out as many items as came let out what came: each as often, and under
      first come, first served in the same order. */
  lemma ReplayedWhole<K, T>(ops: seq<Keyed<K, T>>, key: K, d: Discipline)
    requires Replay(Of(ops, key), d).Some? && Level(ops, key) == 0
    ensures ReplaysTo(ops, key, d, [])
    ensures multiset(Taken(Of(ops, key))) == multiset(Inserted(Of(ops, key)))
    ensures d == Fifo ==> Taken(Of(ops, key)) == Inserted(Of(ops, key))
  {
    var q := Replay(Of(ops, key), d).value;
    LevelIsLength(ops, key, d, q);
    TakenAndQueued(Of(ops, key), d);
    assert q == [];
    assert Items(q) == [];
    if d == Fifo {
      FifoMeans(Of(ops, key));
    }
  }

  lemma {:induction false} AcceptedUpTo<K, T>(ops: seq<Keyed<K, T>>, k: nat, key: K, d: Discipline)
    requires k <= |ops| && Replay(Of(ops, key), d).Some?
    ensures Replay(Of(ops[..k], key), d).Some?
    decreases |ops|
  {
    if k == |ops| {
      assert ops[..k] == ops;
    } else {
      var before := ops[..|ops| - 1];
      assert before[..k] == ops[..k];
      if Of(ops, key) != Of(before, key) {
        ReplayPrefix(Of(ops, key), d);
      }
      AcceptedUpTo(before, k, key, d);
    }
  }

  lemma OfNext<K, T>(ops: seq<Keyed<K, T>>, k: nat)
    requires k < |ops|
    ensures Of(ops[..k + 1], ops[k].key) == Of(ops[..k], ops[k].key) + [ops[k].op]
  {
    assert ops[..k + 1][..k] == ops[..k];
  }

  /** In a trace that replays by deadline, every item taken is the pending one of its queue with the earliest deadline,
      and among those with that deadline the one that came first. */
  lemma EveryTakeIsLeast<K, T(!new)>(ops: seq<Keyed<K, T>>, k: nat)
    requires k < |ops| && ops[k].op.Take? && Replay(Of(ops, ops[k].key), ByDeadline).Some?
    ensures TakesLeast(Of(ops[..k], ops[k].key), ops[k].op.item)
  {
    AcceptedUpTo(ops, k + 1, ops[k].key, ByDeadline);
    OfNext(ops, k);
    TakenIsLeast(Of(ops[..k], ops[k].key), ops[k].op.item);
  }
}

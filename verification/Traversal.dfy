/** What is left of a request, read off the request itself. A request before service still has to serve the call tree
    at its endpoint and then whatever its callers have left; each handler only moves it along this list. */
module Traversal {
  import opened Domain
  import opened CallGraphs
  import opened Replicas

  /** The specification of a simulation's requests: the edges, a set of endpoints closed under them, and where the
      requests of each API enter. */
  datatype Spec = Spec(children: Edges, all: set<Endpoint>, entry: map<string, Endpoint>)

  /** What the cycle check has established. */
  ghost predicate Checked(p: Spec)
  {
    && Closed(p.all, p.children)
    && forall api :: api in p.entry ==> p.entry[api] in p.all && Acyclic(p.children, api, p.entry[api], p.all)
  }

  ghost predicate Rooted(p: Spec, api: string, e: Endpoint)
    requires Closed(p.all, p.children)
  {
    e in p.all && Acyclic(p.children, api, e, p.all)
  }

  /** The children of an endpoint from number `i` on, with everything below them. */
  ghost function Rest(p: Spec, api: string, e: Endpoint, i: nat): seq<Endpoint>
    requires Closed(p.all, p.children) && Rooted(p, api, e)
  {
    PreorderUnfolds(p.children, api, e, p.all);
    var kids := FilteredChildren(p.children, e, api);
    if i < |kids| then Forest(p.children, api, kids[i..], p.all) else []
  }

  ghost predicate ChainOk(p: Spec, api: string, caller: Option<CallerRef>)
    requires Closed(p.all, p.children)
    decreases caller
  {
    caller.Some? ==> Rooted(p, api, caller.value.resumeEndpoint) && ChainOk(p, api, caller.value.resumeCaller)
  }

  /** What the callers still have to do, innermost first. */
  ghost function Continuation(p: Spec, api: string, caller: Option<CallerRef>): seq<Endpoint>
    requires Closed(p.all, p.children) && ChainOk(p, api, caller)
    decreases caller
  {
    if caller.None? then []
    else Rest(p, api, caller.value.resumeEndpoint, caller.value.resumeSibling)
         + Continuation(p, api, caller.value.resumeCaller)
  }

  ghost predicate HopOk(p: Spec, hop: Hop)
  {
    Checked(p) && hop.api in p.entry && Rooted(p, hop.api, hop.endpoint) && ChainOk(p, hop.api, hop.caller)
  }

  /** What a request still has to serve before the service of its endpoint. */
  ghost function Ahead(p: Spec, hop: Hop): seq<Endpoint>
    requires HopOk(p, hop)
  {
    Preorder(p.children, hop.api, hop.endpoint, p.all) + Continuation(p, hop.api, hop.caller)
  }

  /** What it still has to serve after that, once it has been to the children before its sibling index. */
  ghost function Remaining(p: Spec, hop: Hop): seq<Endpoint>
    requires HopOk(p, hop)
  {
    Rest(p, hop.api, hop.endpoint, hop.sibling) + Continuation(p, hop.api, hop.caller)
  }

  /** Serving takes the head off the list. */
  lemma ServingTakesHead(p: Spec, hop: Hop)
    requires HopOk(p, hop)
    ensures HopOk(p, Served(hop)) && Ahead(p, hop) == [hop.endpoint] + Remaining(p, Served(hop))
  {
    PreorderUnfolds(p.children, hop.api, hop.endpoint, p.all);
    var kids := FilteredChildren(p.children, hop.endpoint, hop.api);
    assert kids[0..] == kids;
    assert Preorder(p.children, hop.api, hop.endpoint, p.all) == [hop.endpoint] + Rest(p, hop.api, hop.endpoint, 0);
  }

  lemma ForestSplit(p: Spec, api: string, kids: seq<Endpoint>, i: nat)
    requires Closed(p.all, p.children) && i < |kids|
    requires forall k :: k in kids ==> Rooted(p, api, k)
    ensures forall k :: k in kids[i..] ==> k in p.all && Acyclic(p.children, api, k, p.all)
    ensures forall k :: k in kids[i + 1..] ==> k in p.all && Acyclic(p.children, api, k, p.all)
    ensures kids[i] in kids
    ensures Forest(p.children, api, kids[i..], p.all)
         == Preorder(p.children, api, kids[i], p.all) + Forest(p.children, api, kids[i + 1..], p.all)
  {
    var tail := kids[i..];
    forall k | k in tail ensures k in kids {
      var j :| 0 <= j < |tail| && tail[j] == k;
      assert kids[i + j] == k;
    }
    assert tail[0] == kids[i] && tail[1..] == kids[i + 1..];
  }

  lemma RestUnfolds(p: Spec, api: string, e: Endpoint, i: nat)
    requires Closed(p.all, p.children) && Rooted(p, api, e) && i < |FilteredChildren(p.children, e, api)|
    ensures var kids := FilteredChildren(p.children, e, api);
            Rooted(p, api, kids[i])
            && Rest(p, api, e, i) == Preorder(p.children, api, kids[i], p.all) + Rest(p, api, e, i + 1)
  {
    PreorderUnfolds(p.children, api, e, p.all);
    var kids := FilteredChildren(p.children, e, api);
    assert kids[i] in kids;
    ForestSplit(p, api, kids, i);
    if i + 1 == |kids| {
      assert kids[i + 1..] == [];
    }
  }

  /** Going to a child leaves the list as it is. */
  lemma CallKeepsList(p: Spec, at: Address, hop: Hop)
    requires HopOk(p, hop) && hop.sibling < |FilteredChildren(p.children, hop.endpoint, hop.api)|
    ensures var child := ChildHop(at, hop, FilteredChildren(p.children, hop.endpoint, hop.api)[hop.sibling]);
            HopOk(p, child) && Ahead(p, child) == Remaining(p, hop)
  {
    RestUnfolds(p, hop.api, hop.endpoint, hop.sibling);
    var child := ChildHop(at, hop, FilteredChildren(p.children, hop.endpoint, hop.api)[hop.sibling]);
    var first, rest := Preorder(p.children, hop.api, child.endpoint, p.all), Rest(p, hop.api, hop.endpoint, hop.sibling + 1);
    var outer := Continuation(p, hop.api, hop.caller);
    assert Continuation(p, hop.api, child.caller) == rest + outer;
    assert first + (rest + outer) == (first + rest) + outer;
  }

  /** Going back to the caller leaves the list as it is. */
  lemma ReturnKeepsList(p: Spec, hop: Hop)
    requires HopOk(p, hop) && hop.caller.Some? && hop.sibling >= |FilteredChildren(p.children, hop.endpoint, hop.api)|
    ensures var back := ResumedHop(hop, hop.caller.value);
            HopOk(p, back) && Remaining(p, back) == Remaining(p, hop)
  {
    assert Rest(p, hop.api, hop.endpoint, hop.sibling) == [];
    assert [] + Continuation(p, hop.api, hop.caller) == Continuation(p, hop.api, hop.caller);
  }

  /** A request that leaves has nothing left to serve. */
  lemma LeavingIsDone(p: Spec, hop: Hop)
    requires HopOk(p, hop) && hop.caller.None? && hop.sibling >= |FilteredChildren(p.children, hop.endpoint, hop.api)|
    ensures Remaining(p, hop) == []
  {
  }

  /** A request that enters has its whole call tree to serve. */
  lemma EnteringHasAll(p: Spec, hop: Hop)
    requires Checked(p) && hop.api in p.entry && hop.endpoint == p.entry[hop.api] && hop.caller.None?
    ensures HopOk(p, hop) && Ahead(p, hop) == Preorder(p.children, hop.api, p.entry[hop.api], p.all)
  {
  }
}

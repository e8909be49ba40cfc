/** The call graph of the microservice simulator, and the depth-first cycle check that guards it. */
module CallGraphs {
  import opened Domain

  type Endpoint = string

  /** An edge carries the API whose requests follow it, if any. */
  datatype Edge = Edge(target: Endpoint, api: Option<string>)

  type Edges = map<Endpoint, seq<Edge>>

  /** The targets of an endpoint's edges for one API, in order. */
  function FilteredChildren(children: Edges, endpoint: Endpoint, api: string): seq<Endpoint>
  {
    if endpoint in children then Targets(children[endpoint], api) else []
  }

  function Targets(edges: seq<Edge>, api: string): seq<Endpoint>
  {
    if edges == [] then []
    else if edges[0].api == Some(api) then [edges[0].target] + Targets(edges[1..], api)
    else Targets(edges[1..], api)
  }

  /** A set of endpoints that no edge leaves. */
  ghost predicate Closed(all: set<Endpoint>, children: Edges)
  {
    forall e, i :: e in children && 0 <= i < |children[e]| ==> children[e][i].target in all
  }

  // The visit

  /** The endpoints that a depth-first visit from `e` enters, in order, or nothing if it runs into an endpoint that it
      is still inside of. */
  ghost function Visit(children: Edges, api: string, e: Endpoint, stack: set<Endpoint>, all: set<Endpoint>): Option<seq<Endpoint>>
    requires Closed(all, children) && e in all
    decreases |all - stack|, 0
  {
    if e in stack then None
    else
      TargetsIn(children, e, api, all);
      Shrinks(all, stack, e);
      match VisitAll(children, api, FilteredChildren(children, e, api), stack + {e}, all)
      case None => None
      case Some(rest) => Some([e] + rest)
  }

  ghost function VisitAll(children: Edges, api: string, kids: seq<Endpoint>, stack: set<Endpoint>, all: set<Endpoint>): Option<seq<Endpoint>>
    requires Closed(all, children) && (forall k :: k in kids ==> k in all)
    decreases |all - stack|, 1 + |kids|
  {
    if kids == [] then Some([])
    else
      match Visit(children, api, kids[0], stack, all)
      case None => None
      case Some(first) =>
        match VisitAll(children, api, kids[1..], stack, all)
        case None => None
        case Some(rest) => Some(first + rest)
  }

  lemma Shrinks(all: set<Endpoint>, stack: set<Endpoint>, e: Endpoint)
    requires e in all && e !in stack
    ensures |all - (stack + {e})| < |all - stack|
  {
    assert all - stack == (all - (stack + {e})) + {e};
  }

  lemma {:induction false} TargetsFrom(edges: seq<Edge>, api: string)
    ensures forall k :: k in Targets(edges, api) ==> exists i :: 0 <= i < |edges| && edges[i].target == k
  {
    if edges != [] {
      TargetsFrom(edges[1..], api);
      forall k | k in Targets(edges, api) ensures exists i :: 0 <= i < |edges| && edges[i].target == k {
        if k in Targets(edges[1..], api) {
          var i :| 0 <= i < |edges[1..]| && edges[1..][i].target == k;
          assert edges[i + 1].target == k;
        } else {
          assert edges[0].target == k;
        }
      }
    }
  }

  lemma TargetsIn(children: Edges, e: Endpoint, api: string, all: set<Endpoint>)
    requires Closed(all, children)
    ensures forall k :: k in FilteredChildren(children, e, api) ==> k in all
  {
    if e in children {
      TargetsFrom(children[e], api);
    }
  }

  // What the check means

  /** A walk along the edges of one API. */
  ghost predicate Walk(children: Edges, api: string, w: seq<Endpoint>)
  {
    w != [] && forall i :: 0 <= i < |w| - 1 ==> w[i + 1] in FilteredChildren(children, w[i], api)
  }

  ghost predicate Repeats(w: seq<Endpoint>)
  {
    exists i, j :: 0 <= i < j < |w| && w[i] == w[j]
  }

  /** Some walk from `e` comes back to an endpoint that it has been to. */
  ghost predicate ReachesCycle(children: Edges, api: string, e: Endpoint)
  {
    exists w :: Walk(children, api, w) && w[0] == e && Repeats(w)
  }

  ghost predicate Enters(w: seq<Endpoint>, stack: set<Endpoint>)
  {
    exists i :: 0 <= i < |w| && w[i] in stack
  }

  /** A visit that succeeds has seen every walk: none repeats an endpoint or enters the stack. */
  lemma {:induction false} VisitedWalk(children: Edges, api: string, stack: set<Endpoint>, all: set<Endpoint>, w: seq<Endpoint>)
    requires Closed(all, children) && Walk(children, api, w) && w[0] in all
    requires Visit(children, api, w[0], stack, all).Some?
    ensures !Repeats(w) && !Enters(w, stack)
    decreases |w|
  {
    if |w| > 1 {
      var kids := FilteredChildren(children, w[0], api);
      TargetsIn(children, w[0], api, all);
      VisitedKid(children, api, kids, stack + {w[0]}, all, w[1]);
      assert forall i :: 0 <= i < |w[1..]| ==> w[1..][i] == w[i + 1];
      VisitedWalk(children, api, stack + {w[0]}, all, w[1..]);
      assert forall i :: 0 < i < |w| ==> w[i] == w[1..][i - 1];
    }
  }

  lemma {:induction false} VisitedKid(children: Edges, api: string, kids: seq<Endpoint>, stack: set<Endpoint>, all: set<Endpoint>, k: Endpoint)
    requires Closed(all, children) && (forall k :: k in kids ==> k in all) && k in kids
    requires VisitAll(children, api, kids, stack, all).Some?
    ensures Visit(children, api, k, stack, all).Some?
    decreases |kids|
  {
    if kids[0] != k {
      VisitedKid(children, api, kids[1..], stack, all, k);
    }
  }

  /** A visit that fails has found a walk that repeats an endpoint or enters the stack. */
  lemma {:induction false} FailedWalk(children: Edges, api: string, e: Endpoint, stack: set<Endpoint>, all: set<Endpoint>)
    returns (w: seq<Endpoint>)
    requires Closed(all, children) && e in all && Visit(children, api, e, stack, all).None?
    ensures Walk(children, api, w) && w[0] == e && (Repeats(w) || Enters(w, stack))
    decreases |all - stack|, 0
  {
    if e in stack {
      w := [e];
      assert w[0] in stack;
    } else {
      TargetsIn(children, e, api, all);
      Shrinks(all, stack, e);
      var q := FailedKid(children, api, FilteredChildren(children, e, api), stack + {e}, all);
      w := [e] + q;
      assert forall i :: 0 < i < |w| ==> w[i] == q[i - 1];
      if Repeats(q) {
        var i, j :| 0 <= i < j < |q| && q[i] == q[j];
        assert w[i + 1] == w[j + 1];
      } else {
        var i :| 0 <= i < |q| && q[i] in stack + {e};
        assert w[i + 1] == q[i];
        if q[i] == e {
          assert w[0] == w[i + 1];
        }
      }
    }
  }

  lemma {:induction false} FailedKid(children: Edges, api: string, kids: seq<Endpoint>, stack: set<Endpoint>, all: set<Endpoint>)
    returns (w: seq<Endpoint>)
    requires Closed(all, children) && (forall k :: k in kids ==> k in all)
    requires VisitAll(children, api, kids, stack, all).None?
    ensures Walk(children, api, w) && w[0] in kids && (Repeats(w) || Enters(w, stack))
    decreases |all - stack|, 1 + |kids|
  {
    if Visit(children, api, kids[0], stack, all).None? {
      w := FailedWalk(children, api, kids[0], stack, all);
    } else {
      w := FailedKid(children, api, kids[1..], stack, all);
    }
  }

  /** The check accepts an entry point exactly when no cycle can be reached from it along its API's edges. */
  lemma AcceptsIffAcyclic(children: Edges, api: string, e: Endpoint, all: set<Endpoint>)
    requires Closed(all, children) && e in all
    ensures Visit(children, api, e, {}, all).Some? <==> !ReachesCycle(children, api, e)
  {
    if Visit(children, api, e, {}, all).Some? {
      forall w | Walk(children, api, w) && w[0] == e ensures !Repeats(w) {
        VisitedWalk(children, api, {}, all, w);
      }
    } else {
      var w := FailedWalk(children, api, e, {}, all);
    }
  }

  // The call tree of an accepted entry point

  /** What a visit finds does not depend on where it comes from. */
  lemma {:induction false} VisitAnywhere(children: Edges, api: string, e: Endpoint, stack: set<Endpoint>, less: set<Endpoint>, all: set<Endpoint>)
    requires Closed(all, children) && e in all && less <= stack && Visit(children, api, e, stack, all).Some?
    ensures Visit(children, api, e, less, all) == Visit(children, api, e, stack, all)
    decreases |all - stack|, 0
  {
    TargetsIn(children, e, api, all);
    Shrinks(all, stack, e);
    VisitAllAnywhere(children, api, FilteredChildren(children, e, api), stack + {e}, less + {e}, all);
  }

  lemma {:induction false} VisitAllAnywhere(children: Edges, api: string, kids: seq<Endpoint>, stack: set<Endpoint>, less: set<Endpoint>, all: set<Endpoint>)
    requires Closed(all, children) && (forall k :: k in kids ==> k in all) && less <= stack
    requires VisitAll(children, api, kids, stack, all).Some?
    ensures VisitAll(children, api, kids, less, all) == VisitAll(children, api, kids, stack, all)
    decreases |all - stack|, 1 + |kids|
  {
    if kids != [] {
      VisitAnywhere(children, api, kids[0], stack, less, all);
      VisitAllAnywhere(children, api, kids[1..], stack, less, all);
    }
  }

  ghost predicate Acyclic(children: Edges, api: string, e: Endpoint, all: set<Endpoint>)
    requires Closed(all, children) && e in all
  {
    Visit(children, api, e, {}, all).Some?
  }

  /** The endpoints of the call tree at `e`, each before its children: one request serves them in this order. */
  ghost function Preorder(children: Edges, api: string, e: Endpoint, all: set<Endpoint>): seq<Endpoint>
    requires Closed(all, children) && e in all && Acyclic(children, api, e, all)
  {
    Visit(children, api, e, {}, all).value
  }

  /** The preorders of several siblings, one after the other. */
  ghost function Forest(children: Edges, api: string, kids: seq<Endpoint>, all: set<Endpoint>): (f: seq<Endpoint>)
    requires Closed(all, children) && forall k :: k in kids ==> k in all && Acyclic(children, api, k, all)
  {
    if kids == [] then [] else Preorder(children, api, kids[0], all) + Forest(children, api, kids[1..], all)
  }

  lemma {:induction false} VisitAllIsForest(children: Edges, api: string, kids: seq<Endpoint>, all: set<Endpoint>)
    requires Closed(all, children) && (forall k :: k in kids ==> k in all)
    requires VisitAll(children, api, kids, {}, all).Some?
    ensures forall k :: k in kids ==> Acyclic(children, api, k, all)
    ensures Forest(children, api, kids, all) == VisitAll(children, api, kids, {}, all).value
    decreases |kids|
  {
    if kids != [] {
      VisitAllIsForest(children, api, kids[1..], all);
    }
  }

  /** The call tree of an endpoint: the endpoint, then the call trees of its children in order. */
  lemma PreorderUnfolds(children: Edges, api: string, e: Endpoint, all: set<Endpoint>)
    requires Closed(all, children) && e in all && Acyclic(children, api, e, all)
    ensures var kids := FilteredChildren(children, e, api);
            && (forall k :: k in kids ==> k in all && Acyclic(children, api, k, all))
            && Preorder(children, api, e, all) == [e] + Forest(children, api, kids, all)
  {
    TargetsIn(children, e, api, all);
    Shrinks(all, {}, e);
    var kids := FilteredChildren(children, e, api);
    VisitAllAnywhere(children, api, kids, {} + {e}, {}, all);
    VisitAllIsForest(children, api, kids, all);
  }

  // The program

  function After(visited: seq<Endpoint>, rest: Option<seq<Endpoint>>): Option<seq<Endpoint>>
  {
    if rest.Some? then Some(visited + rest.value) else None
  }

  lemma AfterEnds(visited: seq<Endpoint>, rest: Option<seq<Endpoint>>)
    ensures After([], rest) == rest && After(visited, Some([])) == Some(visited)
  {
    if rest.Some? {
      assert [] + rest.value == rest.value;
    }
    assert visited + [] == visited;
  }

  /** Visiting the next child moves it from the endpoints to come to the endpoints visited. */
  lemma NextChild(children: Edges, api: string, edges: seq<Edge>, stack: set<Endpoint>, all: set<Endpoint>, visited: seq<Endpoint>)
    requires Closed(all, children) && edges != [] && (forall k :: k in Targets(edges, api) ==> k in all)
    ensures forall k :: k in Targets(edges[1..], api) ==> k in all
    ensures edges[0].api == Some(api) ==> edges[0].target in all
    ensures var rest := VisitAll(children, api, Targets(edges[1..], api), stack, all);
            After(visited, VisitAll(children, api, Targets(edges, api), stack, all))
              == if edges[0].api != Some(api) then After(visited, rest)
                 else match Visit(children, api, edges[0].target, stack, all)
                      case None => None
                      case Some(first) => After(visited + first, rest)
  {
    if edges[0].api == Some(api) {
      var kids := Targets(edges, api);
      assert kids[0] in kids && kids[1..] == Targets(edges[1..], api);
      var first, rest := Visit(children, api, kids[0], stack, all), VisitAll(children, api, kids[1..], stack, all);
      if first.Some? && rest.Some? {
        assert visited + (first.value + rest.value) == (visited + first.value) + rest.value;
      }
    }
  }

  /** The mutable path and stack that the recursive check threads through its calls. */
  class PathBuilder {
    var path: seq<Endpoint>
    var stack: set<Endpoint>

    constructor ()
      ensures path == [] && stack == {}
    {
      path, stack := [], {};
    }

    /** On success the stack is as before and the path has grown by the visited endpoints. */
    method BuildPath(api: string, endpoint: Endpoint, children: Edges, ghost all: set<Endpoint>) returns (ok: bool)
      requires Closed(all, children) && endpoint in all
      modifies this
      ensures ok <==> Visit(children, api, endpoint, old(stack), all).Some?
      ensures ok ==> stack == old(stack)
      ensures ok ==> path == old(path) + Visit(children, api, endpoint, old(stack), all).value
      decreases |all - stack|, 0
    {
      if endpoint in stack {
        return false;
      }
      ghost var entered, before := stack, path;
      TargetsIn(children, endpoint, api, all);
      Shrinks(all, stack, endpoint);
      stack := stack + {endpoint};
      path := path + [endpoint];
      if endpoint in children {
        ok := BuildChildren(api, children[endpoint], children, all);
        if !ok {
          return;
        }
      }
      stack := stack - {endpoint};
      assert stack == entered;
      ok := true;
    }

    /** The loop over the edges of an endpoint. */
    method BuildChildren(api: string, edges: seq<Edge>, children: Edges, ghost all: set<Endpoint>) returns (ok: bool)
      requires Closed(all, children) && forall k :: k in Targets(edges, api) ==> k in all
      modifies this
      ensures ok <==> VisitAll(children, api, Targets(edges, api), old(stack), all).Some?
      ensures ok ==> stack == old(stack)
      ensures ok ==> path == old(path) + VisitAll(children, api, Targets(edges, api), old(stack), all).value
      decreases |all - stack|, 1 + |edges|
    {
      ghost var inner, before := stack, path;
      ghost var visited: seq<Endpoint> := [];
      ghost var outcome := VisitAll(children, api, Targets(edges, api), inner, all);
      AfterEnds([], outcome);
      var i := 0;
      assert edges[0..] == edges;
      while i < |edges|
        invariant 0 <= i <= |edges| && stack == inner && path == before + visited
        invariant forall k :: k in Targets(edges[i..], api) ==> k in all
        invariant After(visited, VisitAll(children, api, Targets(edges[i..], api), inner, all)) == outcome
      {
        assert edges[i..][1..] == edges[i + 1..];
        NextChild(children, api, edges[i..], inner, all, visited);
        if edges[i].api == Some(api) {
          var visitedKid := BuildPath(api, edges[i].target, children, all);
          if !visitedKid {
            return false;
          }
          visited := visited + Visit(children, api, edges[i].target, inner, all).value;
        }
        i := i + 1;
      }
      assert edges[i..] == [];
      AfterEnds(visited, outcome);
      ok := true;
    }
  }

  /** The check of a whole graph: every entry point is accepted. */
  method CheckEntrypoints(entrypoints: map<string, Endpoint>, children: Edges, ghost all: set<Endpoint>) returns (ok: bool)
    requires Closed(all, children) && forall api :: api in entrypoints ==> entrypoints[api] in all
    ensures ok <==> forall api :: api in entrypoints ==> !ReachesCycle(children, api, entrypoints[api])
  {
    var apis := entrypoints.Keys;
    while apis != {}
      invariant apis <= entrypoints.Keys
      invariant forall api :: api in entrypoints && api !in apis ==> !ReachesCycle(children, api, entrypoints[api])
      decreases |apis|
    {
      var api :| api in apis;
      var builder := new PathBuilder();
      var accepted := builder.BuildPath(api, entrypoints[api], children, all);
      AcceptsIffAcyclic(children, api, entrypoints[api], all);
      if !accepted {
        return false;
      }
      apis := apis - {api};
    }
    ok := true;
  }
}

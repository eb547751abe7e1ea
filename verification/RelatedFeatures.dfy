/**
 The check that related features never lead in a circle, from scripts/feature-docs.ts.
 */
module RelatedFeatures {

  type Graph = map<string, seq<string>>

  /** Every related feature exists; this is checked before the cycle check. */
  predicate Closed(g: Graph) {
    forall id | id in g :: forall r | r in g[id] :: r in g
  }

  predicate Walk(g: Graph, p: seq<string>) {
    && (forall i | 0 <= i < |p| :: p[i] in g)
    && (forall i | 0 <= i < |p| - 1 :: p[i + 1] in g[p[i]])
  }

  predicate Circle(g: Graph, p: seq<string>) { |p| >= 2 && Walk(g, p) && p[0] == p[|p| - 1] }

  ghost predicate Cyclic(g: Graph) { exists p :: Circle(g, p) }

  // ---- Orders that rule out a circle ----

  predicate Distinct(s: seq<string>) {
    forall i, j | 0 <= i < j < |s| :: s[i] != s[j]
  }

  /** Each listed feature comes after all its related ones. */
  predicate Ordered(g: Graph, order: seq<string>) {
    forall i | 0 <= i < |order| :: order[i] in g && forall r | r in g[order[i]] :: r in order[..i]
  }

  lemma {:induction false} WalkDescends(g: Graph, order: seq<string>, p: seq<string>, i: nat) returns (j: nat)
    requires Ordered(g, order) && Distinct(order) && Walk(g, p) && |p| >= 2 && i < |order| && p[0] == order[i]
    ensures j < i && p[|p| - 1] == order[j]
  {
    assert p[1] in g[p[0]];
    j :| 0 <= j < i && order[j] == p[1];
    if |p| > 2 {
      var rest := p[1..];
      forall k | 0 <= k < |rest| - 1 ensures rest[k + 1] in g[rest[k]] { assert p[(k + 1) + 1] in g[p[k + 1]]; }
      j := WalkDescends(g, order, rest, j);
    }
  }

  /** A complete order leaves no circle. */
  lemma OrderedIsAcyclic(g: Graph, order: seq<string>)
    requires Ordered(g, order) && Distinct(order) && forall id | id in g :: id in order
    ensures !Cyclic(g)
  {
    if p :| Circle(g, p) {
      var i :| 0 <= i < |order| && order[i] == p[0];
      var j := WalkDescends(g, order, p, i);
      assert false;
    }
  }

  /** Coming back to a feature on the current path closes a circle. */
  lemma BackEdge(g: Graph, stack: seq<string>, id: string)
    requires Walk(g, stack) && id in stack && id in g[stack[|stack| - 1]]
    ensures Cyclic(g)
  {
    var i :| 0 <= i < |stack| && stack[i] == id;
    assert Circle(g, stack[i..] + [id]);
  }

  /** At most `room` features are neither finished nor on the path. */
  predicate Room(all: set<string>, visiting: set<string>, visited: set<string>, room: nat) {
    |all - visiting - visited| <= room
  }

  lemma LessRoom(all: set<string>, visiting: set<string>, visited: set<string>, room: nat, id: string, later: set<string>)
    requires Room(all, visiting, visited, room) && id in all && id !in visiting && id !in visited && visited <= later
    ensures room > 0 && Room(all, visiting + {id}, later, room - 1)
  {
    SubsetSize({id} + (all - (visiting + {id}) - later), all - visiting - visited);
  }

  lemma SubsetSize(a: set<string>, b: set<string>)
    requires a <= b
    ensures |a| <= |b|
  {
    assert b == a + (b - a);
  }

  // ---- The recursive visit ----

  ghost predicate Lists(s: seq<string>, ids: set<string>) { forall id :: id in s <==> id in ids }

  predicate Follows(g: Graph, stack: seq<string>, id: string) {
    stack != [] ==> stack[|stack| - 1] in g && id in g[stack[|stack| - 1]]
  }

  /** The state of the search when `stack` is the path to the feature being expanded. */
  ghost predicate Tracked(g: Graph, stack: seq<string>, visiting: set<string>, visited: set<string>,
                          finished: seq<string>, expanded: seq<string>)
  {
    && Closed(g) && Walk(g, stack)
    && Lists(stack, visiting) && visiting !! visited
    && Lists(finished, visited) && Distinct(finished) && Ordered(g, finished)
    && Lists(expanded, visiting + visited) && Distinct(expanded)
    && visited <= g.Keys && visiting <= g.Keys
  }

  lemma Enter(g: Graph, stack: seq<string>, visiting: set<string>, visited: set<string>,
              finished: seq<string>, expanded: seq<string>, id: string)
    requires Tracked(g, stack, visiting, visited, finished, expanded)
    requires id in g && id !in visiting && id !in visited && Follows(g, stack, id)
    ensures Tracked(g, stack + [id], visiting + {id}, visited, finished, expanded + [id])
  {
  }

  lemma Leave(g: Graph, stack: seq<string>, visiting: set<string>, visited: set<string>,
              finished: seq<string>, expanded: seq<string>, id: string)
    requires id !in visiting && Tracked(g, stack + [id], visiting + {id}, visited, finished, expanded)
    requires Lists(stack, visiting) && id in g && AllIn(g[id], visited)
    ensures Tracked(g, stack, visiting, visited + {id}, finished + [id], expanded)
  {
    WalkPrefix(g, stack, id);
    OrderedMore(g, finished, id);
    assert (visiting + {id}) + visited == visiting + (visited + {id});
  }

  predicate AllIn(s: seq<string>, ids: set<string>) { forall r | r in s :: r in ids }

  lemma OneMore(s: seq<string>, i: nat, earlier: set<string>, later: set<string>)
    requires i < |s| && AllIn(s[..i], earlier) && earlier <= later && s[i] in later
    ensures AllIn(s[..i + 1], later)
  {
    assert s[..i + 1] == s[..i] + [s[i]];
  }

  lemma Without(ids: set<string>, id: string)
    requires id !in ids
    ensures ids + {id} - {id} == ids
  {
  }

  lemma WalkPrefix(g: Graph, stack: seq<string>, id: string)
    requires Walk(g, stack + [id])
    ensures Walk(g, stack)
  {
    var p := stack + [id];
    forall i | 0 <= i < |stack| ensures stack[i] in g { assert p[i] in g; }
    forall i | 0 <= i < |stack| - 1 ensures stack[i + 1] in g[stack[i]] { assert p[i + 1] in g[p[i]]; }
  }

  lemma OrderedMore(g: Graph, order: seq<string>, id: string)
    requires Ordered(g, order) && id in g && forall r | r in g[id] :: r in order
    ensures Ordered(g, order + [id])
  {
    var n := order + [id];
    forall i | 0 <= i < |n| ensures n[i] in g && forall r | r in g[n[i]] :: r in n[..i] {
      assert i < |order| ==> n[..i] == order[..i];
      assert i == |order| ==> n[..i] == order;
    }
  }

  lemma Facts(g: Graph, stack: seq<string>, visiting: set<string>, visited: set<string>,
              finished: seq<string>, expanded: seq<string>)
    requires Tracked(g, stack, visiting, visited, finished, expanded)
    ensures Lists(stack, visiting) && Distinct(expanded) && visiting <= g.Keys
  {
  }

  lemma RelatedExists(g: Graph, stack: seq<string>, visiting: set<string>, visited: set<string>,
                      finished: seq<string>, expanded: seq<string>, id: string, i: nat)
    requires Tracked(g, stack, visiting, visited, finished, expanded) && id in g && i < |g[id]|
    requires stack != [] && stack[|stack| - 1] == id
    ensures g[id][i] in g && Follows(g, stack, g[id][i])
  {
    assert g[id][i] in g[id];
  }

  lemma FoundCircle(g: Graph, stack: seq<string>, visiting: set<string>, visited: set<string>,
                    finished: seq<string>, expanded: seq<string>, id: string)
    requires Tracked(g, stack, visiting, visited, finished, expanded)
    requires id in visiting && Follows(g, stack, id)
    ensures Cyclic(g)
  {
    BackEdge(g, stack, id);
  }

  class Visitor {
    const graph: Graph
    var visiting: set<string>
    var visited: set<string>
    /** The features in the order they were finished and in the order they were expanded. */
    ghost var finished: seq<string>
    ghost var expanded: seq<string>

    ghost predicate Valid(stack: seq<string>) reads this {
      Tracked(graph, stack, visiting, visited, finished, expanded)
    }

    constructor (graph: Graph)
      requires Closed(graph)
      ensures Valid([]) && this.graph == graph && visited == {} && visiting == {}
    {
      this.graph := graph;
      visiting, visited, finished, expanded := {}, {}, [], [];
    }

    /** `visit`, with the path that led here. */
    method Visit(id: string, ghost stack: seq<string>, ghost room: nat) returns (ok: bool)
      requires Valid(stack) && id in graph && Follows(graph, stack, id) && Room(graph.Keys, visiting, visited, room)
      modifies this
      ensures !ok ==> Cyclic(graph)
      ensures ok ==> Valid(stack) && visiting == old(visiting)
      ensures ok ==> old(visited) <= visited && id in visited
      ensures Distinct(expanded)
      decreases room
    {
      hide Tracked, Cyclic, Distinct, Lists, Follows, Room, AllIn;
      Facts(graph, stack, visiting, visited, finished, expanded);
      if id in visiting {
        FoundCircle(graph, stack, visiting, visited, finished, expanded, id);
        return false;
      }
      if id in visited { return true; }
      ghost var path := stack + [id];
      Enter(graph, stack, visiting, visited, finished, expanded, id);
      ghost var before, inner := visiting, visiting + {id};
      visiting := visiting + {id};
      expanded := expanded + [id];
      var related := graph[id];
      NothingDone(related, visited);
      for i := 0 to |related|
        invariant Valid(path) && visiting == inner
        invariant old(visited) <= visited
        invariant AllIn(related[..i], visited)
      {
        RelatedExists(graph, path, visiting, visited, finished, expanded, id, i);
        LessRoom(graph.Keys, before, old(visited), room, id, visited);
        ghost var earlier := visited;
        ok := Visit(related[i], path, room - 1);
        if !ok { return; }
        OneMore(related, i, earlier, visited);
      }
      assert related[..|related|] == related;
      Leave(graph, stack, before, visited, finished, expanded, id);
      Without(before, id);
      visiting := visiting - {id};
      visited := visited + {id};
      finished := finished + [id];
      Facts(graph, stack, visiting, visited, finished, expanded);
      ok := true;
    }

    /**
     Visits every feature. It succeeds exactly when no related features lead in a circle, and then
     every feature was expanded once and finished after everything it relates to.
     */
    method VisitAll(ids: seq<string>) returns (ok: bool)
      requires Valid([]) && visiting == {} && visited == {} && Lists(ids, graph.Keys)
      modifies this
      ensures ok <==> !Cyclic(graph)
      ensures ok ==> visited == graph.Keys && Distinct(expanded) && Lists(expanded, graph.Keys)
      ensures ok ==> Ordered(graph, finished) && Lists(finished, graph.Keys)
    {
      hide Tracked, Lists, Distinct, Ordered, Cyclic, Follows, Room, AllIn;
      NothingDone(ids, visited);
      for i := 0 to |ids|
        invariant Valid([]) && visiting == {}
        invariant AllIn(ids[..i], visited)
      {
        ghost var earlier := visited;
        ghost var room := |graph.Keys - visiting - visited|;
        Start(graph, ids, i, visiting, visited, room);
        ok := Visit(ids[i], [], room);
        if !ok { return; }
        OneMore(ids, i, earlier, visited);
      }
      assert ids[..|ids|] == ids;
      Complete(graph, ids, visited, finished, expanded);
      ok := true;
    }
  }

  lemma NothingDone(ids: seq<string>, visited: set<string>)
    ensures AllIn(ids[..0], visited)
  {
  }

  lemma Start(g: Graph, ids: seq<string>, i: nat, visiting: set<string>, visited: set<string>, room: nat)
    requires Lists(ids, g.Keys) && i < |ids| && room == |g.Keys - visiting - visited|
    ensures ids[i] in g && Follows(g, [], ids[i]) && Room(g.Keys, visiting, visited, room)
  {
    assert ids[i] in ids;
  }

  lemma Complete(g: Graph, ids: seq<string>, visited: set<string>, finished: seq<string>, expanded: seq<string>)
    requires Tracked(g, [], {}, visited, finished, expanded) && Lists(ids, g.Keys) && AllIn(ids, visited)
    ensures !Cyclic(g) && visited == g.Keys && Distinct(expanded) && Lists(expanded, g.Keys)
    ensures Ordered(g, finished) && Lists(finished, g.Keys)
  {
    assert forall id | id in g :: id in ids && id in visited;
    assert visited == g.Keys && {} + visited == visited;
    OrderedIsAcyclic(g, finished);
  }
}

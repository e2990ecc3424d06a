/** The dependency graph of a case: reachability, the downstream search, and the graph query it stands in for. */
module LifeEventGraph {

  /** An edge (u, v) says that v cannot start until u is cleared or completed. */
  type Edge = (nat, nat)

  ghost predicate Within(size: nat, edges: seq<Edge>) {
    forall e :: e in edges ==> e.0 < size && e.1 < size
  }

  ghost predicate Path(edges: seq<Edge>, p: seq<nat>) {
    forall k :: 0 <= k < |p| - 1 ==> (p[k], p[k + 1]) in edges
  }

  /** p is a path of one or more edges from u to v. */
  ghost predicate Connects(edges: seq<Edge>, u: nat, v: nat, p: seq<nat>) {
    |p| >= 2 && p[0] == u && p[|p| - 1] == v && Path(edges, p)
  }

  ghost predicate Reaches(edges: seq<Edge>, u: nat, v: nat) {
    exists p :: Connects(edges, u, v, p)
  }

  /** The graph database's query: a path of 1 to limit edges. */
  ghost predicate ReachesWithin(edges: seq<Edge>, u: nat, v: nat, limit: nat) {
    exists p :: Connects(edges, u, v, p) && |p| <= limit + 1
  }

  ghost predicate Acyclic(edges: seq<Edge>) {
    forall v :: !Reaches(edges, v, v)
  }

  lemma EdgeReaches(edges: seq<Edge>, u: nat, v: nat)
    requires (u, v) in edges
    ensures Reaches(edges, u, v)
  {
    assert Connects(edges, u, v, [u, v]);
  }

  lemma ReachesFromWithin(size: nat, edges: seq<Edge>, u: nat)
    requires Within(size, edges)
    ensures forall v :: Reaches(edges, u, v) ==> u < size
  {
    forall v, p | Connects(edges, u, v, p) ensures u < size {
      assert (p[0], p[1]) in edges;
    }
  }

  lemma ReachesStep(edges: seq<Edge>, u: nat, v: nat, w: nat)
    requires u == v || Reaches(edges, u, v)
    requires (v, w) in edges
    ensures Reaches(edges, u, w)
  {
    if u == v {
      EdgeReaches(edges, u, w);
    } else {
      var p :| Connects(edges, u, v, p);
      assert Connects(edges, u, w, p + [w]);
    }
  }

  lemma ReachesTransitive(edges: seq<Edge>, u: nat, v: nat, w: nat)
    requires Reaches(edges, u, v) && Reaches(edges, v, w)
    ensures Reaches(edges, u, w)
  {
    var p :| Connects(edges, u, v, p);
    var q :| Connects(edges, v, w, q);
    assert Connects(edges, u, w, p + q[1..]);
  }

  /** A set that holds start and is closed under the edges holds everything start reaches. */
  lemma {:induction false} ClosedUnderPath(edges: seq<Edge>, seen: set<nat>, p: seq<nat>, k: nat)
    requires Path(edges, p) && k < |p| && p[0] in seen
    requires forall e :: e in edges && e.0 in seen ==> e.1 in seen
    ensures p[k] in seen
  {
    if k > 0 {
      ClosedUnderPath(edges, seen, p, k - 1);
      assert (p[k - 1], p[k]) in edges;
    }
  }

  ghost function Ids(size: nat): (ids: set<nat>)
    ensures forall v: nat :: v in ids <==> v < size
  {
    if size == 0 then {} else Ids(size - 1) + {size - 1}
  }

  predicate NoRepeats(s: seq<nat>) {
    forall i, j :: 0 <= i < j < |s| ==> s[i] != s[j]
  }

  method OutEdges(edges: seq<Edge>) returns (out: map<nat, seq<nat>>)
    ensures forall u, v :: (u in out && v in out[u]) <==> (u, v) in edges
  {
    out := map[];
    for i := 0 to |edges|
      invariant forall u, v :: (u in out && v in out[u]) <==> (u, v) in edges[..i]
    {
      var (from, to) := edges[i];
      assert edges[..i + 1] == edges[..i] + [edges[i]];
      out := out[from := (if from in out then out[from] else []) + [to]];
    }
    assert edges[..|edges|] == edges;
  }

  /**
   * The breadth-first search of the nodes held behind start. A node already seen is dropped when it leaves the
   * queue, so the search stops on every finite graph, cyclic or not, and start itself is never reported.
   */
  method Downstream(size: nat, edges: seq<Edge>, start: nat) returns (result: seq<nat>)
    requires Within(size, edges)
    ensures NoRepeats(result)
    ensures forall v :: v in result <==> v != start && Reaches(edges, start, v)
  {
    result := [];
    if start >= size {
      ReachesFromWithin(size, edges, start);
      return;
    }
    var out := OutEdges(edges);
    var seen := {start};
    var queue := if start in out then out[start] else [];
    forall v: nat | v in queue ensures v < size && Reaches(edges, start, v) {
      assert (start, v) in edges;
      EdgeReaches(edges, start, v);
    }
    while queue != []
      invariant seen == {start} + set v | v in result
      invariant start !in result && NoRepeats(result)
      invariant forall v: nat :: v in result ==> v < size && Reaches(edges, start, v)
      invariant forall v: nat :: v in queue ==> v < size && Reaches(edges, start, v)
      invariant forall e :: e in edges && e.0 in seen ==> e.1 in seen || e.1 in queue
      decreases Ids(size) - seen, |queue|
    {
      var node := queue[0];
      ghost var waiting := queue;
      assert node in queue;
      queue := queue[1..];
      assert waiting == [node] + queue;
      assert forall v: nat :: v in queue ==> v in waiting;
      if node in seen {
        continue;
      }
      ghost var before := Ids(size) - seen;
      assert node in before;
      seen := seen + {node};
      result := result + [node];
      var next := if node in out then out[node] else [];
      forall v: nat | v in next ensures v < size && Reaches(edges, start, v) {
        assert (node, v) in edges;
        ReachesStep(edges, start, node, v);
      }
      queue := queue + next;
    }
    forall v | v != start && Reaches(edges, start, v) ensures v in result {
      var p :| Connects(edges, start, v, p);
      ClosedUnderPath(edges, seen, p, |p| - 1);
    }
  }

  lemma PathWithin(size: nat, edges: seq<Edge>, p: seq<nat>, k: nat)
    requires Within(size, edges) && Path(edges, p) && |p| >= 2 && k < |p|
    ensures p[k] < size
  {
    if k == 0 {
      assert (p[0], p[1]) in edges;
    } else {
      assert (p[k - 1], p[k]) in edges;
    }
  }

  lemma {:induction false} DistinctIsShort(size: nat, p: seq<nat>)
    requires NoRepeats(p) && forall v :: v in p ==> v < size
    ensures |p| <= size
  {
    if p == [] {
      return;
    }
    assert p[0] in p;
    if size - 1 in p {
      var k :| 0 <= k < |p| && p[k] == size - 1;
      var q := p[..k] + p[k + 1..];
      forall v | v in q ensures v < size - 1 { assert v in p; }
      DistinctIsShort(size - 1, q);
    } else {
      DistinctIsShort(size - 1, p);
    }
  }

  /** In an acyclic graph of size nodes no path has size edges or more. */
  lemma AcyclicPathsAreShort(size: nat, edges: seq<Edge>, p: seq<nat>)
    requires Within(size, edges) && Acyclic(edges) && |p| >= 2 && Path(edges, p)
    ensures |p| <= size
  {
    forall i, j | 0 <= i < j < |p| ensures p[i] != p[j] {
      assert !Reaches(edges, p[i], p[i]);
      assert !Connects(edges, p[i], p[i], p[i..j + 1]);
    }
    forall v | v in p ensures v < size {
      var k :| 0 <= k < |p| && p[k] == v;
      PathWithin(size, edges, p, k);
    }
    DistinctIsShort(size, p);
  }

  /** On an acyclic graph of at most limit + 1 nodes the bounded query and the search agree on every node. */
  lemma BoundedQueryAgrees(size: nat, edges: seq<Edge>, start: nat, v: nat, limit: nat)
    requires Within(size, edges) && Acyclic(edges) && size <= limit + 1
    ensures ReachesWithin(edges, start, v, limit) <==> v != start && Reaches(edges, start, v)
  {
    forall p | Connects(edges, start, v, p) ensures |p| <= limit + 1 {
      AcyclicPathsAreShort(size, edges, p);
    }
    if v == start {
      assert !Reaches(edges, v, v);
    }
  }

  function Chain(size: nat): (edges: seq<Edge>)
    ensures forall e :: e in edges <==> e.1 == e.0 + 1 && e.1 < size
  {
    if size < 2 then [] else Chain(size - 1) + [(size - 2, size - 1)]
  }

  lemma {:induction false} ChainPathClimbs(size: nat, p: seq<nat>, k: nat)
    requires Path(Chain(size), p) && k < |p|
    ensures p[k] == p[0] + k
  {
    if k > 0 {
      ChainPathClimbs(size, p, k - 1);
      assert (p[k - 1], p[k]) in Chain(size);
    }
  }

  lemma ChainIsAcyclic(size: nat)
    ensures Within(size, Chain(size)) && Acyclic(Chain(size))
  {
    forall v ensures !Reaches(Chain(size), v, v) {
      if p :| Connects(Chain(size), v, v, p) {
        ChainPathClimbs(size, p, |p| - 1);
      }
    }
  }

  /** The bound is exact: on a chain of limit + 2 nodes the bounded query misses the last one. */
  lemma BoundedQueryMissesLongChain(limit: nat)
    ensures Reaches(Chain(limit + 2), 0, limit + 1)
    ensures !ReachesWithin(Chain(limit + 2), 0, limit + 1, limit)
  {
    var p := seq(limit + 2, i requires 0 <= i => i);
    assert Connects(Chain(limit + 2), 0, limit + 1, p);
    if q :| Connects(Chain(limit + 2), 0, limit + 1, q) && |q| <= limit + 1 {
      ChainPathClimbs(limit + 2, q, |q| - 1);
    }
  }

  /** Every nonempty finite set of nodes of an acyclic graph has a member with no predecessor in the set. */
  lemma {:induction false} EarliestMember(edges: seq<Edge>, members: set<nat>) returns (first: nat)
    requires Acyclic(edges) && members != {}
    ensures first in members
    ensures forall e :: e in edges && e.1 == first ==> e.0 !in members
    decreases |members|
  {
    var v :| v in members;
    var above := set u | u in members && Reaches(edges, u, v);
    if above == {} {
      first := v;
      forall e | e in edges && e.1 == v ensures e.0 !in members {
        EdgeReaches(edges, e.0, v);
        assert e.0 !in above;
      }
    } else {
      assert v !in above;
      assert above <= members - {v};
      SmallerSet(above, members - {v});
      first := EarliestMember(edges, above);
      forall e | e in edges && e.1 == first ensures e.0 !in members {
        EdgeReaches(edges, e.0, first);
        ReachesTransitive(edges, e.0, first, v);
      }
    }
  }

  lemma SmallerSet(a: set<nat>, b: set<nat>)
    requires a <= b
    ensures |a| <= |b|
  {
    assert b == a + (b - a);
  }
}

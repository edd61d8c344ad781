/** Directed graphs on names, by paths. */
module Graphs {

  type Graph = map<string, set<string>>

  predicate Edge(g: Graph, a: string, b: string) { a in g && b in g[a] }

  predicate IsPath(g: Graph, p: seq<string>) {
    p != [] && forall k :: 0 <= k < |p| - 1 ==> Edge(g, p[k], p[k + 1])
  }

  /** p is a path of at least one edge from a to b. */
  predicate Leads(g: Graph, p: seq<string>, a: string, b: string) {
    IsPath(g, p) && |p| >= 2 && p[0] == a && p[|p| - 1] == b
  }

  ghost predicate Reaches(g: Graph, a: string, b: string) { exists p :: Leads(g, p, a, b) }

  ghost predicate Acyclic(g: Graph) { forall v :: !Reaches(g, v, v) }

  lemma EdgeReaches(g: Graph, a: string, b: string)
    requires Edge(g, a, b)
    ensures Reaches(g, a, b)
  {
    assert Leads(g, [a, b], a, b);
  }

  lemma ReachesTransitive(g: Graph, a: string, b: string, c: string)
    requires Reaches(g, a, b) && Reaches(g, b, c)
    ensures Reaches(g, a, c)
  {
    var p :| Leads(g, p, a, b);
    var q :| Leads(g, q, b, c);
    var r := p + q[1..];
    forall k | 0 <= k < |r| - 1 ensures Edge(g, r[k], r[k + 1]) {
      if k == |p| - 1 { assert Edge(g, q[0], q[1]); }
      if k >= |p| { assert Edge(g, q[k - |p| + 1], q[k - |p| + 2]); }
    }
    assert Leads(g, r, a, c);
  }

  /** Extending by an edge at the end. */
  lemma ReachesThenEdge(g: Graph, a: string, b: string, c: string)
    requires (a == b || Reaches(g, a, b)) && Edge(g, b, c)
    ensures Reaches(g, a, c)
  {
    EdgeReaches(g, b, c);
    if a != b { ReachesTransitive(g, a, b, c); }
  }
}

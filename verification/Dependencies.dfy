/**
Validation of service dependencies (pkg/admiral/validation.go): references must be to declared
services, and a depth-first search over depends_on and requires must find no cycle.
*/
module Dependencies {
  import opened Graphs

  datatype Service = Service(dependsOn: seq<string>, requirements: seq<string>)

  type Services = map<string, Service>

  function All(s: Service): seq<string> { s.dependsOn + s.requirements }

  function Needs(services: Services): Graph {
    map n | n in services :: set x | x in All(services[n])
  }

  /** Every reference names a declared service. */
  predicate Closed(services: Services) {
    forall n, x :: n in services && x in All(services[n]) ==> x in services
  }

  /** Each entry needs only entries before it. */
  predicate Topological(g: Graph, list: seq<string>) {
    forall i :: 0 <= i < |list| && list[i] in g ==> g[list[i]] <= Members(list[..i])
  }

  function Members(list: seq<string>): set<string> { set x | x in list }

  /** Along a path that starts at list[i], positions in a topological list go down. */
  lemma {:induction false} PathDescends(g: Graph, list: seq<string>, p: seq<string>, i: nat) returns (j: nat)
    requires Topological(g, list) && IsPath(g, p) && i < |list| && list[i] == p[0]
    ensures j <= i && list[j] == p[|p| - 1] && (|p| >= 2 ==> j < i)
    decreases |p|
  {
    if |p| == 1 { return i; }
    assert Edge(g, p[0], p[1]);
    var k :| 0 <= k < i && list[k] == p[1];
    assert forall m :: 0 <= m < |p| - 2 ==> Edge(g, p[1..][m], p[1..][m + 1]);
    j := PathDescends(g, list, p[1..], k);
  }

  lemma {:induction false} DescentEnds(g: Graph, list: seq<string>, p: seq<string>, v: string, i: nat)
    requires Topological(g, list) && Leads(g, p, v, v) && i < |list| && list[i] == v
    ensures false
    decreases i
  {
    var j := PathDescends(g, list, p, i);
    DescentEnds(g, list, p, v, j);
  }

  /** A graph whose nodes can be listed topologically has no cycle. */
  lemma ListedIsAcyclic(g: Graph, list: seq<string>)
    requires Topological(g, list) && g.Keys <= Members(list)
    ensures Acyclic(g)
  {
    forall v ensures !Reaches(g, v, v) {
      if Reaches(g, v, v) {
        var p :| Leads(g, p, v, v);
        assert Edge(g, p[0], p[1]);
        var i :| 0 <= i < |list| && list[i] == v;
        DescentEnds(g, list, p, v, i);
      }
    }
  }

  /** A path that comes back to one of its nodes closes a cycle. */
  lemma BackEdge(g: Graph, stack: seq<string>, v: string)
    requires stack != [] && IsPath(g, stack) && v in stack && Edge(g, stack[|stack| - 1], v)
    ensures !Acyclic(g)
  {
    var i :| 0 <= i < |stack| && stack[i] == v;
    var p := stack[i..] + [v];
    forall k | 0 <= k < |p| - 1 ensures Edge(g, p[k], p[k + 1]) {
      if k < |p| - 2 { assert Edge(g, stack[i + k], stack[i + k + 1]); }
    }
    assert Leads(g, p, v, v);
    assert Reaches(g, v, v);
  }

  lemma ListExtends(g: Graph, list: seq<string>, name: string)
    requires Topological(g, list) && (name in g ==> g[name] <= Members(list))
    ensures Topological(g, list + [name])
  {
    assert forall i :: 0 <= i <= |list| ==> (list + [name])[..i] == list[..i];
  }

  /** The search. stack is the path being explored and finished the nodes left behind, in order; both are ghost. */
  class CycleSearch {
    const services: Services
    var visited: set<string>
    var inStack: set<string>
    ghost var stack: seq<string>
    ghost var finished: seq<string>

    ghost function Graph(): Graph { Needs(services) }

    /** Every name the search can meet, declared or not. */
    ghost function Universe(): set<string> { services.Keys + set n, x | n in services && x in All(services[n]) :: x }

    ghost predicate Valid() reads this {
      && inStack == Members(stack) && visited == inStack + Members(finished) && inStack !! Members(finished)
      && visited <= Universe()
      && (stack == [] || IsPath(Graph(), stack))
      && Topological(Graph(), finished)
    }

    constructor (services: Services)
      ensures Valid() && this.services == services && stack == [] && finished == []
    {
      this.services, visited, inStack, stack, finished := services, {}, {}, [], [];
    }

    /** Either everything needed by name is listed as finished, or there is a cycle. */
    method Visit(name: string) returns (ok: bool)
      requires Valid() && name in Universe() && (stack != [] ==> Edge(Graph(), stack[|stack| - 1], name))
      modifies this
      ensures !ok ==> !Acyclic(Graph())
      ensures ok ==>
                Valid() && stack == old(stack) && old(finished) <= finished && name in finished
                    && old(visited) <= visited
      decreases Universe() - visited, 1
    {
      if name in inStack {
        BackEdge(Graph(), stack, name);
        return false;
      }
      if name in visited { return true; }
      Enter(name);
      if name in services {
        ok := VisitAll(services[name].dependsOn, name);
        if !ok { return; }
        ok := VisitAll(services[name].requirements, name);
        if !ok { return; }
      }
      Leave(name);
      return true;
    }

    method Enter(name: string)
      requires Valid() && name in Universe() && name !in visited
      requires stack != [] ==> Edge(Graph(), stack[|stack| - 1], name)
      modifies this
      ensures Valid() && stack == old(stack) + [name] && finished == old(finished) && visited == old(visited) + {name}
    {
      visited, inStack := visited + {name}, inStack + {name};
      stack := stack + [name];
    }

    method Leave(name: string)
      requires Valid() && stack != [] && stack[|stack| - 1] == name && name !in stack[..|stack| - 1]
      requires name in services ==> forall x :: x in All(services[name]) ==> x in finished
      modifies this
      ensures Valid() && stack == old(stack)[..|old(stack)| - 1] && finished == old(finished) + [name]
      ensures visited == old(visited)
    {
      assert stack == stack[..|stack| - 1] + [name];
      hide Topological;
      ListExtends(Graph(), finished, name);
      inStack := inStack - {name};
      stack, finished := stack[..|stack| - 1], finished + [name];
    }

    /** The loop over one list of references of the node on top of the stack. */
    method VisitAll(names: seq<string>, ghost top: string) returns (ok: bool)
      requires Valid() && stack != [] && stack[|stack| - 1] == top && top in services
      requires forall x :: x in names ==> x in All(services[top])
      modifies this
      ensures !ok ==> !Acyclic(Graph())
      ensures ok ==> Valid() && stack == old(stack) && old(finished) <= finished && old(visited) <= visited
      ensures ok ==> forall x :: x in names ==> x in finished
      decreases Universe() - visited, 2 + |names|
    {
      for i := 0 to |names|
        invariant Valid() && stack == old(stack) && old(finished) <= finished && old(visited) <= visited
        invariant forall k :: 0 <= k < i ==> names[k] in finished
      {
        assert names[i] in All(services[top]);
        ok := Visit(names[i]);
        if !ok { return; }
      }
      return true;
    }
  }

  /**
  validateDependencyCycles accepts exactly the graphs without a cycle, whatever order the services
  are visited in.
  */
  method ValidateDependencyCycles(services: Services) returns (ok: bool)
    ensures ok <==> Acyclic(Needs(services))
  {
    var search := new CycleSearch(services);
    var rest := services.Keys;
    while rest != {}
      invariant search.Valid() && search.services == services && search.stack == [] && rest <= services.Keys
      invariant services.Keys - rest <= Members(search.finished)
      invariant fresh(search)
      decreases rest
    {
      var name :| name in rest;
      rest := rest - {name};
      ok := search.Visit(name);
      if !ok { return; }
    }
    ListedIsAcyclic(Needs(services), search.finished);
    return true;
  }

  /** The checks that precede the search, for one list of references of a service. */
  method CheckReferences(services: Services, name: string, names: seq<string>) returns (ok: bool)
    ensures ok <==> forall x :: x in names ==> x != name && x in services
  {
    for i := 0 to |names|
      invariant forall k :: 0 <= k < i ==> names[k] != name && names[k] in services
    {
      assert names[i] in names;
      if names[i] == name || names[i] !in services { return false; }
    }
    return true;
  }

  /** Services are accepted exactly when all references are declared and no service needs itself, directly or not. */
  method ValidateServices(services: Services) returns (ok: bool)
    ensures ok <==> Closed(services) && Acyclic(Needs(services))
  {
    var rest := services.Keys;
    while rest != {}
      invariant rest <= services.Keys
      invariant forall n, x :: n in services && n !in rest && x in All(services[n]) ==> x in services
      decreases rest
    {
      var name :| name in rest;
      rest := rest - {name};
      ok := CheckReferences(services, name, services[name].dependsOn);
      if ok { ok := CheckReferences(services, name, services[name].requirements); }
      if !ok {
        if name in All(services[name]) { EdgeReaches(Needs(services), name, name); }
        return;
      }
    }
    ok := ValidateDependencyCycles(services);
  }
}

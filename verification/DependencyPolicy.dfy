/** The architecture check of xtask: a worklist search over the resolved dependency graph, cycles
    included, against the mathematical reachability relation. */
module DependencyPolicies {
  import opened Common

  type Id = string

  datatype PolicyError =
    | UnknownNode(id: Id)
    | UnknownDependency(id: Id)
    | MissingPackage(package: string)
    | AmbiguousPackage(package: string)
    | Unnamed(id: Id)
    | Violation(package: string, forbidden: string)

  datatype Policy = Policy(names: map<Id, string>, members: set<Id>, dependencies: map<Id, seq<Id>>)

  datatype Node = Node(id: Id, deps: seq<Id>)

  // ----- reading the metadata -----

  predicate Known(names: map<Id, string>, node: Node) {
    node.id in names && forall i | 0 <= i < |node.deps| :: node.deps[i] in names
  }

  /** The error names what is unknown: the node itself, or else its first unknown dependency. */
  predicate IsUnknown(names: map<Id, string>, node: Node, e: PolicyError) {
    if node.id !in names then e == UnknownNode(node.id)
    else exists j | 0 <= j < |node.deps| ::
           node.deps[j] !in names && e == UnknownDependency(node.deps[j]) && forall k | 0 <= k < j :: node.deps[k] in names
  }

  /** Every node and every dependency has a name. */
  predicate Named(p: Policy) {
    forall id | id in p.dependencies :: Known(p.names, Node(id, p.dependencies[id]))
  }

  /** A policy is built exactly when every resolved node and dependency is a known package, and
      then names everything in its graph. A later entry for the same identifier wins. */
  method FromMetadata(packages: seq<(Id, string)>, members: set<Id>, nodes: seq<Node>) returns (r: Result<Policy, PolicyError>)
    ensures r.Ok? <==> forall i | 0 <= i < |nodes| :: Known(NamesOf(packages), nodes[i])
    ensures r.Ok? ==> Named(r.value) && r.value.members == members && r.value.names == NamesOf(packages)
    ensures r.Ok? ==> r.value.dependencies == GraphOf(nodes)
    ensures r.Err? ==>
              exists i | 0 <= i < |nodes| :: (forall k | 0 <= k < i :: Known(NamesOf(packages), nodes[k])) &&
                                             IsUnknown(NamesOf(packages), nodes[i], r.error)
  {
    var names, dependencies: map<Id, seq<Id>> := map[], map[];
    for i := 0 to |packages|
      invariant names == NamesOf(packages[..i])
    {
      assert packages[..i + 1][..i] == packages[..i];
      names := names[packages[i].0 := packages[i].1];
    }
    assert packages[..|packages|] == packages;
    for i := 0 to |nodes|
      invariant forall k | 0 <= k < i :: Known(names, nodes[k])
      invariant dependencies == GraphOf(nodes[..i])
      invariant Named(Policy(names, members, dependencies))
    {
      assert nodes[..i + 1][..i] == nodes[..i];
      if nodes[i].id !in names {
        return Err(UnknownNode(nodes[i].id));
      }
      var j := 0;
      while j < |nodes[i].deps|
        invariant j <= |nodes[i].deps| && forall k | 0 <= k < j :: nodes[i].deps[k] in names
      {
        if nodes[i].deps[j] !in names {
          return Err(UnknownDependency(nodes[i].deps[j]));
        }
        j := j + 1;
      }
      dependencies := dependencies[nodes[i].id := nodes[i].deps];
    }
    assert nodes[..|nodes|] == nodes;
    return Ok(Policy(names, members, dependencies));
  }

  function NamesOf(packages: seq<(Id, string)>): map<Id, string> {
    if packages == [] then map[]
    else NamesOf(packages[..|packages| - 1])[packages[|packages| - 1].0 := packages[|packages| - 1].1]
  }

  function GraphOf(nodes: seq<Node>): map<Id, seq<Id>> {
    if nodes == [] then map[]
    else GraphOf(nodes[..|nodes| - 1])[nodes[|nodes| - 1].id := nodes[|nodes| - 1].deps]
  }

  // ----- reachability -----

  predicate Edge(p: Policy, a: Id, b: Id) {
    a in p.dependencies && b in p.dependencies[a]
  }

  /** A walk of one or more edges. */
  predicate IsWalk(p: Policy, walk: seq<Id>) {
    |walk| >= 2 && forall i | 0 <= i < |walk| - 1 :: Edge(p, walk[i], walk[i + 1])
  }

  ghost predicate Reachable(p: Policy, a: Id, b: Id) {
    exists walk :: IsWalk(p, walk) && walk[0] == a && walk[|walk| - 1] == b
  }

  lemma OneEdge(p: Policy, a: Id, b: Id)
    requires Edge(p, a, b)
    ensures Reachable(p, a, b)
  {
    assert IsWalk(p, [a, b]);
  }

  lemma OneEdgeMore(p: Policy, a: Id, b: Id, c: Id)
    requires Reachable(p, a, b) && Edge(p, b, c)
    ensures Reachable(p, a, c)
  {
    var walk :| IsWalk(p, walk) && walk[0] == a && walk[|walk| - 1] == b;
    var longer := walk + [c];
    forall i | 0 <= i < |longer| - 1 ensures Edge(p, longer[i], longer[i + 1]) {
      if i < |walk| - 1 {
        assert Edge(p, walk[i], walk[i + 1]);
      }
    }
    assert IsWalk(p, longer);
  }

  /** A closed set that contains the start of a walk contains all of it. */
  lemma {:induction false} WalkStaysInside(p: Policy, inside: set<Id>, walk: seq<Id>, n: nat)
    requires IsWalk(p, walk) && walk[0] in inside && n < |walk|
    requires forall a, b | a in inside && Edge(p, a, b) :: b in inside
    ensures walk[n] in inside
    decreases n
  {
    if n > 0 {
      WalkStaysInside(p, inside, walk, n - 1);
      assert Edge(p, walk[n - 1], walk[n - 1 + 1]);
    }
  }

  // ----- the search -----

  function Matching(p: Policy, package: string): set<Id> {
    set id | id in p.members && id in p.names && p.names[id] == package
  }

  method WorkspacePackageId(p: Policy, package: string) returns (r: Result<Id, PolicyError>)
    ensures r.Ok? <==> |Matching(p, package)| == 1
    ensures r.Ok? ==> Matching(p, package) == {r.value}
    ensures r.Err? ==> r.error == if Matching(p, package) == {} then MissingPackage(package) else AmbiguousPackage(package)
  {
    var matching := Matching(p, package);
    if matching == {} {
      return Err(MissingPackage(package));
    }
    var id :| id in matching;
    assert |matching| == |matching - {id}| + 1;
    if matching - {id} != {} {
      return Err(AmbiguousPackage(package));
    }
    assert matching == {id};
    return Ok(id);
  }

  /** A dependency the policy lets pass: it has a name, and the name is not forbidden. */
  predicate Passes(p: Policy, forbidden: seq<string>, id: Id) {
    id in p.names && p.names[id] !in forbidden
  }

  ghost function Everything(p: Policy, root: Id): set<Id> {
    {root} + p.dependencies.Keys + (set a, b | a in p.dependencies && b in p.dependencies[a] :: b)
  }

  /** What the search has established: everything found is reachable, and every visited node's
      dependencies pass and are found. */
  ghost predicate Searched(p: Policy, root: Id, forbidden: seq<string>, pending: seq<Id>, visited: set<Id>) {
    && (root in visited || root in pending)
    && (forall id | id in visited || id in pending :: id in Everything(p, root) && (id == root || Reachable(p, root, id)))
    && (forall a, b | a in visited && Edge(p, a, b) :: Passes(p, forbidden, b) && (b in visited || b in pending))
  }

  /** Looks at the dependencies of one node in order, and stops at the first that does not pass. */
  method Scan(p: Policy, package: string, forbidden: seq<string>, deps: seq<Id>) returns (bad: Option<PolicyError>, at: nat)
    ensures bad.None? ==> forall i | 0 <= i < |deps| :: Passes(p, forbidden, deps[i])
    ensures bad.Some? ==> at < |deps| && !Passes(p, forbidden, deps[at]) && (forall i | 0 <= i < at :: Passes(p, forbidden, deps[i]))
    ensures bad.Some? ==> bad.value == if deps[at] in p.names then Violation(package, p.names[deps[at]]) else Unnamed(deps[at])
  {
    at := 0;
    while at < |deps|
      invariant at <= |deps| && forall i | 0 <= i < at :: Passes(p, forbidden, deps[i])
    {
      if deps[at] !in p.names {
        return Some(Unnamed(deps[at])), at;
      }
      if p.names[deps[at]] in forbidden {
        return Some(Violation(package, p.names[deps[at]])), at;
      }
      at := at + 1;
    }
    bad := None;
  }

  /** Succeeds exactly when every node reachable from the package by one or more edges is named
      and not forbidden; a violation names a forbidden package that is reachable. */
  method RejectReachable(p: Policy, package: string, forbidden: seq<string>) returns (r: Result<(), PolicyError>)
    ensures |Matching(p, package)| != 1 ==>
              r == Err(if Matching(p, package) == {} then MissingPackage(package) else AmbiguousPackage(package))
    ensures forall root | Matching(p, package) == {root} ::
              r.Ok? <==> forall id | Reachable(p, root, id) :: Passes(p, forbidden, id)
    ensures forall root | Matching(p, package) == {root} && r.Err? ::
              r.error.Violation? || (r.error.Unnamed? && Reachable(p, root, r.error.id) && r.error.id !in p.names)
    ensures r.Err? && r.error.Violation? ==>
              && r.error.package == package && r.error.forbidden in forbidden
              && exists root, id ::
                   Matching(p, package) == {root} && Reachable(p, root, id) && id in p.names && p.names[id] == r.error.forbidden
  {
    hide Matching, Reachable;
    var found := WorkspacePackageId(p, package);
    if found.Err? {
      return Err(found.error);
    }
    r := Search(p, found.value, package, forbidden);
  }

  method Search(p: Policy, root: Id, package: string, forbidden: seq<string>) returns (r: Result<(), PolicyError>)
    ensures r.Ok? <==> forall id | Reachable(p, root, id) :: Passes(p, forbidden, id)
    ensures r.Err? ==> r.error.Violation? || r.error.Unnamed?
    ensures r.Err? && r.error.Violation? ==>
              r.error.package == package && r.error.forbidden in forbidden
              && exists id :: Reachable(p, root, id) && id in p.names && p.names[id] == r.error.forbidden
    ensures r.Err? && r.error.Unnamed? ==> Reachable(p, root, r.error.id) && r.error.id !in p.names
  {
    var pending, visited: set<Id> := [root], {};
    assert Searched(p, root, forbidden, pending, visited);
    hide Searched, Everything, Reachable, Edge;
    while pending != []
      invariant Searched(p, root, forbidden, pending, visited)
      decreases Everything(p, root) - visited, |pending|
    {
      var current, rest := pending[|pending| - 1], pending[..|pending| - 1];
      CurrentIsFound(p, root, forbidden, pending, visited);
      if current in visited {
        PopVisited(p, root, forbidden, pending, visited);
        pending := rest;
        continue;
      }
      var deps := if current in p.dependencies then p.dependencies[current] else [];
      var bad, at := Scan(p, package, forbidden, deps);
      if bad.Some? {
        DependencyIsReachable(p, root, current, deps[at]);
        return Err(bad.value);
      }
      PopNew(p, root, forbidden, pending, visited, deps);
      pending, visited := rest + deps, visited + {current};
    }
    forall id | Reachable(p, root, id) ensures Passes(p, forbidden, id) {
      ReachedIsSearched(p, root, forbidden, visited, id);
    }
    return Ok(());
  }

  lemma DependencyIsReachable(p: Policy, root: Id, current: Id, next: Id)
    requires current == root || Reachable(p, root, current)
    requires current in p.dependencies && next in p.dependencies[current]
    ensures Reachable(p, root, next)
  {
    FoundIsReachable(p, root, current, next);
  }

  lemma CurrentIsFound(p: Policy, root: Id, forbidden: seq<string>, pending: seq<Id>, visited: set<Id>)
    requires Searched(p, root, forbidden, pending, visited) && pending != []
    ensures var current := pending[|pending| - 1];
            current in Everything(p, root) && (current == root || Reachable(p, root, current))
  {
  }

  lemma Popped(pending: seq<Id>, id: Id)
    requires pending != []
    ensures id in pending <==> id in pending[..|pending| - 1] || id == pending[|pending| - 1]
  {
  }

  lemma PopVisited(p: Policy, root: Id, forbidden: seq<string>, pending: seq<Id>, visited: set<Id>)
    requires Searched(p, root, forbidden, pending, visited) && pending != [] && pending[|pending| - 1] in visited
    ensures Searched(p, root, forbidden, pending[..|pending| - 1], visited)
  {
  }

  /** Visiting a node whose dependencies all pass. */
  lemma PopNew(p: Policy, root: Id, forbidden: seq<string>, pending: seq<Id>, visited: set<Id>, deps: seq<Id>)
    requires Searched(p, root, forbidden, pending, visited) && pending != []
    requires var current := pending[|pending| - 1];
             deps == if current in p.dependencies then p.dependencies[current] else []
    requires forall i | 0 <= i < |deps| :: Passes(p, forbidden, deps[i])
    ensures Searched(p, root, forbidden, pending[..|pending| - 1] + deps, visited + {pending[|pending| - 1]})
  {
    var current := pending[|pending| - 1];
    forall id ensures id in pending <==> id in pending[..|pending| - 1] || id == current {
      Popped(pending, id);
    }
    forall id | id in deps
      ensures id in Everything(p, root) && Reachable(p, root, id) && Edge(p, current, id) && Passes(p, forbidden, id)
    {
      assert Edge(p, current, id);
      CurrentIsFound(p, root, forbidden, pending, visited);
      FoundIsReachable(p, root, current, id);
    }
    hide Everything, Reachable, Passes;
  }

  lemma FoundIsReachable(p: Policy, root: Id, current: Id, next: Id)
    requires current == root || Reachable(p, root, current)
    requires Edge(p, current, next)
    ensures Reachable(p, root, next)
  {
    if current == root {
      OneEdge(p, root, next);
    } else {
      OneEdgeMore(p, root, current, next);
    }
  }

  lemma ReachedIsSearched(p: Policy, root: Id, forbidden: seq<string>, visited: set<Id>, id: Id)
    requires Searched(p, root, forbidden, [], visited) && Reachable(p, root, id)
    ensures Passes(p, forbidden, id)
  {
    var walk :| IsWalk(p, walk) && walk[0] == root && walk[|walk| - 1] == id;
    var n := |walk| - 2;
    WalkStaysInside(p, visited, walk, n);
    assert Edge(p, walk[n], walk[n + 1]);
  }

  /** On a policy read from metadata the check is exactly the absence of a reachable forbidden name. */
  lemma NamedReachesNamed(p: Policy, root: Id, id: Id)
    requires Named(p) && Reachable(p, root, id)
    ensures id in p.names
  {
    var walk :| IsWalk(p, walk) && walk[0] == root && walk[|walk| - 1] == id;
    var n := |walk| - 2;
    assert Edge(p, walk[n], walk[n + 1]) && Known(p.names, Node(walk[n], p.dependencies[walk[n]]));
  }

  /** So for such a policy the search succeeds exactly when no forbidden name is reachable. */
  lemma PassesMeansNoneForbidden(p: Policy, root: Id, forbidden: seq<string>)
    requires Named(p)
    ensures (forall id | Reachable(p, root, id) :: Passes(p, forbidden, id))
       <==> !(exists id | Reachable(p, root, id) && id in p.names :: p.names[id] in forbidden)
  {
    hide Reachable;
    forall id | Reachable(p, root, id) ensures id in p.names {
      NamedReachesNamed(p, root, id);
    }
  }
}

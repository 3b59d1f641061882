/** Connected components of the knowledge graph, walked with a queue (app/graph/clustering.py). */
module Graph {
  import opened Common

  type Adjacency = map<Id, set<Id>>

  function Neighbours(adj: Adjacency, u: Id): set<Id> { if u in adj then adj[u] else {} }

  ghost predicate Symmetric(adj: Adjacency) {
    forall u, v :: v in Neighbours(adj, u) ==> u in Neighbours(adj, v)
  }

  /** A path lists its vertices, both ends included. */
  ghost predicate IsPath(adj: Adjacency, path: seq<Id>, u: Id, v: Id) {
    && path != [] && path[0] == u && path[|path| - 1] == v
    && forall i :: 0 <= i < |path| - 1 ==> path[i + 1] in Neighbours(adj, path[i])
  }

  ghost predicate Joined(adj: Adjacency, u: Id, v: Id) {
    exists path :: IsPath(adj, path, u, v)
  }

  lemma JoinedSelf(adj: Adjacency, u: Id)
    ensures Joined(adj, u, u)
  {
    assert IsPath(adj, [u], u, u);
  }

  lemma JoinedStep(adj: Adjacency, u: Id, v: Id, w: Id)
    requires Joined(adj, u, v) && w in Neighbours(adj, v)
    ensures Joined(adj, u, w)
  {
    var path :| IsPath(adj, path, u, v);
    assert IsPath(adj, path + [w], u, w);
  }

  lemma JoinedBack(adj: Adjacency, u: Id, v: Id)
    requires Symmetric(adj) && Joined(adj, u, v)
    ensures Joined(adj, v, u)
  {
    var path :| IsPath(adj, path, u, v);
    var back := seq(|path|, i requires 0 <= i < |path| => path[|path| - 1 - i]);
    forall i | 0 <= i < |back| - 1 ensures back[i + 1] in Neighbours(adj, back[i]) {
      var j := |path| - 2 - i;
      assert path[j + 1] in Neighbours(adj, path[j]);
    }
    assert IsPath(adj, back, v, u);
  }

  lemma JoinedThrough(adj: Adjacency, u: Id, v: Id, w: Id)
    requires Joined(adj, u, v) && Joined(adj, v, w)
    ensures Joined(adj, u, w)
  {
    var p :| IsPath(adj, p, u, v);
    var q :| IsPath(adj, q, v, w);
    var path := p + q[1..];
    forall i | 0 <= i < |path| - 1 ensures path[i + 1] in Neighbours(adj, path[i]) {
      if i >= |p| - 1 {
        assert path[i] == q[i - (|p| - 1)] && path[i + 1] == q[i - (|p| - 1) + 1];
      }
    }
    assert IsPath(adj, path, u, w);
  }

  /** No edge leaves the set. */
  predicate Closed(adj: Adjacency, s: set<Id>) {
    forall u :: u in s ==> Neighbours(adj, u) <= s
  }

  lemma {:induction false} ClosedHoldsPaths(adj: Adjacency, s: set<Id>, path: seq<Id>, u: Id, v: Id)
    requires Closed(adj, s) && u in s && IsPath(adj, path, u, v)
    ensures v in s
    decreases |path|
  {
    if |path| > 1 {
      assert IsPath(adj, path[1..], path[1], v);
      ClosedHoldsPaths(adj, s, path[1..], path[1], v);
    }
  }

  /** The whole component of a vertex. */
  ghost predicate IsComponent(adj: Adjacency, start: Id, component: set<Id>) {
    forall v :: v in component <==> Joined(adj, start, v)
  }

  /** What holds between two turns of the walk; `waiting` are the vertices in the queue. */
  ghost predicate Walking(adj: Adjacency, start: Id, visited: set<Id>, universe: set<Id>,
                          component: set<Id>, nowVisited: set<Id>, waiting: set<Id>) {
    && component !! visited && nowVisited == visited + component
    && component <= universe && waiting <= universe
    && (forall v :: v in component + waiting ==> Joined(adj, start, v))
    && (forall u :: u in component ==> Neighbours(adj, u) <= nowVisited + waiting)
    && start in component + waiting
  }

  lemma VisitKeepsWalking(adj: Adjacency, start: Id, visited: set<Id>, universe: set<Id>,
                          component: set<Id>, nowVisited: set<Id>, waiting: set<Id>, rest: set<Id>, current: Id)
    requires Walking(adj, start, visited, universe, component, nowVisited, waiting) && Closed(adj, universe)
    requires current in waiting && current !in nowVisited && waiting - {current} <= rest <= waiting
    ensures Walking(adj, start, visited, universe, component + {current}, nowVisited + {current},
                    rest + (Neighbours(adj, current) - (nowVisited + {current})))
    ensures current in universe
  {
    hide Joined;
    forall v | v in Neighbours(adj, current) ensures Joined(adj, start, v) { JoinedStep(adj, start, current, v); }
  }

  lemma SkipKeepsWalking(adj: Adjacency, start: Id, visited: set<Id>, universe: set<Id>,
                         component: set<Id>, nowVisited: set<Id>, waiting: set<Id>, rest: set<Id>, current: Id)
    requires Walking(adj, start, visited, universe, component, nowVisited, waiting)
    requires start !in visited && current in nowVisited && waiting - {current} <= rest <= waiting
    ensures Walking(adj, start, visited, universe, component, nowVisited, rest)
  {
  }

  lemma StartWalking(adj: Adjacency, start: Id, visited: set<Id>, universe: set<Id>)
    requires start in universe
    ensures Walking(adj, start, visited, universe, {}, visited, {start})
  {
    JoinedSelf(adj, start);
  }

  /** With nothing waiting the walk has found the whole component. */
  lemma WalkedAll(adj: Adjacency, start: Id, visited: set<Id>, universe: set<Id>, component: set<Id>,
                  nowVisited: set<Id>)
    requires Walking(adj, start, visited, universe, component, nowVisited, {}) && Symmetric(adj) && Closed(adj, visited)
    ensures Closed(adj, component) && Closed(adj, nowVisited) && IsComponent(adj, start, component)
            && start in component
  {
    forall u, v | u in component && v in Neighbours(adj, u) ensures v in component {
      assert u in Neighbours(adj, v);
      assert v in visited ==> u in visited;
    }
    forall v | Joined(adj, start, v) ensures v in component {
      var path :| IsPath(adj, path, start, v);
      ClosedHoldsPaths(adj, component, path, start, v);
    }
  }

  /** The queue walk. `visited` is a union of whole components; the vertices all lie in `universe`. */
  method WalkComponent(start: Id, adj: Adjacency, visited: set<Id>, ghost universe: set<Id>)
    returns (component: set<Id>, nowVisited: set<Id>)
    requires Symmetric(adj) && Closed(adj, visited) && start !in visited
    requires start in universe && Closed(adj, universe)
    ensures IsComponent(adj, start, component) && start in component
    ensures component !! visited && nowVisited == visited + component
    ensures Closed(adj, component) && Closed(adj, nowVisited)
    ensures component <= universe
  {
    hide Walking, Closed, Symmetric, IsComponent, Neighbours, Sorted, Elements, Joined;
    component, nowVisited := {}, visited;
    var queue := [start];
    StartWalking(adj, start, visited, universe);
    assert Elements(queue) == {start};
    while queue != []
      invariant Walking(adj, start, visited, universe, component, nowVisited, Elements(queue))
      decreases universe - nowVisited, |queue|
    {
      ghost var waiting := Elements(queue);
      var current := queue[0];
      var tail := queue[1..];
      Popped(queue);
      if current in nowVisited {
        SkipKeepsWalking(adj, start, visited, universe, component, nowVisited, waiting, Elements(tail), current);
        queue := tail;
      } else {
        VisitKeepsWalking(adj, start, visited, universe, component, nowVisited, waiting, Elements(tail), current);
        nowVisited, component := nowVisited + {current}, component + {current};
        var unseen := Neighbours(adj, current) - nowVisited;
        queue := tail + Sorted(unseen);
        Pushed(tail, unseen);
      }
    }
    assert Elements(queue) == {};
    WalkedFacts(adj, start, visited, universe, component, nowVisited);
    WalkedAll(adj, start, visited, universe, component, nowVisited);
  }

  lemma Popped(queue: seq<Id>)
    requires queue != []
    ensures queue[0] in Elements(queue)
    ensures Elements(queue) - {queue[0]} <= Elements(queue[1..]) <= Elements(queue)
  {
  }

  lemma Pushed(tail: seq<Id>, more: set<Id>)
    ensures Elements(tail + Sorted(more)) == Elements(tail) + more
  {
  }

  lemma WalkedFacts(adj: Adjacency, start: Id, visited: set<Id>, universe: set<Id>, component: set<Id>,
                    nowVisited: set<Id>)
    requires Walking(adj, start, visited, universe, component, nowVisited, {})
    ensures component !! visited && nowVisited == visited + component && component <= universe
  {
  }
}

module Clusters {
  import opened Common
  import opened Graph

  datatype Relation = Relation(source: Id, target: Id, weight: real)
  /** All relations between one pair of entities, in the order they were met; a self-relation's pair is a singleton. */
  datatype Bucket = Bucket(pair: set<Id>, edges: seq<Relation>)
  datatype Cluster = Cluster(members: set<Id>, edges: seq<Relation>, score: real)

  /** The relations at or above the threshold between known entities. */
  function Qualifying(relations: seq<Relation>, known: set<Id>, minWeight: real): seq<Relation> {
    if relations == [] then [] else
      var shorter := Qualifying(relations[..|relations| - 1], known, minWeight);
      var r := relations[|relations| - 1];
      if r.weight >= minWeight && r.source in known && r.target in known then shorter + [r] else shorter
  }

  predicate Links(r: Relation, u: Id, v: Id) { (r.source == u && r.target == v) || (r.source == v && r.target == u) }

  predicate Linked(q: seq<Relation>, u: Id, v: Id) { exists i :: 0 <= i < |q| && Links(q[i], u, v) }

  /** The adjacency is the graph of the relations. */
  ghost predicate IsGraph(adj: Adjacency, q: seq<Relation>) {
    forall u, v :: v in Neighbours(adj, u) <==> Linked(q, u, v)
  }

  function WeightOf(edges: seq<Relation>): real {
    if edges == [] then 0.0 else WeightOf(edges[..|edges| - 1]) + edges[|edges| - 1].weight
  }

  predicate Within(r: Relation, members: set<Id>) { r.source in members && r.target in members }

  function Inside(q: seq<Relation>, members: set<Id>): seq<Relation> {
    if q == [] then [] else
      var shorter := Inside(q[..|q| - 1], members);
      if Within(q[|q| - 1], members) then shorter + [q[|q| - 1]] else shorter
  }

  function Gathered(buckets: seq<Bucket>, members: set<Id>): seq<Relation> {
    if buckets == [] then [] else
      var shorter := Gathered(buckets[..|buckets| - 1], members);
      if buckets[|buckets| - 1].pair <= members then shorter + buckets[|buckets| - 1].edges else shorter
  }

  /** edges_by_pair[pair].append(r), a new pair going last. */
  function Filed(buckets: seq<Bucket>, r: Relation): seq<Bucket> {
    if buckets == [] then [Bucket({r.source, r.target}, [r])] else
      var last := buckets[|buckets| - 1];
      if last.pair == {r.source, r.target}
      then buckets[..|buckets| - 1] + [Bucket(last.pair, last.edges + [r])]
      else Filed(buckets[..|buckets| - 1], r) + [last]
  }

  /** The same edges, counted with multiplicity, and the same total weight. */
  predicate SameEdges(a: seq<Relation>, b: seq<Relation>) { multiset(a) == multiset(b) && WeightOf(a) == WeightOf(b) }

  /** Weights are summed edge by edge. */
  lemma WeightOfOne(r: Relation)
    ensures WeightOf([]) == 0.0 && WeightOf([r]) == r.weight
  {
    assert [r][..0] == [];
  }

  lemma WeightOfPlus(a: seq<Relation>, b: seq<Relation>)
    ensures WeightOf(a + b) == WeightOf(a) + WeightOf(b)
    decreases |b|
  {
    if b == [] {
      assert a + b == a;
    } else {
      assert (a + b)[..|a + b| - 1] == a + b[..|b| - 1];
      WeightOfPlus(a, b[..|b| - 1]);
    }
  }

  function Extra(r: Relation, members: set<Id>): seq<Relation> { if Within(r, members) then [r] else [] }

  lemma SwapTail(x: seq<Relation>, edges: seq<Relation>, extra: seq<Relation>, y: seq<Relation>)
    requires SameEdges(x, y + extra)
    ensures SameEdges(x + edges, y + edges + extra)
  {
    WeightOfPlus(x, edges);
    WeightOfPlus(y, extra);
    WeightOfPlus(y, edges);
    WeightOfPlus(y + edges, extra);
  }

  lemma FiledInLast(shorter: seq<Bucket>, last: Bucket, r: Relation, members: set<Id>)
    requires last.pair == {r.source, r.target}
    ensures Gathered(shorter + [Bucket(last.pair, last.edges + [r])], members)
              == Gathered(shorter + [last], members) + Extra(r, members)
  {
    var filed := Bucket(last.pair, last.edges + [r]);
    assert last.pair <= members <==> Within(r, members);
    assert (shorter + [filed])[..|shorter|] == shorter && (shorter + [last])[..|shorter|] == shorter;
    if last.pair <= members {
      assert Gathered(shorter, members) + (last.edges + [r]) == (Gathered(shorter, members) + last.edges) + [r];
    } else {
      assert Gathered(shorter, members) + [] == Gathered(shorter, members);
    }
  }

  lemma {:induction false} FilingAddsOne(buckets: seq<Bucket>, r: Relation, members: set<Id>)
    ensures SameEdges(Gathered(Filed(buckets, r), members), Gathered(buckets, members) + Extra(r, members))
  {
    var pair := {r.source, r.target};
    if buckets == [] {
      var b := [Bucket(pair, [r])];
      assert b[..0] == [];
      assert pair <= members <==> Within(r, members);
    } else {
      var shorter, last := buckets[..|buckets| - 1], buckets[|buckets| - 1];
      if last.pair == pair {
        assert buckets == shorter + [last];
        FiledInLast(shorter, last, r, members);
      } else {
        FilingAddsOne(shorter, r, members);
        var filed := Filed(buckets, r);
        assert filed[..|filed| - 1] == Filed(shorter, r);
        if last.pair <= members {
          SwapTail(Gathered(Filed(shorter, r), members), last.edges, Extra(r, members), Gathered(shorter, members));
        }
      }
    }
  }

  // ── the graph ──────────────────────────────────────────────────────────────

  function WithArc(adj: Adjacency, u: Id, v: Id): Adjacency { adj[u := Neighbours(adj, u) + {v}] }

  lemma ArcsAddLink(adj: Adjacency, q: seq<Relation>, r: Relation)
    requires IsGraph(adj, q)
    ensures IsGraph(WithArc(WithArc(adj, r.source, r.target), r.target, r.source), q + [r])
  {
    var after := WithArc(WithArc(adj, r.source, r.target), r.target, r.source);
    forall u, v ensures v in Neighbours(after, u) <==> Linked(q + [r], u, v) {
      assert v in Neighbours(after, u) <==> v in Neighbours(adj, u) || Links(r, u, v);
      LinkedMore(q, r, u, v);
    }
  }

  lemma LinkedMore(q: seq<Relation>, r: Relation, u: Id, v: Id)
    ensures Linked(q + [r], u, v) <==> Linked(q, u, v) || Links(r, u, v)
  {
    var longer := q + [r];
    if Linked(q, u, v) {
      var i :| 0 <= i < |q| && Links(q[i], u, v);
      assert Links(longer[i], u, v);
    }
    assert longer[|q|] == r;
  }

  ghost predicate KnownOnly(q: seq<Relation>, known: set<Id>) {
    forall i :: 0 <= i < |q| ==> q[i].source in known && q[i].target in known
  }

  lemma {:induction false} QualifyingIsKnown(relations: seq<Relation>, known: set<Id>, minWeight: real)
    ensures KnownOnly(Qualifying(relations, known, minWeight), known)
  {
    if relations != [] {
      QualifyingIsKnown(relations[..|relations| - 1], known, minWeight);
    }
  }

  /** A relation is taken as often as it is there if it weighs the threshold or more and both its ends are known, and
      not at all otherwise. */
  lemma {:induction false} QualifyingCount(relations: seq<Relation>, known: set<Id>, minWeight: real, r: Relation)
    ensures multiset(Qualifying(relations, known, minWeight))[r]
              == if r.weight >= minWeight && r.source in known && r.target in known then multiset(relations)[r] else 0
  {
    if relations != [] {
      var shorter, last := relations[..|relations| - 1], relations[|relations| - 1];
      QualifyingCount(shorter, known, minWeight, r);
      assert relations == shorter + [last];
    }
  }

  /** Some relation of the input at or above the threshold joins two known entities, in either direction. */
  ghost predicate Step(relations: seq<Relation>, known: set<Id>, minWeight: real, u: Id, v: Id) {
    u in known && v in known
    && exists r :: r in relations && r.weight >= minWeight
                   && ((r.source == u && r.target == v) || (r.source == v && r.target == u))
  }

  /** A chain of such relations; an entity by itself is one. */
  ghost predicate Chain(relations: seq<Relation>, known: set<Id>, minWeight: real, path: seq<Id>, u: Id, v: Id) {
    && path != [] && path[0] == u && path[|path| - 1] == v
    && forall i :: 0 <= i < |path| - 1 ==> Step(relations, known, minWeight, path[i], path[i + 1])
  }

  lemma LinkedIsStep(relations: seq<Relation>, known: set<Id>, minWeight: real, u: Id, v: Id)
    ensures Linked(Qualifying(relations, known, minWeight), u, v) <==> Step(relations, known, minWeight, u, v)
  {
    hide Qualifying;
    var q := Qualifying(relations, known, minWeight);
    forall r ensures r in q <==> r in relations && r.weight >= minWeight && r.source in known && r.target in known {
      QualifyingCount(relations, known, minWeight, r);
      assert r in q <==> r in multiset(q);
      assert r in relations <==> r in multiset(relations);
    }
    if Linked(q, u, v) {
      var i :| 0 <= i < |q| && Links(q[i], u, v);
      assert q[i] in q;
    }
    if Step(relations, known, minWeight, u, v) {
      var r :| r in relations && r.weight >= minWeight
               && ((r.source == u && r.target == v) || (r.source == v && r.target == u));
      assert r in q;
      var i :| 0 <= i < |q| && q[i] == r;
      assert Links(q[i], u, v);
    }
  }

  lemma GraphIsClosedAndSymmetric(adj: Adjacency, q: seq<Relation>, known: set<Id>)
    requires IsGraph(adj, q) && KnownOnly(q, known)
    ensures Symmetric(adj) && Closed(adj, known)
  {
    forall u, v | v in Neighbours(adj, u) ensures u in Neighbours(adj, v) && v in known {
      assert Linked(q, u, v);
      var i :| 0 <= i < |q| && Links(q[i], u, v);
      assert Links(q[i], v, u);
      assert Linked(q, v, u);
    }
  }

  ghost predicate FiledAll(buckets: seq<Bucket>, q: seq<Relation>) {
    forall members :: SameEdges(Gathered(buckets, members), Inside(q, members))
  }

  lemma FilingKeepsAll(buckets: seq<Bucket>, q: seq<Relation>, r: Relation)
    requires FiledAll(buckets, q)
    ensures FiledAll(Filed(buckets, r), q + [r])
  {
    forall members ensures SameEdges(Gathered(Filed(buckets, r), members), Inside(q + [r], members)) {
      FilingAddsOne(buckets, r, members);
      assert (q + [r])[..|q|] == q;
      assert SameEdges(Gathered(buckets, members), Inside(q, members));
      WeightOfPlus(Gathered(buckets, members), Extra(r, members));
      WeightOfPlus(Inside(q, members), Extra(r, members));
      assert Inside(q + [r], members) == Inside(q, members) + Extra(r, members);
    }
  }

  method BuildGraph(relations: seq<Relation>, known: set<Id>, minWeight: real)
    returns (adj: Adjacency, buckets: seq<Bucket>)
    ensures IsGraph(adj, Qualifying(relations, known, minWeight))
    ensures FiledAll(buckets, Qualifying(relations, known, minWeight))
  {
    hide IsGraph, FiledAll, Filed, WithArc;
    adj, buckets := map[], [];
    EmptyGraph();
    for i := 0 to |relations|
      invariant IsGraph(adj, Qualifying(relations[..i], known, minWeight))
      invariant FiledAll(buckets, Qualifying(relations[..i], known, minWeight))
    {
      var r := relations[i];
      ghost var q := Qualifying(relations[..i], known, minWeight);
      assert relations[..i + 1][..i] == relations[..i];
      if r.weight >= minWeight && r.source in known && r.target in known {
        ArcsAddLink(adj, q, r);
        FilingKeepsAll(buckets, q, r);
        adj := WithArc(adj, r.source, r.target);
        adj := WithArc(adj, r.target, r.source);
        buckets := Filed(buckets, r);
      }
    }
    assert relations[..|relations|] == relations;
  }

  lemma EmptyGraph()
    ensures IsGraph(map[], []) && FiledAll([], [])
  {
  }

  // ── the clusters ───────────────────────────────────────────────────────────

  /** Total mentions of a set of entities. */
  function Mentions(s: set<Id>, mentions: map<Id, nat>): nat
    requires s <= mentions.Keys
  {
    if s == {} then 0 else
      var m := Least(s);
      mentions[m] + Mentions(s - {m}, mentions)
  }

  lemma {:induction false} MentionsWithout(s: set<Id>, mentions: map<Id, nat>, x: Id)
    requires s <= mentions.Keys && x in s
    ensures Mentions(s, mentions) == mentions[x] + Mentions(s - {x}, mentions)
    decreases s
  {
    var m := Least(s);
    if m != x {
      MentionsWithout(s - {m}, mentions, x);
      assert m in s - {x} && Least(s - {x}) in s;
      assert Least(s - {x}) == m;
      assert s - {m} - {x} == s - {x} - {m};
    }
  }

  lemma {:induction false} MentionsApart(a: set<Id>, b: set<Id>, mentions: map<Id, nat>)
    requires a + b <= mentions.Keys && a !! b
    ensures Mentions(a + b, mentions) == Mentions(a, mentions) + Mentions(b, mentions)
    decreases a
  {
    if a == {} {
      assert a + b == b;
    } else {
      var x :| x in a;
      MentionsWithout(a, mentions, x);
      MentionsWithout(a + b, mentions, x);
      assert a + b - {x} == (a - {x}) + b;
      MentionsApart(a - {x}, b, mentions);
    }
  }

  ghost predicate ClusterOk(cluster: Cluster, adj: Adjacency, q: seq<Relation>, mentions: map<Id, nat>) {
    && cluster.members <= mentions.Keys
    && (exists start :: start in cluster.members && IsComponent(adj, start, cluster.members))
    && multiset(cluster.edges) == multiset(Inside(q, cluster.members))
    && cluster.score == WeightOf(Inside(q, cluster.members)) + Mentions(cluster.members, mentions) as real / 10.0
  }

  method ScoreComponent(component: set<Id>, buckets: seq<Bucket>, mentions: map<Id, nat>) returns (cluster: Cluster)
    requires component <= mentions.Keys
    ensures cluster.members == component && cluster.edges == Gathered(buckets, component)
    ensures cluster.score == WeightOf(Gathered(buckets, component)) + Mentions(component, mentions) as real / 10.0
  {
    var edges, score := [], 0.0;
    for i := 0 to |buckets|
      invariant edges == Gathered(buckets[..i], component) && score == WeightOf(edges)
    {
      assert buckets[..i + 1][..i] == buckets[..i];
      if buckets[i].pair <= component {
        WeightOfPlus(edges, buckets[i].edges);
        edges := edges + buckets[i].edges;
        score := score + WeightOf(buckets[i].edges);
      }
    }
    assert buckets[..|buckets|] == buckets;
    var total, todo := 0, component;
    while todo != {}
      invariant todo <= component && total + Mentions(todo, mentions) == Mentions(component, mentions)
    {
      var id :| id in todo;
      MentionsWithout(todo, mentions, id);
      total, todo := total + mentions[id], todo - {id};
    }
    return Cluster(component, edges, score + total as real / 10.0);
  }

  function Union(clusters: seq<Cluster>): set<Id> {
    if clusters == [] then {} else Union(clusters[..|clusters| - 1]) + clusters[|clusters| - 1].members
  }

  /** Disjoint, in the order they were found. */
  ghost predicate Disjoint(clusters: seq<Cluster>) {
    clusters == []
    || (Disjoint(clusters[..|clusters| - 1]) && Union(clusters[..|clusters| - 1]) !! clusters[|clusters| - 1].members)
  }

  /** All components before sorting and the limit. */
  method DetectClusters(order: seq<Id>, mentions: map<Id, nat>, relations: seq<Relation>, minWeight: real)
    returns (clusters: seq<Cluster>, ghost adj: Adjacency)
    requires Elements(order) == mentions.Keys
    ensures IsGraph(adj, Qualifying(relations, mentions.Keys, minWeight))
    ensures Disjoint(clusters) && Union(clusters) == mentions.Keys
    ensures AllOk(clusters, adj, Qualifying(relations, mentions.Keys, minWeight), mentions)
    ensures ClustersOf(clusters, mentions.Keys, relations, minWeight)
  {
    var graph, buckets := BuildGraph(relations, mentions.Keys, minWeight);
    adj := graph;
    ghost var q := Qualifying(relations, mentions.Keys, minWeight);
    QualifyingIsKnown(relations, mentions.Keys, minWeight);
    GraphIsClosedAndSymmetric(graph, q, mentions.Keys);
    hide IsGraph, FiledAll, Closed, Symmetric, IsComponent, Mentions, ClusterOk, Inside, Gathered, Qualifying,
         WeightOf, SameEdges, AllOk, Disjoint, Union, KnownOnly, ClustersOf;
    var visited: set<Id> := {};
    clusters := [];
    NothingFound(graph, q, mentions);
    for i := 0 to |order|
      invariant Closed(graph, visited) && visited == Union(clusters) && Disjoint(clusters) && visited <= mentions.Keys
      invariant Elements(order[..i]) <= visited
      invariant AllOk(clusters, adj, q, mentions)
    {
      assert order[..i + 1] == order[..i] + [order[i]];
      assert order[i] in Elements(order);
      if order[i] !in visited {
        var component, nowVisited := WalkComponent(order[i], graph, visited, mentions.Keys);
        var cluster := ScoreComponent(component, buckets, mentions);
        ScoredIsOk(cluster, order[i], buckets, adj, q, mentions);
        OneMore(clusters, cluster, adj, q, mentions);
        clusters, visited := clusters + [cluster], nowVisited;
      }
    }
    assert order[..|order|] == order;
    ClustersMean(clusters, adj, mentions, relations, minWeight);
  }

  lemma NothingFound(adj: Adjacency, q: seq<Relation>, mentions: map<Id, nat>)
    ensures Closed(adj, {}) && Union([]) == {} && Disjoint([]) && AllOk([], adj, q, mentions)
  {
  }

  lemma OneMore(clusters: seq<Cluster>, cluster: Cluster, adj: Adjacency, q: seq<Relation>, mentions: map<Id, nat>)
    requires Disjoint(clusters) && cluster.members !! Union(clusters)
    requires AllOk(clusters, adj, q, mentions) && ClusterOk(cluster, adj, q, mentions)
    ensures Disjoint(clusters + [cluster]) && Union(clusters + [cluster]) == Union(clusters) + cluster.members
    ensures AllOk(clusters + [cluster], adj, q, mentions)
  {
    hide ClusterOk;
    assert (clusters + [cluster])[..|clusters|] == clusters;
  }

  lemma ScoredIsOk(cluster: Cluster, start: Id, buckets: seq<Bucket>, adj: Adjacency, q: seq<Relation>,
                   mentions: map<Id, nat>)
    requires cluster.members <= mentions.Keys && start in cluster.members && IsComponent(adj, start, cluster.members)
    requires FiledAll(buckets, q) && cluster.edges == Gathered(buckets, cluster.members)
    requires cluster.score == WeightOf(Gathered(buckets, cluster.members)) + Mentions(cluster.members, mentions) as real / 10.0
    ensures ClusterOk(cluster, adj, q, mentions)
  {
    hide IsComponent;
    assert SameEdges(Gathered(buckets, cluster.members), Inside(q, cluster.members));
  }

  // ── what the clusters mean ─────────────────────────────────────────────────

  /** No relation has exactly one end among the members. */
  ghost predicate Uncrossed(q: seq<Relation>, members: set<Id>) {
    forall i :: 0 <= i < |q| ==> (q[i].source in members <==> q[i].target in members)
  }

  lemma ComponentIsUncrossed(adj: Adjacency, q: seq<Relation>, start: Id, members: set<Id>)
    requires IsGraph(adj, q) && IsComponent(adj, start, members)
    ensures Uncrossed(q, members)
  {
    hide Joined, Neighbours;
    forall i | 0 <= i < |q| ensures q[i].source in members <==> q[i].target in members {
      var u, v := q[i].source, q[i].target;
      assert Links(q[i], u, v) && Links(q[i], v, u);
      assert v in Neighbours(adj, u) && u in Neighbours(adj, v);
      if u in members { JoinedStep(adj, start, u, v); }
      if v in members { JoinedStep(adj, start, v, u); }
    }
  }

  ghost predicate AllOk(clusters: seq<Cluster>, adj: Adjacency, q: seq<Relation>, mentions: map<Id, nat>) {
    forall i :: 0 <= i < |clusters| ==> ClusterOk(clusters[i], adj, q, mentions)
  }

  ghost predicate Together(clusters: seq<Cluster>, u: Id, v: Id) {
    exists i :: 0 <= i < |clusters| && u in clusters[i].members && v in clusters[i].members
  }

  lemma {:induction false} InSomeCluster(clusters: seq<Cluster>, u: Id) returns (i: nat)
    requires u in Union(clusters)
    ensures i < |clusters| && u in clusters[i].members
  {
    if u in clusters[|clusters| - 1].members {
      return |clusters| - 1;
    }
    i := InSomeCluster(clusters[..|clusters| - 1], u);
  }

  lemma {:induction false} InUnion(clusters: seq<Cluster>, i: nat)
    requires i < |clusters|
    ensures clusters[i].members <= Union(clusters)
  {
    if i < |clusters| - 1 { InUnion(clusters[..|clusters| - 1], i); }
  }

  lemma {:induction false} InOneCluster(clusters: seq<Cluster>, u: Id, i: nat, j: nat)
    requires Disjoint(clusters) && i < j < |clusters| && u in clusters[i].members
    ensures u !in clusters[j].members
  {
    if j < |clusters| - 1 {
      InOneCluster(clusters[..|clusters| - 1], u, i, j);
    } else {
      InUnion(clusters[..|clusters| - 1], i);
    }
  }

  /** Two entities share a cluster exactly when a path of qualifying relations joins them. */
  lemma TogetherIff(clusters: seq<Cluster>, adj: Adjacency, q: seq<Relation>, mentions: map<Id, nat>, u: Id, v: Id)
    requires AllOk(clusters, adj, q, mentions) && Union(clusters) == mentions.Keys
    requires IsGraph(adj, q) && KnownOnly(q, mentions.Keys) && u in mentions
    ensures Together(clusters, u, v) <==> Joined(adj, u, v)
  {
    hide Joined, IsGraph, KnownOnly, Symmetric;
    GraphIsClosedAndSymmetric(adj, q, mentions.Keys);
    if Together(clusters, u, v) {
      var i :| 0 <= i < |clusters| && u in clusters[i].members && v in clusters[i].members;
      assert ClusterOk(clusters[i], adj, q, mentions);
      var start :| start in clusters[i].members && IsComponent(adj, start, clusters[i].members);
      JoinedBack(adj, start, u);
      JoinedThrough(adj, u, start, v);
    }
    if Joined(adj, u, v) {
      var i := InSomeCluster(clusters, u);
      assert ClusterOk(clusters[i], adj, q, mentions);
      var start :| start in clusters[i].members && IsComponent(adj, start, clusters[i].members);
      JoinedThrough(adj, start, u, v);
    }
  }

  lemma JoinedIsChain(adj: Adjacency, relations: seq<Relation>, known: set<Id>, minWeight: real, u: Id, v: Id)
    requires IsGraph(adj, Qualifying(relations, known, minWeight))
    ensures Joined(adj, u, v) <==> exists path :: Chain(relations, known, minWeight, path, u, v)
  {
    hide Qualifying, Linked, Step, Neighbours;
    forall x, y ensures y in Neighbours(adj, x) <==> Step(relations, known, minWeight, x, y) {
      LinkedIsStep(relations, known, minWeight, x, y);
    }
    hide IsGraph;
    if Joined(adj, u, v) {
      var path :| IsPath(adj, path, u, v);
      assert Chain(relations, known, minWeight, path, u, v);
    }
    if exists path :: Chain(relations, known, minWeight, path, u, v) {
      var path :| Chain(relations, known, minWeight, path, u, v);
      assert IsPath(adj, path, u, v);
    }
  }

  lemma {:induction false} InsideCount(q: seq<Relation>, members: set<Id>, r: Relation)
    ensures multiset(Inside(q, members))[r]
              == if r.source in members && r.target in members then multiset(q)[r] else 0
  {
    if q != [] {
      InsideCount(q[..|q| - 1], members, r);
      assert q == q[..|q| - 1] + [q[|q| - 1]];
    }
  }

  /** What the answer is, over the relations themselves: two entities share a cluster exactly when a chain of relations
      at or above the threshold joins them, and a cluster's edges are those relations inside it, each as often as it is
      there. */
  ghost predicate ClustersOf(clusters: seq<Cluster>, known: set<Id>, relations: seq<Relation>, minWeight: real) {
    && (forall u, v :: u in known ==>
          (Together(clusters, u, v) <==> exists path :: Chain(relations, known, minWeight, path, u, v)))
    && (forall i, r :: 0 <= i < |clusters| ==>
          multiset(clusters[i].edges)[r]
          == if r.weight >= minWeight && r.source in clusters[i].members && r.target in clusters[i].members
             then multiset(relations)[r] else 0)
  }

  lemma ClustersMean(clusters: seq<Cluster>, adj: Adjacency, mentions: map<Id, nat>, relations: seq<Relation>,
                     minWeight: real)
    requires var q := Qualifying(relations, mentions.Keys, minWeight);
             IsGraph(adj, q) && AllOk(clusters, adj, q, mentions)
    requires Disjoint(clusters) && Union(clusters) == mentions.Keys
    ensures ClustersOf(clusters, mentions.Keys, relations, minWeight)
  {
    var known, q := mentions.Keys, Qualifying(relations, mentions.Keys, minWeight);
    QualifyingIsKnown(relations, known, minWeight);
    hide Qualifying, IsGraph, IsComponent, Chain, Joined, Together, KnownOnly, Inside, Mentions, WeightOf;
    forall u, v | u in known
      ensures Together(clusters, u, v) <==> exists path :: Chain(relations, known, minWeight, path, u, v)
    {
      TogetherIff(clusters, adj, q, mentions, u, v);
      JoinedIsChain(adj, relations, known, minWeight, u, v);
    }
    forall i, r | 0 <= i < |clusters|
      ensures multiset(clusters[i].edges)[r]
              == if r.weight >= minWeight && r.source in clusters[i].members && r.target in clusters[i].members
                 then multiset(relations)[r] else 0
    {
      assert ClusterOk(clusters[i], adj, q, mentions);
      InsideCount(q, clusters[i].members, r);
      QualifyingCount(relations, known, minWeight, r);
    }
  }

  /** The relation lies within this cluster and is listed in its edges; it does neither in any other. */
  ghost predicate IsHome(clusters: seq<Cluster>, r: Relation, home: nat) {
    home < |clusters|
    && (forall j :: 0 <= j < |clusters| ==> (Within(r, clusters[j].members) <==> j == home))
    && (forall j :: 0 <= j < |clusters| ==> (r in clusters[j].edges <==> j == home))
  }

  /** Every qualifying relation lies in one cluster, and in no other. */
  lemma RelationInOneCluster(clusters: seq<Cluster>, adj: Adjacency, q: seq<Relation>, mentions: map<Id, nat>, k: nat)
    requires AllOk(clusters, adj, q, mentions) && Union(clusters) == mentions.Keys && Disjoint(clusters)
    requires IsGraph(adj, q) && KnownOnly(q, mentions.Keys) && k < |q|
    ensures exists home :: IsHome(clusters, q[k], home)
  {
    hide IsGraph, IsComponent;
    var home := InSomeCluster(clusters, q[k].source);
    assert ClusterOk(clusters[home], adj, q, mentions);
    var start :| start in clusters[home].members && IsComponent(adj, start, clusters[home].members);
    ComponentIsUncrossed(adj, q, start, clusters[home].members);
    forall j | 0 <= j < |clusters|
      ensures Within(q[k], clusters[j].members) <==> j == home
      ensures q[k] in clusters[j].edges <==> j == home
    {
      if j < home && q[k].source in clusters[j].members { InOneCluster(clusters, q[k].source, j, home); }
      if home < j { InOneCluster(clusters, q[k].source, home, j); }
      assert ClusterOk(clusters[j], adj, q, mentions);
      InsideHas(q, clusters[j].members, k);
      assert q[k] in clusters[j].edges <==> q[k] in multiset(clusters[j].edges);
      assert q[k] in Inside(q, clusters[j].members) <==> q[k] in multiset(Inside(q, clusters[j].members));
    }
    assert IsHome(clusters, q[k], home);
  }

  lemma {:induction false} InsideHas(q: seq<Relation>, members: set<Id>, k: nat)
    requires k < |q|
    ensures q[k] in Inside(q, members) <==> Within(q[k], members)
  {
    var last := |q| - 1;
    InsideIsWithin(q, members);
    if k < last { InsideHas(q[..last], members, k); }
  }

  lemma {:induction false} InsideIsWithin(q: seq<Relation>, members: set<Id>)
    ensures forall r :: r in Inside(q, members) ==> Within(r, members)
  {
    if q != [] { InsideIsWithin(q[..|q| - 1], members); }
  }

  lemma {:induction false} InsideApart(q: seq<Relation>, a: set<Id>, b: set<Id>)
    requires Uncrossed(q, a) && Uncrossed(q, b) && a !! b
    ensures WeightOf(Inside(q, a + b)) == WeightOf(Inside(q, a)) + WeightOf(Inside(q, b))
    ensures multiset(Inside(q, a + b)) == multiset(Inside(q, a)) + multiset(Inside(q, b))
  {
    if q != [] {
      var r, shorter := q[|q| - 1], q[..|q| - 1];
      InsideApart(shorter, a, b);
      assert Within(r, a + b) <==> Within(r, a) || Within(r, b);
      InsideLast(q, a);
      InsideLast(q, b);
      InsideLast(q, a + b);
    }
  }

  lemma InsideLast(q: seq<Relation>, members: set<Id>)
    requires q != []
    ensures Within(q[|q| - 1], members) ==>
              && WeightOf(Inside(q, members)) == WeightOf(Inside(q[..|q| - 1], members)) + q[|q| - 1].weight
              && multiset(Inside(q, members)) == multiset(Inside(q[..|q| - 1], members)) + multiset{q[|q| - 1]}
    ensures !Within(q[|q| - 1], members) ==> Inside(q, members) == Inside(q[..|q| - 1], members)
  {
    var shorter := Inside(q[..|q| - 1], members);
    assert (shorter + [q[|q| - 1]])[..|shorter|] == shorter;
  }

  lemma {:induction false} InsideAll(q: seq<Relation>, members: set<Id>)
    requires KnownOnly(q, members)
    ensures Inside(q, members) == q
  {
    if q != [] {
      InsideAll(q[..|q| - 1], members);
      assert q[..|q| - 1] + [q[|q| - 1]] == q;
    }
  }

  function TotalScore(clusters: seq<Cluster>): real {
    if clusters == [] then 0.0 else TotalScore(clusters[..|clusters| - 1]) + clusters[|clusters| - 1].score
  }

  function AllEdges(clusters: seq<Cluster>): multiset<Relation> {
    if clusters == [] then multiset{} else AllEdges(clusters[..|clusters| - 1]) + multiset(clusters[|clusters| - 1].edges)
  }

  lemma {:induction false} ScoresUpTo(clusters: seq<Cluster>, adj: Adjacency, q: seq<Relation>, mentions: map<Id, nat>)
    requires AllOk(clusters, adj, q, mentions) && Disjoint(clusters) && IsGraph(adj, q)
    ensures Union(clusters) <= mentions.Keys && Uncrossed(q, Union(clusters))
    ensures TotalScore(clusters)
              == WeightOf(Inside(q, Union(clusters))) + Mentions(Union(clusters), mentions) as real / 10.0
    ensures AllEdges(clusters) == multiset(Inside(q, Union(clusters)))
  {
    hide IsGraph, IsComponent, Inside, WeightOf, Mentions;
    if clusters == [] {
      InsideNothing(q);
      assert Mentions({}, mentions) == 0 by { NoMentions(mentions); }
    } else {
      var shorter, last := clusters[..|clusters| - 1], clusters[|clusters| - 1];
      ScoresUpTo(shorter, adj, q, mentions);
      assert ClusterOk(last, adj, q, mentions);
      var start :| start in last.members && IsComponent(adj, start, last.members);
      ComponentIsUncrossed(adj, q, start, last.members);
      InsideApart(q, Union(shorter), last.members);
      MentionsApart(Union(shorter), last.members, mentions);
    }
  }

  lemma NoMentions(mentions: map<Id, nat>)
    ensures Mentions({}, mentions) == 0
  {
  }

  lemma {:induction false} InsideNothing(q: seq<Relation>)
    ensures Inside(q, {}) == []
    ensures WeightOf([]) == 0.0
  {
    if q != [] { InsideNothing(q[..|q| - 1]); }
  }

  /** Nothing is counted twice or lost: the unrounded scores add up to all weights plus a tenth of all mentions. */
  lemma ScoresAddUp(clusters: seq<Cluster>, adj: Adjacency, q: seq<Relation>, mentions: map<Id, nat>)
    requires AllOk(clusters, adj, q, mentions) && Disjoint(clusters) && Union(clusters) == mentions.Keys
    requires IsGraph(adj, q) && KnownOnly(q, mentions.Keys)
    ensures TotalScore(clusters) == WeightOf(q) + Mentions(mentions.Keys, mentions) as real / 10.0
    ensures AllEdges(clusters) == multiset(q)
  {
    hide IsGraph, IsComponent, Inside, WeightOf, Mentions, ClusterOk, Disjoint, KnownOnly;
    ScoresUpTo(clusters, adj, q, mentions);
    InsideAll(q, mentions.Keys);
  }
}

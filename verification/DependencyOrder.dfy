/** Start-up order of plugins: `topo_sort` of `src/plugins/loader.rs`, Kahn's algorithm over
    the `requires` lists, with refused plugins left out of the graph. */
module DependencyOrder {
  import opened Collections

  type Id = string

  /** The config order, the `requires` lists and the plugins already refused. */
  datatype Graph = Graph(ids: seq<Id>, deps: map<Id, seq<Id>>, refused: set<Id>)

  datatype Verdict = Ordered(order: seq<Id>) | Cyclic(ids: seq<Id>)

  /** A repetition-free sequence drawn from another is no longer than it, and reaches its
      length only by covering it. */
  lemma DrawnFrom<T>(s: seq<T>, from: seq<T>)
    requires Distinct(s) && Distinct(from)
    requires forall x :: x in s ==> x in from
    ensures |s| <= |from|
    ensures |s| == |from| ==> Elems(s) == Elems(from)
  {
    DistinctSize(s);
    DistinctSize(from);
    Subset(Elems(s), Elems(from));
  }

  // ---------------------------------------------------------------------------
  // The dependency graph
  // ---------------------------------------------------------------------------

  function Active(g: Graph): seq<Id> {
    Without(g.ids, g.refused)
  }

  function Requires(g: Graph, x: Id): seq<Id> {
    if x in g.deps then g.deps[x] else []
  }

  /** Edge of the graph: an active plugin and a requirement of it that is not refused. */
  predicate DependsOn(g: Graph, x: Id, d: Id) {
    x in Active(g) && d in Requires(g, x) && d !in g.refused
  }

  ghost predicate IsWalk(g: Graph, w: seq<Id>) {
    w != [] && forall i :: 0 <= i < |w| - 1 ==> DependsOn(g, w[i], w[i + 1])
  }

  ghost predicate IsWalkBetween(g: Graph, w: seq<Id>, x: Id, y: Id) {
    IsWalk(g, w) && w[0] == x && w[|w| - 1] == y
  }

  ghost predicate Reaches(g: Graph, x: Id, y: Id) {
    exists w :: IsWalkBetween(g, w, x, y)
  }

  ghost predicate OnCycle(g: Graph, c: Id) {
    exists w :: IsWalkBetween(g, w, c, c) && |w| > 1
  }

  /** Some dependency walk from `x` reaches a cycle. */
  ghost predicate ReachesCycle(g: Graph, x: Id) {
    exists c :: Reaches(g, x, c) && OnCycle(g, c)
  }

  /** Some dependency walk from `x` ends at a plugin that is not in the config. */
  ghost predicate ReachesMissing(g: Graph, x: Id) {
    exists d :: Reaches(g, x, d) && d !in Active(g)
  }

  ghost predicate Blocked(g: Graph, x: Id) {
    ReachesCycle(g, x) || ReachesMissing(g, x)
  }

  ghost function BlockedSet(g: Graph): set<Id> {
    set x | x in Active(g) && Blocked(g, x)
  }

  /** Every dependency that is not refused is active; `load_all` arranges this. */
  ghost predicate ClosedGraph(g: Graph) {
    forall x, d :: DependsOn(g, x, d) ==> d in Active(g)
  }

  lemma StepReaches(g: Graph, x: Id, d: Id, y: Id)
    requires DependsOn(g, x, d) && Reaches(g, d, y)
    ensures Reaches(g, x, y)
  {
    var w :| IsWalkBetween(g, w, d, y);
    assert IsWalkBetween(g, [x] + w, x, y);
  }

  /** What a dependency is blocked by blocks its dependants. */
  lemma StepBlocked(g: Graph, x: Id, d: Id)
    requires DependsOn(g, x, d)
    ensures ReachesCycle(g, d) ==> ReachesCycle(g, x)
    ensures ReachesMissing(g, d) ==> ReachesMissing(g, x)
  {
    if ReachesCycle(g, d) {
      var c :| Reaches(g, d, c) && OnCycle(g, c);
      StepReaches(g, x, d, c);
    }
    if ReachesMissing(g, d) {
      var m :| Reaches(g, d, m) && m !in Active(g);
      StepReaches(g, x, d, m);
    }
  }

  lemma WalkStaysActive(g: Graph, w: seq<Id>)
    requires ClosedGraph(g) && IsWalk(g, w) && w[0] in Active(g)
    ensures w[|w| - 1] in Active(g)
  {
    if |w| > 1 {
      assert DependsOn(g, w[|w| - 2], w[|w| - 2 + 1]);
    }
  }

  /** In a closed graph only cycles block. */
  lemma ClosedGraphBlocksByCycles(g: Graph, x: Id)
    requires ClosedGraph(g) && x in Active(g)
    ensures Blocked(g, x) <==> ReachesCycle(g, x)
  {
    forall d | Reaches(g, x, d) ensures d in Active(g) {
      var w :| IsWalkBetween(g, w, x, d);
      WalkStaysActive(g, w);
    }
  }

  // ---------------------------------------------------------------------------
  // Counting open requirements
  // ---------------------------------------------------------------------------

  /** How many entries of `req`, repetitions included, are not in `gone`. */
  function Open(req: seq<Id>, gone: set<Id>): nat {
    if req == [] then 0
    else Open(req[..|req| - 1], gone) + (if req[|req| - 1] in gone then 0 else 1)
  }

  lemma {:induction false} OpenLess(req: seq<Id>, gone: set<Id>, id: Id)
    requires id !in gone
    ensures Open(req, gone) == Open(req, gone + {id}) + multiset(req)[id]
  {
    if req != [] {
      var front, last := req[..|req| - 1], req[|req| - 1];
      OpenLess(front, gone, id);
      assert req == front + [last];
    }
  }

  lemma {:induction false} OpenZero(req: seq<Id>, gone: set<Id>)
    ensures Open(req, gone) == 0 <==> forall d :: d in req ==> d in gone
  {
    if req != [] {
      var front, last := req[..|req| - 1], req[|req| - 1];
      OpenZero(front, gone);
      assert req == front + [last];
    }
  }

  // ---------------------------------------------------------------------------
  // Why the two outcomes of the sort are exact
  // ---------------------------------------------------------------------------

  /** Each entry has all its dependencies strictly before it. */
  ghost predicate DependenciesEarlier(g: Graph, order: seq<Id>) {
    forall k, d :: 0 <= k < |order| && DependsOn(g, order[k], d) ==> d in order[..k]
  }

  /** A walk inside such an order moves strictly towards its front. */
  lemma {:induction false} WalkDescends(g: Graph, order: seq<Id>, w: seq<Id>, k: nat) returns (j: nat)
    requires DependenciesEarlier(g, order)
    requires IsWalk(g, w) && k < |order| && order[k] == w[0]
    ensures j <= k && order[j] == w[|w| - 1] && (|w| > 1 ==> j < k)
    decreases |w|
  {
    if |w| == 1 {
      j := k;
    } else {
      assert DependsOn(g, w[0], w[1]);
      var i :| 0 <= i < k && order[i] == w[1];
      assert IsWalk(g, w[1..]) by {
        forall n | 0 <= n < |w[1..]| - 1 ensures DependsOn(g, w[1..][n], w[1..][n + 1]) {
          assert DependsOn(g, w[n + 1], w[n + 2]);
        }
      }
      j := WalkDescends(g, order, w[1..], i);
    }
  }

  lemma OrderedNotBlocked(g: Graph, order: seq<Id>, x: Id)
    requires DependenciesEarlier(g, order) && Distinct(order) && x in order
    requires forall y :: y in order ==> y in Active(g)
    ensures !Blocked(g, x)
  {
    var k :| 0 <= k < |order| && order[k] == x;
    forall y | Reaches(g, x, y) ensures y in order && !OnCycle(g, y) {
      var w :| IsWalkBetween(g, w, x, y);
      var j := WalkDescends(g, order, w, k);
      if OnCycle(g, y) {
        var c :| IsWalkBetween(g, c, y, y) && |c| > 1;
        var i := WalkDescends(g, order, c, j);
        assert false;
      }
    }
  }

  /** Every member of `stuck` still waits for something that is stuck too or missing. */
  ghost predicate AllWait(g: Graph, stuck: set<Id>) {
    forall x :: x in stuck ==>
      x in Active(g) && exists d :: DependsOn(g, x, d) && (d in stuck || d !in Active(g))
  }

  lemma RevisitIsCycle(g: Graph, w: seq<Id>, i: nat)
    requires IsWalk(g, w) && i < |w| - 1 && w[i] == w[|w| - 1]
    ensures ReachesCycle(g, w[0])
  {
    var d := w[i];
    SuffixWalk(g, w, i);
    assert IsWalkBetween(g, w[i..], d, d);
    assert OnCycle(g, d);
    assert IsWalkBetween(g, w, w[0], d);
    assert Reaches(g, w[0], d);
  }

  /** Following waits from a stuck plugin must revisit one or leave the config. */
  lemma {:induction false} FollowWaits(g: Graph, stuck: set<Id>, w: seq<Id>)
    requires AllWait(g, stuck)
    requires IsWalk(g, w) && Distinct(w) && Elems(w) <= stuck
    ensures Blocked(g, w[0])
    decreases |stuck| - |w|
  {
    var last := w[|w| - 1];
    assert last in Elems(w);
    var d :| DependsOn(g, last, d) && (d in stuck || d !in Active(g));
    hide DependsOn, IsWalk, Active, AllWait, ReachesCycle, ReachesMissing;
    var w' := w + [d];
    ExtendWalk(g, w, d);
    if d in w {
      var i :| 0 <= i < |w| && w[i] == d;
      RevisitIsCycle(g, w', i);
    } else if d in stuck {
      assert Elems(w') == Elems(w) + {d};
      DistinctSize(w');
      Subset(Elems(w'), stuck);
      FollowWaits(g, stuck, w');
    } else {
      LeavingIsMissing(g, w');
    }
  }

  lemma LeavingIsMissing(g: Graph, w: seq<Id>)
    requires IsWalk(g, w) && w[|w| - 1] !in Active(g)
    ensures ReachesMissing(g, w[0])
  {
    hide DependsOn, Active;
    assert IsWalkBetween(g, w, w[0], w[|w| - 1]);
    assert Reaches(g, w[0], w[|w| - 1]);
  }

  lemma ExtendWalk(g: Graph, w: seq<Id>, d: Id)
    requires IsWalk(g, w) && DependsOn(g, w[|w| - 1], d)
    ensures IsWalk(g, w + [d])
  {
  }

  lemma SuffixWalk(g: Graph, w: seq<Id>, i: nat)
    requires IsWalk(g, w) && i < |w|
    ensures IsWalk(g, w[i..])
  {
    forall n | 0 <= n < |w[i..]| - 1 ensures DependsOn(g, w[i..][n], w[i..][n + 1]) {
      assert DependsOn(g, w[i + n], w[i + n + 1]);
    }
  }

  // ---------------------------------------------------------------------------
  // The code
  // ---------------------------------------------------------------------------

  /** One increment per requirement of `id` that is not refused. */
  method CountRequirements(g: Graph, deg0: map<Id, nat>, id: Id) returns (deg: map<Id, nat>)
    requires id in deg0
    ensures deg == deg0[id := deg0[id] + Open(Requires(g, id), g.refused)]
  {
    var req := Requires(g, id);
    deg := deg0;
    for j := 0 to |req|
      invariant deg == deg0[id := deg0[id] + Open(req[..j], g.refused)]
    {
      assert req[..j + 1][..j] == req[..j];
      if req[j] !in g.refused {
        deg := deg[id := deg[id] + 1];
      }
    }
    assert req[..|req|] == req;
  }

  /** In-degree of every active plugin: one per listed requirement, repetitions counted. */
  method InDegrees(g: Graph, active: seq<Id>) returns (deg: map<Id, nat>)
    requires Distinct(active)
    ensures deg.Keys == Elems(active)
    ensures forall x :: x in active ==> deg[x] == Open(Requires(g, x), g.refused)
  {
    deg := map x | x in active :: 0;
    for i := 0 to |active|
      invariant deg.Keys == Elems(active)
      invariant forall k :: 0 <= k < i ==> deg[active[k]] == Open(Requires(g, active[k]), g.refused)
      invariant forall k :: i <= k < |active| ==> deg[active[k]] == 0
    {
      deg := CountRequirements(g, deg, active[i]);
    }
  }

  function Dependants(rev: map<Id, seq<Id>>, d: Id): seq<Id> {
    if d in rev then rev[d] else []
  }

  /** Times `x` lists `d`, as long as `d` is not refused and `x` is among `xs`. */
  function Listed(g: Graph, xs: seq<Id>, x: Id, d: Id): nat {
    if x in xs && d !in g.refused then multiset(Requires(g, x))[d] else 0
  }

  /** The same for the part of `id`'s list that has been visited. */
  function Part(g: Graph, id: Id, visited: seq<Id>, x: Id, d: Id): nat {
    if x == id && d !in g.refused then multiset(visited)[d] else 0
  }

  ghost predicate Reversed(g: Graph, rev: map<Id, seq<Id>>, xs: seq<Id>, id: Id, visited: seq<Id>) {
    forall d, x :: multiset(Dependants(rev, d))[x] == Listed(g, xs, x, d) + Part(g, id, visited, x, d)
  }

  /** One more dependant of `d0`. */
  lemma PushDependant(g: Graph, rev: map<Id, seq<Id>>, id: Id, visited: seq<Id>, d0: Id, d: Id, x: Id)
    requires d0 !in g.refused
    ensures var rev' := rev[d0 := Dependants(rev, d0) + [id]];
            multiset(Dependants(rev', d))[x] - Part(g, id, visited + [d0], x, d)
            == multiset(Dependants(rev, d))[x] - Part(g, id, visited, x, d)
  {
    assert multiset(visited + [d0])[d] == multiset(visited)[d] + (if d == d0 then 1 else 0);
  }

  lemma ReversedStep(g: Graph, rev: map<Id, seq<Id>>, xs: seq<Id>, id: Id, visited: seq<Id>, d0: Id)
    requires Reversed(g, rev, xs, id, visited)
    ensures d0 in g.refused ==> Reversed(g, rev, xs, id, visited + [d0])
    ensures d0 !in g.refused ==> Reversed(g, rev[d0 := Dependants(rev, d0) + [id]], xs, id, visited + [d0])
  {
    if d0 in g.refused {
      assert forall d, x :: Part(g, id, visited + [d0], x, d) == Part(g, id, visited, x, d);
    } else {
      hide Part, Listed, Dependants;
      var rev' := rev[d0 := Dependants(rev, d0) + [id]];
      forall d, x
        ensures multiset(Dependants(rev', d))[x] == Listed(g, xs, x, d) + Part(g, id, visited + [d0], x, d)
      {
        PushDependant(g, rev, id, visited, d0, d, x);
      }
    }
  }

  lemma ReversedNext(g: Graph, rev: map<Id, seq<Id>>, xs: seq<Id>, id: Id, next: Id)
    requires id !in xs && Reversed(g, rev, xs, id, Requires(g, id))
    ensures Reversed(g, rev, xs + [id], next, [])
  {
    forall d, x
      ensures multiset(Dependants(rev, d))[x] == Listed(g, xs + [id], x, d) + Part(g, next, [], x, d)
    {
    }
  }

  /** One entry in the reverse adjacency per requirement of `id` that is not refused. */
  method PushRequirements(g: Graph, rev0: map<Id, seq<Id>>, ghost xs: seq<Id>, id: Id) returns (rev: map<Id, seq<Id>>)
    requires Reversed(g, rev0, xs, id, [])
    ensures Reversed(g, rev, xs, id, Requires(g, id))
  {
    hide Reversed;
    var req := Requires(g, id);
    rev := rev0;
    for j := 0 to |req|
      invariant Reversed(g, rev, xs, id, req[..j])
    {
      ReversedStep(g, rev, xs, id, req[..j], req[j]);
      assert req[..j + 1] == req[..j] + [req[j]];
      if req[j] !in g.refused {
        rev := rev[req[j] := Dependants(rev, req[j]) + [id]];
      }
    }
    assert req[..|req|] == req;
  }

  lemma ReversedNone(g: Graph, rev: map<Id, seq<Id>>, xs: seq<Id>, id: Id, other: Id)
    requires Reversed(g, rev, xs, id, [])
    ensures Reversed(g, rev, xs, other, [])
    ensures forall d, x :: multiset(Dependants(rev, d))[x] == Listed(g, xs, x, d)
  {
    forall d, x ensures multiset(Dependants(rev, d))[x] == Listed(g, xs, x, d)
                ensures Part(g, other, [], x, d) == 0
    {
      assert Part(g, id, [], x, d) == 0;
    }
  }

  /** Reverse adjacency: each dependency maps to its dependants, one entry per listing. */
  method Reverse(g: Graph, active: seq<Id>) returns (rev: map<Id, seq<Id>>)
    requires Distinct(active)
    ensures forall d, x :: multiset(Dependants(rev, d))[x] == Listed(g, active, x, d)
  {
    rev := map[];
    assert Reversed(g, rev, active[..0], "", []);
    hide Reversed;
    for i := 0 to |active|
      invariant Reversed(g, rev, active[..i], "", [])
    {
      ReversedNone(g, rev, active[..i], "", active[i]);
      rev := PushRequirements(g, rev, active[..i], active[i]);
      ReversedNext(g, rev, active[..i], active[i], "");
      assert active[..i + 1] == active[..i] + [active[i]];
    }
    assert active[..|active|] == active;
    ReversedNone(g, rev, active, "", "");
  }

  /** State of the queue loop. `rest` are dependants of the last ordered plugin that the
      inner loop has still to visit. */
  ghost predicate Progress(g: Graph, active: seq<Id>, deg: map<Id, nat>, order: seq<Id>, queue: seq<Id>, rest: seq<Id>) {
    && Distinct(order + queue)
    && (forall x :: x in order + queue ==> x in active)
    && deg.Keys == Elems(active)
    && (forall x :: x in active ==> deg[x] == Open(Requires(g, x), g.refused + Elems(order)) + multiset(rest)[x])
    && (forall x :: x in active ==> (x in order + queue <==> deg[x] == 0))
    && DependenciesEarlier(g, order)
  }

  /** Visiting one dependant: its in-degree drops by one and it joins the queue at zero. */
  lemma Visited(g: Graph, active: seq<Id>, deg: map<Id, nat>, order: seq<Id>, queue: seq<Id>, dep: Id, rest: seq<Id>)
    requires dep in active && Progress(g, active, deg, order, queue, [dep] + rest)
    ensures deg[dep] > 0
    ensures var deg' := deg[dep := deg[dep] - 1];
            Progress(g, active, deg', order, if deg'[dep] == 0 then queue + [dep] else queue, rest)
  {
    hide DependenciesEarlier, Open, Requires;
    assert multiset([dep] + rest) == multiset{dep} + multiset(rest);
    assert deg[dep] > 0;
    assert dep !in order + queue;
    assert order + (queue + [dep]) == (order + queue) + [dep];
  }

  /** Inner loop: visit the dependants of the plugin just ordered. */
  method Relax(g: Graph, active: seq<Id>, deg0: map<Id, nat>, order: seq<Id>, queue0: seq<Id>, dependants: seq<Id>)
    returns (deg: map<Id, nat>, queue: seq<Id>)
    requires Progress(g, active, deg0, order, queue0, dependants)
    requires forall x :: x in dependants ==> x in active
    ensures Progress(g, active, deg, order, queue, [])
  {
    deg, queue := deg0, queue0;
    for k := 0 to |dependants|
      invariant Progress(g, active, deg, order, queue, dependants[k..])
    {
      hide DependenciesEarlier, Open, Distinct;
      var dep := dependants[k];
      assert dependants[k..] == [dep] + dependants[k + 1..];
      Visited(g, active, deg, order, queue, dep, dependants[k + 1..]);
      if deg[dep] > 0 {
        deg := deg[dep := deg[dep] - 1];
      }
      if deg[dep] == 0 {
        queue := queue + [dep];
      }
    }
    assert dependants[|dependants|..] == [];
  }

  lemma FrontIsNew(order: seq<Id>, queue: seq<Id>)
    requires queue != [] && Distinct(order + queue)
    ensures queue[0] !in order && order + [queue[0]] + queue[1..] == order + queue
  {
    assert (order + queue)[|order|] == queue[0];
    assert forall i :: 0 <= i < |order| ==> (order + queue)[i] == order[i];
  }

  /** Appending `id` to the order closes one requirement per listing of `id`. */
  lemma PoppedDegree(g: Graph, x: Id, order: seq<Id>, id: Id)
    requires id !in order && id !in g.refused
    ensures Open(Requires(g, x), g.refused + Elems(order))
         == Open(Requires(g, x), g.refused + Elems(order + [id])) + multiset(Requires(g, x))[id]
  {
    OpenLess(Requires(g, x), g.refused + Elems(order), id);
    assert g.refused + Elems(order) + {id} == g.refused + Elems(order + [id]);
  }

  lemma PoppedOrder(g: Graph, order: seq<Id>, id: Id)
    requires DependenciesEarlier(g, order)
    requires Open(Requires(g, id), g.refused + Elems(order)) == 0
    ensures DependenciesEarlier(g, order + [id])
  {
    var order' := order + [id];
    forall k, d | 0 <= k < |order'| && DependsOn(g, order'[k], d) ensures d in order'[..k] {
      if k < |order| {
        assert order'[..k] == order[..k];
      } else {
        OpenZero(Requires(g, id), g.refused + Elems(order));
        assert order'[..k] == order;
      }
    }
  }

  /** Popping the front of the queue and appending it to the order. */
  lemma Popped(g: Graph, active: seq<Id>, deg: map<Id, nat>, order: seq<Id>, queue: seq<Id>, dependants: seq<Id>)
    requires active == Active(g) && queue != []
    requires Progress(g, active, deg, order, queue, [])
    requires forall x :: multiset(dependants)[x] == Listed(g, active, x, queue[0])
    ensures Progress(g, active, deg, order + [queue[0]], queue[1..], dependants)
  {
    var id := queue[0];
    FrontIsNew(order, queue);
    assert id in order + queue;
    PoppedOrder(g, order, id);
    hide DependenciesEarlier, Open, Distinct, Active, DependsOn;
    forall x | x in active
      ensures deg[x] == Open(Requires(g, x), g.refused + Elems(order + [id])) + multiset(dependants)[x]
    {
      PoppedDegree(g, x, order, id);
    }
  }

  /** The first queue: the active plugins without open requirements. */
  function Ready(active: seq<Id>, deg: map<Id, nat>): (queue: seq<Id>)
    requires forall x :: x in active ==> x in deg
    ensures forall x :: x in queue <==> x in active && deg[x] == 0
    ensures Distinct(active) ==> Distinct(queue)
  {
    if active == [] then []
    else
      assert active[0] in active;
      assert forall x :: x in active[1..] ==> x in active;
      (if deg[active[0]] == 0 then [active[0]] else []) + Ready(active[1..], deg)
  }

  /** When the queue is empty, what is not ordered waits for something not ordered. */
  lemma LeftoversWait(g: Graph, active: seq<Id>, deg: map<Id, nat>, order: seq<Id>)
    requires active == Active(g) && Progress(g, active, deg, order, [], [])
    ensures AllWait(g, Elems(active) - Elems(order))
  {
    var stuck := Elems(active) - Elems(order);
    forall x | x in stuck
      ensures exists d :: DependsOn(g, x, d) && (d in stuck || d !in active)
    {
      assert x !in order + [];
      OpenZero(Requires(g, x), g.refused + Elems(order));
      var d :| d in Requires(g, x) && d !in g.refused + Elems(order);
      assert DependsOn(g, x, d);
    }
  }

  /** The ordered plugins are exactly the ones not blocked. */
  lemma LeftoversAreBlocked(g: Graph, active: seq<Id>, deg: map<Id, nat>, order: seq<Id>)
    requires active == Active(g) && Progress(g, active, deg, order, [], [])
    ensures forall x :: x in active ==> (x in order <==> !Blocked(g, x))
  {
    assert order + [] == order;
    LeftoversWait(g, active, deg, order);
    forall x | x in active ensures x in order <==> !Blocked(g, x) {
      if x in order {
        OrderedNotBlocked(g, order, x);
      } else {
        FollowWaits(g, Elems(active) - Elems(order), [x]);
      }
    }
  }

  lemma SameSplit(s: seq<Id>, a: set<Id>, b: set<Id>)
    requires forall x :: x in s ==> (x in a <==> x in b)
    ensures Without(s, a) == Without(s, b)
  {
  }

  /** What each outcome of the sort promises. */
  ghost predicate Exact(g: Graph, r: Verdict) {
    match r
    case Ordered(order) =>
      && (forall x :: x in Active(g) ==> !Blocked(g, x))
      && Distinct(order) && Elems(order) == Elems(Active(g)) && |order| == |Active(g)|
      && DependenciesEarlier(g, order)
    case Cyclic(ids) =>
      && (exists x :: x in Active(g) && Blocked(g, x))
      && ids == Without(Active(g), Elems(Active(g)) - BlockedSet(g))
  }

  /** The queue loop of `topo_sort`. */
  method Drain(g: Graph, active: seq<Id>, deg0: map<Id, nat>, rev: map<Id, seq<Id>>, queue0: seq<Id>)
    returns (order: seq<Id>, ghost deg: map<Id, nat>)
    requires active == Active(g) && Distinct(active)
    requires forall d, x :: multiset(Dependants(rev, d))[x] == Listed(g, active, x, d)
    requires Progress(g, active, deg0, [], queue0, [])
    ensures Progress(g, active, deg, order, [], [])
  {
    hide Progress;
    var inDegree, queue := deg0, queue0;
    order := [];
    while queue != []
      invariant Progress(g, active, inDegree, order, queue, [])
      decreases |active| - |order|
    {
      var id := queue[0];
      var dependants := Dependants(rev, id);
      Popped(g, active, inDegree, order, queue, dependants);
      Bounded(g, active, inDegree, order, queue);
      forall x | x in dependants ensures x in active { assert multiset(dependants)[x] > 0; }
      order, queue := order + [id], queue[1..];
      inDegree, queue := Relax(g, active, inDegree, order, queue, dependants);
    }
    deg := inDegree;
  }

  /** `topo_sort`. Without a blocked plugin the answer is a permutation of the active plugins
      with every dependency strictly earlier; otherwise it is the blocked plugins, in
      config order. */
  method TopoSort(g: Graph) returns (r: Verdict)
    requires Distinct(g.ids)
    ensures Exact(g, r)
  {
    var active := Active(g);
    WithoutDistinct(g.ids, g.refused);
    var inDegree := InDegrees(g, active);
    var rev := Reverse(g, active);
    var queue := Ready(active, inDegree);
    Initially(g, active, inDegree, queue);
    hide *;
    var order, deg := Drain(g, active, inDegree, rev, queue);
    Outcome(g, active, deg, order);
    if |order| < |active| {
      r := Cyclic(Without(active, Elems(order)));
    } else {
      r := Ordered(order);
    }
  }

  lemma Outcome(g: Graph, active: seq<Id>, deg: map<Id, nat>, order: seq<Id>)
    requires active == Active(g) && Distinct(active) && Progress(g, active, deg, order, [], [])
    ensures Exact(g, if |order| < |active| then Cyclic(Without(active, Elems(order))) else Ordered(order))
  {
    hide Progress, Blocked, DependenciesEarlier, Active, Without, Distinct;
    LeftoversAreBlocked(g, active, deg, order);
    Finally(g, active, deg, order);
    if |order| < |active| {
      var rest := Without(active, Elems(order));
      assert rest[0] in rest;
      assert rest == Without(active, Elems(active) - BlockedSet(g)) by {
        SameSplit(active, Elems(order), Elems(active) - BlockedSet(g));
      }
    } else {
      forall x | x in active ensures !Blocked(g, x) {
        assert x in Elems(order);
      }
    }
  }

  lemma Initially(g: Graph, active: seq<Id>, deg: map<Id, nat>, queue: seq<Id>)
    requires Distinct(active) && deg.Keys == Elems(active) && queue == Ready(active, deg)
    requires forall x :: x in active ==> deg[x] == Open(Requires(g, x), g.refused)
    ensures Progress(g, active, deg, [], queue, [])
  {
    assert g.refused + Elems([]) == g.refused;
    assert [] + queue == queue;
  }

  lemma Finally(g: Graph, active: seq<Id>, deg: map<Id, nat>, order: seq<Id>)
    requires Distinct(active) && Progress(g, active, deg, order, [], [])
    ensures Distinct(order) && DependenciesEarlier(g, order)
    ensures |order| <= |active|
    ensures |order| == |active| ==> Elems(order) == Elems(active)
    ensures |order| < |active| ==> Without(active, Elems(order)) != []
  {
    assert order + [] == order;
    DrawnFrom(order, active);
    if |order| < |active| {
      NotAll(active, order);
    }
  }

  lemma Bounded(g: Graph, active: seq<Id>, deg: map<Id, nat>, order: seq<Id>, queue: seq<Id>)
    requires Distinct(active) && queue != [] && Progress(g, active, deg, order, queue, [])
    ensures |order| < |active|
  {
    DrawnFrom(order + queue, active);
  }

  lemma NotAll(active: seq<Id>, order: seq<Id>)
    requires Distinct(active) && Distinct(order) && |order| < |active|
    ensures Without(active, Elems(order)) != []
  {
    if Without(active, Elems(order)) == [] {
      assert forall x :: x in active ==> x in order;
      DrawnFrom(active, order);
    }
  }
}

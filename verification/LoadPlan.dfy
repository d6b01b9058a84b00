/** Which configured plugins are started, and in what order: the refusal, cycle and fallback
    logic of `load_all` in `src/plugins/loader.rs`. */
module LoadPlan {
  import opened Collections
  import opened DependencyOrder

  /** Outcome of the manifest checks: refused, or accepted with the `requires` list (empty
      when the plugin ships no manifest). */
  datatype Check = Refused | Accepted(needs: seq<Id>)

  datatype Def = Def(id: Id, check: Check)

  function Ids(defs: seq<Def>): seq<Id> {
    seq(|defs|, i requires 0 <= i < |defs| => defs[i].id)
  }

  /** The manifest checks passed and every requirement is configured. */
  predicate Loadable(ids: set<Id>, d: Def) {
    d.check.Accepted? && Elems(d.check.needs) <= ids
  }

  /** Entry `i` of the configuration, as the graph must see it. */
  ghost predicate EntryIs(g: Graph, ids: set<Id>, d: Def) {
    && (d.id in g.refused <==> !Loadable(ids, d))
    && (d.id in g.deps <==> Loadable(ids, d))
    && (d.id in g.deps ==> g.deps[d.id] == d.check.needs)
  }

  /** `g` is the dependency graph of the configuration: a plugin is refused exactly when its
      manifest fails or names a requirement that is not configured, and the others carry
      their requirements as declared. */
  ghost predicate GraphOf(g: Graph, defs: seq<Def>) {
    && g.ids == Ids(defs)
    && (forall i :: 0 <= i < |defs| ==> EntryIs(g, Elems(g.ids), defs[i]))
    && g.refused <= Elems(g.ids)
    && g.deps.Keys <= Elems(g.ids)
  }

  /** What `load_all` arranges for the sort: a requirement is refused or active. */
  lemma GraphIsClosed(g: Graph, defs: seq<Def>)
    requires GraphOf(g, defs)
    ensures ClosedGraph(g)
  {
    forall x, d | DependsOn(g, x, d) ensures d in Active(g) {
      var i :| 0 <= i < |defs| && g.ids[i] == x;
      assert EntryIs(g, Elems(g.ids), defs[i]);
      assert d in Elems(defs[i].check.needs);
    }
  }

  /** First pass: the plugins whose manifest checks fail. */
  method ManifestRefusals(defs: seq<Def>) returns (refused: set<Id>)
    ensures forall i :: 0 <= i < |defs| && defs[i].check.Refused? ==> defs[i].id in refused
    ensures forall x :: x in refused ==> exists i :: 0 <= i < |defs| && defs[i].check.Refused? && defs[i].id == x
  {
    refused := {};
    for n := 0 to |defs|
      invariant forall i :: 0 <= i < n && defs[i].check.Refused? ==> defs[i].id in refused
      invariant forall x :: x in refused ==> exists i :: 0 <= i < n && defs[i].check.Refused? && defs[i].id == x
    {
      if defs[n].check.Refused? {
        refused := refused + {defs[n].id};
      }
    }
  }

  method AllConfigured(needs: seq<Id>, ids: set<Id>) returns (ok: bool)
    ensures ok <==> Elems(needs) <= ids
  {
    for j := 0 to |needs|
      invariant Elems(needs[..j]) <= ids
    {
      if needs[j] !in ids {
        assert needs[j] in Elems(needs);
        return false;
      }
      assert needs[..j + 1] == needs[..j] + [needs[j]];
    }
    assert needs[..|needs|] == needs;
    return true;
  }

  /** The two validation loops: collect refusals and the dependency lists. */
  method Resolve(defs: seq<Def>) returns (g: Graph)
    requires Distinct(Ids(defs))
    ensures GraphOf(g, defs)
  {
    var all := Ids(defs);
    var ids := Elems(all);
    var refused := ManifestRefusals(defs);
    assert forall i, k :: 0 <= i < |defs| && 0 <= k < |defs| && i != k ==> all[i] != all[k];
    forall x | x in refused ensures x in ids {
      var i :| 0 <= i < |defs| && defs[i].check.Refused? && defs[i].id == x;
      assert all[i] == x;
    }
    forall i | 0 <= i < |defs| && all[i] in refused ensures defs[i].check.Refused? {
      var k :| 0 <= k < |defs| && defs[k].check.Refused? && defs[k].id == all[i];
      assert all[k] == all[i];
    }
    g := Graph(all, map[], refused);
    for n := 0 to |defs|
      invariant g.ids == all && g.refused <= ids && g.deps.Keys <= ids
      invariant forall i :: 0 <= i < n ==> EntryIs(g, ids, defs[i])
      invariant forall i :: n <= i < |defs| ==> (all[i] in g.refused <==> defs[i].check.Refused?) && all[i] !in g.deps
    {
      if all[n] !in g.refused {
        var ok := AllConfigured(defs[n].check.needs, ids);
        if ok {
          g := g.(deps := g.deps[all[n] := defs[n].check.needs]);
        } else {
          g := g.(refused := g.refused + {all[n]});
        }
      }
    }
  }

  /** What is started, given the sort's verdict. */
  ghost predicate StartsExactly(g: Graph, started: seq<Id>) {
    && Distinct(started)
    && (forall x :: x in started <==> x in Active(g) && !ReachesCycle(g, x))
    && (forall x, d :: x in started && DependsOn(g, x, d) ==> d in started)
    && ((forall x :: x in Active(g) ==> !ReachesCycle(g, x)) ==> DependenciesEarlier(g, started))
    && ((exists x :: x in Active(g) && ReachesCycle(g, x)) ==> exists out :: started == Without(g.ids, out))
  }

  /** The plugins `load_all` starts, in start order: exactly the loadable ones from which no
      dependency walk reaches a cycle. The set is closed under dependencies that were not
      refused; without a cycle dependencies start first, after one the config order is kept. */
  method Plan(defs: seq<Def>) returns (started: seq<Id>, g: Graph)
    requires Distinct(Ids(defs))
    ensures GraphOf(g, defs) && StartsExactly(g, started)
  {
    g := Resolve(defs);
    var verdict := TopoSort(g);
    GraphIsClosed(g, defs);
    assert g.ids == Ids(defs);
    hide *;
    match verdict
    case Ordered(order) =>
      started := order;
      AfterOrder(g, order);
    case Cyclic(cycle) =>
      started := Without(g.ids, g.refused + Elems(cycle));
      AfterCycle(g, cycle);
  }

  /** Dependencies of a plugin that reaches no cycle reach none either. */
  lemma StartedAreClosed(g: Graph, started: seq<Id>)
    requires ClosedGraph(g)
    requires forall x :: x in started <==> x in Active(g) && !ReachesCycle(g, x)
    ensures forall x, d :: x in started && DependsOn(g, x, d) ==> d in started
  {
    forall x, d | x in started && DependsOn(g, x, d) ensures d in started {
      StepBlocked(g, x, d);
    }
  }

  lemma AfterOrder(g: Graph, order: seq<Id>)
    requires ClosedGraph(g) && Exact(g, Ordered(order))
    ensures StartsExactly(g, order)
  {
    hide ReachesCycle, ReachesMissing, DependenciesEarlier, ClosedGraph, Active, Distinct;
    forall x ensures x in order <==> x in Active(g) && !ReachesCycle(g, x) {
      assert x in order <==> x in Elems(order);
    }
    StartedAreClosed(g, order);
  }

  lemma AfterCycle(g: Graph, cycle: seq<Id>)
    requires ClosedGraph(g) && Distinct(g.ids) && Exact(g, Cyclic(cycle))
    ensures StartsExactly(g, Without(g.ids, g.refused + Elems(cycle)))
  {
    var started := Without(g.ids, g.refused + Elems(cycle));
    WithoutDistinct(g.ids, g.refused + Elems(cycle));
    hide ReachesCycle, ReachesMissing, DependenciesEarlier, ClosedGraph, Distinct;
    forall x | x in Active(g) ensures Blocked(g, x) <==> ReachesCycle(g, x) {
      ClosedGraphBlocksByCycles(g, x);
    }
    StartedAreClosed(g, started);
  }
}

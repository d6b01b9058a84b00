/** Subscriptions of the event bus, `src/events/bus.rs`: the index by event type, its inverse by
    plugin, and the fan-out of one event. */
module EventBus {

  type Plugin = string
  type Kind = string

  const WILDCARD: Kind := "*"

  // ---------------------------------------------------------------------------
  // Reference: the last operation that names a pair decides
  // ---------------------------------------------------------------------------

  datatype Op =
    | Subscribe(plugin: Plugin, kinds: seq<Kind>)
    | Unsubscribe(plugin: Plugin, kinds: seq<Kind>)
    | UnsubscribeAll(plugin: Plugin)

  predicate Names(op: Op, plugin: Plugin, kind: Kind) {
    op.plugin == plugin && (op.UnsubscribeAll? || kind in op.kinds)
  }

  predicate Subscribed(ops: seq<Op>, plugin: Plugin, kind: Kind) {
    ops != [] &&
    var op := ops[|ops| - 1];
    if Names(op, plugin, kind) then op.Subscribe? else Subscribed(ops[..|ops| - 1], plugin, kind)
  }

  // ---------------------------------------------------------------------------
  // An index: a set of values for each key
  // ---------------------------------------------------------------------------

  type Index = map<string, set<string>>

  predicate Has(index: Index, key: string, value: string) {
    key in index && value in index[key]
  }

  /** Each index is the other one turned around. */
  ghost predicate Inverse(byKind: Index, byPlugin: Index) {
    forall kind, plugin :: Has(byKind, kind, plugin) <==> Has(byPlugin, plugin, kind)
  }

  function Extend(index: Index, key: string, values: set<string>): Index {
    index[key := (if key in index then index[key] else {}) + values]
  }

  function Shrink(index: Index, key: string, values: set<string>): Index {
    if key in index then index[key := index[key] - values] else index
  }

  class Bus {
    var subscriptions: Index
    var byPlugin: Index

    ghost predicate Valid()
      reads this
    {
      Inverse(subscriptions, byPlugin)
    }

    constructor ()
      ensures Valid()
      ensures forall kind, plugin :: !Has(subscriptions, kind, plugin)
    {
      subscriptions, byPlugin := map[], map[];
    }

    method Subscribe(plugin: Plugin, kinds: seq<Kind>)
      requires Valid()
      modifies this
      ensures Valid()
      ensures forall k, p ::
        Has(subscriptions, k, p) <==> Has(old(subscriptions), k, p) || (p == plugin && k in kinds)
    {
      for i := 0 to |kinds|
        invariant byPlugin == old(byPlugin)
        invariant forall k, p ::
          Has(subscriptions, k, p) <==> Has(old(subscriptions), k, p) || (p == plugin && k in kinds[..i])
      {
        subscriptions := Extend(subscriptions, kinds[i], {plugin});
        assert kinds[..i + 1] == kinds[..i] + [kinds[i]];
      }
      assert kinds[..|kinds|] == kinds;
      byPlugin := Extend(byPlugin, plugin, set k | k in kinds);
    }

    method Unsubscribe(plugin: Plugin, kinds: seq<Kind>)
      requires Valid()
      modifies this
      ensures Valid()
      ensures forall k, p ::
        Has(subscriptions, k, p) <==> Has(old(subscriptions), k, p) && !(p == plugin && k in kinds)
    {
      for i := 0 to |kinds|
        invariant byPlugin == old(byPlugin)
        invariant forall k, p ::
          Has(subscriptions, k, p) <==> Has(old(subscriptions), k, p) && !(p == plugin && k in kinds[..i])
      {
        subscriptions := Shrink(subscriptions, kinds[i], {plugin});
        assert kinds[..i + 1] == kinds[..i] + [kinds[i]];
      }
      assert kinds[..|kinds|] == kinds;
      byPlugin := Shrink(byPlugin, plugin, set k | k in kinds);
    }

    /** Only the kinds the inverse index lists are visited; no pair of the plugin is left. */
    method UnsubscribeAll(plugin: Plugin)
      requires Valid()
      modifies this
      ensures Valid()
      ensures forall k, p :: Has(subscriptions, k, p) <==> Has(old(subscriptions), k, p) && p != plugin
    {
      if plugin in byPlugin {
        var kinds := byPlugin[plugin];
        byPlugin := byPlugin - {plugin};
        ghost var done: set<Kind> := {};
        while kinds != {}
          invariant byPlugin == old(byPlugin) - {plugin}
          invariant done + kinds == old(byPlugin)[plugin]
          invariant forall k, p ::
            Has(subscriptions, k, p) <==> Has(old(subscriptions), k, p) && !(p == plugin && k in done)
          decreases kinds
        {
          var kind :| kind in kinds;
          kinds, done := kinds - {kind}, done + {kind};
          subscriptions := Shrink(subscriptions, kind, {plugin});
        }
        assert forall k :: Has(old(subscriptions), k, plugin) ==> Has(old(byPlugin), plugin, k);
      }
    }

    method Subscribers(kind: Kind) returns (plugins: set<Plugin>)
      ensures forall p :: p in plugins <==> Has(subscriptions, kind, p)
    {
      plugins := if kind in subscriptions then subscriptions[kind] else {};
    }

    /** One frame is attempted for each registered plugin that subscribed to the kind or to
        everything, and for nobody else; `dropped` are the subscribers that are not registered. */
    method Deliver(kind: Kind, registered: set<Plugin>) returns (attempts: seq<Plugin>, dropped: set<Plugin>)
      ensures forall i, j :: 0 <= i < j < |attempts| ==> attempts[i] != attempts[j]
      ensures forall p ::
        p in attempts <==> p in registered && (Has(subscriptions, kind, p) || Has(subscriptions, WILDCARD, p))
      ensures forall p ::
        p in dropped <==> p !in registered && (Has(subscriptions, kind, p) || Has(subscriptions, WILDCARD, p))
    {
      var exact := Subscribers(kind);
      var wild := Subscribers(WILDCARD);
      var targets := exact + wild;
      attempts, dropped := [], {};
      var rest := targets;
      while rest != {}
        invariant rest <= targets
        invariant forall i, j :: 0 <= i < j < |attempts| ==> attempts[i] != attempts[j]
        invariant forall p :: p in attempts <==> p in targets - rest && p in registered
        invariant forall p :: p in dropped <==> p in targets - rest && p !in registered
        decreases rest
      {
        var p :| p in rest;
        rest := rest - {p};
        if p in registered {
          attempts := attempts + [p];
        } else {
          dropped := dropped + {p};
        }
      }
    }

    /** Any history of operations leaves the bus with the subscriptions of the reference. */
    method Replay(ops: seq<Op>)
      requires Valid() && forall kind, plugin :: !Has(subscriptions, kind, plugin)
      modifies this
      ensures Valid()
      ensures forall k, p :: Has(subscriptions, k, p) <==> Subscribed(ops, p, k)
    {
      for i := 0 to |ops|
        invariant Valid()
        invariant forall k, p :: Has(subscriptions, k, p) <==> Subscribed(ops[..i], p, k)
      {
        ghost var before := subscriptions;
        match ops[i] {
          case Subscribe(plugin, kinds) => Subscribe(plugin, kinds);
          case Unsubscribe(plugin, kinds) => Unsubscribe(plugin, kinds);
          case UnsubscribeAll(plugin) => UnsubscribeAll(plugin);
        }
        assert ops[..i + 1][..i] == ops[..i];
      }
      assert ops[..|ops|] == ops;
    }
  }
}

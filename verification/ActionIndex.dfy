/** The action index of the registry: unambiguous actions in one map, colliding ones in
    another, maintained on registration and removal, and equal to a scan of all manifests. */
module ActionIndex {
  import opened Collections
  import opened RegistryModel

  /** `single` holds the one declarer of an action, `many` two or more. */
  datatype Index = Index(single: map<Action, Plugin>, many: map<Action, seq<Plugin>>)

  /** `index_action`. */
  function Add(ix: Index, a: Action, id: Plugin): Index {
    if a in ix.many then
      if id in ix.many[a] then ix else ix.(many := ix.many[a := ix.many[a] + [id]])
    else if a in ix.single then
      if ix.single[a] == id then ix
      else Index(ix.single - {a}, ix.many[a := [ix.single[a], id]])
    else ix.(single := ix.single[a := id])
  }

  /** `unindex_action`. */
  function Drop(ix: Index, a: Action, id: Plugin): Index {
    var left := if a in ix.many then Without(ix.many[a], {id}) else [];
    if a in ix.many && |left| == 1 then Index(ix.single[a := left[0]], ix.many - {a})
    else
      var ix' := if a in ix.many then ix.(many := ix.many[a := left]) else ix;
      if a in ix'.single && ix'.single[a] == id then ix'.(single := ix'.single - {a}) else ix'
  }

  function AddAll(ix: Index, actions: seq<Action>, id: Plugin): Index {
    if actions == [] then ix else Add(AddAll(ix, actions[..|actions| - 1], id), actions[|actions| - 1], id)
  }

  function DropAll(ix: Index, actions: seq<Action>, id: Plugin): Index {
    if actions == [] then ix else Drop(DropAll(ix, actions[..|actions| - 1], id), actions[|actions| - 1], id)
  }

  /** The index answers for `a` what the declarer set `ds` demands. */
  ghost predicate AgreesAt(ix: Index, a: Action, ds: set<Plugin>) {
    if a in ix.many then a !in ix.single && |ix.many[a]| >= 2 && Distinct(ix.many[a]) && Elems(ix.many[a]) == ds
    else if a in ix.single then ds == {ix.single[a]}
    else ds == {}
  }

  ghost predicate Agrees(ix: Index, m: Model) {
    forall a :: AgreesAt(ix, a, Declarers(m, a))
  }

  lemma WithoutIs(s: seq<Plugin>, id: Plugin)
    requires Distinct(s)
    ensures Distinct(Without(s, {id})) && Elems(Without(s, {id})) == Elems(s) - {id}
    ensures |Without(s, {id})| == |s| - (if id in s then 1 else 0)
  {
    WithoutDistinct(s, {id});
    DistinctSize(s);
    DistinctSize(Without(s, {id}));
    assert Elems(Without(s, {id})) == Elems(s) - {id};
  }

  lemma AddAgrees(ix: Index, a: Action, id: Plugin, b: Action, ds: set<Plugin>)
    requires AgreesAt(ix, b, ds)
    ensures AgreesAt(Add(ix, a, id), b, if a == b then ds + {id} else ds)
  {
    if a == b && a in ix.many && id !in ix.many[a] {
      assert Elems(ix.many[a] + [id]) == Elems(ix.many[a]) + {id};
    }
  }

  lemma DropAgrees(ix: Index, a: Action, id: Plugin, b: Action, ds: set<Plugin>)
    requires AgreesAt(ix, b, ds)
    ensures AgreesAt(Drop(ix, a, id), b, if a == b then ds - {id} else ds)
  {
    if a == b && a in ix.many {
      WithoutIs(ix.many[a], id);
      var left := Without(ix.many[a], {id});
      if |left| == 1 {
        assert Elems(left) == {left[0]};
      }
    }
  }

  lemma {:induction false} AddAllAgrees(ix: Index, actions: seq<Action>, id: Plugin, b: Action, ds: set<Plugin>)
    requires AgreesAt(ix, b, ds)
    ensures AgreesAt(AddAll(ix, actions, id), b, if b in actions then ds + {id} else ds)
  {
    if actions != [] {
      var front, a := actions[..|actions| - 1], actions[|actions| - 1];
      assert actions == front + [a];
      AddAllAgrees(ix, front, id, b, ds);
      AddAgrees(AddAll(ix, front, id), a, id, b, if b in front then ds + {id} else ds);
    }
  }

  lemma {:induction false} DropAllAgrees(ix: Index, actions: seq<Action>, id: Plugin, b: Action, ds: set<Plugin>)
    requires AgreesAt(ix, b, ds)
    ensures AgreesAt(DropAll(ix, actions, id), b, if b in actions then ds - {id} else ds)
  {
    if actions != [] {
      var front, a := actions[..|actions| - 1], actions[|actions| - 1];
      assert actions == front + [a];
      DropAllAgrees(ix, front, id, b, ds);
      DropAgrees(DropAll(ix, front, id), a, id, b, if b in front then ds - {id} else ds);
    }
  }

  // ---------------------------------------------------------------------------
  // The index along a sequence of registry calls
  // ---------------------------------------------------------------------------

  function ApplyIndex(ix: Index, m: Model, op: Op): Index {
    match op
    case Register(id, conn, _, _, _) =>
      if Judge(m, id, conn) == Ok then AddAll(ix, EntryFor(op).actions, id) else ix
    case RegisterDevice(id, conn, _, _, _) =>
      if Judge(m, id, conn) == Ok then AddAll(ix, EntryFor(op).actions, id) else ix
    case Unregister(id) => if id in m.plugins then DropAll(ix, m.plugins[id].actions, id) else ix
    case RecordPong(_, _) => ix
  }

  lemma RegisterAgrees(ix: Index, m: Model, id: Plugin, entry: Entry, device: Device)
    requires Agrees(ix, m) && id !in m.plugins
    ensures Agrees(AddAll(ix, entry.actions, id), Admit(m, id, entry, device))
  {
    var t := Admit(m, id, entry, device);
    forall b ensures AgreesAt(AddAll(ix, entry.actions, id), b, Declarers(t, b)) {
      AddAllAgrees(ix, entry.actions, id, b, Declarers(m, b));
      assert Declarers(t, b) == if b in entry.actions then Declarers(m, b) + {id} else Declarers(m, b);
    }
  }

  lemma UnregisterAgrees(ix: Index, m: Model, id: Plugin)
    requires Agrees(ix, m) && id in m.plugins
    ensures Agrees(DropAll(ix, m.plugins[id].actions, id), Remove(m, id))
  {
    var t := Remove(m, id);
    assert t.plugins == m.plugins - {id};
    forall b ensures AgreesAt(DropAll(ix, m.plugins[id].actions, id), b, Declarers(t, b)) {
      DropAllAgrees(ix, m.plugins[id].actions, id, b, Declarers(m, b));
      assert Declarers(t, b) == if b in m.plugins[id].actions then Declarers(m, b) - {id} else Declarers(m, b);
    }
  }

  lemma ApplyAgrees(ix: Index, m: Model, op: Op)
    requires Agrees(ix, m)
    ensures Agrees(ApplyIndex(ix, m, op), Apply(m, op))
  {
    match op
    case Register(id, conn, _, _, _) =>
      if Judge(m, id, conn) == Ok { RegisterAgrees(ix, m, id, EntryFor(op), DeviceFor(op)); }
    case RegisterDevice(id, conn, _, _, _) =>
      if Judge(m, id, conn) == Ok { RegisterAgrees(ix, m, id, EntryFor(op), DeviceFor(op)); }
    case Unregister(id) => if id in m.plugins { UnregisterAgrees(ix, m, id); }
    case RecordPong(id, now) =>
      assert forall b :: Declarers(Pong(m, id, now), b) == Declarers(m, b);
  }

  function RunIndex(ops: seq<Op>): Index {
    if ops == [] then Index(map[], map[])
    else
      var before := ops[..|ops| - 1];
      ApplyIndex(RunIndex(before), Run(before), ops[|ops| - 1])
  }

  // ---------------------------------------------------------------------------
  // Lookup
  // ---------------------------------------------------------------------------

  datatype Lookup = NotFound | Found(provider: Plugin) | Ambiguous(ids: seq<Plugin>)

  /** `find_action_provider`. */
  function Find(ix: Index, m: Model, a: Action): Lookup {
    if a in ix.many then Ambiguous(ix.many[a])
    else if a in ix.single && ix.single[a] in m.plugins then Found(ix.single[a])
    else NotFound
  }

  /** What a scan of all manifests would answer. */
  ghost predicate ScanAnswers(m: Model, a: Action, r: Lookup) {
    var ds := Declarers(m, a);
    && (r.NotFound? <==> |ds| == 0)
    && (r.Found? <==> |ds| == 1)
    && (r.Ambiguous? <==> |ds| >= 2)
    && (r.Found? ==> ds == {r.provider})
    && (r.Ambiguous? ==> Distinct(r.ids) && Elems(r.ids) == ds)
  }

  lemma FindIsScan(ix: Index, m: Model, a: Action)
    requires Agrees(ix, m)
    ensures ScanAnswers(m, a, Find(ix, m, a))
  {
    assert AgreesAt(ix, a, Declarers(m, a));
    if a in ix.many {
      DistinctSize(ix.many[a]);
    } else if a in ix.single {
      assert ix.single[a] in Declarers(m, a);
    }
  }

  /** After any sequence of registrations and removals, the lookup equals the scan: nothing
      for no declarer, the declarer for one, the duplicate-free set of them for more. */
  lemma {:induction false} LookupEqualsScan(ops: seq<Op>, a: Action)
    ensures ScanAnswers(Run(ops), a, Find(RunIndex(ops), Run(ops), a))
  {
    IndexEqualsScan(ops);
    FindIsScan(RunIndex(ops), Run(ops), a);
  }

  lemma {:induction false} IndexEqualsScan(ops: seq<Op>)
    ensures Agrees(RunIndex(ops), Run(ops))
  {
    if ops != [] {
      IndexEqualsScan(ops[..|ops| - 1]);
      ApplyAgrees(RunIndex(ops[..|ops| - 1]), Run(ops[..|ops| - 1]), ops[|ops| - 1]);
    }
  }
}

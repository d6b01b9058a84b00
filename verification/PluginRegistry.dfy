/** The registry of `src/plugins/registry.rs` with its maps updated in place, proved to give the
    answers of the plain model. */
module PluginRegistry {
  import opened Collections
  import opened RegistryModel
  import opened ActionIndex

  /** The connection and plugin maps are exact inverses. */
  ghost predicate Inverse(byConn: map<nat, Plugin>, plugins: map<Plugin, Entry>) {
    forall c, p :: (c in byConn && byConn[c] == p) <==> (p in plugins && plugins[p].conn == c)
  }

  lemma InverseKnows(byConn: map<nat, Plugin>, m: Model, conn: nat)
    requires Inverse(byConn, m.plugins)
    ensures conn in byConn <==> ConnUsed(m, conn)
    ensures conn in byConn ==> byConn[conn] in m.plugins && m.plugins[byConn[conn]].conn == conn
  {
    if conn in byConn {
      assert byConn[conn] in m.plugins;
    }
  }

  lemma InverseAdds(byConn: map<nat, Plugin>, m: Model, id: Plugin, entry: Entry)
    requires Inverse(byConn, m.plugins) && id !in m.plugins && entry.conn !in byConn
    ensures Inverse(byConn[entry.conn := id], m.plugins[id := entry])
  {
  }

  lemma InverseRemoves(byConn: map<nat, Plugin>, m: Model, id: Plugin)
    requires Inverse(byConn, m.plugins) && ConnsDistinct(m) && id in m.plugins
    ensures Inverse(byConn - {m.plugins[id].conn}, m.plugins - {id})
  {
    assert byConn[m.plugins[id].conn] == id;
  }

  class Registry {
    var byPlugin: map<Plugin, Entry>
    var byConn: map<nat, Plugin>
    var pongTimes: map<Plugin, nat>
    var devices: map<string, Device>
    var actionIndex: map<Action, Plugin>
    var ambiguous: map<Action, seq<Plugin>>

    constructor ()
      ensures Valid() && View() == Run([])
    {
      byPlugin, byConn, pongTimes, devices := map[], map[], map[], map[];
      actionIndex, ambiguous := map[], map[];
    }

    function View(): Model
      reads this
    {
      Model(byPlugin, devices)
    }

    function Actions(): Index
      reads this
    {
      Index(actionIndex, ambiguous)
    }

    ghost predicate Valid()
      reads this
    {
      Inverse(byConn, byPlugin) && Agrees(Actions(), View()) && DevicesFollow(View()) && ConnsDistinct(View())
    }

    /** `index_action`, branch by branch. */
    method IndexAction(a: Action, id: Plugin)
      modifies this`actionIndex, this`ambiguous
      ensures Actions() == Add(old(Actions()), a, id)
    {
      if a in ambiguous {
        if id !in ambiguous[a] {
          ambiguous := ambiguous[a := ambiguous[a] + [id]];
        }
        return;
      }
      if a in actionIndex {
        if actionIndex[a] == id {
          return;
        }
        var existing := actionIndex[a];
        actionIndex := actionIndex - {a};
        ambiguous := ambiguous[a := [existing, id]];
      } else {
        actionIndex := actionIndex[a := id];
      }
    }

    /** `unindex_action`: leave the collision set, restoring a single remaining declarer. */
    method UnindexAction(a: Action, id: Plugin)
      modifies this`actionIndex, this`ambiguous
      ensures Actions() == Drop(old(Actions()), a, id)
    {
      if a in ambiguous {
        ambiguous := ambiguous[a := Without(ambiguous[a], {id})];
        if |ambiguous[a]| == 1 {
          var only := ambiguous[a][0];
          ambiguous := ambiguous - {a};
          actionIndex := actionIndex[a := only];
          assert ambiguous == old(ambiguous) - {a};
          return;
        }
      }
      if a in actionIndex && actionIndex[a] == id {
        actionIndex := actionIndex - {a};
      }
    }

    method IndexAll(actions: seq<Action>, id: Plugin)
      modifies this`actionIndex, this`ambiguous
      ensures Actions() == AddAll(old(Actions()), actions, id)
    {
      for n := 0 to |actions|
        invariant Actions() == AddAll(old(Actions()), actions[..n], id)
      {
        IndexAction(actions[n], id);
        assert actions[..n + 1][..n] == actions[..n];
      }
      assert actions[..|actions|] == actions;
    }

    method UnindexAll(actions: seq<Action>, id: Plugin)
      modifies this`actionIndex, this`ambiguous
      ensures Actions() == DropAll(old(Actions()), actions, id)
    {
      for n := 0 to |actions|
        invariant Actions() == DropAll(old(Actions()), actions[..n], id)
      {
        UnindexAction(actions[n], id);
        assert actions[..n + 1][..n] == actions[..n];
      }
      assert actions[..|actions|] == actions;
    }

    /** Insert an admitted plugin into every map. */
    method Insert(id: Plugin, entry: Entry, device: Device)
      requires Valid() && id !in byPlugin && entry.conn !in byConn && device.online
      modifies this
      ensures Valid() && View() == Admit(old(View()), id, entry, device)
      ensures pongTimes == old(pongTimes)[id := device.lastSeen]
    {
      hide Inverse, Agrees, DevicesFollow, ConnsDistinct, AddAll, DropAll;
      RegisterAgrees(Actions(), View(), id, entry, device);
      AdmitFollows(View(), id, entry, device);
      InverseKnows(byConn, View(), entry.conn);
      AdmitConns(View(), id, entry, device);
      InverseAdds(byConn, View(), id, entry);
      byConn := byConn[entry.conn := id];
      IndexAll(entry.actions, id);
      pongTimes := pongTimes[id := device.lastSeen];
      devices := devices[entry.device := device];
      byPlugin := byPlugin[id := entry];
    }

    method Check(id: Plugin, conn: nat) returns (v: Verdict)
      requires Valid()
      ensures v == Judge(View(), id, conn)
      ensures v == Ok ==> id !in byPlugin && conn !in byConn
    {
      InverseKnows(byConn, View(), conn);
      hide Inverse, Agrees, DevicesFollow, ConnsDistinct, ConnUsed;
      v := if !ValidId(id) then InvalidId
           else if conn in byConn then ConnectionTaken
           else if id in byPlugin then IdTaken
           else Ok;
    }

    /** Registration of a plugin; a refused one changes nothing. */
    method RegisterWithDevice(id: Plugin, conn: nat, actions: seq<Action>, meta: Meta, now: nat) returns (v: Verdict)
      requires Valid()
      modifies this
      ensures Valid() && v == Judge(old(View()), id, conn)
      ensures View() == Apply(old(View()), Register(id, conn, actions, meta, now))
      ensures v == Ok ==> id in byPlugin && byPlugin[id].actions == actions && pongTimes == old(pongTimes)[id := now]
      ensures v != Ok ==> unchanged(this)
    {
      hide Inverse, Agrees, DevicesFollow, ConnsDistinct, Judge;
      v := Check(id, conn);
      if v == Ok {
        var device := if meta.device == "" then "local" else meta.device;
        var user := if meta.user == "" then "default" else meta.user;
        Insert(id, Entry(conn, actions, device, user), Seen(meta, meta.capabilities, now));
      }
    }

    /** Registration of a multiplexed device: its capabilities become qualified actions. */
    method RegisterMuxDevice(id: Plugin, conn: nat, caps: seq<string>, meta: Meta, now: nat) returns (v: Verdict)
      requires Valid()
      modifies this
      ensures Valid() && v == Judge(old(View()), id, conn)
      ensures View() == Apply(old(View()), RegisterDevice(id, conn, caps, meta, now))
      ensures v == Ok ==> id in byPlugin && pongTimes == old(pongTimes)[id := now]
      ensures v != Ok ==> unchanged(this)
    {
      hide Inverse, Agrees, DevicesFollow, ConnsDistinct, Judge;
      v := Check(id, conn);
      if v == Ok {
        var device := if meta.device == "" then id else meta.device;
        var user := if meta.user == "" then "default" else meta.user;
        Insert(id, Entry(conn, Qualified(id, caps), device, user), Seen(meta, caps, now));
      }
    }

    method UnregisterPlugin(id: Plugin)
      requires Valid()
      modifies this
      ensures Valid() && View() == Apply(old(View()), Unregister(id))
      ensures id !in byPlugin && pongTimes == if id in old(byPlugin) then old(pongTimes) - {id} else old(pongTimes)
    {
      hide Inverse, Agrees, DevicesFollow, ConnsDistinct, AddAll, DropAll;
      if id in byPlugin {
        var entry := byPlugin[id];
        ApplyAgrees(Actions(), View(), Unregister(id));
        ApplyFollows(View(), Unregister(id));
        InverseRemoves(byConn, View(), id);
        byPlugin := byPlugin - {id};
        byConn := byConn - {entry.conn};
        pongTimes := pongTimes - {id};
        UnindexAll(entry.actions, id);
        var stillRegistered := exists p :: p in byPlugin && byPlugin[p].device == entry.device;
        if !stillRegistered && entry.device in devices {
          devices := devices[entry.device := devices[entry.device].(online := false)];
        }
      }
    }

    method Ponged(id: Plugin, now: nat)
      requires Valid()
      modifies this`pongTimes, this`devices
      ensures Valid() && View() == Apply(old(View()), RecordPong(id, now))
      ensures pongTimes == old(pongTimes)[id := now]
      ensures id in byPlugin ==>
        var d := byPlugin[id].device;
        && d in devices && devices[d].lastSeen == now && devices[d].online
        && forall other :: other in devices && other != d ==> other in old(devices) && devices[other] == old(devices)[other]
    {
      hide Inverse, Agrees, DevicesFollow, ConnsDistinct, AddAll, DropAll;
      ApplyAgrees(Actions(), View(), RecordPong(id, now));
      ApplyFollows(View(), RecordPong(id, now));
      pongTimes := pongTimes[id := now];
      if id in byPlugin {
        var d := byPlugin[id].device;
        if d in devices {
          devices := devices[d := devices[d].(lastSeen := now, online := true)];
        }
      }
    }

    /** Routing lookup: one map read for the common case, equal to a scan of all manifests. */
    method FindActionProvider(a: Action) returns (r: Lookup)
      requires Valid()
      ensures ScanAnswers(View(), a, r)
      ensures r.Found? ==> r.provider in byPlugin
    {
      FindIsScan(Actions(), View(), a);
      if a in ambiguous {
        return Ambiguous(ambiguous[a]);
      }
      if a in actionIndex && actionIndex[a] in byPlugin {
        return Found(actionIndex[a]);
      }
      return NotFound;
    }

    /** The plugin of a connection is the one registered on it. */
    method GetByConn(conn: nat) returns (found: bool, id: Plugin)
      requires Valid()
      ensures found <==> ConnUsed(View(), conn)
      ensures found ==> id in byPlugin && byPlugin[id].conn == conn
    {
      InverseKnows(byConn, View(), conn);
      found, id := false, "";
      if conn in byConn {
        id := byConn[conn];
        found := id in byPlugin;
      }
    }
  }
}

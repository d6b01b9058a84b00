/** The plugin registry as its callers see it: registered plugins and known devices, with every
    lookup a plain scan. `src/plugins/registry.rs` keeps extra indexes for the same answers. */
module RegistryModel {

  type Plugin = string
  type Action = string

  datatype Entry = Entry(conn: nat, actions: seq<Action>, device: string, user: string)

  /** Identity and description of the device, as declared on the wire. */
  datatype Meta = Meta(device: string, user: string, os: int, arch: string, osVersion: string, capabilities: seq<string>)

  datatype Device = Device(os: int, arch: string, osVersion: string, capabilities: seq<string>, lastSeen: nat, online: bool)

  datatype Model = Model(plugins: map<Plugin, Entry>, devices: map<string, Device>)

  datatype Op =
    | Register(id: Plugin, conn: nat, actions: seq<Action>, meta: Meta, now: nat)
    | RegisterDevice(id: Plugin, conn: nat, caps: seq<string>, meta: Meta, now: nat)
    | Unregister(id: Plugin)
    | RecordPong(id: Plugin, now: nat)

  datatype Verdict = Ok | InvalidId | ConnectionTaken | IdTaken

  // ---------------------------------------------------------------------------
  // Identifiers
  // ---------------------------------------------------------------------------

  predicate IdChar(c: char) {
    'a' <= c <= 'z' || 'A' <= c <= 'Z' || '0' <= c <= '9' || c == '-' || c == '_' || c == '.'
  }

  /** Non-empty, at most 32 bytes of the frame target field, no path component, not reserved. */
  predicate ValidId(id: Plugin) {
    && 0 < |id| <= 32 && id != "." && id != ".." && id != "kernel" && id != "*"
    && forall i :: 0 <= i < |id| ==> IdChar(id[i])
  }

  // ---------------------------------------------------------------------------
  // Scans
  // ---------------------------------------------------------------------------

  function Declarers(m: Model, a: Action): set<Plugin> {
    set p | p in m.plugins && a in m.plugins[p].actions
  }

  predicate ConnUsed(m: Model, conn: nat) {
    exists p :: p in m.plugins && m.plugins[p].conn == conn
  }

  predicate DeviceUsed(m: Model, d: string) {
    exists p :: p in m.plugins && m.plugins[p].device == d
  }

  // ---------------------------------------------------------------------------
  // Operations
  // ---------------------------------------------------------------------------

  /** The answer to a registration, in the order the code checks. */
  function Judge(m: Model, id: Plugin, conn: nat): Verdict {
    if !ValidId(id) then InvalidId
    else if ConnUsed(m, conn) then ConnectionTaken
    else if id in m.plugins then IdTaken
    else Ok
  }

  function Qualified(id: Plugin, caps: seq<string>): seq<Action> {
    seq(|caps|, i requires 0 <= i < |caps| => id + "." + caps[i])
  }

  function OrElse(s: string, other: string): string {
    if s == "" then other else s
  }

  function Admit(m: Model, id: Plugin, entry: Entry, device: Device): Model {
    Model(m.plugins[id := entry], m.devices[entry.device := device])
  }

  function Seen(meta: Meta, capabilities: seq<string>, now: nat): Device {
    Device(meta.os, meta.arch, meta.osVersion, capabilities, now, true)
  }

  function EntryFor(op: Op): Entry
    requires op.Register? || op.RegisterDevice?
  {
    match op
    case Register(_, conn, actions, meta, _) =>
      Entry(conn, actions, OrElse(meta.device, "local"), OrElse(meta.user, "default"))
    case RegisterDevice(id, conn, caps, meta, _) =>
      Entry(conn, Qualified(id, caps), OrElse(meta.device, id), OrElse(meta.user, "default"))
  }

  function DeviceFor(op: Op): Device
    requires op.Register? || op.RegisterDevice?
  {
    match op
    case Register(_, _, _, meta, now) => Seen(meta, meta.capabilities, now)
    case RegisterDevice(_, _, caps, meta, now) => Seen(meta, caps, now)
  }

  function Remove(m: Model, id: Plugin): Model {
    if id !in m.plugins then m
    else
      var d := m.plugins[id].device;
      var rest := m.(plugins := m.plugins - {id});
      if DeviceUsed(rest, d) || d !in m.devices then rest
      else rest.(devices := rest.devices[d := rest.devices[d].(online := false)])
  }

  function Pong(m: Model, id: Plugin, now: nat): Model {
    if id !in m.plugins || m.plugins[id].device !in m.devices then m
    else
      var d := m.plugins[id].device;
      m.(devices := m.devices[d := m.devices[d].(lastSeen := now, online := true)])
  }

  function Apply(m: Model, op: Op): Model {
    match op
    case Register(id, conn, _, _, _) =>
      if Judge(m, id, conn) == Ok then Admit(m, id, EntryFor(op), DeviceFor(op)) else m
    case RegisterDevice(id, conn, _, _, _) =>
      if Judge(m, id, conn) == Ok then Admit(m, id, EntryFor(op), DeviceFor(op)) else m
    case Unregister(id) => Remove(m, id)
    case RecordPong(id, now) => Pong(m, id, now)
  }

  function Run(ops: seq<Op>): Model {
    if ops == [] then Model(map[], map[]) else Apply(Run(ops[..|ops| - 1]), ops[|ops| - 1])
  }

  // ---------------------------------------------------------------------------
  // Invariants of every sequence of calls
  // ---------------------------------------------------------------------------

  /** A known device is online exactly when a registered plugin belongs to it, and every
      registered plugin belongs to a known device. */
  ghost predicate DevicesFollow(m: Model) {
    && (forall p :: p in m.plugins ==> m.plugins[p].device in m.devices)
    && (forall d :: d in m.devices ==> (m.devices[d].online <==> DeviceUsed(m, d)))
  }

  /** No two plugins share a connection. */
  ghost predicate ConnsDistinct(m: Model) {
    forall p, q :: p in m.plugins && q in m.plugins && m.plugins[p].conn == m.plugins[q].conn ==> p == q
  }

  lemma AdmitFollows(m: Model, id: Plugin, entry: Entry, device: Device)
    requires DevicesFollow(m) && id !in m.plugins && device.online
    ensures DevicesFollow(Admit(m, id, entry, device))
  {
    var t := Admit(m, id, entry, device);
    forall d | d in t.devices ensures t.devices[d].online <==> DeviceUsed(t, d) {
      if d == entry.device {
        assert t.plugins[id].device == d;
      } else if DeviceUsed(m, d) {
        var p :| p in m.plugins && m.plugins[p].device == d;
        assert t.plugins[p].device == d;
      }
    }
  }

  lemma AdmitConns(m: Model, id: Plugin, entry: Entry, device: Device)
    requires ConnsDistinct(m) && !ConnUsed(m, entry.conn)
    ensures ConnsDistinct(Admit(m, id, entry, device))
  {
  }

  lemma RemoveFollows(m: Model, id: Plugin)
    requires DevicesFollow(m)
    ensures DevicesFollow(Remove(m, id))
  {
    if id in m.plugins {
      var t, gone := Remove(m, id), m.plugins[id].device;
      forall d | d in t.devices ensures t.devices[d].online <==> DeviceUsed(t, d) {
        if d != gone && DeviceUsed(m, d) {
          var p :| p in m.plugins && m.plugins[p].device == d;
          assert p in t.plugins && t.plugins[p].device == d;
        }
      }
    }
  }

  lemma PongFollows(m: Model, id: Plugin, now: nat)
    requires DevicesFollow(m)
    ensures DevicesFollow(Pong(m, id, now))
  {
    var t := Pong(m, id, now);
    assert t.plugins == m.plugins;
    assert forall d :: DeviceUsed(t, d) <==> DeviceUsed(m, d);
    if id in m.plugins {
      assert DeviceUsed(m, m.plugins[id].device);
    }
  }

  lemma ApplyFollows(m: Model, op: Op)
    requires DevicesFollow(m) && ConnsDistinct(m)
    ensures DevicesFollow(Apply(m, op)) && ConnsDistinct(Apply(m, op))
  {
    match op
    case Register(id, conn, _, _, _) =>
      if Judge(m, id, conn) == Ok { AdmitFollows(m, id, EntryFor(op), DeviceFor(op)); }
    case RegisterDevice(id, conn, _, _, _) =>
      if Judge(m, id, conn) == Ok { AdmitFollows(m, id, EntryFor(op), DeviceFor(op)); }
    case Unregister(id) => RemoveFollows(m, id);
    case RecordPong(id, now) => PongFollows(m, id, now);
  }

  /** After any sequence of calls, device state follows the registered plugins and no two of
      them share a connection. */
  lemma {:induction false} RunFollows(ops: seq<Op>)
    ensures DevicesFollow(Run(ops)) && ConnsDistinct(Run(ops))
  {
    if ops != [] {
      RunFollows(ops[..|ops| - 1]);
      ApplyFollows(Run(ops[..|ops| - 1]), ops[|ops| - 1]);
    }
  }
}

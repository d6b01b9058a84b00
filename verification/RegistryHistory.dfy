/** The registry told from the calls alone: which registrations were accepted and stand, and what
    plugins, devices and lookups must be because of them. */
module RegistryHistory {
  import opened Collections
  import opened RegistryModel
  import opened ActionIndex

  // ---------------------------------------------------------------------------
  // Reference
  // ---------------------------------------------------------------------------

  predicate IsRegistration(op: Op) {
    op.Register? || op.RegisterDevice?
  }

  /** ASCII letters and digits, `-`, `.` and `_`. */
  predicate PlainChar(c: char) {
    var n := c as int;
    97 <= n <= 122 || 65 <= n <= 90 || 48 <= n <= 57 || n == 45 || n == 46 || n == 95
  }

  /** An id that fits the frame target field, is no path component and names nothing reserved. */
  predicate WellFormed(id: Plugin) {
    1 <= |id| <= 32 && (forall c :: c in id ==> PlainChar(c)) && id !in {".", "..", "kernel"}
  }

  /** The plugin of registration `i` was unregistered before call `n`. */
  predicate Left(ops: seq<Op>, i: nat, n: nat)
    requires i < n <= |ops| && IsRegistration(ops[i])
  {
    exists k :: i < k < n && ops[k] == Unregister(ops[i].id)
  }

  /** Call `i` is a registration that succeeds: its id is well formed, and no accepted registration
      that still stands has its connection or its id. */
  predicate Accepts(ops: seq<Op>, i: nat)
    requires i < |ops|
    decreases i
  {
    && IsRegistration(ops[i]) && WellFormed(ops[i].id)
    && forall j: nat | j < i :: Accepts(ops, j) && !Left(ops, j, i) ==> ops[j].conn != ops[i].conn && ops[j].id != ops[i].id
  }

  /** Registration `i` was accepted and has not been undone after all the calls. */
  predicate Stands(ops: seq<Op>, i: nat): (r: bool)
    ensures r ==> i < |ops| && IsRegistration(ops[i])
  {
    i < |ops| && Accepts(ops, i) && !Left(ops, i, |ops|)
  }

  predicate StandsFor(ops: seq<Op>, i: nat, id: Plugin) {
    Stands(ops, i) && ops[i].id == id
  }

  predicate Declares(op: Op, a: Action)
    requires IsRegistration(op)
  {
    if op.Register? then a in op.actions else exists c :: c in op.caps && a == op.id + "." + c
  }

  function DeviceName(op: Op): string
    requires IsRegistration(op)
  {
    if op.meta.device != "" then op.meta.device else if op.Register? then "local" else op.id
  }

  /** What the entry of a registration must hold. */
  predicate Stored(entry: Entry, op: Op)
    requires IsRegistration(op)
  {
    && entry.conn == op.conn
    && (op.Register? ==> entry.actions == op.actions)
    && (op.RegisterDevice? ==>
      |entry.actions| == |op.caps| && forall i :: 0 <= i < |op.caps| ==> entry.actions[i] == op.id + "." + op.caps[i])
    && entry.device == DeviceName(op)
    && entry.user == if op.meta.user != "" then op.meta.user else "default"
  }

  // ---------------------------------------------------------------------------
  // Earlier calls do not look ahead
  // ---------------------------------------------------------------------------

  lemma LeftPrefix(ops: seq<Op>, m: nat, i: nat, n: nat)
    requires i < n <= m <= |ops| && IsRegistration(ops[i])
    ensures Left(ops[..m], i, n) <==> Left(ops, i, n)
  {
    if Left(ops, i, n) {
      var k :| i < k < n && ops[k] == Unregister(ops[i].id);
      assert ops[..m][k] == Unregister(ops[i].id);
    }
  }

  lemma {:induction false} AcceptsPrefix(ops: seq<Op>, m: nat, i: nat)
    requires i < m <= |ops|
    ensures Accepts(ops[..m], i) <==> Accepts(ops, i)
    decreases i
  {
    forall j: nat | j < i ensures Accepts(ops[..m], j) <==> Accepts(ops, j) {
      AcceptsPrefix(ops, m, j);
    }
    forall j: nat | j < i && IsRegistration(ops[j]) ensures Left(ops[..m], j, i) <==> Left(ops, j, i) {
      LeftPrefix(ops, m, j, i);
    }
  }

  lemma StandsSnoc(ops: seq<Op>, i: nat)
    requires ops != [] && i < |ops| - 1
    ensures var before, op := ops[..|ops| - 1], ops[|ops| - 1];
            Stands(ops, i) <==> Stands(before, i) && op != Unregister(ops[i].id)
  {
    var m := |ops| - 1;
    AcceptsPrefix(ops, m, i);
    if Accepts(ops, i) {
      LeftPrefix(ops, m, i, m);
      if Left(ops, i, |ops|) {
        var k :| i < k < |ops| && ops[k] == Unregister(ops[i].id);
        assert k == m || Left(ops, i, m);
      }
      if ops[m] == Unregister(ops[i].id) {
        assert Left(ops, i, |ops|);
      }
    }
  }

  /** The last call is accepted exactly when nothing that stands before it is in its way. */
  lemma AcceptsLast(ops: seq<Op>)
    requires ops != []
    ensures var before, op := ops[..|ops| - 1], ops[|ops| - 1];
            && Accepts(ops, |ops| - 1) ==
               (IsRegistration(op) && WellFormed(op.id)
                && forall j: nat :: Stands(before, j) ==> before[j].conn != op.conn && before[j].id != op.id)
            && (Stands(ops, |ops| - 1) <==> Accepts(ops, |ops| - 1))
  {
    var m := |ops| - 1;
    forall j: nat | j < m ensures Accepts(ops[..m], j) <==> Accepts(ops, j) {
      AcceptsPrefix(ops, m, j);
    }
    forall j: nat | j < m && IsRegistration(ops[j]) ensures Left(ops[..m], j, m) <==> Left(ops, j, m) {
      LeftPrefix(ops, m, j, m);
    }
  }

  // ---------------------------------------------------------------------------
  // The plain model is the reference
  // ---------------------------------------------------------------------------

  lemma CharIs(c: char)
    ensures IdChar(c) <==> PlainChar(c)
  {
  }

  lemma IdIs(id: Plugin)
    ensures ValidId(id) <==> WellFormed(id)
  {
    if ValidId(id) {
      forall c | c in id ensures PlainChar(c) {
        var i :| 0 <= i < |id| && id[i] == c;
        CharIs(id[i]);
      }
    }
    if WellFormed(id) {
      forall i | 0 <= i < |id| ensures IdChar(id[i]) {
        CharIs(id[i]);
      }
      assert '*' in "*" && !PlainChar('*');
    }
  }

  ghost predicate Tells(ops: seq<Op>, plugins: map<Plugin, Entry>) {
    && (forall p :: p in plugins ==> exists i: nat :: StandsFor(ops, i, p))
    && (forall i: nat :: Stands(ops, i) ==> ops[i].id in plugins && Stored(plugins[ops[i].id], ops[i]))
  }

  predicate ConnStands(ops: seq<Op>, j: nat, conn: nat) {
    Stands(ops, j) && ops[j].conn == conn
  }

  lemma ConnTells(before: seq<Op>, plugins: map<Plugin, Entry>, conn: nat)
    requires Tells(before, plugins)
    ensures (exists p :: p in plugins && plugins[p].conn == conn) <==> (exists j: nat :: ConnStands(before, j, conn))
  {
    hide Stands;
    if p :| p in plugins && plugins[p].conn == conn {
      var i: nat :| StandsFor(before, i, p);
      assert Stored(plugins[before[i].id], before[i]);
      assert ConnStands(before, i, conn);
    }
    if j: nat :| ConnStands(before, j, conn) {
      assert Stored(plugins[before[j].id], before[j]);
      assert plugins[before[j].id].conn == conn;
    }
  }

  lemma IdTells(before: seq<Op>, plugins: map<Plugin, Entry>, id: Plugin)
    requires Tells(before, plugins)
    ensures id in plugins <==> exists j: nat :: StandsFor(before, j, id)
  {
    hide Stands, Stored;
    if j: nat :| StandsFor(before, j, id) {
      assert Stands(before, j);
    }
  }

  /** What the registry answers to a registration, told from the earlier calls. */
  lemma JudgeTells(before: seq<Op>, m: Model, id: Plugin, conn: nat)
    requires Tells(before, m.plugins)
    ensures var v := Judge(m, id, conn);
            var taken := exists j: nat :: ConnStands(before, j, conn);
            && (v == InvalidId <==> !WellFormed(id))
            && (v == ConnectionTaken <==> WellFormed(id) && taken)
            && (v == IdTaken <==> WellFormed(id) && !taken && exists j: nat :: StandsFor(before, j, id))
  {
    IdIs(id);
    hide ValidId, WellFormed, Tells, StandsFor, ConnStands;
    ConnTells(before, m.plugins, conn);
    IdTells(before, m.plugins, id);
  }

  lemma EntryIsStored(op: Op)
    requires IsRegistration(op)
    ensures Stored(EntryFor(op), op)
  {
  }

  /** How standing changes with one more call. */
  ghost predicate Extends(ops: seq<Op>, accepted: bool) {
    ops != [] &&
    var before, op, n := ops[..|ops| - 1], ops[|ops| - 1], |ops| - 1;
    && (forall i: nat :: Stands(ops, i) ==> i < |ops|)
    && (forall i: nat :: Stands(before, i) ==> i < n)
    && (forall i: nat :: i < n ==> (Stands(ops, i) <==> Stands(before, i) && op != Unregister(before[i].id)))
    && (Stands(ops, n) <==> accepted)
  }

  lemma AdmittedTells(ops: seq<Op>, plugins: map<Plugin, Entry>, entry: Entry)
    requires Extends(ops, true) && IsRegistration(ops[|ops| - 1])
    requires Tells(ops[..|ops| - 1], plugins) && ops[|ops| - 1].id !in plugins && Stored(entry, ops[|ops| - 1])
    ensures Tells(ops, plugins[ops[|ops| - 1].id := entry])
  {
    hide Stands, Stored;
    var before, op, n := ops[..|ops| - 1], ops[|ops| - 1], |ops| - 1;
    assert StandsFor(ops, n, op.id);
    forall p | p in plugins ensures exists i: nat :: StandsFor(ops, i, p) {
      var i: nat :| StandsFor(before, i, p);
      assert StandsFor(ops, i, p);
    }
  }

  lemma UnchangedTells(ops: seq<Op>, plugins: map<Plugin, Entry>)
    requires Extends(ops, false) && !ops[|ops| - 1].Unregister? && Tells(ops[..|ops| - 1], plugins)
    ensures Tells(ops, plugins)
  {
    hide Stands, Stored;
    var before := ops[..|ops| - 1];
    forall p | p in plugins ensures exists i: nat :: StandsFor(ops, i, p) {
      var i: nat :| StandsFor(before, i, p);
      assert StandsFor(ops, i, p);
    }
  }

  lemma RemovedTells(ops: seq<Op>, plugins: map<Plugin, Entry>, id: Plugin)
    requires Extends(ops, false) && ops[|ops| - 1] == Unregister(id) && Tells(ops[..|ops| - 1], plugins)
    ensures Tells(ops, plugins - {id})
  {
    hide Stands, Stored;
    var before := ops[..|ops| - 1];
    forall p | p in plugins && p != id ensures exists i: nat :: StandsFor(ops, i, p) {
      var i: nat :| StandsFor(before, i, p);
      assert StandsFor(ops, i, p);
    }
  }

  lemma ExtendsWith(ops: seq<Op>, m: Model)
    requires ops != [] && Tells(ops[..|ops| - 1], m.plugins)
    ensures var op := ops[|ops| - 1];
            Extends(ops, IsRegistration(op) && Judge(m, op.id, op.conn) == Ok)
  {
    var before, op := ops[..|ops| - 1], ops[|ops| - 1];
    AcceptsLast(ops);
    forall i: nat | i < |ops| - 1 ensures Stands(ops, i) <==> Stands(before, i) && op != Unregister(before[i].id) {
      StandsSnoc(ops, i);
    }
    assert forall i: nat :: (Stands(ops, i) ==> i < |ops|) && (Stands(before, i) ==> i < |before|);
    if IsRegistration(op) {
      JudgeTells(before, m, op.id, op.conn);
      hide WellFormed, Judge, Accepts, Left, Stands;
      if Judge(m, op.id, op.conn) == Ok {
        forall j: nat | Stands(before, j) ensures before[j].conn != op.conn && before[j].id != op.id {
          assert StandsFor(before, j, before[j].id) && ConnStands(before, j, before[j].conn);
        }
      }
    }
  }

  lemma PluginsAfter(m: Model, op: Op)
    ensures Apply(m, op).plugins ==
      match op
      case Unregister(id) => m.plugins - {id}
      case RecordPong(_, _) => m.plugins
      case _ => if Judge(m, op.id, op.conn) == Ok then m.plugins[op.id := EntryFor(op)] else m.plugins
  {
    hide Judge, DeviceUsed;
    if op.Unregister? && op.id !in m.plugins {
      assert m.plugins - {op.id} == m.plugins;
    }
  }

  lemma JudgeFree(m: Model, id: Plugin, conn: nat)
    requires Judge(m, id, conn) == Ok
    ensures id !in m.plugins
  {
  }

  lemma TellsStep(ops: seq<Op>, m: Model)
    requires ops != [] && Tells(ops[..|ops| - 1], m.plugins)
    ensures Tells(ops, Apply(m, ops[|ops| - 1]).plugins)
  {
    ExtendsWith(ops, m);
    PluginsAfter(m, ops[|ops| - 1]);
    hide Extends, Tells, Judge, Stored, Apply;
    var op := ops[|ops| - 1];
    match op
    case Unregister(id) => RemovedTells(ops, m.plugins, id);
    case RecordPong(id, _) => UnchangedTells(ops, m.plugins);
    case _ =>
      if Judge(m, op.id, op.conn) == Ok {
        EntryIsStored(op);
        JudgeFree(m, op.id, op.conn);
        AdmittedTells(ops, m.plugins, EntryFor(op));
      } else {
        UnchangedTells(ops, m.plugins);
      }
  }

  lemma {:induction false} RunTells(ops: seq<Op>)
    ensures Tells(ops, Run(ops).plugins)
  {
    if ops != [] {
      RunTells(ops[..|ops| - 1]);
      TellsStep(ops, Run(ops[..|ops| - 1]));
    }
  }

  /** After any sequence of calls a plugin is registered if and only if an accepted registration of
      its id still stands, and its entry is what that call declared: connection, actions, device and
      user, with the defaults for what it left out. */
  lemma RegisteredIffStands(ops: seq<Op>, id: Plugin)
    ensures id in Run(ops).plugins <==> exists i: nat :: StandsFor(ops, i, id)
    ensures forall i: nat :: StandsFor(ops, i, id) ==> Stored(Run(ops).plugins[id], ops[i])
  {
    hide Stands, Stored;
    RunTells(ops);
    if i: nat :| StandsFor(ops, i, id) {
      assert Stands(ops, i);
    }
  }

  /** After any sequence of calls the answer to a registration: an invalid id first, then a taken
      connection, then a taken id, and success exactly when the call is accepted. */
  lemma VerdictIs(ops: seq<Op>, op: Op)
    requires IsRegistration(op)
    ensures var v := Judge(Run(ops), op.id, op.conn);
            var taken := exists j: nat :: ConnStands(ops, j, op.conn);
            && (v == InvalidId <==> !WellFormed(op.id))
            && (v == ConnectionTaken <==> WellFormed(op.id) && taken)
            && (v == IdTaken <==> WellFormed(op.id) && !taken && exists j: nat :: StandsFor(ops, j, op.id))
            && (v == Ok <==> Accepts(ops + [op], |ops|))
  {
    hide Stands, Accepts, WellFormed, Judge, Stored;
    RunTells(ops);
    JudgeTells(ops, Run(ops), op.id, op.conn);
    var all := ops + [op];
    assert all[..|all| - 1] == ops;
    AcceptsLast(all);
    ExtendsWith(all, Run(ops));
  }

  // ---------------------------------------------------------------------------
  // Lookups
  // ---------------------------------------------------------------------------

  /** An accepted registration of the plugin that still stands declared the action. */
  ghost predicate DeclaredBy(ops: seq<Op>, a: Action, p: Plugin) {
    exists i: nat :: StandsFor(ops, i, p) && Declares(ops[i], a)
  }

  lemma StoredDeclares(entry: Entry, op: Op, a: Action)
    requires IsRegistration(op) && Stored(entry, op)
    ensures a in entry.actions <==> Declares(op, a)
  {
    if op.RegisterDevice? {
      if a in entry.actions {
        var i :| 0 <= i < |entry.actions| && entry.actions[i] == a;
        assert op.caps[i] in op.caps;
      }
      if c :| c in op.caps && a == op.id + "." + c {
        var i :| 0 <= i < |op.caps| && op.caps[i] == c;
        assert entry.actions[i] == a;
      }
    }
  }

  lemma DeclarersAre(ops: seq<Op>, a: Action, p: Plugin)
    ensures p in Declarers(Run(ops), a) <==> DeclaredBy(ops, a, p)
  {
    hide Stands, Stored, Declares;
    RegisteredIffStands(ops, p);
    if i: nat :| StandsFor(ops, i, p) {
      forall k: nat | StandsFor(ops, k, p) ensures a in Run(ops).plugins[p].actions <==> Declares(ops[k], a) {
        StoredDeclares(Run(ops).plugins[p], ops[k], a);
      }
    }
  }

  /** After any sequence of calls the lookup of an action answers with those whose standing
      registration declared it: nothing for none, the one, or all of them, each once. */
  lemma LookupTells(ops: seq<Op>, a: Action)
    ensures match Find(RunIndex(ops), Run(ops), a)
            case NotFound => forall p :: !DeclaredBy(ops, a, p)
            case Found(q) => forall p :: DeclaredBy(ops, a, p) <==> p == q
            case Ambiguous(ids) => |ids| >= 2 && Distinct(ids) && forall p :: DeclaredBy(ops, a, p) <==> p in ids
  {
    hide DeclaredBy;
    LookupEqualsScan(ops, a);
    var m, r := Run(ops), Find(RunIndex(ops), Run(ops), a);
    forall p ensures p in Declarers(m, a) <==> DeclaredBy(ops, a, p) {
      DeclarersAre(ops, a, p);
    }
    hide Find, Run, RunIndex;
    if r.Ambiguous? {
      DistinctSize(r.ids);
    } else if r.NotFound? {
      assert Declarers(m, a) == {};
    }
  }

  // ---------------------------------------------------------------------------
  // Devices
  // ---------------------------------------------------------------------------

  /** The last accepted registration on the device. */
  function LastOn(ops: seq<Op>, d: string): Option<nat> {
    if ops == [] then None
    else if Accepts(ops, |ops| - 1) && DeviceName(ops[|ops| - 1]) == d then Some(|ops| - 1)
    else LastOn(ops[..|ops| - 1], d)
  }

  /** A standing registration of the plugin is on the device. */
  ghost predicate OnDevice(ops: seq<Op>, id: Plugin, d: string) {
    exists i: nat :: StandsFor(ops, i, id) && DeviceName(ops[i]) == d
  }

  /** When the device was last heard of: by an accepted registration or a pong of one of its
      plugins. */
  ghost function Contact(ops: seq<Op>, d: string): nat {
    if ops == [] then 0
    else
      var before, op := ops[..|ops| - 1], ops[|ops| - 1];
      if Accepts(ops, |ops| - 1) && DeviceName(op) == d then op.now
      else if op.RecordPong? && OnDevice(before, op.id, d) then op.now
      else Contact(before, d)
  }

  predicate Described(dev: Device, op: Op)
    requires IsRegistration(op)
  {
    && dev.os == op.meta.os && dev.arch == op.meta.arch && dev.osVersion == op.meta.osVersion
    && dev.capabilities == if op.Register? then op.meta.capabilities else op.caps
  }

  lemma LastOnBounds(ops: seq<Op>, d: string)
    ensures LastOn(ops, d).Some? ==> LastOn(ops, d).value < |ops| && IsRegistration(ops[LastOn(ops, d).value])
  {
    if ops != [] {
      LastOnBounds(ops[..|ops| - 1], d);
    }
  }

  ghost predicate DeviceKnown(ops: seq<Op>, devices: map<string, Device>, d: string) {
    && (d in devices <==> LastOn(ops, d).Some?)
    && (d in devices ==>
      && LastOn(ops, d).value < |ops| && IsRegistration(ops[LastOn(ops, d).value])
      && Described(devices[d], ops[LastOn(ops, d).value])
      && devices[d].lastSeen == Contact(ops, d))
  }

  lemma DeviceOfPlugin(ops: seq<Op>, id: Plugin, d: string)
    ensures id in Run(ops).plugins && Run(ops).plugins[id].device == d <==> OnDevice(ops, id, d)
  {
    hide Stands;
    RegisteredIffStands(ops, id);
    if id in Run(ops).plugins {
      var i: nat :| StandsFor(ops, i, id);
      assert Stored(Run(ops).plugins[id], ops[i]);
    }
  }

  lemma LastAccepted(ops: seq<Op>)
    requires ops != []
    ensures var m, op := Run(ops[..|ops| - 1]), ops[|ops| - 1];
            Accepts(ops, |ops| - 1) <==> IsRegistration(op) && Judge(m, op.id, op.conn) == Ok
  {
    var before, op := ops[..|ops| - 1], ops[|ops| - 1];
    hide Accepts, Judge;
    if IsRegistration(op) {
      VerdictIs(before, op);
      assert before + [op] == ops;
    } else {
      AcceptsLast(ops);
    }
  }

  predicate SameButOnline(x: Device, y: Device) {
    x.(online := true) == y.(online := true)
  }

  lemma DeviceAfter(m: Model, op: Op, d: string)
    ensures var t := Apply(m, op);
            if IsRegistration(op) && Judge(m, op.id, op.conn) == Ok && DeviceName(op) == d then
              d in t.devices && Described(t.devices[d], op) && t.devices[d].lastSeen == op.now
            else if op.RecordPong? && op.id in m.plugins && m.plugins[op.id].device == d && d in m.devices then
              d in t.devices && SameButOnline(t.devices[d], m.devices[d].(lastSeen := op.now))
            else
              (d in t.devices <==> d in m.devices) && (d in m.devices ==> SameButOnline(t.devices[d], m.devices[d]))
  {
    hide Judge, DeviceUsed;
    if IsRegistration(op) {
      EntryIsStored(op);
    }
  }

  lemma KnownAccepted(ops: seq<Op>, devices: map<string, Device>, d: string)
    requires ops != [] && Accepts(ops, |ops| - 1) && DeviceName(ops[|ops| - 1]) == d
    requires d in devices && Described(devices[d], ops[|ops| - 1]) && devices[d].lastSeen == ops[|ops| - 1].now
    ensures DeviceKnown(ops, devices, d)
  {
    hide Described;
  }

  lemma KnownKept(ops: seq<Op>, old_: map<string, Device>, devices: map<string, Device>, d: string)
    requires ops != [] && DeviceKnown(ops[..|ops| - 1], old_, d)
    requires !(Accepts(ops, |ops| - 1) && DeviceName(ops[|ops| - 1]) == d)
    requires (d in devices <==> d in old_) && (d in old_ ==> SameButOnline(devices[d], old_[d].(lastSeen := Contact(ops, d))))
    ensures DeviceKnown(ops, devices, d)
  {
    hide Accepts, Contact;
    var before := ops[..|ops| - 1];
    assert LastOn(ops, d) == LastOn(before, d);
    if d in devices {
      assert ops[LastOn(before, d).value] == before[LastOn(before, d).value];
    }
  }

  lemma DeviceStep(ops: seq<Op>, d: string)
    requires ops != [] && DeviceKnown(ops[..|ops| - 1], Run(ops[..|ops| - 1]).devices, d)
    ensures DeviceKnown(ops, Run(ops).devices, d)
  {
    var before, op := ops[..|ops| - 1], ops[|ops| - 1];
    var m := Run(before);
    LastAccepted(ops);
    DeviceAfter(m, op, d);
    if op.RecordPong? {
      DeviceOfPlugin(before, op.id, d);
    }
    hide Accepts, Judge, OnDevice, Apply, SameButOnline, Described, LastOn;
    if Accepts(ops, |ops| - 1) && DeviceName(op) == d {
      hide DeviceKnown, Contact;
      KnownAccepted(ops, Run(ops).devices, d);
    } else {
      assert d in m.devices && !(op.RecordPong? && OnDevice(before, op.id, d)) ==>
        m.devices[d].(lastSeen := Contact(ops, d)) == m.devices[d];
      hide DeviceKnown;
      KnownKept(ops, m.devices, Run(ops).devices, d);
    }
  }

  lemma {:induction false} DevicesTold(ops: seq<Op>, d: string)
    ensures DeviceKnown(ops, Run(ops).devices, d)
  {
    if ops != [] {
      hide DeviceKnown;
      DevicesTold(ops[..|ops| - 1], d);
      DeviceStep(ops, d);
    }
  }

  /** After any sequence of calls a device is known if and only if some registration on it was
      accepted. Its description is that of the last one, it was last seen when one of its plugins
      registered or answered a ping, and it is online if and only if a registration on it stands. */
  lemma DeviceTells(ops: seq<Op>, d: string)
    ensures d in Run(ops).devices <==> LastOn(ops, d).Some?
    ensures d in Run(ops).devices ==>
      var dev, i := Run(ops).devices[d], LastOn(ops, d).value;
      && i < |ops| && IsRegistration(ops[i]) && Described(dev, ops[i])
      && dev.lastSeen == Contact(ops, d)
      && (dev.online <==> exists id :: OnDevice(ops, id, d))
  {
    hide Described, Contact, LastOn, OnDevice;
    DevicesTold(ops, d);
    RunFollows(ops);
    forall id ensures id in Run(ops).plugins && Run(ops).plugins[id].device == d <==> OnDevice(ops, id, d) {
      DeviceOfPlugin(ops, id, d);
    }
  }
}

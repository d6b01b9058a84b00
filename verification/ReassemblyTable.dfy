/** The read loop's tables updated in place, proved to take the steps of the machine. */
module ReassemblyTable {
  import opened Collections
  import opened Reassembly

  predicate Ascending(s: seq<nat>) {
    forall i, j :: 0 <= i < j < |s| ==> s[i] < s[j]
  }

  method Least(rest: set<nat>) returns (k: nat)
    requires rest != {}
    ensures k in rest && forall x :: x in rest ==> k <= x
  {
    k :| k in rest;
    var todo := rest;
    while todo != {}
      invariant todo <= rest && k in rest
      invariant forall x :: x in rest && x !in todo ==> k <= x
      decreases todo
    {
      var x :| x in todo;
      if x < k {
        k := x;
      }
      todo := todo - {x};
    }
  }

  /** The keys of a buffer in ascending order. */
  method SortedKeys(keys: set<nat>) returns (s: seq<nat>)
    ensures Ascending(s) && forall k :: k in s <==> k in keys
  {
    s := [];
    var rest := keys;
    while rest != {}
      invariant rest <= keys && Ascending(s)
      invariant forall k :: k in keys <==> k in s || k in rest
      invariant forall k, x :: k in s && x in rest ==> k < x
      decreases rest
    {
      var k := Least(rest);
      assert forall i :: 0 <= i < |s| ==> s[i] in s;
      s := s + [k];
      rest := rest - {k};
    }
  }

  lemma {:induction false} InOrderGap(fr: map<nat, Bytes>, lo: nat, hi: nat)
    requires lo <= hi && forall k :: lo <= k < hi ==> k !in fr
    ensures InOrder(fr, hi) == InOrder(fr, lo)
    decreases hi
  {
    if lo < hi { InOrderGap(fr, lo, hi - 1); }
  }

  /** No key lies in a range that the sorted keys skip. */
  lemma Skipped(seqs: seq<nat>, fr: map<nat, Bytes>, lo: nat, hi: nat)
    requires forall k :: k in seqs <==> k in fr
    requires lo <= hi && forall i :: 0 <= i < |seqs| ==> seqs[i] < lo || seqs[i] >= hi
    ensures InOrder(fr, hi) == InOrder(fr, lo)
  {
    assert forall x: nat :: x in fr ==> x in seqs;
    InOrderGap(fr, lo, hi);
  }

  predicate InRange(b: Buf) {
    forall k :: k in b.fragments ==> k < b.total
  }

  /** `reassemble`: sort the sequences and append their bytes, taking them out of the map. */
  method Reassemble(b: Buf) returns (out: Bytes)
    requires InRange(b)
    ensures out == InOrder(b.fragments, b.total)
  {
    var seqs: seq<nat> := SortedKeys(b.fragments.Keys);
    assert forall i :: 0 <= i < |seqs| ==> seqs[i] in seqs;
    var fragments: map<nat, Bytes> := b.fragments;
    out := [];
    ghost var upTo: nat := 0;
    for n := 0 to |seqs|
      invariant out == InOrder(b.fragments, upTo) && upTo <= b.total
      invariant forall i :: 0 <= i < |seqs| ==> (seqs[i] < upTo <==> i < n)
      invariant forall i :: n <= i < |seqs| ==> seqs[i] in fragments && fragments[seqs[i]] == b.fragments[seqs[i]]
    {
      var k := seqs[n];
      Skipped(seqs, b.fragments, upTo, k);
      out := out + fragments[k];
      fragments := fragments - {k};
      upTo := k + 1;
    }
    Skipped(seqs, b.fragments, upTo, b.total);
  }

  lemma AbsorbIs(lim: Limits, found: Option<Buf>, h: Header, target: Target, data: Bytes, openAt: nat)
    requires found.Some? ==> found.value.total == h.total
    ensures var b := if found.Some? then found.value else Fresh(h, target, openAt);
            var b' := Insert(b, h, data);
            Absorb(lim, found, h, target, data, openAt)
            == if b.buffered + |data| - Replaced(b, h.sequence) > MAX_PAYLOAD_SIZE
                  || (lim.checked && |data| < Replaced(b, h.sequence)) then Refused
               else if |b'.fragments| == b'.total
               then Complete(Message(Some(h.stream), b'.target, InOrder(b'.fragments, b'.total)))
               else Kept(b')
  {
  }

  lemma OtherTotal(lim: Limits, b: Buf, h: Header, target: Target, data: Bytes, openAt: nat)
    requires b.total != h.total
    ensures Absorb(lim, Some(b), h, target, data, openAt).Refused?
  {
  }

  lemma FreshInRange(h: Header, target: Target, openAt: nat)
    ensures InRange(Fresh(h, target, openAt))
  {
  }

  lemma InsertKeeps(b: Buf, h: Header, data: Bytes)
    ensures Insert(b, h, data).total == b.total && Insert(b, h, data).target == b.target
  {
  }

  class Connection {
    const lim: Limits
    var bufs: map<StreamId, Buf>
    var log: seq<Message>
    var open: bool

    constructor (lim: Limits)
      ensures this.lim == lim && View() == Run(lim, []) && Valid()
    {
      this.lim := lim;
      bufs, log, open := map[], [], true;
    }

    function View(): Conn
      reads this
    {
      if open then Alive(bufs, log) else Gone
    }

    ghost predicate Valid()
      reads this
    {
      Ok(lim, View())
    }

    /** `prune_stale_reassembly`: drop every buffer that is too old. */
    method PruneStale(now: nat)
      modifies this`bufs
      ensures bufs == Prune(lim, old(bufs), now)
    {
      var rest := bufs.Keys;
      while rest != {}
        invariant rest <= bufs.Keys <= old(bufs).Keys
        invariant forall s :: s in bufs ==> bufs[s] == old(bufs)[s]
        invariant forall s :: s in bufs <==> s in old(bufs) && (s in rest || !Stale(lim, old(bufs)[s], now))
        decreases rest
      {
        var s :| s in rest;
        if Stale(lim, bufs[s], now) {
          bufs := bufs - {s};
        }
        rest := rest - {s};
      }
    }

    method Forward(msg: Message, accepted: bool)
      modifies this`log, this`open
      ensures open == (old(open) && accepted)
      ensures log == if accepted then old(log) + [msg] else old(log)
    {
      if accepted {
        log := log + [msg];
      } else {
        open := false;
      }
    }

    /** One iteration of the read loop. */
    method OnArrival(a: Arrival)
      requires Valid() && Sized(a) && open
      modifies this
      ensures View() == Step(lim, old(View()), a)
      ensures Valid()
    {
      StepOk(lim, View(), a);
      assert forall s :: s in bufs ==> InRange(bufs[s]);
      hide Ok, Absorb;
      if a.frame.Unreadable? {
        open := false;
        return;
      }
      PruneStale(a.at);
      match a.frame
      case Plain(target, payload) => Forward(Message(None, target, payload), a.accepted);
      case Fragment(header, target, data) =>
        if header.None? || header.value.total == 0 || header.value.sequence >= header.value.total {
          open := false;
        } else {
          OnFragment(header.value, target, data, a.openAt, a.accepted);
        }
    }

    /** A valid fragment after pruning. */
    method OnFragment(h: Header, target: Target, data: Bytes, openAt: nat, accepted: bool)
      requires open && ValidHeader(h) && |data| < WORD / 4
      requires forall s :: s in bufs ==> InRange(bufs[s])
      modifies this
      ensures var c := Alive(old(bufs), old(log));
              View() == if h.stream !in c.bufs && |c.bufs| >= lim.maxStreams then Gone
                        else
                          match Absorb(lim, Lookup(c.bufs, h.stream), h, target, data, openAt)
                          case Refused => Gone
                          case Kept(b) => Alive(c.bufs[h.stream := b], c.log)
                          case Complete(msg) => Deliver(c, c.bufs - {h.stream}, msg, accepted)
    {
      hide Ok, InOrder, WrapAdd, WrapSub, Insert, Replaced, Absorb, InRange;
      if h.stream in bufs {
        if bufs[h.stream].total != h.total {
          OtherTotal(lim, bufs[h.stream], h, target, data, openAt);
          open := false;
          return;
        }
      } else if |bufs| >= lim.maxStreams {
        open := false;
        return;
      }
      ghost var before := bufs;
      AbsorbIs(lim, Lookup(bufs, h.stream), h, target, data, openAt);
      FreshInRange(h, target, openAt);
      if h.stream !in bufs {
        bufs := bufs[h.stream := Buf(map[], h.total, target, openAt, 0)];
      }
      InsertKeeps(bufs[h.stream], h, data);
      var stored := Store(bufs[h.stream], h, data);
      if stored.None? || (lim.checked && |data| < Replaced(bufs[h.stream], h.sequence)) {
        open := false;
        return;
      }
      assert bufs[h.stream := stored.value] == before[h.stream := stored.value];
      assert bufs - {h.stream} == before - {h.stream};
      Settle(h.stream, stored.value, accepted);
    }

    /** Put the updated buffer back, or complete its message and take it out. */
    method Settle(s: StreamId, entry: Buf, accepted: bool)
      requires open && InRange(entry)
      modifies this
      ensures View() == if |entry.fragments| == entry.total
                        then Deliver(Alive(old(bufs), old(log)), old(bufs) - {s},
                                     Message(Some(s), entry.target, InOrder(entry.fragments, entry.total)), accepted)
                        else Alive(old(bufs)[s := entry], old(log))
    {
      bufs := bufs[s := entry];
      if |entry.fragments| == entry.total {
        bufs := bufs - {s};
        assert bufs == old(bufs) - {s};
        var payload := Reassemble(entry);
        Forward(Message(Some(s), entry.target, payload), accepted);
      }
    }
  }

  /** Replace or add one fragment; nothing when the accounting refuses it. */
  method Store(b: Buf, h: Header, data: Bytes) returns (stored: Option<Buf>)
    requires InRange(b) && h.sequence < b.total
    ensures stored == if b.buffered + |data| - Replaced(b, h.sequence) > MAX_PAYLOAD_SIZE then None else Some(Insert(b, h, data))
    ensures stored.Some? ==> InRange(stored.value)
  {
    var entry := b;
    var replaced := if h.sequence in entry.fragments then |entry.fragments[h.sequence]| else 0;
    if entry.buffered + |data| - replaced > MAX_PAYLOAD_SIZE {
      return None;
    }
    entry := entry.(buffered := WrapAdd(entry.buffered, WrapSub(|data|, replaced)));
    entry := entry.(fragments := entry.fragments[h.sequence := data]);
    return Some(entry);
  }
}

/** Fragment reassembly of one connection: the read loop of `src/ipc/connection.rs` as a
    state machine over arriving frames. */
module Reassembly {
  import opened Collections

  type Bytes = seq<int>
  type Target = seq<int>
  type StreamId = nat

  /** The cap on a reassembled payload: 1 MiB. */
  const MAX_PAYLOAD_SIZE: nat := 1_048_576

  /** Integers modulo 2^64, the width of `usize`. */
  const WORD: int := 0x1_0000_0000_0000_0000

  datatype Header = Header(stream: StreamId, sequence: nat, total: nat)

  /** A frame as read off the socket. A fragment whose header is too short has none. */
  datatype Frame =
    | Unreadable
    | Plain(target: Target, payload: Bytes)
    | Fragment(header: Option<Header>, target: Target, data: Bytes)

  /** A frame with the clock readings and the channel outcome the loop meets on it: `at` is
      read by the pruning, `openAt` when a buffer is created, `accepted` says whether the
      router still takes messages. */
  datatype Arrival = Arrival(frame: Frame, at: nat, openAt: nat, accepted: bool)

  datatype Buf = Buf(fragments: map<nat, Bytes>, total: nat, target: Target, firstSeen: nat, buffered: nat)

  /** `checked` is true in a build whose integer arithmetic panics on overflow. */
  datatype Limits = Limits(timeout: nat, maxStreams: nat, checked: bool)

  /** A message passed to the router; `stream` records which fragments it came from. */
  datatype Message = Message(stream: Option<StreamId>, target: Target, payload: Bytes)

  datatype Conn = Alive(bufs: map<StreamId, Buf>, log: seq<Message>) | Gone

  // ---------------------------------------------------------------------------
  // One buffer
  // ---------------------------------------------------------------------------

  /** The fragments with sequence below `n`, concatenated in sequence order. */
  function InOrder(fragments: map<nat, Bytes>, n: nat): Bytes {
    if n == 0 then []
    else InOrder(fragments, n - 1) + (if n - 1 in fragments then fragments[n - 1] else [])
  }

  /** The sum of the stored fragment lengths, sequences below `n`. */
  function Held(fragments: map<nat, Bytes>, n: nat): nat {
    if n == 0 then 0
    else Held(fragments, n - 1) + (if n - 1 in fragments then |fragments[n - 1]| else 0)
  }

  function WrapSub(a: int, b: int): nat {
    (a - b) % WORD
  }

  function WrapAdd(a: int, b: int): nat {
    (a + b) % WORD
  }

  /** Age of a buffer; a clock reading before its creation counts as zero. */
  predicate Stale(lim: Limits, b: Buf, now: nat) {
    (if now >= b.firstSeen then now - b.firstSeen else 0) >= lim.timeout
  }

  predicate ValidHeader(h: Header) {
    h.total > 0 && h.sequence < h.total
  }

  datatype Absorbed = Refused | Kept(buf: Buf) | Complete(msg: Message)

  function Fresh(h: Header, target: Target, openAt: nat): Buf {
    Buf(map[], h.total, target, openAt, 0)
  }

  function Replaced(b: Buf, sequence: nat): nat {
    if sequence in b.fragments then |b.fragments[sequence]| else 0
  }

  function Insert(b: Buf, h: Header, data: Bytes): Buf {
    b.(buffered := WrapAdd(b.buffered, WrapSub(|data|, Replaced(b, h.sequence))),
       fragments := b.fragments[h.sequence := data])
  }

  /** A valid fragment meets the open buffer of its stream, or none. */
  function Absorb(lim: Limits, open: Option<Buf>, h: Header, target: Target, data: Bytes, openAt: nat): Absorbed {
    if open.Some? && open.value.total != h.total then Refused
    else
      var b := if open.Some? then open.value else Fresh(h, target, openAt);
      var replaced := Replaced(b, h.sequence);
      if b.buffered + |data| - replaced > MAX_PAYLOAD_SIZE then Refused
      else if lim.checked && |data| < replaced then Refused
      else
        var b' := Insert(b, h, data);
        if |b'.fragments| == b'.total
        then Complete(Message(Some(h.stream), b'.target, InOrder(b'.fragments, b'.total)))
        else Kept(b')
  }

  // ---------------------------------------------------------------------------
  // The connection
  // ---------------------------------------------------------------------------

  function Prune(lim: Limits, bufs: map<StreamId, Buf>, now: nat): map<StreamId, Buf> {
    map s | s in bufs && !Stale(lim, bufs[s], now) :: bufs[s]
  }

  function Lookup(bufs: map<StreamId, Buf>, s: StreamId): Option<Buf> {
    if s in bufs then Some(bufs[s]) else None
  }

  function Deliver(c: Conn, bufs: map<StreamId, Buf>, msg: Message, accepted: bool): Conn
    requires c.Alive?
  {
    if accepted then Alive(bufs, c.log + [msg]) else Gone
  }

  /** One iteration of the read loop; leaving the loop makes the connection `Gone`. */
  function Step(lim: Limits, c: Conn, a: Arrival): Conn {
    if c.Gone? then Gone
    else
      var bufs := Prune(lim, c.bufs, a.at);
      match a.frame
      case Unreadable => Gone
      case Plain(target, payload) => Deliver(c, bufs, Message(None, target, payload), a.accepted)
      case Fragment(None, _, _) => Gone
      case Fragment(Some(h), target, data) =>
        if !ValidHeader(h) then Gone
        else if h.stream !in bufs && |bufs| >= lim.maxStreams then Gone
        else
          match Absorb(lim, Lookup(bufs, h.stream), h, target, data, a.openAt)
          case Refused => Gone
          case Kept(b) => Alive(bufs[h.stream := b], c.log)
          case Complete(msg) => Deliver(c, bufs - {h.stream}, msg, a.accepted)
  }

  function Run(lim: Limits, es: seq<Arrival>): Conn {
    if es == [] then Alive(map[], [])
    else Step(lim, Run(lim, es[..|es| - 1]), es[|es| - 1])
  }

  /** Payload lengths fit the address space, so sums of two of them fit a word. */
  predicate Sized(a: Arrival) {
    a.frame.Fragment? ==> |a.frame.data| < WORD / 4
  }

  // ---------------------------------------------------------------------------
  // Accounting
  // ---------------------------------------------------------------------------

  lemma {:induction false} HeldUpdate(fr: map<nat, Bytes>, k: nat, d: Bytes, n: nat)
    ensures Held(fr[k := d], n) == Held(fr, n) + (if k < n then |d| - (if k in fr then |fr[k]| else 0) else 0)
  {
    if n > 0 { HeldUpdate(fr, k, d, n - 1); }
  }

  lemma {:induction false} HeldPart(fr: map<nat, Bytes>, k: nat, n: nat)
    requires k in fr && k < n
    ensures |fr[k]| <= Held(fr, n)
  {
    if k < n - 1 { HeldPart(fr, k, n - 1); }
  }

  lemma {:induction false} HeldIsLength(fr: map<nat, Bytes>, n: nat)
    ensures |InOrder(fr, n)| == Held(fr, n)
  {
    if n > 0 { HeldIsLength(fr, n - 1); }
  }

  /** The two groupings of the accounting update agree: the subtraction may wrap below zero,
      the addition brings it back. */
  lemma WrappedUpdate(buffered: nat, len: nat, replaced: nat)
    requires replaced <= buffered && buffered + len < WORD
    ensures WrapAdd(buffered, WrapSub(len, replaced)) == buffered + len - replaced
  {
    if len >= replaced {
      assert WrapSub(len, replaced) == len - replaced;
    } else {
      assert WrapSub(len, replaced) == len - replaced + WORD;
    }
  }

  ghost predicate BufOk(b: Buf) {
    && b.total > 0
    && (forall k :: k in b.fragments ==> k < b.total)
    && |b.fragments| < b.total
    && b.buffered == Held(b.fragments, b.total)
    && b.buffered <= MAX_PAYLOAD_SIZE
  }

  ghost predicate Ok(lim: Limits, c: Conn) {
    c.Alive? ==> |c.bufs| <= lim.maxStreams && forall s :: s in c.bufs ==> BufOk(c.bufs[s])
  }

  /** Sequences below `n`. */
  function Below(n: nat): (r: set<nat>)
    ensures forall i: nat :: i in r <==> i < n
  {
    if n == 0 then {} else Below(n - 1) + {n - 1}
  }

  lemma {:induction false} BelowSize(n: nat)
    ensures |Below(n)| == n
  {
    if n > 0 {
      BelowSize(n - 1);
    }
  }

  /** The completeness test counts fragments; with sequences below `total` the count is
      reached exactly when every sequence is present. */
  lemma CountIsCoverage(fr: map<nat, Bytes>, total: nat)
    requires forall k :: k in fr ==> k < total
    ensures |fr| <= total
    ensures |fr| == total <==> fr.Keys == Below(total)
  {
    BelowSize(total);
    var all, missing := Below(total), Below(total) - fr.Keys;
    assert fr.Keys <= all;
    assert all == fr.Keys + missing;
    assert |fr.Keys| == |fr|;
  }

  lemma InsertAccounts(b: Buf, h: Header, data: Bytes)
    requires b.total == h.total && ValidHeader(h)
    requires forall k :: k in b.fragments ==> k < b.total
    requires b.buffered == Held(b.fragments, b.total) <= MAX_PAYLOAD_SIZE && |data| < WORD / 4
    ensures Insert(b, h, data).buffered == b.buffered + |data| - Replaced(b, h.sequence)
    ensures Insert(b, h, data).buffered == Held(Insert(b, h, data).fragments, b.total)
    ensures Replaced(b, h.sequence) <= b.buffered
  {
    if h.sequence in b.fragments {
      HeldPart(b.fragments, h.sequence, b.total);
    }
    WrappedUpdate(b.buffered, |data|, Replaced(b, h.sequence));
    HeldUpdate(b.fragments, h.sequence, data, b.total);
  }

  lemma {:induction false} HeldNothing(n: nat)
    ensures Held(map[], n) == 0
  {
    if n > 0 { HeldNothing(n - 1); }
  }

  lemma AbsorbOk(lim: Limits, open: Option<Buf>, h: Header, target: Target, data: Bytes, openAt: nat)
    requires ValidHeader(h) && |data| < WORD / 4
    requires open.Some? ==> BufOk(open.value)
    ensures var r := Absorb(lim, open, h, target, data, openAt);
            && (r.Kept? ==> BufOk(r.buf))
            && (r.Complete? ==> |r.msg.payload| <= MAX_PAYLOAD_SIZE)
  {
    var r := Absorb(lim, open, h, target, data, openAt);
    if !r.Refused? {
      var b := if open.Some? then open.value else Fresh(h, target, openAt);
      HeldNothing(h.total);
      InsertAccounts(b, h, data);
      var b' := Insert(b, h, data);
      CountIsCoverage(b'.fragments, b'.total);
      HeldIsLength(b'.fragments, b'.total);
    }
  }

  lemma PruneShrinks(lim: Limits, bufs: map<StreamId, Buf>, now: nat)
    ensures |Prune(lim, bufs, now)| <= |bufs|
  {
    var p := Prune(lim, bufs, now);
    assert p.Keys <= bufs.Keys;
    assert bufs.Keys == p.Keys + (bufs.Keys - p.Keys);
    assert |p.Keys| == |p| && |bufs.Keys| == |bufs|;
  }

  lemma ResizeBy(bufs: map<StreamId, Buf>, s: StreamId, b: Buf)
    ensures |bufs[s := b]| == |bufs| + (if s in bufs then 0 else 1)
    ensures |bufs - {s}| <= |bufs|
  {
    assert bufs[s := b].Keys == bufs.Keys + {s};
    assert (bufs - {s}).Keys == bufs.Keys - {s};
    assert |(bufs - {s}).Keys| == |bufs - {s}| && |bufs[s := b].Keys| == |bufs[s := b]| && |bufs.Keys| == |bufs|;
  }

  lemma StepOk(lim: Limits, c: Conn, a: Arrival)
    requires Ok(lim, c) && Sized(a)
    ensures Ok(lim, Step(lim, c, a))
  {
    if c.Alive? {
      var bufs := Prune(lim, c.bufs, a.at);
      PruneShrinks(lim, c.bufs, a.at);
      if a.frame.Fragment? && a.frame.header.Some? && ValidHeader(a.frame.header.value) {
        var h := a.frame.header.value;
        AbsorbOk(lim, Lookup(bufs, h.stream), h, a.frame.target, a.frame.data, a.openAt);
        var r := Absorb(lim, Lookup(bufs, h.stream), h, a.frame.target, a.frame.data, a.openAt);
        hide Absorb, BufOk, Prune;
        ResizeBy(bufs, h.stream, if r.Kept? then r.buf else Fresh(h, a.frame.target, a.openAt));
      }
    }
  }

  /** Everything a connection holds, over all its streams. */
  ghost function TotalHeld(bufs: map<StreamId, Buf>): nat {
    if bufs == map[] then 0
    else
      var s :| s in bufs;
      Held(bufs[s].fragments, bufs[s].total) + TotalHeld(bufs - {s})
  }

  lemma {:induction false} TotalBounded(bufs: map<StreamId, Buf>)
    requires forall s :: s in bufs ==> BufOk(bufs[s])
    ensures TotalHeld(bufs) <= |bufs| * MAX_PAYLOAD_SIZE
  {
    if bufs != map[] {
      var s :| s in bufs && TotalHeld(bufs) == Held(bufs[s].fragments, bufs[s].total) + TotalHeld(bufs - {s});
      TotalBounded(bufs - {s});
      assert (bufs - {s}).Keys == bufs.Keys - {s};
      assert |(bufs - {s}).Keys| == |bufs - {s}| && |bufs.Keys| == |bufs|;
    }
  }

  /** In every reachable state of a live connection the byte counts are the stored lengths,
      also after shorter and longer resends, and all caps hold. */
  lemma {:induction false} AccountingHolds(lim: Limits, es: seq<Arrival>)
    requires forall i :: 0 <= i < |es| ==> Sized(es[i])
    ensures Ok(lim, Run(lim, es))
    ensures Run(lim, es).Alive? ==> TotalHeld(Run(lim, es).bufs) <= lim.maxStreams * MAX_PAYLOAD_SIZE
  {
    if es != [] {
      AccountingHolds(lim, es[..|es| - 1]);
      StepOk(lim, Run(lim, es[..|es| - 1]), es[|es| - 1]);
    }
    var c := Run(lim, es);
    if c.Alive? {
      TotalBounded(c.bufs);
      assert |c.bufs| * MAX_PAYLOAD_SIZE <= lim.maxStreams * MAX_PAYLOAD_SIZE;
    }
  }

  // ---------------------------------------------------------------------------
  // Builds with overflow checks
  // ---------------------------------------------------------------------------

  /** The intermediate difference `new - replaced` wraps exactly for a shorter resend. */
  lemma WrapsForShorterResends(b: Buf, h: Header, data: Bytes)
    requires BufOk(b) && |data| < WORD / 4
    ensures WrapSub(|data|, Replaced(b, h.sequence)) != |data| - Replaced(b, h.sequence)
       <==> h.sequence in b.fragments && |data| < |b.fragments[h.sequence]|
  {
    if h.sequence in b.fragments {
      HeldPart(b.fragments, h.sequence, b.total);
    }
  }

  /** The frame repeats a sequence of the buffer then open, with fewer bytes. */
  predicate ShorterResend(lim: Limits, c: Conn, a: Arrival) {
    c.Alive? && a.frame.Fragment? && a.frame.header.Some? &&
    var h, bufs := a.frame.header.value, Prune(lim, c.bufs, a.at);
    h.stream in bufs && h.sequence in bufs[h.stream].fragments && |a.frame.data| < |bufs[h.stream].fragments[h.sequence]|
  }

  function Checked(lim: Limits): Limits {
    lim.(checked := true)
  }

  function Unchecked(lim: Limits): Limits {
    lim.(checked := false)
  }

  predicate NoShorterResend(lim: Limits, es: seq<Arrival>) {
    es == [] ||
    (NoShorterResend(lim, es[..|es| - 1])
     && !ShorterResend(lim, Run(Unchecked(lim), es[..|es| - 1]), es[|es| - 1]))
  }

  lemma CheckedAbsorb(lim: Limits, open: Option<Buf>, h: Header, target: Target, data: Bytes, openAt: nat)
    requires !Absorb(Unchecked(lim), open, h, target, data, openAt).Refused?
    ensures Absorb(Checked(lim), open, h, target, data, openAt)
         == if open.Some? && |data| < Replaced(open.value, h.sequence) then Refused
            else Absorb(Unchecked(lim), open, h, target, data, openAt)
  {
  }

  lemma CheckedStep(lim: Limits, c: Conn, a: Arrival)
    requires Step(Unchecked(lim), c, a).Alive?
    ensures Step(Checked(lim), c, a) == if ShorterResend(lim, c, a) then Gone else Step(Unchecked(lim), c, a)
  {
    var bufs := Prune(lim, c.bufs, a.at);
    assert Prune(Checked(lim), c.bufs, a.at) == bufs == Prune(Unchecked(lim), c.bufs, a.at);
    if a.frame.Fragment? {
      var h := a.frame.header.value;
      CheckedAbsorb(lim, Lookup(bufs, h.stream), h, a.frame.target, a.frame.data, a.openAt);
      hide Absorb, Prune;
    }
  }

  /** Over every run that a build without overflow checks survives: a build with them does the same
      if and only if no frame is a shorter resend to the buffer then open; otherwise it loses the
      connection. */
  lemma {:induction false} ChecksRefuseShorterResends(lim: Limits, es: seq<Arrival>)
    requires Run(Unchecked(lim), es).Alive?
    ensures Run(Checked(lim), es) == Run(Unchecked(lim), es) <==> NoShorterResend(lim, es)
    ensures !NoShorterResend(lim, es) ==> Run(Checked(lim), es).Gone?
  {
    if es != [] {
      hide ShorterResend, Prune, Absorb;
      ChecksRefuseShorterResends(lim, es[..|es| - 1]);
      CheckedStep(lim, Run(Unchecked(lim), es[..|es| - 1]), es[|es| - 1]);
    }
  }

  const ROOMY: Limits := Limits(10, 1, false)

  function Part(sequence: nat, data: Bytes): Arrival {
    Arrival(Fragment(Some(Header(7, sequence, 2)), [], data), 0, 0, true)
  }

  /** Such a run: the first of two fragments is sent again with one byte less. */
  const Resend: seq<Arrival> := [Part(0, [1, 2]), Part(0, [3]), Part(1, [4])]

  function Opened(data: Bytes): Conn {
    Alive(map[7 := Buf(map[0 := data], 2, [], 0, |data|)], [])
  }

  lemma PartOpens()
    ensures Step(Unchecked(ROOMY), Alive(map[], []), Part(0, [1, 2])) == Opened([1, 2])
  {
    var lim, h := Unchecked(ROOMY), Header(7, 0, 2);
    assert Prune(lim, map[], 0) == map[];
    assert Absorb(lim, None, h, [], [1, 2], 0) == Kept(Buf(map[0 := [1, 2]], 2, [], 0, 2)) by {
      WrappedUpdate(0, 2, 0);
      assert |map[0 := [1, 2]]| == 1;
    }
    hide Absorb, Prune;
  }

  lemma PartReplaces()
    ensures Step(Unchecked(ROOMY), Opened([1, 2]), Part(0, [3])) == Opened([3])
    ensures ShorterResend(ROOMY, Opened([1, 2]), Part(0, [3]))
  {
    var b := Opened([1, 2]).bufs[7];
    assert Prune(Unchecked(ROOMY), Opened([1, 2]).bufs, 0) == Prune(ROOMY, Opened([1, 2]).bufs, 0) == map[7 := b];
    WrappedUpdate(2, 1, 2);
    assert b.fragments[0 := [3]] == map[0 := [3]];
    assert |map[0 := [3]]| == 1;
  }

  lemma PartCompletes()
    ensures Step(Unchecked(ROOMY), Opened([3]), Part(1, [4])) == Alive(map[], [Message(Some(7), [], [3, 4])])
  {
    var lim, b, h := Unchecked(ROOMY), Opened([3]).bufs[7], Header(7, 1, 2);
    assert Prune(lim, Opened([3]).bufs, 0) == map[7 := b];
    assert Absorb(lim, Some(b), h, [], [4], 0) == Complete(Message(Some(7), [], [3, 4])) by {
      var fr := b.fragments[1 := [4]];
      assert fr.Keys == {0, 1};
      assert |fr| == |fr.Keys| == 2;
      assert InOrder(fr, 2) == InOrder(fr, 1) + [4] && InOrder(fr, 1) == InOrder(fr, 0) + [3];
    }
    hide Absorb, Prune;
    assert map[7 := b] - {7} == map[];
    assert [] + [Message(Some(7), [], [3, 4])] == [Message(Some(7), [], [3, 4])];
  }

  lemma RunPrefix(lim: Limits, es: seq<Arrival>, i: nat)
    requires i < |es|
    ensures Run(lim, es[..i + 1]) == Step(lim, Run(lim, es[..i]), es[i])
    ensures NoShorterResend(lim, es[..i + 1]) <==>
      NoShorterResend(lim, es[..i]) && !ShorterResend(lim, Run(Unchecked(lim), es[..i]), es[i])
  {
    assert es[..i + 1][..i] == es[..i];
  }

  lemma ShorterResendLosesConnection()
    ensures Run(Unchecked(ROOMY), Resend) == Alive(map[], [Message(Some(7), [], [3, 4])])
    ensures Run(Checked(ROOMY), Resend).Gone?
  {
    hide Step, ShorterResend, Opened, Part;
    var es := Resend;
    PartOpens();
    PartReplaces();
    PartCompletes();
    RunPrefix(Unchecked(ROOMY), es, 0);
    RunPrefix(Unchecked(ROOMY), es, 1);
    RunPrefix(Unchecked(ROOMY), es, 2);
    RunPrefix(ROOMY, es, 1);
    RunPrefix(ROOMY, es, 2);
    assert es[..0] == [] && es[..3] == es;
    ChecksRefuseShorterResends(ROOMY, es);
  }
}

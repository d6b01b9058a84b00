/** Exactness of reassembly. A stream is compared with a reference that only remembers what
    was received since its buffer opened, and any split of a payload is put together again. */
module ReassemblyExact {
  import opened Collections
  import opened Reassembly
  import opened ReassemblyStreams

  // ---------------------------------------------------------------------------
  // The reference: a list of what was received
  // ---------------------------------------------------------------------------

  datatype Piece = Piece(sequence: nat, data: Bytes)

  /** Everything received on a stream since its buffer opened, in arrival order. */
  datatype Record = Record(pieces: seq<Piece>, total: nat, target: Target, openAt: nat)

  function Received(pieces: seq<Piece>): set<nat> {
    set p | p in pieces :: p.sequence
  }

  /** The bytes that arrived last under sequence `i`. */
  function Latest(pieces: seq<Piece>, i: nat): Bytes {
    if pieces == [] then []
    else if pieces[|pieces| - 1].sequence == i then pieces[|pieces| - 1].data
    else Latest(pieces[..|pieces| - 1], i)
  }

  function Assembled(pieces: seq<Piece>, n: nat): Bytes {
    if n == 0 then [] else Assembled(pieces, n - 1) + Latest(pieces, n - 1)
  }

  datatype Ref = Ref(open: Option<Record>, log: seq<Message>) | RefBroken

  predicate Expired(lim: Limits, r: Record, now: nat) {
    (if now >= r.openAt then now - r.openAt else 0) >= lim.timeout
  }

  /** A fragment is refused when its total disagrees, when the latest bytes together would
      exceed the cap, and, with overflow checks, when it is shorter than what it replaces. */
  function RefStep(lim: Limits, s: StreamId, r: Ref, a: Arrival): Ref {
    if r.RefBroken? || !OnStream(a, s) then r
    else
      var h := a.frame.header.value;
      var now := if r.open.Some? && Expired(lim, r.open.value, a.at) then None else r.open;
      if !ValidHeader(h) || (now.Some? && now.value.total != h.total) then RefBroken
      else
        var rec := if now.Some? then now.value else Record([], h.total, a.frame.target, a.openAt);
        var pieces := rec.pieces + [Piece(h.sequence, a.frame.data)];
        if |Assembled(pieces, h.total)| > MAX_PAYLOAD_SIZE then RefBroken
        else if lim.checked && |a.frame.data| < |Latest(rec.pieces, h.sequence)| then RefBroken
        else if Received(pieces) != Below(h.total) then Ref(Some(rec.(pieces := pieces)), r.log)
        else if a.accepted then Ref(None, r.log + [Message(Some(s), rec.target, Assembled(pieces, h.total))])
        else RefBroken
  }

  function RefRun(lim: Limits, s: StreamId, es: seq<Arrival>): Ref {
    if es == [] then Ref(None, []) else RefStep(lim, s, RefRun(lim, s, es[..|es| - 1]), es[|es| - 1])
  }

  // ---------------------------------------------------------------------------
  // The buffers implement the reference
  // ---------------------------------------------------------------------------

  function Table(pieces: seq<Piece>): map<nat, Bytes> {
    if pieces == [] then map[]
    else Table(pieces[..|pieces| - 1])[pieces[|pieces| - 1].sequence := pieces[|pieces| - 1].data]
  }

  lemma {:induction false} TableIsLatest(pieces: seq<Piece>)
    ensures Table(pieces).Keys == Received(pieces)
    ensures forall i: nat :: Latest(pieces, i) == if i in Table(pieces) then Table(pieces)[i] else []
  {
    if pieces != [] {
      var front, p := pieces[..|pieces| - 1], pieces[|pieces| - 1];
      TableIsLatest(front);
      assert pieces == front + [p];
      assert Received(pieces) == Received(front) + {p.sequence};
    }
  }

  lemma {:induction false} AssembledIsInOrder(pieces: seq<Piece>, n: nat)
    ensures Assembled(pieces, n) == InOrder(Table(pieces), n)
  {
    TableIsLatest(pieces);
    if n > 0 { AssembledIsInOrder(pieces, n - 1); }
  }

  ghost predicate Implements(b: Buf, r: Record) {
    && BufOk(b)
    && b.fragments == Table(r.pieces) && b.total == r.total && b.target == r.target && b.firstSeen == r.openAt
  }

  ghost predicate OpenAgrees(open: Option<Buf>, rec: Option<Record>) {
    (open.Some? <==> rec.Some?) && (open.Some? ==> Implements(open.value, rec.value))
  }

  ghost predicate Agrees(l: Lane, r: Ref) {
    (l.Broken? <==> r.RefBroken?) && (l.Lane? ==> l.log == r.log && OpenAgrees(l.open, r.open))
  }

  /** One fragment: the count test and the byte counter decide as the reference does. */
  lemma AbsorbAgrees(lim: Limits, open: Option<Buf>, now: Option<Record>, h: Header, target: Target, data: Bytes, openAt: nat)
    requires OpenAgrees(open, now) && ValidHeader(h) && |data| < WORD / 4
    requires now.Some? ==> now.value.total == h.total
    ensures var r := Absorb(lim, open, h, target, data, openAt);
            var rec := if now.Some? then now.value else Record([], h.total, target, openAt);
            var pieces := rec.pieces + [Piece(h.sequence, data)];
            && (r.Refused? <==>
                  |Assembled(pieces, h.total)| > MAX_PAYLOAD_SIZE
                  || (lim.checked && |data| < |Latest(rec.pieces, h.sequence)|))
            && (r.Complete? ==>
                  && Received(pieces) == Below(h.total)
                  && r.msg == Message(Some(h.stream), rec.target, Assembled(pieces, h.total)))
            && (r.Kept? ==> Received(pieces) != Below(h.total) && Implements(r.buf, rec.(pieces := pieces)))
  {
    var r := Absorb(lim, open, h, target, data, openAt);
    var rec := if now.Some? then now.value else Record([], h.total, target, openAt);
    var b := if open.Some? then open.value else Fresh(h, target, openAt);
    var pieces := rec.pieces + [Piece(h.sequence, data)];
    HeldNothing(h.total);
    InsertAccounts(b, h, data);
    var b' := Insert(b, h, data);
    assert pieces[..|pieces| - 1] == rec.pieces;
    assert b'.fragments == Table(pieces);
    TableIsLatest(rec.pieces);
    TableIsLatest(pieces);
    AssembledIsInOrder(pieces, h.total);
    HeldIsLength(b'.fragments, h.total);
    CountIsCoverage(b'.fragments, h.total);
  }

  lemma LaneAgreesStep(lim: Limits, s: StreamId, l: Lane, r: Ref, a: Arrival)
    requires Agrees(l, r) && Sized(a)
    ensures Agrees(LaneStep(lim, s, l, a), RefStep(lim, s, r, a))
  {
    if l.Lane? && OnStream(a, s) && ValidHeader(a.frame.header.value) {
      var h := a.frame.header.value;
      var open := Refreshed(lim, l.open, a.at);
      var now := if r.open.Some? && Expired(lim, r.open.value, a.at) then None else r.open;
      assert OpenAgrees(open, now);
      if now.Some? && now.value.total != h.total {
        assert Absorb(lim, open, h, a.frame.target, a.frame.data, a.openAt).Refused?;
      } else {
        AbsorbAgrees(lim, open, now, h, a.frame.target, a.frame.data, a.openAt);
        hide Absorb, Assembled, Received, Latest, BufOk, Table;
      }
    }
  }

  lemma {:induction false} LaneAgreesRun(lim: Limits, s: StreamId, es: seq<Arrival>)
    requires forall i :: 0 <= i < |es| ==> Sized(es[i])
    ensures Agrees(LaneRun(lim, s, es), RefRun(lim, s, es))
  {
    if es != [] {
      LaneAgreesRun(lim, s, es[..|es| - 1]);
      hide LaneStep, RefStep, Agrees;
      LaneAgreesStep(lim, s, LaneRun(lim, s, es[..|es| - 1]), RefRun(lim, s, es[..|es| - 1]), es[|es| - 1]);
    }
  }

  /** A live connection emits a message for a stream exactly when the sequences received
      since its buffer opened cover the total, and the message is the latest bytes of each
      sequence in order: its output is the reference's. */
  lemma EmissionsAreExact(lim: Limits, es: seq<Arrival>, s: StreamId)
    requires Clock(es) && Run(lim, es).Alive?
    requires forall i :: 0 <= i < |es| ==> Sized(es[i])
    ensures RefRun(lim, s, es).Ref?
    ensures EmittedFor(Run(lim, es).log, s) == RefRun(lim, s, es).log
  {
    RunProjects(lim, es, s);
    LaneAgreesRun(lim, s, es);
  }

  // ---------------------------------------------------------------------------
  // Round trip
  // ---------------------------------------------------------------------------

  function Flatten(chunks: seq<Bytes>): Bytes {
    if chunks == [] then [] else Flatten(chunks[..|chunks| - 1]) + chunks[|chunks| - 1]
  }

  /** Frame `a` carries chunk `k` of the split, before the buffer opened at `first` times out. */
  predicate Carries(lim: Limits, s: StreamId, chunks: seq<Bytes>, k: nat, a: Arrival, first: nat) {
    && k < |chunks|
    && a.accepted && a.frame.Fragment?
    && a.frame.header == Some(Header(s, k, |chunks|))
    && a.frame.data == chunks[k]
    && a.at < first + lim.timeout
  }

  /** `es` delivers the chunks of a split in the order `ord`, repeats included: every chunk
      at least once, complete with the last frame and not before, in time. */
  ghost predicate Delivers(lim: Limits, s: StreamId, chunks: seq<Bytes>, ord: seq<nat>, es: seq<Arrival>) {
    && 0 < |es| == |ord| && lim.timeout > 0
    && (forall i :: 0 <= i < |es| ==> Carries(lim, s, chunks, ord[i], es[i], es[0].openAt))
    && Elems(ord) == Below(|chunks|)
    && Elems(ord[..|ord| - 1]) != Below(|chunks|)
  }

  /** What has been received when the chunks arrived in the order `ord`. */
  function Pieces(chunks: seq<Bytes>, ord: seq<nat>): seq<Piece>
    requires forall i :: 0 <= i < |ord| ==> ord[i] < |chunks|
  {
    seq(|ord|, i requires 0 <= i < |ord| => Piece(ord[i], chunks[ord[i]]))
  }

  lemma {:induction false} PiecesHold(chunks: seq<Bytes>, ord: seq<nat>)
    requires forall i :: 0 <= i < |ord| ==> ord[i] < |chunks|
    ensures Received(Pieces(chunks, ord)) == Elems(ord)
    ensures forall k :: 0 <= k < |chunks| ==> Latest(Pieces(chunks, ord), k) == if k in ord then chunks[k] else []
  {
    if ord != [] {
      var front, k := ord[..|ord| - 1], ord[|ord| - 1];
      PiecesHold(chunks, front);
      assert ord == front + [k];
      assert Pieces(chunks, ord) == Pieces(chunks, front) + [Piece(k, chunks[k])];
      assert Received(Pieces(chunks, ord)) == Received(Pieces(chunks, front)) + {k};
      assert Pieces(chunks, ord)[..|ord| - 1] == Pieces(chunks, front);
    }
  }

  /** Part of a split assembles to at most the payload, all of it to the payload. */
  lemma {:induction false} PartAssembles(chunks: seq<Bytes>, pieces: seq<Piece>, n: nat)
    requires n <= |chunks|
    requires forall k :: 0 <= k < |chunks| ==> Latest(pieces, k) == chunks[k] || Latest(pieces, k) == []
    ensures |Assembled(pieces, n)| <= |Flatten(chunks[..n])|
    ensures (forall k :: 0 <= k < n ==> Latest(pieces, k) == chunks[k]) ==> Assembled(pieces, n) == Flatten(chunks[..n])
  {
    if n > 0 {
      PartAssembles(chunks, pieces, n - 1);
      assert chunks[..n][..n - 1] == chunks[..n - 1];
    }
  }

  /** Nothing older is in the way of a frame that arrives at `at`. */
  predicate Clear(lim: Limits, r: Ref, at: nat) {
    r.Ref? && (r.open.Some? ==> Expired(lim, r.open.value, at))
  }

  /** The reference halfway through a delivery that began at `base`. */
  function Halfway(base: Ref, chunks: seq<Bytes>, ord: seq<nat>, first: Arrival): Ref
    requires base.Ref? && first.frame.Fragment? && forall i :: 0 <= i < |ord| ==> ord[i] < |chunks|
  {
    if ord == [] then base
    else Ref(Some(Record(Pieces(chunks, ord), |chunks|, first.frame.target, first.openAt)), base.log)
  }

  lemma AllArrived(chunks: seq<Bytes>, ord: seq<nat>)
    requires forall i :: 0 <= i < |ord| ==> ord[i] < |chunks|
    requires Elems(ord) == Below(|chunks|)
    ensures Assembled(Pieces(chunks, ord), |chunks|) == Flatten(chunks)
  {
    hide Assembled, Flatten, Pieces;
    PiecesHold(chunks, ord);
    forall k: nat | k < |chunks| ensures Latest(Pieces(chunks, ord), k) == chunks[k] {
      assert k in Elems(ord);
    }
    PartAssembles(chunks, Pieces(chunks, ord), |chunks|);
    assert chunks[..|chunks|] == chunks;
  }

  /** What one more chunk adds to the record. */
  lemma ChunkAdds(chunks: seq<Bytes>, ord: seq<nat>, k: nat)
    requires k < |chunks| && |Flatten(chunks)| <= MAX_PAYLOAD_SIZE
    requires forall i :: 0 <= i < |ord| ==> ord[i] < |chunks|
    ensures Pieces(chunks, ord) + [Piece(k, chunks[k])] == Pieces(chunks, ord + [k])
    ensures |Assembled(Pieces(chunks, ord + [k]), |chunks|)| <= MAX_PAYLOAD_SIZE
    ensures |Latest(Pieces(chunks, ord), k)| <= |chunks[k]|
    ensures Received(Pieces(chunks, ord + [k])) == Elems(ord + [k])
  {
    assert Pieces(chunks, ord) + [Piece(k, chunks[k])] == Pieces(chunks, ord + [k]);
    hide Assembled, Flatten, Pieces;
    PiecesHold(chunks, ord);
    PiecesHold(chunks, ord + [k]);
    PartAssembles(chunks, Pieces(chunks, ord + [k]), |chunks|);
    assert chunks[..|chunks|] == chunks;
  }

  /** One more chunk of the split: it is never refused, and completes the message exactly when
      the last missing chunk arrives. */
  lemma ChunkArrives(lim: Limits, s: StreamId, base: Ref, chunks: seq<Bytes>, ord: seq<nat>, k: nat, a: Arrival, first: Arrival)
    requires Clear(lim, base, first.at) && lim.timeout > 0 && |Flatten(chunks)| <= MAX_PAYLOAD_SIZE
    requires forall i :: 0 <= i < |ord| ==> ord[i] < |chunks|
    requires Carries(lim, s, chunks, k, a, first.openAt) && first.frame.Fragment? && (ord == [] ==> a == first)
    ensures RefStep(lim, s, Halfway(base, chunks, ord, first), a)
         == if Elems(ord + [k]) == Below(|chunks|)
            then Ref(None, base.log + [Message(Some(s), first.frame.target, Flatten(chunks))])
            else Halfway(base, chunks, ord + [k], first)
  {
    hide Flatten, Assembled, Received, Latest, Elems, Below, Pieces;
    ChunkAdds(chunks, ord, k);
    if Elems(ord + [k]) == Below(|chunks|) {
      AllArrived(chunks, ord + [k]);
    }
    NoPieces(chunks);
    var open := Halfway(base, chunks, ord, first).open;
    assert ord != [] ==> open.Some? && !Expired(lim, open.value, a.at);
    var rec := Record(Pieces(chunks, ord), |chunks|, first.frame.target, first.openAt);
    assert ord == [] ==> Record([], |chunks|, a.frame.target, a.openAt) == rec;
    assert rec.pieces + [Piece(k, a.frame.data)] == Pieces(chunks, ord + [k]);
  }

  lemma NoPieces(chunks: seq<Bytes>)
    ensures Pieces(chunks, []) == []
  {
  }

  lemma RefRunSnoc(lim: Limits, s: StreamId, es: seq<Arrival>, a: Arrival)
    ensures RefRun(lim, s, es + [a]) == RefStep(lim, s, RefRun(lim, s, es), a)
  {
    assert (es + [a])[..|es + [a]| - 1] == es;
  }

  /** The frames of a delivery, one by one. */
  lemma DeliveryAt(lim: Limits, s: StreamId, chunks: seq<Bytes>, ord: seq<nat>, es: seq<Arrival>, i: nat)
    requires Delivers(lim, s, chunks, ord, es) && i < |es|
    ensures |ord| == |es|
    ensures Carries(lim, s, chunks, ord[i], es[i], es[0].openAt) && es[0].frame.Fragment?
    ensures forall n :: 0 <= n < |ord| ==> ord[n] < |chunks|
    ensures lim.timeout > 0 && Elems(ord[..|ord| - 1]) != Below(|chunks|) && Elems(ord) == Below(|chunks|)
  {
    assert Carries(lim, s, chunks, ord[0], es[0], es[0].openAt);
  }

  lemma DeliveryNotEmpty(lim: Limits, s: StreamId, chunks: seq<Bytes>, ord: seq<nat>, es: seq<Arrival>)
    requires Delivers(lim, s, chunks, ord, es)
    ensures |es| > 0
  {
  }

  lemma {:induction false} DeliveredPrefix(
    lim: Limits, s: StreamId, past: seq<Arrival>, chunks: seq<Bytes>, ord: seq<nat>, es: seq<Arrival>, n: nat)
    requires Delivers(lim, s, chunks, ord, es) && |Flatten(chunks)| <= MAX_PAYLOAD_SIZE
    requires n < |es| && Clear(lim, RefRun(lim, s, past), es[0].at)
    ensures es[0].frame.Fragment? && forall i :: 0 <= i < |ord| ==> ord[i] < |chunks|
    ensures RefRun(lim, s, past + es[..n]) == Halfway(RefRun(lim, s, past), chunks, ord[..n], es[0])
  {
    hide Delivers, RefStep, Elems, Below, Flatten, Carries;
    DeliveryAt(lim, s, chunks, ord, es, 0);
    if n == 0 {
      assert past + es[..0] == past && ord[..0] == [];
    } else {
      hide RefRun, Halfway;
      var m := n - 1;
      DeliveredPrefix(lim, s, past, chunks, ord, es, m);
      DeliveryAt(lim, s, chunks, ord, es, m);
      NotYetComplete(chunks, ord, n);
      RefRunSnoc(lim, s, past + es[..m], es[m]);
      assert past + es[..n] == past + es[..m] + [es[m]];
      assert ord[..n] == ord[..m] + [ord[m]];
      ChunkArrives(lim, s, RefRun(lim, s, past), chunks, ord[..m], ord[m], es[m], es[0]);
    }
  }

  lemma NotYetComplete(chunks: seq<Bytes>, ord: seq<nat>, n: nat)
    requires 0 < n < |ord| && (forall i :: 0 <= i < |ord| ==> ord[i] < |chunks|)
    requires Elems(ord[..|ord| - 1]) != Below(|chunks|)
    ensures Elems(ord[..n]) != Below(|chunks|)
  {
    var all := Elems(ord[..|ord| - 1]);
    forall i | i in ord[..n] ensures i in all {
      var j :| 0 <= j < n && ord[j] == i;
      assert ord[..|ord| - 1][j] == i;
    }
    assert all <= Below(|chunks|);
  }

  /** The lane of a stream holds nothing, or only what a frame at `at` finds timed out. */
  predicate LaneClear(lim: Limits, l: Lane, at: nat) {
    l.Lane? && (l.open.Some? ==> Stale(lim, l.open.value, at))
  }

  /** Any split of a payload within the cap, delivered in any order with repeats, gives the payload
      back in one message with the first frame's target, whatever the stream carried before, as
      long as its buffer is gone or timed out when the first frame arrives. */
  lemma RoundTrip(lim: Limits, s: StreamId, past: seq<Arrival>, chunks: seq<Bytes>, ord: seq<nat>, es: seq<Arrival>)
    requires Delivers(lim, s, chunks, ord, es) && |Flatten(chunks)| <= MAX_PAYLOAD_SIZE
    requires forall i :: 0 <= i < |past| ==> Sized(past[i])
    requires LaneClear(lim, LaneRun(lim, s, past), es[0].at)
    ensures LaneRun(lim, s, past + es)
         == Lane(None, LaneRun(lim, s, past).log + [Message(Some(s), es[0].frame.target, Flatten(chunks))])
  {
    DeliveriesFit(lim, s, chunks, ord, es);
    hide RefRun, LaneRun, Delivers, Flatten;
    LaneAgreesRun(lim, s, past);
    LastChunk(lim, s, past, chunks, ord, es);
    LaneAgreesRun(lim, s, past + es);
  }

  lemma LastChunk(lim: Limits, s: StreamId, past: seq<Arrival>, chunks: seq<Bytes>, ord: seq<nat>, es: seq<Arrival>)
    requires Delivers(lim, s, chunks, ord, es) && |Flatten(chunks)| <= MAX_PAYLOAD_SIZE
    requires Clear(lim, RefRun(lim, s, past), es[0].at)
    ensures es[0].frame.Fragment?
    ensures RefRun(lim, s, past + es)
         == Ref(None, RefRun(lim, s, past).log + [Message(Some(s), es[0].frame.target, Flatten(chunks))])
  {
    hide Delivers, RefStep, RefRun, Halfway, Elems, Below, Flatten, Carries, Pieces;
    DeliveryNotEmpty(lim, s, chunks, ord, es);
    var m := |es| - 1;
    DeliveryAt(lim, s, chunks, ord, es, m);
    DeliveredPrefix(lim, s, past, chunks, ord, es, m);
    RefRunSnoc(lim, s, past + es[..m], es[m]);
    assert past + es == past + es[..m] + [es[m]];
    assert ord == ord[..m] + [ord[m]];
    ChunkArrives(lim, s, RefRun(lim, s, past), chunks, ord[..m], ord[m], es[m], es[0]);
  }

  lemma DeliveriesFit(lim: Limits, s: StreamId, chunks: seq<Bytes>, ord: seq<nat>, es: seq<Arrival>)
    requires Delivers(lim, s, chunks, ord, es) && |Flatten(chunks)| <= MAX_PAYLOAD_SIZE
    ensures forall i :: 0 <= i < |es| ==> Sized(es[i])
    ensures es[0].frame.Fragment?
  {
    hide Flatten, Elems, Below;
    forall i | 0 <= i < |es| ensures Sized(es[i]) && es[i].frame.Fragment? {
      assert Carries(lim, s, chunks, ord[i], es[i], es[0].openAt);
      ChunkFits(chunks, ord[i]);
    }
  }

  lemma {:induction false} ChunkFits(chunks: seq<Bytes>, k: nat)
    requires k < |chunks| && |Flatten(chunks)| <= MAX_PAYLOAD_SIZE
    ensures |chunks[k]| < WORD / 4
  {
    if k < |chunks| - 1 {
      ChunkFits(chunks[..|chunks| - 1], k);
    }
  }

  lemma {:induction false} OnlyConcat(es: seq<Arrival>, more: seq<Arrival>, s: StreamId)
    ensures Only(es + more, s) == Only(es, s) + Only(more, s)
  {
    if more == [] {
      assert es + more == es;
    } else {
      var front, a := more[..|more| - 1], more[|more| - 1];
      OnlyConcat(es, front, s);
      assert (es + more)[..|es + more| - 1] == es + front;
    }
  }

  lemma {:induction false} OnlyFrom(es: seq<Arrival>, s: StreamId)
    ensures forall a :: a in Only(es, s) ==> a in es
  {
    if es != [] {
      OnlyFrom(es[..|es| - 1], s);
      assert es == es[..|es| - 1] + [es[|es| - 1]];
    }
  }

  /** The connection holds nothing of the stream, or only what a frame at `at` finds timed out. */
  predicate ConnClear(lim: Limits, c: Conn, s: StreamId, at: nat) {
    c.Alive? && (s in c.bufs ==> Stale(lim, c.bufs[s], at))
  }

  lemma ClearProjects(lim: Limits, past: seq<Arrival>, s: StreamId, at: nat)
    requires Clock(past) && LastTime(past) <= at && ConnClear(lim, Run(lim, past), s, at)
    ensures LaneClear(lim, LaneRun(lim, s, past), at)
    ensures LaneRun(lim, s, past).log == EmittedFor(Run(lim, past).log, s)
  {
    RunProjects(lim, past, s);
  }

  /** The same in the middle of other traffic: after anything that left no open buffer of the stream,
      or one that is timed out by then, and whatever else arrives, a connection that lives emits
      exactly one more message for the stream, with the payload. */
  lemma RoundTripAmongOthers(
    lim: Limits, s: StreamId, past: seq<Arrival>, chunks: seq<Bytes>, ord: seq<nat>, es: seq<Arrival>)
    requires Clock(past + es) && Run(lim, past + es).Alive?
    requires forall i :: 0 <= i < |past| ==> Sized(past[i])
    requires Delivers(lim, s, chunks, ord, Only(es, s)) && |Flatten(chunks)| <= MAX_PAYLOAD_SIZE
    requires ConnClear(lim, Run(lim, past), s, Only(es, s)[0].at)
    ensures EmittedFor(Run(lim, past + es).log, s)
         == EmittedFor(Run(lim, past).log, s) + [Message(Some(s), Only(es, s)[0].frame.target, Flatten(chunks))]
  {
    var own := Only(es, s);
    FirstIsLater(past, es, s);
    hide Run, LaneRun, EmittedFor, Delivers, Flatten, Only;
    ClearProjects(lim, past, s, own[0].at);
    LaneRunOnly(lim, s, past);
    LaneRunOnly(lim, s, past + es);
    OnlyConcat(past, es, s);
    OnlySized(past, s);
    RoundTrip(lim, s, Only(past, s), chunks, ord, own);
    RunProjects(lim, past + es, s);
  }

  lemma OnlySized(es: seq<Arrival>, s: StreamId)
    requires forall i :: 0 <= i < |es| ==> Sized(es[i])
    ensures forall i :: 0 <= i < |Only(es, s)| ==> Sized(Only(es, s)[i])
  {
    OnlyFrom(es, s);
    forall i | 0 <= i < |Only(es, s)| ensures Sized(Only(es, s)[i]) {
      assert Only(es, s)[i] in es;
    }
  }

  lemma FirstIsLater(past: seq<Arrival>, es: seq<Arrival>, s: StreamId)
    requires Clock(past + es) && Only(es, s) != []
    ensures Clock(past) && LastTime(past) <= Only(es, s)[0].at
  {
    OnlyFrom(es, s);
    assert Only(es, s)[0] in es;
    var j :| 0 <= j < |es| && es[j] == Only(es, s)[0];
    assert (past + es)[|past| + j] == es[j];
    forall i, k | 0 <= i < k < |past| ensures past[i].at <= past[k].at {
      assert (past + es)[i] == past[i] && (past + es)[k] == past[k];
    }
    if past != [] {
      assert (past + es)[|past| - 1] == past[|past| - 1];
    }
  }
}

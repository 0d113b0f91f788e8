/** From sendData to the sockets: first in, first out, nothing lost or invented,
    over all runs. */
module SendPipeline {
  import opened Common
  import opened PeerPrivate
  import opened NodeState

  function Buffers(hs: seq<Handled>): seq<OutBuffer> {
    seq(|hs|, i requires 0 <= i < |hs| => hs[i].buffer)
  }

  /** What one handled buffer put on the wire to `id`. */
  function Portion(h: Handled, id: nat): Bytes {
    if h.buffer.id == id && h.fate.Taken? && h.fate.amount <= |h.buffer.data|
    then h.buffer.data[..h.fate.amount]
    else []
  }

  function Portions(hs: seq<Handled>, id: nat): seq<Bytes> {
    seq(|hs|, i requires 0 <= i < |hs| => Portion(hs[i], id))
  }

  /** The buffers meant for `id`, whole. */
  function Whole(h: Handled, id: nat): Bytes {
    if h.buffer.id == id then h.buffer.data else []
  }

  function Wholes(hs: seq<Handled>, id: nat): seq<Bytes> {
    seq(|hs|, i requires 0 <= i < |hs| => Whole(hs[i], id))
  }

  ghost predicate FateFits(h: Handled) {
    h.fate.Taken? ==> 1 <= h.fate.amount <= |h.buffer.data|
  }

  /** What the user is told of the handling of queued buffers. */
  datatype Note = Took(id: nat, amount: nat) | Missing

  const MISSING := Message("Send Error", "Specified peer does not exist.")

  function NoteOfEvent(e: Event): seq<Note> {
    match e
    case Sent(id, n, _) => [Took(id, n)]
    case SendFailed(msg) => if msg == MISSING then [Missing] else []
    case _ => []
  }

  function NoteOfHandled(h: Handled): seq<Note> {
    match h.fate
    case Taken(n) => [Took(h.buffer.id, n)]
    case Gone(told) => if told then [Missing] else []
    case _ => []
  }

  function Notes(log: seq<Event>): seq<Note> {
    if log == [] then [] else NoteOfEvent(log[0]) + Notes(log[1..])
  }

  function NotesDue(hs: seq<Handled>): seq<Note> {
    if hs == [] then [] else NotesDue(hs[..|hs| - 1]) + NoteOfHandled(hs[|hs| - 1])
  }

  ghost predicate Pipeline(s: State) {
    && s.h.accepted == Buffers(s.h.handled) + s.outbox
    && (forall h :: h in s.h.handled ==> FateFits(h))
    && (forall id: nat :: OnWire(s, id) == Flatten(Portions(s.h.handled, id)))
    && Notes(s.h.log) == NotesDue(s.h.handled)
  }

  lemma {:induction false} NotesAppend(xs: seq<Event>, ys: seq<Event>)
    ensures Notes(xs + ys) == Notes(xs) + Notes(ys)
  {
    if xs == [] {
      assert xs + ys == ys;
    } else {
      assert (xs + ys)[1..] == xs[1..] + ys;
      NotesAppend(xs[1..], ys);
    }
  }

  lemma OneNote(e: Event)
    ensures Notes([e]) == NoteOfEvent(e)
  {
    assert [e][1..] == [];
    assert Notes([e][1..]) == [];
  }

  /** Steps that touch neither the queue nor the send events. */
  lemma PipelineStays(s: State, t: State, es: seq<Event>)
    requires Pipeline(s)
    requires t.outbox == s.outbox && t.h.accepted == s.h.accepted && t.h.handled == s.h.handled && t.h.wire == s.h.wire
    requires t.h.log == s.h.log + es && Notes(es) == []
    ensures Pipeline(t)
  {
    NotesAppend(s.h.log, es);
    forall id: nat ensures OnWire(t, id) == Flatten(Portions(t.h.handled, id)) {
      assert OnWire(s, id) == Flatten(Portions(s.h.handled, id));
    }
  }

  lemma {:induction false} SweepHasNoNotes(peers: map<nat, PeerData>, order: seq<nat>, recv: nat -> ReceiveAnswer)
    ensures Notes(SweepLog(peers, order, recv)) == []
    decreases |order|
  {
    if order == [] {
    } else {
      var id := order[0];
      if id in peers {
        var peers1 := peers[id := SweepPeer(peers[id], recv(id))];
        SweepHasNoNotes(peers1, order[1..], recv);
        var es := SweepEvents(id, peers[id], recv(id));
        NotesAppend(es, SweepLog(peers1, order[1..], recv));
        if es != [] { OneNote(es[0]); assert es == [es[0]]; }
      } else {
        SweepHasNoNotes(peers, order[1..], recv);
      }
    }
  }

  lemma {:induction false} MarksHaveNoNotes(order: seq<nat>)
    ensures Notes(AllMarked(order)) == []
  {
    if order == [] {
    } else {
      assert AllMarked(order)[1..] == AllMarked(order[1..]);
      MarksHaveNoNotes(order[1..]);
    }
  }

  lemma SectionKeepsPipeline(s: State, order: seq<nat>, acc: AcceptAnswer, recv: nat -> ReceiveAnswer, told: bool)
    requires Pipeline(s)
    ensures Pipeline(DoListenSection(s, order, acc, recv, told))
  {
    var s1 := DoAccept(s, acc);
    assert Pipeline(s1) by {
      var es := s1.h.log[|s.h.log|..];
      assert s1.h.log == s.h.log + es;
      if es != [] { OneNote(es[0]); assert es == [es[0]]; }
      PipelineStays(s, s1, es);
    }
    var s2 := DoSweep(s1, order, recv);
    SweepHasNoNotes(s1.peers, order, recv);
    PipelineStays(s1, s2, SweepLog(s1.peers, order, recv));
    var m := FirstMarked(s2.peers, order);
    if m.Some? && m.value in s2.peers {
      var e := Ended(m.value, s2.peers[m.value].disconn, s2.peers[m.value].errmsg, told);
      OneNote(e);
      PipelineStays(s2, DoDelete(s2, order, told), [e]);
    }
  }

  lemma SendDataKeepsPipeline(s: State, to: PeerData, data: Bytes, told: bool)
    requires Pipeline(s)
    ensures Pipeline(DoSendData(s, to, data, told))
  {
    var t := DoSendData(s, to, data, told);
    if PeerExists(s, to.id) {
      assert t.h.accepted == Buffers(t.h.handled) + t.outbox;
      forall id: nat ensures OnWire(t, id) == Flatten(Portions(t.h.handled, id)) {
        assert OnWire(s, id) == Flatten(Portions(s.h.handled, id));
      }
    } else if told {
      var e := SendFailed(NotConnected(to));
      assert NotConnected(to).body[0] == 'C' && MISSING.body[0] == 'S';
      OneNote(e);
      PipelineStays(s, t, [e]);
    } else {
      assert s.h.log + [] == s.h.log;
      PipelineStays(s, t, []);
    }
  }

  lemma HandledOne(hs: seq<Handled>, h: Handled, id: nat)
    ensures Flatten(Portions(hs + [h], id)) == Flatten(Portions(hs, id)) + Portion(h, id)
    ensures NotesDue(hs + [h]) == NotesDue(hs) + NoteOfHandled(h)
  {
    assert Portions(hs + [h], id) == Portions(hs, id) + [Portion(h, id)];
    FlattenSnoc(Portions(hs, id), Portion(h, id));
    assert (hs + [h])[..|hs|] == hs;
  }

  /** The wire after one handling: the portion goes to its peer only. */
  lemma SendOneWire(s: State, o: SendAnswer, id: nat)
    requires Enabled(s, SendOne(o))
    ensures OnWire(DoSendOne(s, o), id) ==
            OnWire(s, id) + Portion(Handled(s.outbox[0], FateOf(s, s.outbox[0], o)), id)
  {
  }

  lemma SendOneNotes(s: State, o: SendAnswer)
    requires Enabled(s, SendOne(o))
    ensures Notes(DoSendOne(s, o).h.log) ==
            Notes(s.h.log) + NoteOfHandled(Handled(s.outbox[0], FateOf(s, s.outbox[0], o)))
  {
    var t := DoSendOne(s, o);
    var es := t.h.log[|s.h.log|..];
    assert t.h.log == s.h.log + es;
    NotesAppend(s.h.log, es);
    if es != [] {
      OneNote(es[0]);
      assert es == [es[0]];
    }
  }

  lemma QueueMoves(hs: seq<Handled>, h: Handled, queue: seq<OutBuffer>, rest: seq<OutBuffer>)
    requires queue == [h.buffer] + rest
    ensures Buffers(hs) + queue == Buffers(hs + [h]) + rest
  {
    assert Buffers(hs + [h]) == Buffers(hs) + [h.buffer];
  }

  lemma HandlingKeepsPipeline(s: State, t: State, h: Handled)
    requires Pipeline(s) && FateFits(h)
    requires t.h.handled == s.h.handled + [h] && s.outbox == [h.buffer] + t.outbox && t.h.accepted == s.h.accepted
    requires forall id: nat :: OnWire(t, id) == OnWire(s, id) + Portion(h, id)
    requires Notes(t.h.log) == Notes(s.h.log) + NoteOfHandled(h)
    ensures Pipeline(t)
  {
    var hs := s.h.handled;
    QueueMoves(hs, h, s.outbox, t.outbox);
    forall id: nat ensures OnWire(t, id) == Flatten(Portions(hs + [h], id)) {
      HandledOne(hs, h, id);
    }
    assert NotesDue(hs + [h]) == NotesDue(hs) + NoteOfHandled(h) by { HandledOne(hs, h, 0); }
  }

  lemma SendOneKeepsPipeline(s: State, o: SendAnswer)
    requires Pipeline(s) && Enabled(s, SendOne(o))
    ensures Pipeline(DoSendOne(s, o))
  {
    var t := DoSendOne(s, o);
    var h := Handled(s.outbox[0], FateOf(s, s.outbox[0], o));
    forall id: nat ensures OnWire(t, id) == OnWire(s, id) + Portion(h, id) {
      SendOneWire(s, o, id);
    }
    SendOneNotes(s, o);
    assert t.h.handled == s.h.handled + [h] && t.outbox == s.outbox[1..] && t.h.accepted == s.h.accepted;
    HandlingKeepsPipeline(s, t, h);
  }

  lemma PipelineIsKept(s: State, a: Action)
    requires Pipeline(s) && Enabled(s, a)
    ensures Pipeline(Apply(s, a))
  {
    match a
    case SendData(to, data, told) => SendDataKeepsPipeline(s, to, data, told);
    case SendOne(o) => SendOneKeepsPipeline(s, o);
    case ListenSection(order, acc, recv, told) => SectionKeepsPipeline(s, order, acc, recv, told);
    case DisconnectAll(order) =>
      MarksHaveNoNotes(order);
      PipelineStays(s, DoDisconnectAll(s, order), AllMarked(order));
    case _ => OtherStepsKeepPipeline(s, a);
  }

  lemma OtherStepsKeepPipeline(s: State, a: Action)
    requires Pipeline(s) && Enabled(s, a)
    requires !a.SendData? && !a.SendOne? && !a.ListenSection? && !a.DisconnectAll?
    ensures Pipeline(Apply(s, a))
  {
    var t := Apply(s, a);
    var es := t.h.log[|s.h.log|..];
    assert t.h.log == s.h.log + es;
    if es != [] { OneNote(es[0]); assert es == [es[0]]; }
    PipelineStays(s, t, es);
  }

  // ---- when is everything delivered? --------------------------------------

  /** The socket took the whole buffer. */
  predicate Complete(h: Handled) {
    h.buffer.data == [] || h.fate == Taken(|h.buffer.data|)
  }

  lemma {:induction false} WireIsBounded(hs: seq<Handled>, id: nat)
    requires forall h :: h in hs ==> FateFits(h)
    ensures |Flatten(Portions(hs, id))| <= |Flatten(Wholes(hs, id))|
    ensures |Flatten(Portions(hs, id))| == |Flatten(Wholes(hs, id))| <==>
            forall h :: h in hs && h.buffer.id == id ==> Complete(h)
    ensures (forall h :: h in hs && h.buffer.id == id ==> Complete(h)) ==>
            Flatten(Portions(hs, id)) == Flatten(Wholes(hs, id))
  {
    if hs == [] {
    } else {
      var n := |hs| - 1;
      var init, h := hs[..n], hs[n];
      assert hs == init + [h];
      WireIsBounded(init, id);
      HandledOne(init, h, id);
      assert Wholes(hs, id) == Wholes(init, id) + [Whole(h, id)];
      FlattenSnoc(Wholes(init, id), Whole(h, id));
      assert FateFits(h);
      assert |Portion(h, id)| <= |Whole(h, id)|;
      assert |Portion(h, id)| == |Whole(h, id)| <==> (h.buffer.id == id ==> Complete(h));
    }
  }

  /** A peer's socket was given the in-order concatenation of its buffers, in
      full, exactly when every send to it was complete. */
  lemma FullExactlyWhenComplete(s: State, id: nat)
    requires Pipeline(s)
    ensures OnWire(s, id) == Flatten(Wholes(s.h.handled, id)) <==>
            forall h :: h in s.h.handled && h.buffer.id == id ==> Complete(h)
  {
    WireIsBounded(s.h.handled, id);
    assert OnWire(s, id) == Flatten(Portions(s.h.handled, id));
  }

  /** A send fails exactly if the socket takes nothing.  The user is not told of
      it: with a send-error callback the peer is marked, without one nothing
      happens at all, and the buffer is gone either way. */
  lemma FailedSendIsNotTold(s: State, o: SendAnswer)
    requires Enabled(s, SendOne(o))
    requires s.outbox[0].id in s.peers && !s.peers[s.outbox[0].id].toBeDeleted
    ensures var b, t := s.outbox[0], DoSendOne(s, o);
      && (t.h.handled == s.h.handled + [Handled(b, Failed(o.errTold))] <==> o.taken == 0)
      && (o.taken == 0 ==>
            && t.h.log == s.h.log + (if o.errTold then [Marked(b.id, DisconnectedDueToError)] else [])
            && (t.peers[b.id].toBeDeleted <==> o.errTold)
            && t.outbox == s.outbox[1..] && OnWire(t, b.id) == OnWire(s, b.id))
  {
    var b, t := s.outbox[0], DoSendOne(s, o);
    assert t.h.handled[|s.h.handled|] == Handled(b, FateOf(s, b, o));
    assert s.h.log + [] == s.h.log;
  }

  /** Queueing an empty buffer for an unmarked peer does not send it: the send
      counts as failed, and if a send-error callback is installed the peer is
      marked for deletion. */
  lemma EmptyBufferCountsAsFailed(s: State, o: SendAnswer)
    requires Enabled(s, SendOne(o)) && s.outbox[0].data == []
    requires s.outbox[0].id in s.peers && !s.peers[s.outbox[0].id].toBeDeleted
    ensures DoSendOne(s, o).h.handled == s.h.handled + [Handled(s.outbox[0], Failed(o.errTold))]
    ensures DoSendOne(s, o).peers[s.outbox[0].id].toBeDeleted <==> o.errTold
  {
  }
}

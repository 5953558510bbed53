/** End to end: one side's sending half, the transport, and the other side's receiving half, in any interleaving.

The transport hands over what it accepted, in order and in pieces of its choosing, and reports the end of a stream
only after the last byte and FIN (section 2.2 of RFC 9000, section 4.1 of RFC 9114). The sender may destroy a stream
at any moment, so each direction of a connection is covered whatever the other does. */
module Delivery {
  import opened Transport
  import opened Transfer
  import opened TransferProofs
  import opened TransferTheorems
  import opened Receive
  import SingleMessage

  /** read counts the bytes handed over so far; closed holds the streams that were finished or reset. */
  datatype World = World(sender: Engine, receiver: Receiver, read: map<StreamId, nat>, closed: set<StreamId>)

  datatype Move = Send(op: Op) | Deliver(ev: Event)

  function Read(w: World, id: StreamId): nat {
    if id in w.read then w.read[id] else 0
  }

  /** Each read hands over the next bytes of s, an error none, and what follows a read of nothing is not read. */
  ghost predicate ReadsOff(pieces: seq<Receive.Read>, s: seq<Byte>) {
    if pieces == [] || pieces[0] == Got([]) then true
    else if pieces[0].Got? then pieces[0].bytes <= s && ReadsOff(pieces[1..], s[|pieces[0].bytes|..])
    else ReadsOff(pieces[1..], s)
  }

  function ReadLength(pieces: seq<Receive.Read>): nat {
    if pieces == [] || pieces[0] == Got([]) then 0
    else (if pieces[0].Got? then |pieces[0].bytes| else 0) + ReadLength(pieces[1..])
  }

  /** So what the receiver makes of its reads is what the transport handed over, in its order. */
  lemma {:induction false} ReadAllReadsOff(pieces: seq<Receive.Read>, s: seq<Byte>)
    requires ReadsOff(pieces, s)
    ensures ReadLength(pieces) <= |s| && ReadAll(pieces) == s[..ReadLength(pieces)]
  {
    if pieces == [] || pieces[0] == Got([]) {
    } else if pieces[0].Got? {
      var n := |pieces[0].bytes|;
      ReadAllReadsOff(pieces[1..], s[n..]);
      assert s[..n] + s[n..][..ReadLength(pieces[1..])] == s[..n + ReadLength(pieces[1..])];
    } else {
      ReadAllReadsOff(pieces[1..], s);
    }
  }

  /** The sending side may do anything; on the receiving side happens only what the transport promises. */
  ghost predicate Legal(w: World, m: Move) {
    match m
    case Send(_) => true
    case Deliver(ev) =>
      var f := w.sender.net.Stream(ev.id);
      match ev
      case Headers(id, _) => id !in w.closed && Head in f
      case Body(id, pieces) =>
        id !in w.closed && Read(w, id) <= |Payload(f)| && ReadsOff(pieces, Payload(f)[Read(w, id)..])
      case Finish(id) => id !in w.closed && Finished(f) && Read(w, id) == |Payload(f)|
      case Reset(_) => true
      case Other(_) => true
  }

  function Next(w: World, m: Move): World {
    match m
    case Send(op) => w.(sender := Step(w.sender, op))
    case Deliver(ev) =>
      World(w.sender, OnEvent(w.receiver, ev),
            if ev.Body? then w.read[ev.id := Read(w, ev.id) + ReadLength(ev.pieces)] else w.read,
            if ev.Finish? || ev.Reset? then w.closed + {ev.id} else w.closed)
  }

  function Play(w: World, moves: seq<Move>): World {
    if moves == [] then w else Next(Play(w, moves[..|moves| - 1]), moves[|moves| - 1])
  }

  ghost predicate LegalPlay(w: World, moves: seq<Move>) {
    forall i | 0 <= i < |moves| :: Legal(Play(w, moves[..i]), moves[i])
  }

  ghost predicate Start(w: World) {
    && Initial(w.sender)
    && w.receiver.incoming == map[] && w.receiver.posted == []
    && w.read == map[] && w.closed == {}
  }

  // ----- The invariant

  /** A stream being received holds exactly the bytes handed over, a prefix of those accepted. */
  ghost predicate Received(w: World, id: StreamId) {
    var p := Payload(w.sender.net.Stream(id));
    if id in w.closed then id !in w.receiver.incoming
    else
      && Read(w, id) <= |p|
      && (if id in w.receiver.incoming then w.receiver.incoming[id].buffer == p[..Read(w, id)] else Read(w, id) == 0)
  }

  /** The bytes of the stream up to a FIN. */
  ghost predicate Ended(f: seq<Frame>, bytes: seq<Byte>) {
    exists n :: 0 <= n <= |f| && EndedAt(f, bytes, n)
  }

  ghost predicate EndedAt(f: seq<Frame>, bytes: seq<Byte>, n: nat)
    requires n <= |f|
  {
    Finished(f[..n]) && bytes == Payload(f[..n])
  }

  /** A posted stream holds what its stream carried when it was finished. */
  ghost predicate Exact(w: World, s: Incoming) {
    s.id in w.closed && Ended(w.sender.net.Stream(s.id), s.buffer)
  }

  lemma EndedLater(f: seq<Frame>, f': seq<Frame>, bytes: seq<Byte>)
    requires Ended(f, bytes) && f <= f'
    ensures Ended(f', bytes)
  {
    var n :| 0 <= n <= |f| && EndedAt(f, bytes, n);
    assert f'[..n] == f[..n] && EndedAt(f', bytes, n);
  }

  /** When FIN is the last frame, that is all of them. */
  lemma EndedLast(f: seq<Frame>, bytes: seq<Byte>)
    requires Ended(f, bytes) && FinIsLast(f)
    ensures bytes == Payload(f) && Finished(f)
  {
    var n :| 0 <= n <= |f| && EndedAt(f, bytes, n);
    var i :| 0 <= i < n && f[..n][i] == Fin;
    assert f[i] == Fin && n == |f| && f[..n] == f;
  }

  ghost predicate WorldInv(w: World) {
    && Inv(w.sender)
    && WellKeyed(w.receiver)
    && (forall id :: Received(w, id))
    && (forall i | 0 <= i < |w.receiver.posted| :: Exact(w, w.receiver.posted[i]))
    && (forall i, j | 0 <= i < j < |w.receiver.posted| :: w.receiver.posted[i].id != w.receiver.posted[j].id)
  }

  lemma PayloadMonotone(f: seq<Frame>, g: seq<Frame>)
    requires f <= g
    ensures Payload(f) <= Payload(g)
  {
    assert g == f + g[|f|..];
    PayloadConcat(f, g[|f|..]);
  }

  lemma SendKeepsInv(w: World, w': World, op: Op)
    requires WorldInv(w) && w' == Next(w, Send(op))
    ensures WorldInv(w')
  {
    StepKeepsInv(w.sender, w'.sender, op);
    StepGrows(w.sender, op);
    forall id ensures Received(w', id) {
      assert Received(w, id);
      PayloadMonotone(w.sender.net.Stream(id), w'.sender.net.Stream(id));
    }
    forall i | 0 <= i < |w'.receiver.posted| ensures Exact(w', w'.receiver.posted[i]) {
      var s := w.receiver.posted[i];
      assert Exact(w, s);
      EndedLater(w.sender.net.Stream(s.id), w'.sender.net.Stream(s.id), s.buffer);
    }
  }

  lemma BytesKeepReceived(w: World, w': World, ev: Event)
    requires WorldInv(w) && Legal(w, Deliver(ev)) && (ev.Headers? || ev.Body?) && w' == Next(w, Deliver(ev))
    ensures Received(w', ev.id)
  {
    assert Received(w, ev.id);
    var p, n := Payload(w.sender.net.Stream(ev.id)), Read(w, ev.id);
    if ev.Headers? {
      OnHeadersKeepsId(Get(w.receiver, ev.id), ev.headers);
    } else {
      ReadAllReadsOff(ev.pieces, p[n..]);
      assert p[..n + ReadLength(ev.pieces)] == p[..n] + p[n..][..ReadLength(ev.pieces)];
    }
  }

  lemma FinishPostsBytes(w: World, id: StreamId)
    requires WorldInv(w) && Legal(w, Deliver(Finish(id))) && id in w.receiver.incoming
    ensures w.receiver.incoming[id].id == id
    ensures w.receiver.incoming[id].buffer == Payload(w.sender.net.Stream(id))
    ensures Ended(w.sender.net.Stream(id), w.receiver.incoming[id].buffer)
    ensures forall i | 0 <= i < |w.receiver.posted| :: w.receiver.posted[i].id != id
  {
    assert Received(w, id);
    var f := w.sender.net.Stream(id);
    var p := Payload(f);
    assert p[..|p|] == p;
    assert f[..|f|] == f;
    assert EndedAt(f, p, |f|);
    forall i | 0 <= i < |w.receiver.posted| ensures w.receiver.posted[i].id != id {
      assert Exact(w, w.receiver.posted[i]);
    }
  }

  lemma DeliverKeepsInv(w: World, w': World, ev: Event)
    requires WorldInv(w) && Legal(w, Deliver(ev)) && w' == Next(w, Deliver(ev))
    ensures WorldInv(w')
  {
    OnEventProjects(w.receiver, ev, ev.id);
    forall id ensures Received(w', id) {
      assert Received(w, id);
      if id == ev.id && (ev.Headers? || ev.Body?) { BytesKeepReceived(w, w', ev); }
    }
    if ev.Finish? && ev.id in w.receiver.incoming { FinishPostsBytes(w, ev.id); }
    forall i | 0 <= i < |w'.receiver.posted| ensures Exact(w', w'.receiver.posted[i]) {
      if i < |w.receiver.posted| { assert Exact(w, w.receiver.posted[i]); }
    }
  }

  lemma {:induction false} PlayKeepsInv(w: World, moves: seq<Move>)
    requires Start(w) && LegalPlay(w, moves)
    ensures WorldInv(Play(w, moves))
  {
    if moves == [] {
      InitialInv(w.sender);
    } else {
      var before, last := moves[..|moves| - 1], moves[|moves| - 1];
      assert forall i | 0 <= i <= |before| :: moves[..i] == before[..i];
      PlayKeepsInv(w, before);
      assert Legal(Play(w, moves[..|moves| - 1]), last);
      match last
      case Send(op) => SendKeepsInv(Play(w, before), Play(w, moves), op);
      case Deliver(ev) => DeliverKeepsInv(Play(w, before), Play(w, moves), ev);
    }
  }

  // ----- Main results

  ghost predicate HandsOver(m: Move, id: StreamId, body: seq<Byte>) {
    m == Send(Request(id, body)) || m == Send(Response(id, body))
  }

  /** The history of bodies is the history of the calls. */
  lemma {:induction false} JobsWereHandedOver(w: World, moves: seq<Move>, id: StreamId)
    requires Start(w) && id in Play(w, moves).sender.jobs
    ensures exists k :: 0 <= k < |moves| && HandsOver(moves[k], id, Play(w, moves).sender.jobs[id].body)
  {
    var before, last := moves[..|moves| - 1], moves[|moves| - 1];
    var e, body := Play(w, before).sender, Play(w, moves).sender.jobs[id].body;
    if last.Send? { StepHands(e, last.op, id); }
    if id in e.jobs && e.jobs[id].body == body {
      JobsWereHandedOver(w, before, id);
      var k :| 0 <= k < |before| && HandsOver(before[k], id, body);
      assert moves[k] == before[k];
    } else {
      assert HandsOver(moves[|moves| - 1], id, body);
    }
  }

  /** The calls of the sending side. */
  function Sends(moves: seq<Move>): seq<Op> {
    if moves == [] then [] else
      Sends(moves[..|moves| - 1]) + if moves[|moves| - 1].Send? then [moves[|moves| - 1].op] else []
  }

  lemma {:induction false} SenderRuns(w: World, moves: seq<Move>)
    ensures Play(w, moves).sender == Run(w.sender, Sends(moves))
  {
    if moves == [] {
    } else {
      var before, last := moves[..|moves| - 1], moves[|moves| - 1];
      SenderRuns(w, before);
      if last.Send? {
        assert Sends(moves)[..|Sends(moves)| - 1] == Sends(before);
      } else {
        assert Sends(moves) == Sends(before);
      }
    }
  }

  /** The bodies handed to a stream are those of the calls. */
  lemma {:induction false} BodiesWereHandedOver(w: World, moves: seq<Move>, id: StreamId, body: seq<Byte>)
    requires body in SingleMessage.Bodies(w.sender, Sends(moves), id)
    ensures exists k :: 0 <= k < |moves| && HandsOver(moves[k], id, body)
  {
    if moves == [] {
    } else {
      var before, last := moves[..|moves| - 1], moves[|moves| - 1];
      if last.Send? {
        assert Sends(moves)[..|Sends(moves)| - 1] == Sends(before) && Sends(moves)[|Sends(moves)| - 1] == last.op;
      } else {
        assert Sends(moves) == Sends(before);
      }
      if body in SingleMessage.Bodies(w.sender, Sends(before), id) {
        BodiesWereHandedOver(w, before, id, body);
        var k :| 0 <= k < |before| && HandsOver(before[k], id, body);
        assert moves[k] == before[k];
      } else {
        assert HandsOver(moves[|moves| - 1], id, body);
      }
    }
  }

  /** The stream had one set of headers accepted, or was handed one body. */
  ghost predicate OneMessage(w: World, moves: seq<Move>, id: StreamId) {
    SingleMessage.Sent(w.sender, Sends(moves), id) == 1 || Taken(w.sender, Sends(moves), id) == 1
  }

  /** The stream was handed a body, and if it is one message, s carries exactly a body that a call handed over. */
  ghost predicate Faithful(w: World, moves: seq<Move>, s: Incoming) {
    && Taken(w.sender, Sends(moves), s.id) >= 1
    && (OneMessage(w, moves, s.id) ==> exists k :: 0 <= k < |moves| && HandsOver(moves[k], s.id, s.buffer))
  }

  lemma PostedBody(w: World, moves: seq<Move>, s: Incoming)
    requires Start(w) && LegalPlay(w, moves) && s in Play(w, moves).receiver.posted
    ensures Faithful(w, moves, s)
  {
    var e, ops, id, w' := w.sender, Sends(moves), s.id, Play(w, moves);
    PlayKeepsInv(w, moves);
    SenderRuns(w, moves);
    assert Exact(w', s);
    TakenCounts(e, ops, id);
    EndedIsFinished(w'.sender.net.Stream(id), s.buffer);
    if SingleMessage.Sent(e, ops, id) == 1 {
      SingleMessage.OneMessageIff(e, ops, id);
      var body :| body in SingleMessage.Bodies(e, ops, id) && SingleMessage.Carries(Run(e, ops), id, body);
      EndedLast(w'.sender.net.Stream(id), s.buffer);
      BodiesWereHandedOver(w, moves, id, body);
    } else if Taken(e, ops, id) == 1 {
      assert Sole(w'.sender, id) && StreamOk(w'.sender, id);
      EndedLast(w'.sender.net.Stream(id), s.buffer);
      JobsWereHandedOver(w, moves, id);
    }
  }

  lemma EndedIsFinished(f: seq<Frame>, bytes: seq<Byte>)
    requires Ended(f, bytes)
    ensures Finished(f)
  {
    var n :| 0 <= n <= |f| && EndedAt(f, bytes, n);
    var i :| 0 <= i < n && f[..n][i] == Fin;
    assert f[i] == Fin;
  }

  /** Whatever the transport answers, however sends, flushes, destructions and receptions interleave and the bytes are
  cut up: no stream has two Data events, every event's stream was handed a body, and if it had one set of headers
  accepted, or was handed only one body, the event carries exactly a body that was passed to SendRequest or
  SendResponse for it. */
  lemma DataEventsAreExact(w: World, moves: seq<Move>)
    requires Start(w) && LegalPlay(w, moves)
    ensures var posted := Play(w, moves).receiver.posted;
      && (forall i | 0 <= i < |posted| :: Faithful(w, moves, posted[i]))
      && (forall i, j | 0 <= i < j < |posted| :: posted[i].id != posted[j].id)
  {
    PlayKeepsInv(w, moves);
    var posted := Play(w, moves).receiver.posted;
    forall i | 0 <= i < |posted| ensures Faithful(w, moves, posted[i]) {
      PostedBody(w, moves, posted[i]);
    }
  }

  function Unread(w: World, id: StreamId): seq<Byte> {
    var p := Payload(w.sender.net.Stream(id));
    if Read(w, id) <= |p| then p[Read(w, id)..] else []
  }

  /** And a finished stream can always be received to the end: headers, the rest of the bytes, and the end are legal
  in turn and post its body. */
  lemma FinishedCanBeReceived(w: World, id: StreamId, headers: seq<(string, string)>)
    requires WorldInv(w) && id !in w.closed && Finished(w.sender.net.Stream(id))
    ensures var rest := Unread(w, id);
      var w1 := Next(w, Deliver(Headers(id, headers)));
      var w2 := Next(w1, Deliver(Body(id, [Got(rest)])));
      var w3 := Next(w2, Deliver(Finish(id)));
      && Legal(w, Deliver(Headers(id, headers)))
      && Legal(w1, Deliver(Body(id, [Got(rest)])))
      && Legal(w2, Deliver(Finish(id)))
      && id in w.sender.jobs
      && |w3.receiver.posted| == |w.receiver.posted| + 1
      && w3.receiver.posted[|w.receiver.posted|].id == id
      && w3.receiver.posted[|w.receiver.posted|].buffer == Payload(w.sender.net.Stream(id))
      && (id !in w.sender.again ==> w3.receiver.posted[|w.receiver.posted|].buffer == w.sender.jobs[id].body)
  {
    assert Received(w, id);
    assert w.sender.net.Stream(id)[0] == Head;
    var rest := Unread(w, id);
    var w1 := Next(w, Deliver(Headers(id, headers)));
    var w2 := Next(w1, Deliver(Body(id, [Got(rest)])));
    assert [Got(rest)][1..] == [];
    assert ReadLength([Got(rest)]) == |rest| && (rest != [] ==> ReadsOff([], rest[|rest|..]));
    DeliverKeepsInv(w, w1, Headers(id, headers));
    DeliverKeepsInv(w1, w2, Body(id, [Got(rest)]));
    FinishPostsBytes(w2, id);
    if id !in w.sender.again { assert Sole(w.sender, id) && StreamOk(w.sender, id); }
  }
}

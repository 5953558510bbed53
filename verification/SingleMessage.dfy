/** How many sets of headers a stream has had accepted, and what a stream with exactly one carries, however often it was
answered and however the answers were sent. */
module SingleMessage {
  import opened Transport
  import opened Transfer
  import opened TransferProofs
  import opened TransferTheorems
  import opened CacheSweep

  // ----- Counting headers

  function Heads(f: seq<Frame>): nat {
    if f == [] then 0 else Heads(f[..|f| - 1]) + if f[|f| - 1] == Head then 1 else 0
  }

  lemma {:induction false} HeadsConcat(f: seq<Frame>, g: seq<Frame>)
    ensures Heads(f + g) == Heads(f) + Heads(g)
  {
    if g == [] {
      assert f + g == f;
    } else {
      HeadsConcat(f, g[..|g| - 1]);
      assert (f + g)[..|f + g| - 1] == f + g[..|g| - 1];
    }
  }

  lemma {:induction false} NoHeads(f: seq<Frame>)
    ensures Heads(f) == 0 <==> Head !in f
  {
    if f == [] {
    } else {
      assert f == f[..|f| - 1] + [f[|f| - 1]];
      NoHeads(f[..|f| - 1]);
    }
  }

  lemma HeadsPushed(f: seq<Frame>, bytes: seq<Byte>, fin: bool)
    ensures Heads(f + Accepted(bytes, fin)) == Heads(f)
  {
    HeadsConcat(f, Accepted(bytes, fin));
    NoHeads(Accepted(bytes, fin));
  }

  lemma HeadsAppended(f: seq<Frame>, bytes: seq<Byte>, fin: bool)
    ensures Heads(f + [Head] + Accepted(bytes, fin)) == Heads(f) + 1
  {
    HeadsPushed(f + [Head], bytes, fin);
    assert (f + [Head])[..|f|] == f;
  }

  /** On a stream that headers opened, one set is a count of one. */
  lemma OneHeadCounts(f: seq<Frame>)
    requires f == [] || Opened(f)
    ensures OneHead(f) <==> Heads(f) == 1
    ensures f == [] <==> Heads(f) == 0
  {
    if f != [] {
      assert f == [Head] + f[1..];
      HeadsConcat([Head], f[1..]);
      assert [Head][..0] == [] && Heads([]) == 0 && Heads([Head]) == 1;
      NoHeads(f[1..]);
      if OneHead(f) { assert forall i | 0 <= i < |f| - 1 :: f[1..][i] == f[i + 1]; }
      if Head !in f[1..] { assert forall i | 1 <= i < |f| :: f[i] == f[1..][i - 1]; }
    }
  }

  // ----- Counting the calls that get headers accepted

  function AcceptsHead(e: Engine): nat {
    if e.net.answers(e.net.calls).Ok? then 1 else 0
  }

  /** The turns of a stream's cached responses, in a sweep from entry i, that do. */
  function CacheSent(e: Engine, i: nat, id: StreamId): nat
    requires i <= |e.cache|
    decreases |e.cache| - i
  {
    if i == |e.cache| then 0 else
      var t := TryCached(e, i);
      (if e.cache[i].id == id then AcceptsHead(e) else 0) + CacheSent(t.engine, if t.kept then i + 1 else i, id)
  }

  function StepSent(e: Engine, op: Op, id: StreamId): nat {
    match op
    case Request(j, _) => if j == id then AcceptsHead(e) else 0
    case Response(j, _) => if j == id then AcceptsHead(e) else 0
    case FlushCache => CacheSent(e, 0, id)
    case FlushTransfers(_) => 0
    case Destroy(_) => 0
  }

  /** The sets of headers a run gets accepted for a stream. */
  function Sent(e: Engine, ops: seq<Op>, id: StreamId): nat {
    if ops == [] then 0 else
      Sent(e, ops[..|ops| - 1], id) + StepSent(Run(e, ops[..|ops| - 1]), ops[|ops| - 1], id)
  }

  /** What is queued of a stream. */
  function Waiting(e: Engine, id: StreamId): seq<Byte> {
    if id in e.outgoing && e.outgoing[id].offset <= |e.outgoing[id].buffer|
    then e.outgoing[id].buffer[e.outgoing[id].offset..]
    else []
  }

  /** How much of a body the call after its headers accepts, and whether FIN then is. */
  function AtOnce(e: Engine, body: seq<Byte>): nat {
    var first := e.net.answers(e.net.calls + 1);
    if body == [] || !first.Ok? then 0 else if first.n < |body| then first.n else |body|
  }

  function WithFin(e: Engine, body: seq<Byte>): bool {
    body == [] || (AtOnce(e, body) == |body| && e.net.answers(e.net.calls + 2).Ok?)
  }

  /** The stream gained headers, the first k bytes and perhaps FIN; the rest of the body, if any, is queued. */
  ghost predicate Appended(e: Engine, e': Engine, id: StreamId, body: seq<Byte>, k: nat, fin: bool)
    requires k <= |body|
  {
    && e'.net.Stream(id) == e.net.Stream(id) + [Head] + Accepted(body[..k], fin)
    && e'.outgoing == (if k < |body| then e.outgoing[id := Outgoing(body[k..], 0)] else e.outgoing)
    && e'.cache == e.cache
  }

  lemma AnswerState(e: Engine, id: StreamId, body: seq<Byte>)
    requires e.net.answers(e.net.calls).Ok?
    ensures Appended(e, SendResponse(e, id, body), id, body, AtOnce(e, body), WithFin(e, body))
  {
    var f := e.net.Stream(id);
    if body == [] {
      assert f + [Head, Fin] == f + [Head] + Accepted([], true);
    } else {
      SendBytesResult(e, id, body);
      assert SendResponse(e, id, body) == SendBody(e.(net := e.net.Push(id, [Head])), id, body);
      assert body[..|body|] == body;
    }
  }

  lemma AppendedPayload(f: seq<Frame>, bytes: seq<Byte>, fin: bool)
    ensures Payload(f + [Head] + Accepted(bytes, fin)) == Payload(f) + bytes
  {
    PayloadConcat(f + [Head], Accepted(bytes, fin));
    PayloadAccepted(bytes, fin);
    assert (f + [Head])[..|f|] == f;
  }

  lemma VisitHeads(e: Engine, v: StreamId, id: StreamId)
    ensures Heads(Visit(e, v).engine.net.Stream(id)) == Heads(e.net.Stream(id))
  {
    if v == id && id in e.outgoing {
      var o, f := e.outgoing[id], e.net.Stream(id);
      HeadsPushed(f, [], true);
      if o.offset < |o.buffer| {
        VisitResult(e, id);
        var rest := o.buffer[o.offset..];
        var r := e.net.SendBody(id, rest, false).1;
        if r.Ok? {
          HeadsPushed(f, rest[..r.n], false);
          HeadsPushed(f + Accepted(rest[..r.n], false), [], true);
        }
      }
    }
  }

  lemma {:induction false} SweepHeads(e: Engine, order: seq<StreamId>, id: StreamId)
    ensures Heads(Sweep(e, order).engine.net.Stream(id)) == Heads(e.net.Stream(id))
    decreases |order|
  {
    if order == [] {
    } else {
      VisitHeads(e, order[0], id);
      if !Visit(e, order[0]).stopped { SweepHeads(Visit(e, order[0]).engine, order[1..], id); }
    }
  }

  /** How much of its body a cached turn gets accepted, after its headers. */
  function CachedTaken(e: Engine, i: nat): nat
    requires i < |e.cache|
  {
    var c, body := e.cache[i], e.net.answers(e.net.calls + 1);
    if c.left == 0 || !body.Ok? then 0 else if body.n < c.left then body.n else c.left
  }

  /** A cached turn whose headers are accepted: the first bytes of the body again, or FIN if it has none. */
  lemma CachedState(e: Engine, i: nat)
    requires i < |e.cache| && e.net.answers(e.net.calls).Ok?
    ensures var c, e' := e.cache[i], TryCached(e, i).engine;
      && e'.outgoing == e.outgoing
      && e'.net.Stream(c.id) == e.net.Stream(c.id) + [Head] + Accepted(c.data[..CachedTaken(e, i)], c.left == 0)
  {
    var c, f, k := e.cache[i], e.net.Stream(e.cache[i].id), CachedTaken(e, i);
    TryCachedResult(e, i);
    if c.left == 0 {
      assert f + [Head, Fin] == f + [Head] + Accepted([], true);
    } else {
      assert Resent(f, c.data, k) == f + [Head] + Accepted(c.data[..k], false);
    }
  }

  lemma CachedRefused(e: Engine, i: nat, id: StreamId)
    requires i < |e.cache| && (e.cache[i].id == id ==> !e.net.answers(e.net.calls).Ok?)
    ensures TryCached(e, i).engine.net.Stream(id) == e.net.Stream(id) && TryCached(e, i).engine.outgoing == e.outgoing
  {
    TryCachedResult(e, i);
  }

  lemma TurnHeads(e: Engine, i: nat, id: StreamId)
    requires i < |e.cache|
    ensures Heads(TryCached(e, i).engine.net.Stream(id)) ==
      Heads(e.net.Stream(id)) + if e.cache[i].id == id then AcceptsHead(e) else 0
  {
    if e.cache[i].id == id && e.net.answers(e.net.calls).Ok? {
      CachedState(e, i);
      HeadsAppended(e.net.Stream(id), e.cache[i].data[..CachedTaken(e, i)], e.cache[i].left == 0);
    } else {
      CachedRefused(e, i, id);
    }
  }

  /** One turn of the count. */
  lemma CacheSentNext(e: Engine, i: nat, id: StreamId)
    requires i < |e.cache|
    ensures var t := TryCached(e, i);
      var i' := if t.kept then i + 1 else i;
      && i' <= |t.engine.cache|
      && FlushCacheFrom(e, i) == FlushCacheFrom(t.engine, i')
      && CacheSent(e, i, id) == (if e.cache[i].id == id then AcceptsHead(e) else 0) + CacheSent(t.engine, i', id)
  {
  }

  lemma {:induction false} FlushCacheHeads(e: Engine, i: nat, id: StreamId)
    requires i <= |e.cache|
    ensures Heads(FlushCacheFrom(e, i).net.Stream(id)) == Heads(e.net.Stream(id)) + CacheSent(e, i, id)
    decreases |e.cache| - i
  {
    if i == |e.cache| {
    } else {
      var t := TryCached(e, i);
      TurnHeads(e, i, id);
      CacheSentNext(e, i, id);
      FlushCacheHeads(t.engine, if t.kept then i + 1 else i, id);
    }
  }

  /** A call on another stream, or one whose headers are not accepted. */
  lemma SendElsewhere(e: Engine, op: Op, id: StreamId)
    requires (op.Request? || op.Response?) && StepSent(e, op, id) == 0
    ensures Step(e, op).net.Stream(id) == e.net.Stream(id)
    ensures id in Step(e, op).outgoing <==> id in e.outgoing
    ensures id in e.outgoing ==> Step(e, op).outgoing[id] == e.outgoing[id]
  {
    if op.id == id {
      assert !e.net.answers(e.net.calls).Ok?;
    } else if e.net.answers(e.net.calls).Ok? {
      assert Step(e, op) == SendResponse(e, op.id, op.body);
      AnswerState(e, op.id, op.body);
      AnswerElsewhere(e, op.id, op.body, id);
    }
  }

  lemma AnswerElsewhere(e: Engine, j: StreamId, body: seq<Byte>, id: StreamId)
    requires e.net.answers(e.net.calls).Ok? && j != id
    ensures SendResponse(e, j, body).net.Stream(id) == e.net.Stream(id)
  {
    if body != [] {
      SendBytesResult(e, j, body);
      assert SendResponse(e, j, body) == SendBody(e.(net := e.net.Push(j, [Head])), j, body);
    }
  }

  lemma StepHeads(e: Engine, op: Op, id: StreamId)
    ensures Heads(Step(e, op).net.Stream(id)) == Heads(e.net.Stream(id)) + StepSent(e, op, id)
  {
    match op
    case FlushCache => FlushCacheHeads(e, 0, id);
    case FlushTransfers(order) => SweepHeads(e, order, id);
    case Destroy(_) =>
    case _ =>
      if StepSent(e, op, id) == 0 {
        SendElsewhere(e, op, id);
      } else {
        assert Step(e, op) == SendResponse(e, id, op.body);
        AnswerState(e, id, op.body);
        HeadsAppended(e.net.Stream(id), op.body[..AtOnce(e, op.body)], WithFin(e, op.body));
      }
  }

  /** From any state, a run adds as many sets of headers to a stream as it gets accepted for it. */
  lemma {:induction false} RunHeads(e: Engine, ops: seq<Op>, id: StreamId)
    ensures Heads(Run(e, ops).net.Stream(id)) == Heads(e.net.Stream(id)) + Sent(e, ops, id)
  {
    if ops == [] {
    } else {
      RunHeads(e, ops[..|ops| - 1], id);
      StepHeads(Run(e, ops[..|ops| - 1]), ops[|ops| - 1], id);
    }
  }

  // ----- Streams that are not queued

  lemma {:induction false} SweepPasses(e: Engine, order: seq<StreamId>, id: StreamId)
    requires id !in e.outgoing
    ensures Sweep(e, order).engine.net.Stream(id) == e.net.Stream(id) && id !in Sweep(e, order).engine.outgoing
    decreases |order|
  {
    if order == [] {
    } else {
      VisitElsewhere(e, order[0], id);
      if !Visit(e, order[0]).stopped { SweepPasses(Visit(e, order[0]).engine, order[1..], id); }
    }
  }

  lemma {:induction false} FlushCachePasses(e: Engine, i: nat, id: StreamId)
    requires i <= |e.cache| && CacheSent(e, i, id) == 0
    ensures var e' := FlushCacheFrom(e, i); e'.net.Stream(id) == e.net.Stream(id) && e'.outgoing == e.outgoing
    decreases |e.cache| - i
  {
    if i == |e.cache| {
    } else {
      var t := TryCached(e, i);
      CacheSentNext(e, i, id);
      CachedRefused(e, i, id);
      FlushCachePasses(t.engine, if t.kept then i + 1 else i, id);
    }
  }

  lemma StepPasses(e: Engine, op: Op, id: StreamId)
    requires id !in e.outgoing && StepSent(e, op, id) == 0
    ensures Step(e, op).net.Stream(id) == e.net.Stream(id) && id !in Step(e, op).outgoing
  {
    match op
    case FlushCache => FlushCachePasses(e, 0, id);
    case FlushTransfers(order) => SweepPasses(e, order, id);
    case Destroy(_) =>
    case _ => SendElsewhere(e, op, id);
  }

  /** A stream that is not queued stays as it is until headers are accepted for it. */
  lemma {:induction false} RunPasses(e: Engine, ops: seq<Op>, id: StreamId)
    requires id !in e.outgoing && Sent(e, ops, id) == 0
    ensures Run(e, ops).net.Stream(id) == e.net.Stream(id) && id !in Run(e, ops).outgoing
  {
    if ops == [] {
    } else {
      RunPasses(e, ops[..|ops| - 1], id);
      StepPasses(Run(e, ops[..|ops| - 1]), ops[|ops| - 1], id);
    }
  }

  /** Nothing more is sent of a destroyed stream, whatever was queued of it, until headers are accepted for it anew. */
  lemma DestroyedIsSilent(e: Engine, id: StreamId, ops: seq<Op>)
    requires Sent(Step(e, Destroy(id)), ops, id) == 0
    ensures Run(Step(e, Destroy(id)), ops).net.Stream(id) == e.net.Stream(id)
    ensures id !in Run(Step(e, Destroy(id)), ops).outgoing
  {
    DestroyErases(e, id);
    RunPasses(Step(e, Destroy(id)), ops, id);
  }

  // ----- What a stream with one set of headers carries

  /** The stream carries that one body, or as much of it as was accepted: headers once, the bytes from the first on, FIN
  last and only after all of them; what is queued is the rest. */
  ghost predicate Carries(e: Engine, id: StreamId, body: seq<Byte>) {
    var f := e.net.Stream(id);
    && OneHead(f) && FinIsLast(f)
    && Payload(f) <= body
    && (Finished(f) ==> Payload(f) == body && id !in e.outgoing)
    && (id in e.outgoing ==> Payload(f) + Waiting(e, id) == body)
  }

  lemma Regrouped(a: seq<Byte>, b: seq<Byte>, c: seq<Byte>, rest: seq<Byte>, whole: seq<Byte>)
    requires b + c == rest && a + rest == whole
    ensures a + b + c == whole && a + b <= whole && (c == [] ==> a + b == whole)
  {
    assert a + (b + c) == a + b + c;
  }

  lemma PushCarries(e: Engine, e': Engine, id: StreamId, body: seq<Byte>, bytes: seq<Byte>, fin: bool)
    requires Carries(e, id, body) && id in e.outgoing
    requires e'.net.Stream(id) == e.net.Stream(id) + Accepted(bytes, fin)
    requires bytes + (if id in e'.outgoing then Waiting(e', id) else []) == Waiting(e, id)
    requires fin <==> id !in e'.outgoing
    ensures Carries(e', id, body)
  {
    var f := e.net.Stream(id);
    var rest := if id in e'.outgoing then Waiting(e', id) else [];
    PushKeepsShape(f, bytes, fin);
    Regrouped(Payload(f), bytes, rest, Waiting(e, id), body);
  }

  lemma FinCarries(e: Engine, id: StreamId, body: seq<Byte>)
    requires Carries(e, id, body) && id in e.outgoing && Waiting(e, id) == []
    ensures Carries(SendFin(e, id).engine, id, body)
  {
    var e' := SendFin(e, id).engine;
    if !SendFin(e, id).stopped { PushCarries(e, e', id, body, [], true); }
  }

  lemma AdvanceCarries(e: Engine, e': Engine, id: StreamId, body: seq<Byte>, k: nat, o': Outgoing)
    requires Carries(e, id, body) && id in e.outgoing && k <= |Waiting(e, id)|
    requires o'.offset <= |o'.buffer| && o'.buffer[o'.offset..] == Waiting(e, id)[k..]
    requires e' == e.(outgoing := e.outgoing[id := o'], net := e.net.Push(id, Accepted(Waiting(e, id)[..k], false)))
    ensures Carries(e', id, body)
  {
    var rest := Waiting(e, id);
    assert Waiting(e', id) == rest[k..] && rest[..k] + rest[k..] == rest;
    PushCarries(e, e', id, body, rest[..k], false);
  }

  /** A visit that gets bytes accepted: the state after them, and how the visit goes on. */
  lemma VisitAdvances(e: Engine, id: StreamId) returns (e1: Engine, k: nat, o': Outgoing)
    requires id in e.outgoing && e.outgoing[id].offset < |e.outgoing[id].buffer|
    requires e.net.answers(e.net.calls).Ok?
    ensures k <= |Waiting(e, id)| && o'.offset <= |o'.buffer| && o'.buffer[o'.offset..] == Waiting(e, id)[k..]
    ensures e1 == e.(outgoing := e.outgoing[id := o'], net := e.net.Push(id, Accepted(Waiting(e, id)[..k], false)))
    ensures Visit(e, id) == if k < |Waiting(e, id)| then Swept(e1, false) else SendFin(e1, id)
  {
    VisitResult(e, id);
    var o := e.outgoing[id];
    k := e.net.SendBody(id, o.buffer[o.offset..], false).1.n;
    o' := if k < |o.buffer| - o.offset then o.(offset := o.offset + k) else Outgoing([], 0);
    e1 := e.(outgoing := e.outgoing[id := o'], net := e.net.Push(id, Accepted(Waiting(e, id)[..k], false)));
  }

  lemma VisitCarries(e: Engine, v: StreamId, id: StreamId, body: seq<Byte>)
    requires Shape(e) && Carries(e, id, body)
    ensures Carries(Visit(e, v).engine, id, body)
  {
    if v != id || id !in e.outgoing {
      VisitElsewhere(e, v, id);
    } else if |e.outgoing[id].buffer| <= e.outgoing[id].offset {
      FinCarries(e, id, body);
    } else if e.net.answers(e.net.calls).Ok? {
      var e1, k, o' := VisitAdvances(e, id);
      AdvanceCarries(e, e1, id, body, k, o');
      if k == |Waiting(e, id)| { FinCarries(e1, id, body); }
    } else {
      VisitResult(e, id);
    }
  }

  lemma VisitElsewhere(e: Engine, v: StreamId, id: StreamId)
    requires v != id || id !in e.outgoing
    ensures Visit(e, v).engine.net.Stream(id) == e.net.Stream(id)
    ensures id in Visit(e, v).engine.outgoing <==> id in e.outgoing
    ensures id in e.outgoing ==> Visit(e, v).engine.outgoing[id] == e.outgoing[id]
  {
  }

  lemma {:induction false} SweepCarries(e: Engine, order: seq<StreamId>, id: StreamId, body: seq<Byte>)
    requires Inv(e) && Carries(e, id, body)
    ensures Carries(Sweep(e, order).engine, id, body)
    decreases |order|
  {
    if order == [] {
    } else {
      var s := Visit(e, order[0]);
      VisitCarries(e, order[0], id, body);
      VisitKeepsInv(e, s.engine, order[0]);
      if !s.stopped { SweepCarries(s.engine, order[1..], id, body); }
    }
  }

  lemma {:induction false} FlushCacheCarries(e: Engine, i: nat, id: StreamId, body: seq<Byte>)
    requires i <= |e.cache| && Carries(e, id, body) && CacheSent(e, i, id) == 0
    ensures Carries(FlushCacheFrom(e, i), id, body)
    decreases |e.cache| - i
  {
    if i == |e.cache| {
    } else {
      var t := TryCached(e, i);
      CachedRefused(e, i, id);
      FlushCacheCarries(t.engine, if t.kept then i + 1 else i, id, body);
    }
  }

  lemma StepCarries(e: Engine, op: Op, id: StreamId, body: seq<Byte>)
    requires Inv(e) && Carries(e, id, body) && StepSent(e, op, id) == 0
    ensures Carries(Step(e, op), id, body)
  {
    match op
    case FlushCache => FlushCacheCarries(e, 0, id, body);
    case FlushTransfers(order) => SweepCarries(e, order, id, body);
    case Destroy(_) =>
    case _ => SendElsewhere(e, op, id);
  }

  lemma {:induction false} RunCarries(e: Engine, ops: seq<Op>, id: StreamId, body: seq<Byte>)
    requires Inv(e) && Carries(e, id, body) && Sent(e, ops, id) == 0
    ensures Carries(Run(e, ops), id, body)
  {
    if ops == [] {
    } else {
      RunCarries(e, ops[..|ops| - 1], id, body);
      RunKeepsInv(e, ops[..|ops| - 1]);
      StepCarries(Run(e, ops[..|ops| - 1]), ops[|ops| - 1], id, body);
    }
  }

  lemma FirstCarries(e: Engine, id: StreamId, body: seq<Byte>, k: nat, fin: bool)
    requires k <= |body| && e.net.Stream(id) == [Head] + Accepted(body[..k], fin)
    requires fin ==> k == |body| && id !in e.outgoing
    requires id in e.outgoing ==> Waiting(e, id) == body[k..]
    ensures Carries(e, id, body)
  {
    FirstFrames(body[..k], fin);
    assert body[..k] + body[k..] == body;
  }

  /** The first headers of a stream, sent with a body. */
  lemma OpeningCarries(e: Engine, id: StreamId, body: seq<Byte>)
    requires Shape(e) && e.net.Stream(id) == [] && e.net.answers(e.net.calls).Ok?
    ensures Carries(SendResponse(e, id, body), id, body)
  {
    var e', k := SendResponse(e, id, body), AtOnce(e, body);
    AnswerState(e, id, body);
    assert [] + [Head] == [Head] && id !in e.outgoing;
    assert k < |body| ==> Waiting(e', id) == body[k..];
    FirstCarries(e', id, body, k, WithFin(e, body));
  }

  /** The first headers of a stream, sent by the sweep of cached responses. */
  lemma CachedCarries(e: Engine, i: nat)
    requires Shape(e) && i < |e.cache| && e.net.Stream(e.cache[i].id) == [] && e.net.answers(e.net.calls).Ok?
    ensures Carries(TryCached(e, i).engine, e.cache[i].id, e.cache[i].data)
  {
    var c, e' := e.cache[i], TryCached(e, i).engine;
    CachedState(e, i);
    assert [] + [Head] == [Head] && c.id !in e.outgoing;
    FirstCarries(e', c.id, c.data, CachedTaken(e, i), c.left == 0);
  }

  // ----- Main results

  /** The bodies that a run hands a stream. */
  function Bodies(e: Engine, ops: seq<Op>, id: StreamId): set<seq<Byte>> {
    if ops == [] then {} else
      var before, last := ops[..|ops| - 1], ops[|ops| - 1];
      Bodies(e, before, id) + if Takes(Run(e, before), last) && last.id == id then {last.body} else {}
  }

  /** Whatever is cached for the stream is one of the bodies, and so is what it carries if it has one set of headers. */
  ghost predicate FromBodies(e: Engine, id: StreamId, bodies: set<seq<Byte>>) {
    && (forall c | c in e.cache && c.id == id :: c.data in bodies)
    && (Heads(e.net.Stream(id)) == 1 ==> exists body | body in bodies :: Carries(e, id, body))
  }

  lemma CachedFromBodies(e: Engine, i: nat, id: StreamId, bodies: set<seq<Byte>>)
    requires Inv(e) && i < |e.cache| && FromBodies(e, id, bodies)
    ensures FromBodies(TryCached(e, i).engine, id, bodies)
  {
    var t, f := TryCached(e, i), e.net.Stream(id);
    CachedBodies(e, i, id);
    if e.cache[i].id == id && e.net.answers(e.net.calls).Ok? {
      CachedState(e, i);
      HeadsAppended(f, e.cache[i].data[..CachedTaken(e, i)], e.cache[i].left == 0);
      OneHeadCounts(f);
      if f == [] {
        CachedCarries(e, i);
        assert e.cache[i] in e.cache && Carries(t.engine, id, e.cache[i].data);
      }
    } else {
      CachedRefused(e, i, id);
      if Heads(f) == 1 {
        var body :| body in bodies && Carries(e, id, body);
        assert Carries(t.engine, id, body);
      }
    }
  }

  /** The sweep adds no cached body. */
  lemma CachedBodies(e: Engine, i: nat, id: StreamId)
    requires i < |e.cache|
    ensures forall c | c in TryCached(e, i).engine.cache && c.id == id ::
      exists d | d in e.cache :: d.id == id && d.data == c.data
  {
    var t := TryCached(e, i);
    TryCachedThins(e, i);
    forall c | c in t.engine.cache && c.id == id ensures exists d | d in e.cache :: d.id == id && d.data == c.data {
      var k :| 0 <= k < |t.engine.cache| && t.engine.cache[k] == c;
      if k < i {
        assert e.cache[k] == t.engine.cache[..i][k] == c;
      } else if t.kept {
        if k > i { assert e.cache[k] == t.engine.cache[i + 1..][k - i - 1] == c; }
        assert e.cache[k] in e.cache && e.cache[k].id == id && e.cache[k].data == c.data;
      } else {
        assert e.cache[k + 1] == t.engine.cache[i..][k - i] == c;
      }
    }
  }

  lemma {:induction false} FlushCacheFromBodies(e: Engine, i: nat, id: StreamId, bodies: set<seq<Byte>>)
    requires Inv(e) && i <= |e.cache| && FromBodies(e, id, bodies)
    ensures FromBodies(FlushCacheFrom(e, i), id, bodies)
    decreases |e.cache| - i
  {
    if i == |e.cache| {
    } else {
      var t := TryCached(e, i);
      CachedFromBodies(e, i, id, bodies);
      TryCachedKeepsInv(e, t.engine, i);
      FlushCacheFromBodies(t.engine, if t.kept then i + 1 else i, id, bodies);
    }
  }

  /** A call that hands a stream a body, or another stream, or nothing. */
  lemma SendFromBodies(e: Engine, op: Op, id: StreamId, bodies: set<seq<Byte>>)
    requires Inv(e) && FromBodies(e, id, bodies) && (op.Request? || op.Response?)
    ensures FromBodies(Step(e, op), id, bodies + if Takes(e, op) && op.id == id then {op.body} else {})
  {
    var e', f := Step(e, op), e.net.Stream(id);
    var all := bodies + if Takes(e, op) && op.id == id then {op.body} else {};
    SendCache(e, op);
    StepHeads(e, op, id);
    OneHeadCounts(f);
    if StepSent(e, op, id) == 0 {
      SendElsewhere(e, op, id);
      if Heads(f) == 1 {
        var body :| body in bodies && Carries(e, id, body);
        assert body in all && Carries(e', id, body);
      }
    } else if f == [] {
      OpeningCarries(e, id, op.body);
      assert e' == SendResponse(e, id, op.body);
      assert op.body in all && Carries(e', id, op.body);
    }
  }

  lemma SendCache(e: Engine, op: Op)
    requires op.Request? || op.Response?
    ensures forall c | c in Step(e, op).cache :: c in e.cache || (Takes(e, op) && c.id == op.id && c.data == op.body)
  {
    if op.body != [] { SendBytesResult(e, op.id, op.body); }
  }

  lemma StepFromBodies(e: Engine, op: Op, id: StreamId, bodies: set<seq<Byte>>)
    requires Inv(e) && FromBodies(e, id, bodies)
    ensures FromBodies(Step(e, op), id, bodies + if Takes(e, op) && op.id == id then {op.body} else {})
  {
    match op
    case FlushCache => FlushCacheFromBodies(e, 0, id, bodies);
    case FlushTransfers(order) =>
      SweepHeads(e, order, id);
      SweepKeepsDestroyed(e, order);
      if Heads(e.net.Stream(id)) == 1 {
        var body :| body in bodies && Carries(e, id, body);
        SweepCarries(e, order, id, body);
      }
    case Destroy(_) =>
      if Heads(e.net.Stream(id)) == 1 {
        var body :| body in bodies && Carries(e, id, body);
        assert Carries(Step(e, op), id, body);
      }
    case _ => SendFromBodies(e, op, id, bodies);
  }

  lemma {:induction false} RunFromBodies(e: Engine, ops: seq<Op>, id: StreamId)
    requires Initial(e)
    ensures FromBodies(Run(e, ops), id, Bodies(e, ops, id))
  {
    if ops == [] {
      assert Heads([]) == 0;
    } else {
      InitialInv(e);
      RunFromBodies(e, ops[..|ops| - 1], id);
      RunKeepsInv(e, ops[..|ops| - 1]);
      StepFromBodies(Run(e, ops[..|ops| - 1]), ops[|ops| - 1], id, Bodies(e, ops[..|ops| - 1], id));
    }
  }

  /** The exact condition, over every run and on every transport: a stream has one set of headers if and only if one
  set was accepted for it, by whatever call or sweep, and then and only then it carries one of the bodies it was
  handed, from the first byte on and with FIN only after the last. */
  lemma OneMessageIff(e: Engine, ops: seq<Op>, id: StreamId)
    requires Initial(e)
    ensures OneHead(Run(e, ops).net.Stream(id)) <==> Sent(e, ops, id) == 1
    ensures (exists body | body in Bodies(e, ops, id) :: Carries(Run(e, ops), id, body)) <==> Sent(e, ops, id) == 1
  {
    var f := Run(e, ops).net.Stream(id);
    InitialInv(e);
    RunKeepsInv(e, ops);
    assert Heads([]) == 0;
    RunHeads(e, ops, id);
    OneHeadCounts(f);
    RunFromBodies(e, ops, id);
  }

  /** The bytes of a cached body: as long as the accepted ones are its first p, a turn that gets k more accepted keeps
  them so if and only if the body repeats its first k bytes at p, because they are what is sent again. */
  lemma CachedBytesIff(e: Engine, i: nat)
    requires Inv(e) && i < |e.cache| && e.cache[i].id !in e.again && e.net.answers(e.net.calls).Ok?
    requires Payload(e.net.Stream(e.cache[i].id)) <= e.cache[i].data
    ensures var c, k, p := e.cache[i], CachedTaken(e, i), |Payload(e.net.Stream(e.cache[i].id))|;
      && p + k <= |c.data|
      && (Payload(TryCached(e, i).engine.net.Stream(c.id)) <= c.data <==> c.data[..k] == c.data[p..p + k])
  {
    var c, k, f := e.cache[i], CachedTaken(e, i), e.net.Stream(e.cache[i].id);
    CachedFacts(e, i);
    CachedState(e, i);
    AppendedPayload(f, c.data[..k], c.left == 0);
    PrefixIff(Payload(f), c.data[..k], c.data);
  }

  lemma PrefixIff(a: seq<Byte>, b: seq<Byte>, s: seq<Byte>)
    requires a <= s && |a| + |b| <= |s|
    ensures a + b <= s <==> b == s[|a|..|a| + |b|]
  {
    if a + b <= s { assert s[|a|..|a| + |b|] == (a + b)[|a|..]; }
    if b == s[|a|..|a| + |b|] { assert s[..|a| + |b|] == a + b; }
  }
}

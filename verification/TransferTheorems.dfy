/** What the invariant gives over whole runs: exactness, the FIN discipline, the outcomes, and the cache sweep. */
module TransferTheorems {
  import opened Transport
  import opened Transfer
  import opened TransferProofs

  // ----- Accepted frames are never taken back

  ghost predicate Grows(e: Engine, e': Engine) {
    && (forall id :: e.net.Stream(id) <= e'.net.Stream(id))
    && e'.net.answers == e.net.answers
    && (forall id | id in e.jobs :: id in e'.jobs && (id in e'.again || e'.jobs[id] == e.jobs[id]))
    && e.again <= e'.again && e.destroyed <= e'.destroyed
  }

  lemma VisitGrows(e: Engine, id: StreamId)
    ensures Grows(e, Visit(e, id).engine)
  {
  }

  lemma {:induction false} SweepGrows(e: Engine, order: seq<StreamId>)
    ensures Grows(e, Sweep(e, order).engine)
    decreases |order|
  {
    if order == [] {
    } else {
      VisitGrows(e, order[0]);
      if !Visit(e, order[0]).stopped { SweepGrows(Visit(e, order[0]).engine, order[1..]); }
    }
  }

  lemma TryCachedGrows(e: Engine, i: nat)
    requires i < |e.cache|
    ensures var e' := TryCached(e, i).engine;
      && Grows(e, e') && e'.outgoing == e.outgoing
      && e'.jobs == e.jobs && e'.destroyed == e.destroyed && e'.again == e.again
  {
    TryCachedResult(e, i);
  }

  lemma {:induction false} FlushCacheGrows(e: Engine, i: nat)
    requires i <= |e.cache|
    ensures Grows(e, FlushCacheFrom(e, i)) && FlushCacheFrom(e, i).outgoing == e.outgoing
    ensures FlushCacheFrom(e, i).jobs == e.jobs && FlushCacheFrom(e, i).destroyed == e.destroyed
    ensures FlushCacheFrom(e, i).again == e.again
    decreases |e.cache| - i
  {
    if i == |e.cache| {
    } else {
      var t := TryCached(e, i);
      TryCachedGrows(e, i);
      FlushCacheGrows(t.engine, if t.kept then i + 1 else i);
    }
  }

  lemma SendBodyGrows(e: Engine, id: StreamId, body: seq<Byte>)
    ensures Grows(e, SendBody(e, id, body))
  {
  }

  lemma SendGrows(e: Engine, id: StreamId, body: seq<Byte>)
    ensures Grows(e, SendRequest(e, id, body)) && Grows(e, SendResponse(e, id, body))
  {
    var net := e.net.SendHead(id, body == []).0;
    assert forall j :: e.net.Stream(j) <= net.Stream(j);
    SendBodyGrows(e.(net := net), id, body);
  }

  lemma StepGrows(e: Engine, op: Op)
    ensures Grows(e, Step(e, op))
  {
    match op
    case Request(id, body) => SendGrows(e, id, body);
    case Response(id, body) => SendGrows(e, id, body);
    case FlushCache => FlushCacheGrows(e, 0);
    case FlushTransfers(order) => SweepGrows(e, order);
    case Destroy(id) =>
  }

  lemma {:induction false} RunGrows(e: Engine, ops: seq<Op>)
    ensures Grows(e, Run(e, ops))
  {
    if ops == [] {
    } else {
      RunGrows(e, ops[..|ops| - 1]);
      StepGrows(Run(e, ops[..|ops| - 1]), ops[|ops| - 1]);
    }
  }

  // ----- How many bodies a stream was handed

  /** The calls that hand a stream a body: its headers are accepted, or blocked and the response is cached. */
  predicate Takes(e: Engine, op: Op) {
    var r := e.net.answers(e.net.calls);
    (op.Request? && r.Ok?) || (op.Response? && (r.Ok? || r == Blocked(true)))
  }

  /** How often a run does. */
  function Taken(e: Engine, ops: seq<Op>, id: StreamId): nat {
    if ops == [] then 0 else
      var before, last := ops[..|ops| - 1], ops[|ops| - 1];
      Taken(e, before, id) + if Takes(Run(e, before), last) && last.id == id then 1 else 0
  }

  lemma StepHands(e: Engine, op: Op, id: StreamId)
    ensures var e' := Step(e, op);
      if Takes(e, op) && op.id == id then
        && id in e'.jobs && e'.jobs[id].body == op.body
        && (id in e'.again <==> id in e.again || id in e.jobs)
      else
        && (id in e'.jobs <==> id in e.jobs) && (id in e'.again <==> id in e.again)
        && (id in e.jobs ==> e'.jobs[id] == e.jobs[id])
  {
    if op.FlushCache? { FlushCacheGrows(e, 0); }
    if op.FlushTransfers? { SweepKeepsDestroyed(e, op.order); }
  }

  /** The history says how many bodies each stream was handed: none, one, or more. */
  lemma {:induction false} TakenCounts(e: Engine, ops: seq<Op>, id: StreamId)
    ensures var e', n := Run(e, ops), Taken(e, ops, id) + if id in e.jobs then 1 else 0;
      && (id in e'.jobs <==> n >= 1)
      && (id in e'.again <==> (id in e.again || n >= 2))
  {
    if ops == [] {
    } else {
      var before, last := ops[..|ops| - 1], ops[|ops| - 1];
      TakenCounts(e, before, id);
      StepHands(Run(e, before), last, id);
    }
  }

  // ----- Main results

  /** In every state of every run, on every transport: what a finished stream carries is the body handed over, if it
  was handed one only; FIN came once and last, and nothing is queued or cached for it any more. */
  lemma FinishedIsExact(e: Engine, ops: seq<Op>, id: StreamId)
    requires Initial(e) && Finished(Run(e, ops).net.Stream(id))
    ensures Taken(e, ops, id) >= 1
    ensures var e' := Run(e, ops);
      Taken(e, ops, id) == 1 ==>
        && id in e'.jobs
        && Payload(e'.net.Stream(id)) == e'.jobs[id].body
        && FinIsLast(e'.net.Stream(id))
        && id !in e'.outgoing && id !in CacheIds(e'.cache)
  {
    InitialInv(e);
    RunKeepsInv(e, ops);
    TakenCounts(e, ops, id);
    if Taken(e, ops, id) == 1 { assert Sole(Run(e, ops), id) && StreamOk(Run(e, ops), id); }
  }

  /** Nothing is ever sent on a finished stream, unless it is handed a second body. */
  lemma FinishedIsFinal(e: Engine, ops: seq<Op>, id: StreamId)
    requires Inv(e) && Finished(e.net.Stream(id)) && id !in Run(e, ops).again
    ensures Run(e, ops).net.Stream(id) == e.net.Stream(id)
  {
    RunKeepsInv(e, ops);
    RunGrows(e, ops);
    var f, f' := e.net.Stream(id), Run(e, ops).net.Stream(id);
    assert f <= f';
    assert Sole(e, id) && StreamOk(e, id) && Sole(Run(e, ops), id) && StreamOk(Run(e, ops), id);
    assert f[|f| - 1] == Fin && f'[|f| - 1] == Fin;
  }

  /** FIN is among the frames a stream has gained. */
  ghost predicate FinAdded(f: seq<Frame>, f': seq<Frame>) {
    f <= f' && Fin in f'[|f|..]
  }

  lemma FinAddedWithin(f: seq<Frame>, g: seq<Frame>, h: seq<Frame>, k: seq<Frame>)
    requires f <= g && FinAdded(g, h) && h <= k
    ensures FinAdded(f, k) && Finished(k)
  {
    var i :| 0 <= i < |h| - |g| && h[|g|..][i] == Fin;
    assert k[|f|..][i + |g| - |f|] == Fin && k[i + |g|] == Fin;
  }

  /** A queued stream leaves the queue only by a FIN that FlushTransfers just got accepted, or by DestroyStream. */
  lemma LeavesFinishedOrDestroyed(e: Engine, op: Op, id: StreamId)
    requires id in e.outgoing && id !in Step(e, op).outgoing
    ensures op == Destroy(id) || (op.FlushTransfers? && FinAdded(e.net.Stream(id), Step(e, op).net.Stream(id)))
  {
    if op.FlushCache? { FlushCacheGrows(e, 0); }
    if op.FlushTransfers? { SweepErases(e, op.order, id); }
  }

  lemma {:induction false} SweepErases(e: Engine, order: seq<StreamId>, id: StreamId)
    requires id in e.outgoing && id !in Sweep(e, order).engine.outgoing
    ensures FinAdded(e.net.Stream(id), Sweep(e, order).engine.net.Stream(id))
    decreases |order|
  {
    var s, e' := Visit(e, order[0]), Sweep(e, order).engine;
    var f, g, h := e.net.Stream(id), s.engine.net.Stream(id), e'.net.Stream(id);
    VisitGrows(e, order[0]);
    if s.stopped {
      VisitErases(e, order[0], id);
    } else if id in s.engine.outgoing {
      SweepErases(s.engine, order[1..], id);
      FinAddedWithin(f, g, h, h);
    } else {
      VisitErases(e, order[0], id);
      SweepGrows(s.engine, order[1..]);
      FinAddedWithin(f, f, g, h);
    }
  }

  lemma VisitErases(e: Engine, v: StreamId, id: StreamId)
    requires id in e.outgoing && id !in Visit(e, v).engine.outgoing
    ensures FinAdded(e.net.Stream(id), Visit(e, v).engine.net.Stream(id))
  {
    var o, f, f' := e.outgoing[v], e.net.Stream(id), Visit(e, v).engine.net.Stream(id);
    VisitGrows(e, v);
    if o.offset < |o.buffer| { VisitResult(e, v); }
    assert Accepted([], true) == [Fin];
    assert f' == f'[..|f'| - 1] + [Fin] && |f| < |f'|;
    assert f'[|f|..][|f'| - 1 - |f|] == Fin;
  }

  /** DestroyStream takes the stream out of the queue and touches nothing else. */
  lemma DestroyErases(e: Engine, id: StreamId)
    ensures var e' := Step(e, Destroy(id));
      && id !in e'.outgoing
      && (forall j | j in e.outgoing && j != id :: j in e'.outgoing && e'.outgoing[j] == e.outgoing[j])
      && e'.outgoing.Keys <= e.outgoing.Keys
      && e'.cache == e.cache && e'.net == e.net && e'.jobs == e.jobs
      && (id in e.jobs ==> id in e'.destroyed)
  {
  }

  lemma {:induction false} SweepKeepsDestroyed(e: Engine, order: seq<StreamId>)
    ensures var e' := Sweep(e, order).engine;
      && e'.destroyed == e.destroyed && e'.jobs == e.jobs && e'.again == e.again
      && e'.outgoing.Keys <= e.outgoing.Keys && e'.cache == e.cache
    decreases |order|
  {
    if order == [] {
    } else if !Visit(e, order[0]).stopped {
      SweepKeepsDestroyed(Visit(e, order[0]).engine, order[1..]);
    }
  }

  /** The outcome of a nonempty body is fixed by the route that took it. SendBody returned true exactly on the
  Direct route; by the others (a refused FIN, or the cache) the stream is never finished, whatever follows but a
  second body. */
  lemma OnlyDirectFinishes(e: Engine, ops: seq<Op>, id: StreamId)
    requires Inv(e) && id in e.jobs && e.jobs[id].body != [] && id !in Run(e, ops).again
    ensures var e' := Run(e, ops);
      && (!e.jobs[id].route.Direct? ==> !Finished(e'.net.Stream(id)))
      && (id !in e'.outgoing && id !in e'.destroyed ==>
            (Finished(e'.net.Stream(id)) <==> e.jobs[id].route.Direct?))
  {
    RunKeepsInv(e, ops);
    RunGrows(e, ops);
    assert Sole(Run(e, ops), id) && StreamOk(Run(e, ops), id);
  }

  /** A refused FIN: every byte is accepted, the stream is not queued, and it is never finished. */
  lemma RefusedFinIsLost(e: Engine, ops: seq<Op>, id: StreamId)
    requires Inv(e) && id in e.jobs && e.jobs[id].route.FinRefused? && id !in Run(e, ops).again
    ensures var e' := Run(e, ops);
      Payload(e'.net.Stream(id)) == e.jobs[id].body && !Finished(e'.net.Stream(id)) && id !in e'.outgoing
  {
    RunKeepsInv(e, ops);
    RunGrows(e, ops);
    assert Sole(Run(e, ops), id) && StreamOk(Run(e, ops), id);
  }

  /** What SendBody's result tells: FIN was refused exactly when the whole body was accepted at once and the next
  call was refused. */
  lemma SendBodyRoute(e: Engine, id: StreamId, body: seq<Byte>)
    ensures var first, second := e.net.answers(e.net.calls), e.net.answers(e.net.calls + 1);
      SendBody(e, id, body).jobs[id].route.FinRefused? <==>
        body != [] && first.Ok? && first.n >= |body| && !second.Ok?
  {
  }

  // ----- Concrete runs on which the code's evident intent fails

  function Script(replies: seq<Reply>): nat -> Reply {
    (k: nat) => if k < |replies| then replies[k] else Failed
  }

  function Start(replies: seq<Reply>): Engine {
    Engine(map[], [], Net(map[], Script(replies), 0), map[], {}, {})
  }

  /** A request whose FIN is refused: SendRequest reports the stream, and no run ever finishes it. */
  lemma LostFinExample(ops: seq<Op>)
    requires 4 !in Run(Step(Start([Ok(0), Ok(2), Failed]), Request(4, [1, 2])), ops).again
    ensures var e := Step(Start([Ok(0), Ok(2), Failed]), Request(4, [1, 2]));
      && Payload(e.net.Stream(4)) == [1, 2]
      && !Finished(Run(e, ops).net.Stream(4))
  {
    var e0 := Start([Ok(0), Ok(2), Failed]);
    var e := Step(e0, Request(4, [1, 2]));
    InitialInv(e0);
    StepKeepsInv(e0, e, Request(4, [1, 2]));
    SendBodyRoute(e0.(net := e0.net.SendHead(4, false).0), 4, [1, 2]);
    RefusedFinIsLost(e, [], 4);
    RefusedFinIsLost(e, ops, 4);
  }

  /** A cached body accepted in two parts: the headers and the first byte are delivered twice, the second byte
  never, and the response leaves the cache without a FIN. */
  lemma CachedBodyExample()
    ensures var parked := SendResponse(Start([Blocked(true), Ok(0), Ok(1), Ok(0), Ok(1)]), 4, [1, 2]);
      var e := FlushCacheFrom(FlushCacheFrom(parked, 0), 0);
      e.net.Stream(4) == [Head, Chunk([1]), Head, Chunk([1])] && e.cache == []
  {
    var e1 := SendResponse(Start([Blocked(true), Ok(0), Ok(1), Ok(0), Ok(1)]), 4, [1, 2]);
    assert e1.cache == [CachedResponse(4, [1, 2], 2)];
    CachedInPart(e1, 4, [1, 2], 2);
    CachedInPart(FlushCacheFrom(e1, 0), 4, [1, 2], 1);
  }

  /** A sweep of one cached response that accepts its headers and one byte. */
  lemma CachedInPart(e: Engine, id: StreamId, data: seq<Byte>, left: nat)
    requires 1 <= left <= |data| && e.cache == [CachedResponse(id, data, left)]
    requires e.net.answers(e.net.calls) == Ok(0) && e.net.answers(e.net.calls + 1) == Ok(1)
    ensures var e' := FlushCacheFrom(e, 0);
      && e'.net.Stream(id) == e.net.Stream(id) + [Head, Chunk([data[0]])]
      && e'.cache == (if left > 1 then [CachedResponse(id, data, left - 1)] else [])
      && e'.net.answers == e.net.answers && e'.net.calls == e.net.calls + 2
  {
    TryCachedResult(e, 0);
    var t := TryCached(e, 0);
    assert data[..1] == [data[0]];
    assert t.kept == (left > 1);
    assert t.engine.cache == if left > 1 then [CachedResponse(id, data, left - 1)] else [];
    assert FlushCacheFrom(e, 0) == t.engine;
  }

  /** Answering one stream twice while the first body is queued overwrites the queue: the two bodies mix. */
  lemma TwoAnswersExample()
    ensures var e := SendResponse(SendResponse(Start([Ok(0), Ok(1), Ok(0), Ok(1)]), 4, [1, 2]), 4, [7, 8]);
      Payload(e.net.Stream(4)) == [1, 7] && 4 in e.outgoing && e.outgoing[4] == Outgoing([8], 0)
  {
    var e0 := Start([Ok(0), Ok(1), Ok(0), Ok(1)]);
    var e1 := SendResponse(e0, 4, [1, 2]);
    AnswerInPart(e0, 4, 1, 2);
    AnswerInPart(e1, 4, 7, 8);
    PayloadInPart([], 1);
    PayloadInPart(e1.net.Stream(4), 7);
    assert [] + [Head, Chunk([1])] == e1.net.Stream(4);
  }

  /** A response of two bytes whose headers and first byte are accepted. */
  lemma AnswerInPart(e: Engine, id: StreamId, a: Byte, b: Byte)
    requires e.net.answers(e.net.calls) == Ok(0) && e.net.answers(e.net.calls + 1) == Ok(1)
    ensures var e' := SendResponse(e, id, [a, b]);
      && e'.net.Stream(id) == e.net.Stream(id) + [Head, Chunk([a])]
      && id in e'.outgoing && e'.outgoing[id] == Outgoing([b], 0)
      && e'.net.answers == e.net.answers && e'.net.calls == e.net.calls + 2
  {
    var body := [a, b];
    assert body[..1] == [a] && body[1..] == [b];
    var net := e.net.SendHead(id, false).0;
    var net' := net.SendBody(id, body, false).0;
    assert net'.Stream(id) == e.net.Stream(id) + [Head] + [Chunk([a])];
    assert SendResponse(e, id, body).net == net';
  }

  lemma PayloadInPart(f: seq<Frame>, b: Byte)
    ensures Payload(f + [Head, Chunk([b])]) == Payload(f) + [b]
  {
    var g := f + [Head, Chunk([b])];
    assert g[..|g| - 1] == f + [Head] && (f + [Head])[..|f|] == f;
  }
}

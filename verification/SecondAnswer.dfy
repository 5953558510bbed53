/** What a second answer on one stream does, on top of what module SingleMessage says of every stream. */
module SecondAnswer {
  import opened Transport
  import opened Transfer
  import opened TransferProofs
  import opened TransferTheorems
  import opened SingleMessage

  /** Nothing was sent for the stream, and nothing waits to be. */
  ghost predicate Untouched(e: Engine, id: StreamId) {
    e.net.Stream(id) == [] && id !in e.outgoing && id !in CacheIds(e.cache)
  }

  /** An answer leaves no trace exactly when its headers are refused and not cached. */
  lemma AnswerTakes(e: Engine, id: StreamId, body: seq<Byte>)
    ensures var e', r := SendResponse(e, id, body), e.net.answers(e.net.calls);
      && (e'.net.Stream(id) == e.net.Stream(id) && e'.cache == e.cache <==> !r.Ok? && r != Blocked(true))
      && (!r.Ok? && r != Blocked(true) ==> e' == e.(net := e.net.(calls := e.net.calls + 1)))
  {
    var r := e.net.answers(e.net.calls);
    if r.Ok? {
      var net := e.net.SendHead(id, body == []).0;
      SendBodyGrows(e.(net := net), id, body);
      assert |net.Stream(id)| > |e.net.Stream(id)|;
    } else if r == Blocked(true) {
      assert |SendResponse(e, id, body).cache| == |e.cache| + 1;
    }
  }

  lemma AppendedWaiting(e: Engine, e': Engine, id: StreamId, body: seq<Byte>, k: nat, fin: bool)
    requires k <= |body| && Appended(e, e', id, body, k, fin)
    ensures Payload(e'.net.Stream(id)) + Waiting(e', id) ==
      Payload(e.net.Stream(id)) + body + if k < |body| then [] else Waiting(e, id)
  {
    var p := Payload(e.net.Stream(id));
    AppendedPayload(e.net.Stream(id), body[..k], fin);
    if k < |body| {
      assert Waiting(e', id) == body[k..];
      assert p + body[..k] + body[k..] == p + body;
    } else {
      assert body[..k] == body;
    }
  }

  /** What a stream holds and has waiting after an answer whose headers are accepted. A body that is cut short takes
  the place of what was queued; one that is not is followed by it. */
  lemma AnswerAppends(e: Engine, id: StreamId, body: seq<Byte>)
    requires e.net.answers(e.net.calls).Ok?
    ensures var e' := SendResponse(e, id, body);
      Payload(e'.net.Stream(id)) + Waiting(e', id) ==
        Payload(e.net.Stream(id)) + body + if AtOnce(e, body) < |body| then [] else Waiting(e, id)
  {
    AnswerState(e, id, body);
    AppendedWaiting(e, SendResponse(e, id, body), id, body, AtOnce(e, body), WithFin(e, body));
  }

  /** Headers on a stream, and then any run: the count so far decides. */
  lemma WholeLater(e: Engine, e': Engine, id: StreamId, body: seq<Byte>, ops: seq<Op>)
    requires Inv(e) && Inv(e') && Heads(e'.net.Stream(id)) == Heads(e.net.Stream(id)) + 1
    requires e.net.Stream(id) == [] ==> Carries(e', id, body)
    ensures var once := e.net.Stream(id) == [] && Sent(e', ops, id) == 0;
      && (OneHead(Run(e', ops).net.Stream(id)) <==> once)
      && (Carries(Run(e', ops), id, body) <==> once)
  {
    RunKeepsInv(e', ops);
    RunHeads(e', ops, id);
    OneHeadCounts(e.net.Stream(id));
    OneHeadCounts(Run(e', ops).net.Stream(id));
    if e.net.Stream(id) == [] && Sent(e', ops, id) == 0 { RunCarries(e', ops, id, body); }
  }

  /** The exact condition for an answer whose headers are accepted, the first of its stream or not, and with whatever
  follows, the flush that ends the call included: the stream carries it, or as much of it as was accepted, if and only
  if nothing was on the stream before and no other headers are accepted for it after. A response that is cached for
  the stream does no harm unless its headers are accepted too. */
  lemma AnswerIsWhole(e: Engine, id: StreamId, body: seq<Byte>, ops: seq<Op>)
    requires Inv(e) && e.net.answers(e.net.calls).Ok?
    ensures var e' := SendResponse(e, id, body);
      var once := e.net.Stream(id) == [] && Sent(e', ops, id) == 0;
      && (OneHead(Run(e', ops).net.Stream(id)) <==> once)
      && (Carries(Run(e', ops), id, body) <==> once)
  {
    var e' := SendResponse(e, id, body);
    SendResponseKeepsInv(e, e', id, body);
    StepHeads(e, Response(id, body), id);
    if e.net.Stream(id) == [] { OpeningCarries(e, id, body); }
    WholeLater(e, e', id, body, ops);
  }

  /** The same of a cached response when the sweep gets its headers accepted, whatever else is cached or was sent. */
  lemma CachedIsWhole(e: Engine, i: nat, ops: seq<Op>)
    requires Inv(e) && i < |e.cache| && e.net.answers(e.net.calls).Ok?
    ensures var e', c := TryCached(e, i).engine, e.cache[i];
      var once := e.net.Stream(c.id) == [] && Sent(e', ops, c.id) == 0;
      && (OneHead(Run(e', ops).net.Stream(c.id)) <==> once)
      && (Carries(Run(e', ops), c.id, c.data) <==> once)
  {
    var e', c := TryCached(e, i).engine, e.cache[i];
    TryCachedKeepsInv(e, e', i);
    CachedState(e, i);
    HeadsAppended(e.net.Stream(c.id), c.data[..CachedTaken(e, i)], c.left == 0);
    if e.net.Stream(c.id) == [] { CachedCarries(e, i); }
    WholeLater(e, e', c.id, c.data, ops);
  }

  /** A second set of headers stays: no later run leaves the stream with one. */
  lemma MixedForEver(e: Engine, id: StreamId, body: seq<Byte>, ops: seq<Op>)
    requires Shape(e) && e.net.answers(e.net.calls).Ok? && e.net.Stream(id) != []
    ensures !OneHead(Run(SendResponse(e, id, body), ops).net.Stream(id))
  {
    var e', f := SendResponse(e, id, body), e.net.Stream(id);
    AnswerState(e, id, body);
    RunGrows(e', ops);
    assert e'.net.Stream(id)[|f|] == Head;
    assert e'.net.Stream(id) <= Run(e', ops).net.Stream(id);
    assert Run(e', ops).net.Stream(id)[|f|] == Head;
  }

  /** An answer whose headers and whole body are accepted at once. */
  lemma AnswerAtOnce(e: Engine, id: StreamId, body: seq<Byte>)
    requires body != [] && e.net.answers(e.net.calls).Ok? && e.net.answers(e.net.calls + 1) == Ok(|body|)
    ensures var e' := SendResponse(e, id, body);
      && e'.net.Stream(id) ==
           e.net.Stream(id) + [Head, Chunk(body)] + (if e.net.answers(e.net.calls + 2).Ok? then [Fin] else [])
      && e'.outgoing == e.outgoing && e'.cache == e.cache
      && e'.net.answers == e.net.answers && e'.net.calls == e.net.calls + 3
  {
    SendBytesResult(e, id, body);
    assert SendResponse(e, id, body) == SendBody(e.(net := e.net.Push(id, [Head])), id, body);
  }

  /** The stream need not be queued for that: a first answer that lost its FIN has left nothing behind, and the stream
  still ends with the bodies of both. */
  lemma AnswerAfterLostFinExample()
    ensures var e1 := SendResponse(Start([Ok(0), Ok(2), Failed, Ok(0), Ok(2), Ok(0)]), 4, [1, 2]);
      && e1.outgoing == map[] && e1.cache == []
      && SendResponse(e1, 4, [7, 8]).net.Stream(4) == [Head, Chunk([1, 2]), Head, Chunk([7, 8]), Fin]
  {
    var e0 := Start([Ok(0), Ok(2), Failed, Ok(0), Ok(2), Ok(0)]);
    AnswerAtOnce(e0, 4, [1, 2]);
    AnswerAtOnce(SendResponse(e0, 4, [1, 2]), 4, [7, 8]);
  }

  /** A second answer delivered whole beside a cached one: the sweep that ends the call finds the cached headers refused
  and drops the first. */
  lemma AnswerBesideCachedExample()
    ensures var e1 := SendResponse(Start([Blocked(true), Ok(0), Ok(2), Ok(0), Failed]), 4, [1, 2]);
      var v := FlushCacheFrom(SendResponse(e1, 4, [7, 8]), 0);
      && e1.cache != [] && v.cache == [] && v.net.Stream(4) == [Head, Chunk([7, 8]), Fin]
  {
    var e1 := SendResponse(Start([Blocked(true), Ok(0), Ok(2), Ok(0), Failed]), 4, [1, 2]);
    assert e1.cache == [CachedResponse(4, [1, 2], 2)];
    AnswerAtOnce(e1, 4, [7, 8]);
    TryCachedResult(SendResponse(e1, 4, [7, 8]), 0);
  }

  // ----- An untouched stream may be answered as if for the first time

  /** The state without its history. */
  ghost predicate Alike(e: Engine, f: Engine) {
    e.outgoing == f.outgoing && e.cache == f.cache && e.net == f.net
  }

  lemma {:induction false} SweepAlike(e: Engine, f: Engine, order: seq<StreamId>)
    requires Alike(e, f)
    ensures Alike(Sweep(e, order).engine, Sweep(f, order).engine) && Sweep(e, order).stopped == Sweep(f, order).stopped
    decreases |order|
  {
    if order == [] {
    } else {
      var s, t := Visit(e, order[0]), Visit(f, order[0]);
      assert Alike(s.engine, t.engine) && s.stopped == t.stopped;
      if !s.stopped { SweepAlike(s.engine, t.engine, order[1..]); }
    }
  }

  lemma {:induction false} FlushCacheAlike(e: Engine, f: Engine, i: nat)
    requires Alike(e, f) && i <= |e.cache|
    ensures Alike(FlushCacheFrom(e, i), FlushCacheFrom(f, i))
    decreases |e.cache| - i
  {
    if i == |e.cache| {
    } else {
      var t, u := TryCached(e, i), TryCached(f, i);
      assert Alike(t.engine, u.engine) && t.kept == u.kept;
      FlushCacheAlike(t.engine, u.engine, if t.kept then i + 1 else i);
    }
  }

  lemma SendAlike(e: Engine, f: Engine, id: StreamId, body: seq<Byte>)
    requires Alike(e, f)
    ensures Alike(SendRequest(e, id, body), SendRequest(f, id, body))
    ensures Alike(SendResponse(e, id, body), SendResponse(f, id, body))
  {
  }

  lemma StepAlike(e: Engine, f: Engine, op: Op)
    requires Alike(e, f)
    ensures Alike(Step(e, op), Step(f, op))
  {
    match op
    case Request(id, body) => SendAlike(e, f, id, body);
    case Response(id, body) => SendAlike(e, f, id, body);
    case FlushCache => FlushCacheAlike(e, f, 0);
    case FlushTransfers(order) => SweepAlike(e, f, order);
    case Destroy(_) =>
  }

  lemma {:induction false} RunAlike(e: Engine, f: Engine, ops: seq<Op>)
    requires Alike(e, f)
    ensures Alike(Run(e, ops), Run(f, ops))
  {
    if ops == [] {
    } else {
      RunAlike(e, f, ops[..|ops| - 1]);
      StepAlike(Run(e, ops[..|ops| - 1]), Run(f, ops[..|ops| - 1]), ops[|ops| - 1]);
    }
  }

  /** The state with the history of one stream forgotten. */
  function Forget(e: Engine, id: StreamId): Engine {
    e.(jobs := e.jobs - {id}, again := e.again - {id}, destroyed := e.destroyed - {id})
  }

  /** However often an untouched stream was answered before, everything from here on is as if it had never been:
  the state without its history keeps the invariant, and every run from it is the same. */
  lemma UntouchedStartsAfresh(e: Engine, id: StreamId, ops: seq<Op>)
    requires Inv(e) && Untouched(e, id)
    ensures Inv(Forget(e, id)) && Inv(Run(Forget(e, id), ops))
    ensures Alike(Run(e, ops), Run(Forget(e, id), ops))
  {
    var e' := Forget(e, id);
    assert id !in e.net.frames;
    forall j | Sole(e', j) ensures StreamOk(e', j) { assert Sole(e, j) && StreamOk(e, j); }
    forall i | 0 <= i < |e'.cache| && e'.cache[i].id !in e'.again ensures CacheOk(e', i) {
      assert e.cache[i].id in CacheIds(e.cache);
      assert CacheOk(e, i);
    }
    forall i | 0 <= i < |e.cache| ensures e.cache[i].id != id { assert e.cache[i].id in CacheIds(e.cache); }
    RunKeepsInv(e', ops);
    RunAlike(e, e', ops);
  }
}

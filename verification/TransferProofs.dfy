/** Every run keeps the invariant of the sending half. */
module TransferProofs {
  import opened Transport
  import opened Transfer

  /** Appending accepted frames to an unfinished stream. */
  lemma PushKeepsShape(f: seq<Frame>, bytes: seq<Byte>, fin: bool)
    requires FinIsLast(f) && !Finished(f)
    ensures var g := f + Accepted(bytes, fin);
      && FinIsLast(g) && Payload(g) == Payload(f) + bytes && Finished(g) == fin && (OneHead(f) ==> OneHead(g))
  {
    PayloadConcat(f, Accepted(bytes, fin));
    PayloadAccepted(bytes, fin);
    var g := f + Accepted(bytes, fin);
    if fin { assert g[|g| - 1] == Fin; }
  }

  /** What one stream's step leaves to prove about the others. */
  ghost predicate OnlyTouches(e: Engine, e': Engine, id: StreamId) {
    && e.jobs.Keys <= e'.jobs.Keys <= e.jobs.Keys + {id}
    && e.again <= e'.again <= e.again + {id}
    && e'.outgoing.Keys <= e.outgoing.Keys + {id}
    && e'.net.frames.Keys <= e.net.frames.Keys + {id}
    && e'.destroyed == e.destroyed
    && CacheIds(e'.cache) - {id} <= CacheIds(e.cache)
    && forall j | j in e.jobs && j != id ::
        && e'.jobs[j] == e.jobs[j]
        && e'.net.Stream(j) == e.net.Stream(j)
        && (j in e.net.frames <==> j in e'.net.frames)
        && (j in e.outgoing <==> j in e'.outgoing)
        && (j in e.outgoing ==> e'.outgoing[j] == e.outgoing[j])
  }

  lemma TouchesOne(e: Engine, e': Engine, id: StreamId)
    requires e'.cache == e.cache && e'.destroyed == e.destroyed && e.again <= e'.again <= e.again + {id}
    requires e'.net.frames == e.net.frames
      || (id in e'.net.frames && e'.net.frames == e.net.frames[id := e'.net.frames[id]])
    requires e'.jobs == e.jobs || (id in e'.jobs && e'.jobs == e.jobs[id := e'.jobs[id]])
    requires e'.outgoing == e.outgoing - {id} || e'.outgoing == e.outgoing
      || (id in e'.outgoing && e'.outgoing == e.outgoing[id := e'.outgoing[id]])
    ensures OnlyTouches(e, e', id)
  {
  }

  /** The part of the general shape that one stream's step must show for that stream. */
  ghost predicate OwnShape(e: Engine, id: StreamId) {
    && id in e.jobs
    && (id in e.outgoing ==> id in e.net.frames && e.outgoing[id].offset <= |e.outgoing[id].buffer|)
    && (id in e.net.frames ==> Opened(e.net.frames[id]))
  }

  lemma ShapeKept(e: Engine, e': Engine, id: StreamId)
    requires Shape(e) && OnlyTouches(e, e', id) && OwnShape(e', id)
    ensures Shape(e')
  {
    forall j | j in e'.net.frames ensures Opened(e'.net.frames[j]) {
      if j != id { assert e'.net.Stream(j) == e.net.Stream(j); }
    }
    forall j | j in e'.outgoing ensures j in e'.net.frames && e'.outgoing[j].offset <= |e'.outgoing[j].buffer| {
      if j != id { assert j in e.outgoing && j in e.jobs; }
    }
  }

  lemma OthersKept(e: Engine, e': Engine, id: StreamId)
    requires Inv(e) && OnlyTouches(e, e', id) && OwnShape(e', id)
    requires id !in e'.again ==> StreamOk(e', id)
    requires forall i | 0 <= i < |e'.cache| && e'.cache[i].id !in e'.again :: CacheOk(e', i)
    requires forall i, j | 0 <= i < j < |e'.cache| && e'.cache[i].id == e'.cache[j].id :: e'.cache[i].id in e'.again
    ensures Inv(e')
  {
    ShapeKept(e, e', id);
    forall j | Sole(e', j) ensures StreamOk(e', j) {
      if j != id { assert Sole(e, j) && StreamOk(e, j); }
    }
  }

  /** The cache is untouched and id is not in it. */
  lemma CacheKept(e: Engine, e': Engine, id: StreamId)
    requires Inv(e) && OnlyTouches(e, e', id)
    requires OwnShape(e', id) && e'.cache == e.cache
    requires id !in e'.again ==> id !in CacheIds(e.cache) && StreamOk(e', id)
    ensures Inv(e')
  {
    forall i | 0 <= i < |e'.cache| && e'.cache[i].id !in e'.again ensures CacheOk(e', i) {
      assert CacheOk(e, i);
      assert e.cache[i].id in CacheIds(e.cache);
    }
    OthersKept(e, e', id);
  }

  // ----- FlushTransfers

  /** A refused call changes nothing but the oracle's position. */
  lemma RefusalKeepsInv(e: Engine, e': Engine)
    requires Inv(e) && e' == e.(net := e.net.(calls := e'.net.calls))
    ensures Inv(e')
  {
    forall j | Sole(e', j) ensures StreamOk(e', j) { assert Sole(e, j) && StreamOk(e, j); }
    forall i | 0 <= i < |e'.cache| && e'.cache[i].id !in e'.again ensures CacheOk(e', i) { assert CacheOk(e, i); }
  }

  /** Accepting the next bytes of a queued stream moves them from the buffer to the transport. */
  lemma AdvanceKeepsInv(e: Engine, e': Engine, id: StreamId, bytes: seq<Byte>, o': Outgoing)
    requires Inv(e) && id in e.outgoing && id !in e.again
    requires o'.offset <= |o'.buffer|
    requires e.outgoing[id].buffer[e.outgoing[id].offset..] == bytes + o'.buffer[o'.offset..]
    requires e' == e.(outgoing := e.outgoing[id := o'], net := e.net.Push(id, Accepted(bytes, false)))
    ensures Inv(e')
  {
    var f, rest := e.net.Stream(id), o'.buffer[o'.offset..];
    assert Sole(e, id) && StreamOk(e, id);
    PushKeepsShape(f, bytes, false);
    assert Payload(f) + (bytes + rest) == Payload(f) + bytes + rest;
    assert StreamOk(e', id);
    TouchesOne(e, e', id);
    CacheKept(e, e', id);
  }

  /** Accepting FIN on a stream with nothing left to send erases it from the queue. */
  lemma CompleteKeepsInv(e: Engine, e': Engine, id: StreamId)
    requires Inv(e) && id in e.outgoing && id !in e.again && |e.outgoing[id].buffer| <= e.outgoing[id].offset
    requires e' == Erase(e, id).(net := e.net.Push(id, Accepted([], true)))
    ensures Inv(e')
  {
    var f := e.net.Stream(id);
    assert Sole(e, id) && StreamOk(e, id);
    assert Payload(f) == e.jobs[id].body;
    PushKeepsShape(f, [], true);
    assert StreamOk(e', id);
    TouchesOne(e, e', id);
    CacheKept(e, e', id);
  }

  lemma SendFinKeepsInv(e: Engine, e': Engine, id: StreamId)
    requires Inv(e) && id in e.outgoing && id !in e.again && |e.outgoing[id].buffer| <= e.outgoing[id].offset
    requires e' == SendFin(e, id).engine
    ensures Inv(e')
  {
    if SendFin(e, id).stopped {
      RefusalKeepsInv(e, e');
    } else {
      CompleteKeepsInv(e, e', id);
    }
  }

  /** The three ways a visit to a stream with bytes left can go. */
  lemma VisitResult(e: Engine, id: StreamId)
    requires id in e.outgoing && e.outgoing[id].offset < |e.outgoing[id].buffer|
    ensures var o := e.outgoing[id];
      var rest := o.buffer[o.offset..];
      var r := e.net.SendBody(id, rest, false).1;
      Visit(e, id) ==
        if !r.Ok? then Swept(e.(net := e.net.(calls := e.net.calls + 1)), true)
        else
          var o' := if r.n < |rest| then o.(offset := o.offset + r.n) else Outgoing([], 0);
          var e' := e.(outgoing := e.outgoing[id := o'], net := e.net.Push(id, Accepted(rest[..r.n], false)));
          if r.n < |rest| then Swept(e', false) else SendFin(e', id)
  {
  }

  /** A stream answered more than once: whatever its own step does, the others keep theirs. */
  lemma AgainKeepsInv(e: Engine, e': Engine, id: StreamId)
    requires Inv(e) && OnlyTouches(e, e', id) && e'.cache == e.cache && id in e'.again && OwnShape(e', id)
    ensures Inv(e')
  {
    CacheKept(e, e', id);
  }

  lemma SendFinAgainKeepsInv(e: Engine, e': Engine, id: StreamId)
    requires Inv(e) && id in e.outgoing && id in e.again && e' == SendFin(e, id).engine
    ensures Inv(e')
  {
    TouchesOne(e, e', id);
    AgainKeepsInv(e, e', id);
  }

  lemma AdvanceAgainKeepsInv(e: Engine, e': Engine, id: StreamId, bytes: seq<Byte>, o': Outgoing)
    requires Inv(e) && id in e.outgoing && id in e.again && o'.offset <= |o'.buffer|
    requires e' == e.(outgoing := e.outgoing[id := o'], net := e.net.Push(id, Accepted(bytes, false)))
    ensures Inv(e')
  {
    TouchesOne(e, e', id);
    AgainKeepsInv(e, e', id);
  }

  lemma VisitAgainKeepsInv(e: Engine, e': Engine, id: StreamId)
    requires Inv(e) && id in e.outgoing && id in e.again && e' == Visit(e, id).engine
    ensures Inv(e')
  {
    var o := e.outgoing[id];
    if |o.buffer| <= o.offset {
      SendFinAgainKeepsInv(e, e', id);
    } else {
      VisitResult(e, id);
      var rest := o.buffer[o.offset..];
      var r := e.net.SendBody(id, rest, false).1;
      if !r.Ok? {
        RefusalKeepsInv(e, e');
      } else {
        var o' := if r.n < |rest| then o.(offset := o.offset + r.n) else Outgoing([], 0);
        var e1 := e.(outgoing := e.outgoing[id := o'], net := e.net.Push(id, Accepted(rest[..r.n], false)));
        AdvanceAgainKeepsInv(e, e1, id, rest[..r.n], o');
        if r.n == |rest| { SendFinAgainKeepsInv(e1, e', id); }
      }
    }
  }

  lemma VisitKeepsInv(e: Engine, e': Engine, id: StreamId)
    requires Inv(e) && e' == Visit(e, id).engine
    ensures Inv(e')
  {
    if id in e.outgoing && id in e.again {
      VisitAgainKeepsInv(e, e', id);
    } else if id in e.outgoing {
      var o := e.outgoing[id];
      if |o.buffer| <= o.offset {
        SendFinKeepsInv(e, e', id);
      } else {
        VisitResult(e, id);
        var rest := o.buffer[o.offset..];
        var r := e.net.SendBody(id, rest, false).1;
        if !r.Ok? {
          RefusalKeepsInv(e, e');
        } else if r.n < |rest| {
          assert rest == rest[..r.n] + o.buffer[o.offset + r.n..];
          AdvanceKeepsInv(e, e', id, rest[..r.n], o.(offset := o.offset + r.n));
        } else {
          var e1 := e.(outgoing := e.outgoing[id := Outgoing([], 0)],
                       net := e.net.Push(id, Accepted(rest[..r.n], false)));
          AdvanceKeepsInv(e, e1, id, rest[..r.n], Outgoing([], 0));
          SendFinKeepsInv(e1, e', id);
        }
      }
    }
  }

  lemma {:induction false} SweepKeepsInv(e: Engine, e': Engine, order: seq<StreamId>)
    requires Inv(e) && e' == Sweep(e, order).engine
    ensures Inv(e')
    decreases |order|
  {
    if order == [] {
    } else {
      var s := Visit(e, order[0]);
      VisitKeepsInv(e, s.engine, order[0]);
      if !s.stopped { SweepKeepsInv(s.engine, e', order[1..]); }
    }
  }

  // ----- SendRequest and SendResponse

  /** A stream seen for the first time, holding the given frames. */
  lemma NewStreamKeepsInv(e: Engine, e': Engine, id: StreamId, f: seq<Frame>)
    requires Inv(e) && id !in e.jobs
    requires e'.net.frames == e.net.frames[id := f] && e'.cache == e.cache
    requires e'.destroyed == e.destroyed && e'.again == e.again
    requires id in e'.jobs && e'.jobs == e.jobs[id := e'.jobs[id]]
    requires e'.outgoing == e.outgoing || (id in e'.outgoing && e'.outgoing == e.outgoing[id := e'.outgoing[id]])
    requires FinIsLast(f) && OneHead(f)
    requires var body := e'.jobs[id].body;
      if id in e'.outgoing then e'.jobs[id].route.Direct? && Queued(f, e'.outgoing[id], body)
      else Payload(f) == body && e'.jobs[id].route == if Finished(f) then Direct else FinRefused
    requires e'.jobs[id].route.FinRefused? ==> e'.jobs[id].body != []
    ensures Inv(e')
  {
    assert StreamOk(e', id);
    TouchesOne(e, e', id);
    CacheKept(e, e', id);
  }

  /** The frames of a stream after its headers, the first bytes, and perhaps FIN. */
  lemma FirstFrames(bytes: seq<Byte>, fin: bool)
    ensures var f := [Head] + Accepted(bytes, fin);
      FinIsLast(f) && OneHead(f) && Payload(f) == bytes && Finished(f) == fin
  {
    assert [Head][..0] == [] && Payload([]) == [];
    assert [Head] + Accepted(bytes, fin) == [Head] + Accepted(bytes, fin);
    PushKeepsShape([Head], bytes, fin);
  }

  /** What SendBody's first call leaves on a stream that holds f. */
  lemma PushedBytes(net: Net, id: StreamId, f: seq<Frame>, data: seq<Byte>)
    requires net.Stream(id) == f && id in net.frames
    ensures var (net', r) := net.SendBody(id, data, false);
      net'.frames == net.frames[id := f + Accepted(data[..if r.Ok? then r.n else 0], false)]
  {
    assert f + Accepted([], false) == f;
  }

  lemma PushedFin(net: Net, id: StreamId, f: seq<Frame>)
    requires net.Stream(id) == f && id in net.frames
    ensures var (net', r) := net.SendBody(id, [], true);
      net'.frames == if r.Ok? then net.frames[id := f + Accepted([], true)] else net.frames
  {
  }

  lemma SendEmptyKeepsInv(e: Engine, e': Engine, id: StreamId)
    requires Inv(e) && id !in e.jobs && e' == SendBody(e.(net := e.net.Push(id, [Head, Fin])), id, [])
    ensures Inv(e')
  {
    assert e.net.Stream(id) + [Head, Fin] == [Head] + Accepted([], true);
    FirstFrames([], true);
    NewStreamKeepsInv(e, e', id, [Head] + Accepted([], true));
  }

  /** The first call took k bytes: short of the body they are queued, else FIN is tried at once. */
  lemma SendPartKeepsInv(e: Engine, e': Engine, id: StreamId, body: seq<Byte>, k: nat)
    requires Inv(e) && id !in e.jobs && k < |body|
    requires e' == e.(outgoing := e.outgoing[id := Outgoing(body[k..], 0)],
                      net := Net(e.net.frames[id := [Head] + Accepted(body[..k], false)], e.net.answers, e'.net.calls),
                      jobs := e.jobs[id := Job(body, Direct)])
    ensures Inv(e')
  {
    FirstFrames(body[..k], false);
    assert body[k..][0..] == body[k..] && body[..k] + body[k..] == body;
    NewStreamKeepsInv(e, e', id, [Head] + Accepted(body[..k], false));
  }

  lemma SendAllKeepsInv(e: Engine, e': Engine, id: StreamId, body: seq<Byte>, fin: bool)
    requires Inv(e) && id !in e.jobs && body != []
    requires e' == e.(net := Net(e.net.frames[id := [Head] + Accepted(body, fin)], e.net.answers, e'.net.calls),
                      jobs := e.jobs[id := Job(body, if fin then Direct else FinRefused)])
    ensures Inv(e')
  {
    FirstFrames(body, fin);
    NewStreamKeepsInv(e, e', id, [Head] + Accepted(body, fin));
  }

  /** SendBody after its headers, on any stream: the first call takes k bytes; short of the body the rest is queued,
  else FIN is tried at once. */
  lemma SendBytesResult(e: Engine, id: StreamId, body: seq<Byte>)
    requires body != []
    ensures var e0 := e.(net := e.net.Push(id, [Head]));
      var (net, r) := e0.net.SendBody(id, body, false);
      var (net', r') := net.SendBody(id, [], true);
      var k := if r.Ok? then r.n else 0;
      var f := e.net.Stream(id) + [Head];
      SendBody(e0, id, body) ==
        if k < |body| then
          Hand(e.(outgoing := e.outgoing[id := Outgoing(body[k..], 0)],
                  net := Net(e.net.frames[id := f + Accepted(body[..k], false)], e.net.answers, net.calls)),
               id, Job(body, Direct))
        else
          Hand(e.(net := Net(e.net.frames[id := f + Accepted(body, r'.Ok?)], e.net.answers, net'.calls)),
               id, Job(body, if r'.Ok? then Direct else FinRefused))
  {
    var e0 := e.(net := e.net.Push(id, [Head]));
    var f := e.net.Stream(id) + [Head];
    PushedBytes(e0.net, id, f, body);
    var (net, r) := e0.net.SendBody(id, body, false);
    var k := if r.Ok? then r.n else 0;
    assert net.frames == e.net.frames[id := f + Accepted(body[..k], false)];
    if k == |body| {
      assert body[..k] == body;
      var (net', r') := net.SendBody(id, [], true);
      PushedFin(net, id, f + Accepted(body, false));
      assert f + Accepted(body, false) + Accepted([], true) == f + Accepted(body, true);
      assert net'.frames == e.net.frames[id := f + Accepted(body, r'.Ok?)];
    }
  }

  lemma SendBytesKeepsInv(e: Engine, e': Engine, id: StreamId, body: seq<Byte>)
    requires Inv(e) && id !in e.jobs && body != [] && e' == SendBody(e.(net := e.net.Push(id, [Head])), id, body)
    ensures Inv(e')
  {
    SendBytesResult(e, id, body);
    assert e.net.Stream(id) + [Head] == [Head];
    var (net, r) := e.net.Push(id, [Head]).SendBody(id, body, false);
    if r.Ok? && r.n == |body| {
      SendAllKeepsInv(e, e', id, body, net.SendBody(id, [], true).1.Ok?);
    } else {
      SendPartKeepsInv(e, e', id, body, if r.Ok? then r.n else 0);
    }
  }

  /** SendBody on a stream whose headers were just accepted. */
  lemma SendBodyKeepsInv(e: Engine, e': Engine, id: StreamId, body: seq<Byte>)
    requires Inv(e) && id !in e.jobs
    requires e' == SendBody(e.(net := e.net.Push(id, if body == [] then [Head, Fin] else [Head])), id, body)
    ensures Inv(e')
  {
    if body == [] { SendEmptyKeepsInv(e, e', id); } else { SendBytesKeepsInv(e, e', id, body); }
  }

  /** SendBody on a stream that had a body before, after any headers. */
  lemma SendAgainKeepsInv(e: Engine, e': Engine, id: StreamId, body: seq<Byte>)
    requires Inv(e) && id in e.jobs
    requires e' == SendBody(e.(net := e.net.Push(id, if body == [] then [Head, Fin] else [Head])), id, body)
    ensures Inv(e')
  {
    if body != [] { SendBytesResult(e, id, body); }
    TouchesOne(e, e', id);
    AgainKeepsInv(e, e', id);
  }

  lemma SendRequestKeepsInv(e: Engine, e': Engine, id: StreamId, body: seq<Byte>)
    requires Inv(e) && e' == SendRequest(e, id, body)
    ensures Inv(e')
  {
    if !e.net.SendHead(id, body == []).1.Ok? {
      RefusalKeepsInv(e, e');
    } else if id in e.jobs {
      SendAgainKeepsInv(e, e', id, body);
    } else {
      SendBodyKeepsInv(e, e', id, body);
    }
  }

  lemma AppendKeepsIds(cache: seq<Cached>, c: Cached)
    ensures CacheIds(cache + [c]) == CacheIds(cache) + {c.id}
  {
  }

  /** A response whose headers are blocked joins the cache. */
  lemma ParkKeepsInv(e: Engine, e': Engine, id: StreamId, body: seq<Byte>)
    requires Inv(e)
    requires e' == Hand(e.(cache := e.cache + [CachedResponse(id, body, |body|)], net := e.net.(calls := e'.net.calls)),
                        id, Job(body, Parked))
    ensures Inv(e')
  {
    AppendKeepsIds(e.cache, CachedResponse(id, body, |body|));
    assert id !in e.jobs ==> e'.net.Stream(id) == [] && Payload([]) == [];
    forall i | 0 <= i < |e.cache| ensures e'.cache[i] == e.cache[i] && e.cache[i].id in e.jobs {
      assert e.cache[i].id in CacheIds(e.cache);
    }
    forall i | 0 <= i < |e'.cache| && e'.cache[i].id !in e'.again ensures CacheOk(e', i) {
      if i < |e.cache| { assert CacheOk(e, i); }
    }
    OthersKept(e, e', id);
  }

  lemma SendResponseKeepsInv(e: Engine, e': Engine, id: StreamId, body: seq<Byte>)
    requires Inv(e) && e' == SendResponse(e, id, body)
    ensures Inv(e')
  {
    var r := e.net.SendHead(id, body == []).1;
    if r == Blocked(true) {
      ParkKeepsInv(e, e', id, body);
    } else if !r.Ok? {
      RefusalKeepsInv(e, e');
    } else if id in e.jobs {
      SendAgainKeepsInv(e, e', id, body);
    } else {
      SendBodyKeepsInv(e, e', id, body);
    }
  }

  // ----- FlushCachedResponses

  lemma EraseKeepsIds(cache: seq<Cached>, i: nat)
    requires i < |cache|
    ensures CacheIds(cache[..i] + cache[i + 1..]) <= CacheIds(cache)
  {
  }

  lemma CacheEraseKeepsInv(e: Engine, e': Engine, i: nat)
    requires Inv(e) && i < |e.cache| && e' == EraseCached(e, i)
    ensures Inv(e') && (e.cache[i].id !in e.again ==> e.cache[i].id !in CacheIds(e'.cache))
  {
    EraseKeepsIds(e.cache, i);
    forall k | 0 <= k < |e'.cache| ensures e'.cache[k] == e.cache[if k < i then k else k + 1] {}
    forall k | 0 <= k < |e'.cache| && e'.cache[k].id !in e'.again ensures CacheOk(e', k) {
      assert CacheOk(e, if k < i then k else k + 1);
    }
    forall j | Sole(e', j) ensures StreamOk(e', j) { assert Sole(e, j) && StreamOk(e, j); }
  }

  /** Frames accepted for a response that has just left the cache. */
  lemma ParkedFramesKeepInv(e: Engine, e': Engine, id: StreamId, f: seq<Frame>)
    requires Inv(e) && Sole(e, id) && e.jobs[id].route.Parked? && id !in CacheIds(e.cache) && Opened(f)
    requires FinIsLast(f) && ChunksArePrefixes(f, e.jobs[id].body) && |Payload(f)| <= |e.jobs[id].body|
    requires Finished(f) ==> e.jobs[id].body == []
    requires e' == e.(net := Net(e.net.frames[id := f], e.net.answers, e'.net.calls))
    ensures Inv(e')
  {
    assert StreamOk(e, id);
    assert StreamOk(e', id);
    TouchesOne(e, e', id);
    CacheKept(e, e', id);
  }

  lemma UpdateKeepsIds(cache: seq<Cached>, i: nat, c: Cached)
    requires i < |cache| && c.id == cache[i].id
    ensures CacheIds(cache[i := c]) == CacheIds(cache)
  {
    var cache' := cache[i := c];
    forall x | x in cache' ensures x.id in CacheIds(cache) {
      var k :| 0 <= k < |cache'| && cache'[k] == x;
      assert cache[k] in cache && cache[k].id == x.id;
    }
    forall x | x in cache ensures x.id in CacheIds(cache') {
      var k :| 0 <= k < |cache| && cache[k] == x;
      assert cache'[k] in cache' && cache'[k].id == x.id;
    }
  }

  lemma CachedStreamOk(e: Engine, e': Engine, i: nat, f: seq<Frame>)
    requires Inv(e) && i < |e.cache| && e.cache[i].id !in e.again
    requires FinIsLast(f) && ChunksArePrefixes(f, e.cache[i].data) && !Finished(f) && |Payload(f)| <= |e.cache[i].data|
    requires e'.jobs == e.jobs && e'.outgoing == e.outgoing && e'.net.Stream(e.cache[i].id) == f
    ensures e.cache[i].id in e'.jobs && StreamOk(e', e.cache[i].id)
  {
    assert CacheOk(e, i) && StreamOk(e, e.cache[i].id);
  }

  /** Frames accepted for a response that stays in the cache. */
  lemma CachedFramesKeepInv(e: Engine, e': Engine, i: nat, f: seq<Frame>, left: nat)
    requires Inv(e) && i < |e.cache| && e.cache[i].id !in e.again && 0 < left <= |e.cache[i].data| && Opened(f)
    requires FinIsLast(f) && ChunksArePrefixes(f, e.cache[i].data) && !Finished(f)
    requires |Payload(f)| + left == |e.cache[i].data|
    requires var c := e.cache[i];
      e' == e.(cache := e.cache[i := c.(left := left)],
               net := Net(e.net.frames[c.id := f], e.net.answers, e'.net.calls))
    ensures Inv(e')
  {
    var c := e.cache[i];
    CachedStreamOk(e, e', i, f);
    forall k | 0 <= k < |e'.cache| && e'.cache[k].id !in e'.again ensures CacheOk(e', k) {
      assert CacheOk(e, k);
    }
    UpdateKeepsIds(e.cache, i, c.(left := left));
    OthersKept(e, e', c.id);
  }

  /** A cached response's frames after its headers again and the first k bytes of its body. */
  function Resent(f: seq<Frame>, data: seq<Byte>, k: nat): seq<Frame>
    requires k <= |data|
  {
    f + [Head] + Accepted(data[..k], false)
  }

  lemma HeadAgain(f: seq<Frame>, data: seq<Byte>)
    requires FinIsLast(f) && !Finished(f) && ChunksArePrefixes(f, data)
    ensures var g := f + [Head];
      FinIsLast(g) && !Finished(g) && ChunksArePrefixes(g, data) && |Payload(g)| == |Payload(f)|
  {
    assert (f + [Head])[..|f|] == f;
  }

  lemma ResentShape(f: seq<Frame>, data: seq<Byte>, k: nat)
    requires FinIsLast(f) && !Finished(f) && ChunksArePrefixes(f, data) && k <= |data|
    ensures var g := Resent(f, data, k);
      FinIsLast(g) && !Finished(g) && ChunksArePrefixes(g, data) && |Payload(g)| == |Payload(f)| + k
  {
    HeadAgain(f, data);
    PushKeepsShape(f + [Head], data[..k], false);
    assert data[..k] <= data;
  }

  lemma CachedFacts(e: Engine, i: nat)
    requires Inv(e) && i < |e.cache| && e.cache[i].id !in e.again
    ensures var c, f := e.cache[i], e.net.Stream(e.cache[i].id);
      && c.id in e.jobs && e.jobs[c.id] == Job(c.data, Parked)
      && FinIsLast(f) && !Finished(f) && ChunksArePrefixes(f, c.data) && |Payload(f)| + c.left == |c.data|
      && (c.left == 0 ==> c.data == [])
  {
    assert CacheOk(e, i) && Sole(e, e.cache[i].id) && StreamOk(e, e.cache[i].id) && e.cache[i] in e.cache;
  }

  /** How the headers and then the body of cached entry i can be answered. */
  lemma TryCachedResult(e: Engine, i: nat)
    requires i < |e.cache|
    ensures var c := e.cache[i];
      var (net, r) := e.net.SendHead(c.id, c.left == 0);
      var (net', r') := net.SendBody(c.id, c.data[..c.left], false);
      var k := if r'.Ok? then r'.n else 0;
      var f := e.net.Stream(c.id);
      TryCached(e, i) ==
        if r == Blocked(true) then Tried(e.(net := net), true)
        else if !r.Ok? then Tried(EraseCached(e, i).(net := net), false)
        else if c.left == 0 then
          Tried(EraseCached(e, i).(net := Net(e.net.frames[c.id := f + [Head, Fin]], e.net.answers, net.calls)), false)
        else
          var net'' := Net(e.net.frames[c.id := Resent(f, c.data, k)], e.net.answers, net'.calls);
          if r'.Blocked? || (r'.Ok? && k < c.left) then
            Tried(e.(cache := e.cache[i := c.(left := c.left - k)], net := net''), true)
          else
            Tried(EraseCached(e, i).(net := net''), false)
  {
    var c, f := e.cache[i], e.net.Stream(e.cache[i].id);
    var (net, r) := e.net.SendHead(c.id, c.left == 0);
    if r.Ok? && c.left > 0 {
      PushedBytes(net, c.id, f + [Head], c.data[..c.left]);
      var (net', r') := net.SendBody(c.id, c.data[..c.left], false);
      var k := if r'.Ok? then r'.n else 0;
      assert c.data[..c.left][..k] == c.data[..k];
      assert net'.frames == e.net.frames[c.id := Resent(f, c.data, k)];
      assert r'.Blocked? ==> e.cache[i := c.(left := c.left - k)] == e.cache;
    }
  }

  /** The headers of cached entry i were accepted again, with k bytes of its body, and it stays. */
  lemma CachedStaysKeepsInv(e: Engine, e': Engine, i: nat, k: nat)
    requires Inv(e) && i < |e.cache| && e.cache[i].id !in e.again && k < e.cache[i].left
    requires var c := e.cache[i];
      e' == e.(cache := e.cache[i := c.(left := c.left - k)],
               net := Net(e.net.frames[c.id := Resent(e.net.Stream(c.id), c.data, k)], e.net.answers, e'.net.calls))
    ensures Inv(e')
  {
    var c, f := e.cache[i], e.net.Stream(e.cache[i].id);
    CachedFacts(e, i);
    ResentShape(f, c.data, k);
    CachedFramesKeepInv(e, e', i, Resent(f, c.data, k), c.left - k);
  }

  /** The same, and it is erased. */
  lemma CachedLeavesKeepsInv(e: Engine, e': Engine, i: nat, k: nat)
    requires Inv(e) && i < |e.cache| && e.cache[i].id !in e.again && 0 < e.cache[i].left && k <= e.cache[i].left
    requires var c := e.cache[i];
      e' == EraseCached(e, i).(
              net := Net(e.net.frames[c.id := Resent(e.net.Stream(c.id), c.data, k)], e.net.answers, e'.net.calls))
    ensures Inv(e')
  {
    var c, f := e.cache[i], e.net.Stream(e.cache[i].id);
    CachedFacts(e, i);
    ResentShape(f, c.data, k);
    CacheEraseKeepsInv(e, EraseCached(e, i), i);
    ParkedFramesKeepInv(EraseCached(e, i), e', c.id, Resent(f, c.data, k));
  }

  /** The headers of cached entry i were accepted again and its body is offered. */
  lemma CachedBodyKeepsInv(e: Engine, e': Engine, i: nat)
    requires Inv(e) && i < |e.cache| && e.cache[i].id !in e.again && 0 < e.cache[i].left && e' == TryCached(e, i).engine
    requires e.net.SendHead(e.cache[i].id, false).1.Ok?
    ensures Inv(e')
  {
    var c := e.cache[i];
    var r := e.net.SendHead(c.id, false).0.SendBody(c.id, c.data[..c.left], false).1;
    var k := if r.Ok? then r.n else 0;
    TryCachedResult(e, i);
    if r.Blocked? || (r.Ok? && k < c.left) {
      CachedStaysKeepsInv(e, e', i, k);
    } else {
      CachedLeavesKeepsInv(e, e', i, k);
    }
  }

  /** The headers and FIN of an empty cached response were accepted. */
  lemma CachedEmptyKeepsInv(e: Engine, e': Engine, i: nat)
    requires Inv(e) && i < |e.cache| && e.cache[i].id !in e.again && e.cache[i].left == 0 && e' == TryCached(e, i).engine
    requires e.net.SendHead(e.cache[i].id, true).1.Ok?
    ensures Inv(e')
  {
    var id, erased := e.cache[i].id, EraseCached(e, i);
    var f := e.net.Stream(id);
    CachedFacts(e, i);
    CacheEraseKeepsInv(e, erased, i);
    FirstFrames([], true);
    assert [Head] + Accepted([], true) == [Head, Fin];
    PayloadConcat(f, [Head, Fin]);
    ParkedFramesKeepInv(erased, e', id, f + [Head, Fin]);
  }

  lemma CachedDropKeepsInv(e: Engine, e': Engine, i: nat)
    requires Inv(e) && i < |e.cache| && e' == EraseCached(e, i).(net := e.net.(calls := e'.net.calls))
    ensures Inv(e')
  {
    CacheEraseKeepsInv(e, EraseCached(e, i), i);
    RefusalKeepsInv(EraseCached(e, i), e');
  }

  /** An entry may be changed at will when its stream was answered more than once. */
  lemma UpdateAgainKeepsInv(e: Engine, e': Engine, i: nat, c: Cached)
    requires Inv(e) && i < |e.cache| && c.id == e.cache[i].id && c.id in e.again
    requires e' == e.(cache := e.cache[i := c])
    ensures Inv(e')
  {
    UpdateKeepsIds(e.cache, i, c);
    forall k | 0 <= k < |e'.cache| && e'.cache[k].id !in e'.again ensures CacheOk(e', k) { assert CacheOk(e, k); }
    forall j | Sole(e', j) ensures StreamOk(e', j) { assert Sole(e, j) && StreamOk(e, j); }
  }

  lemma CachedAgainKeepsInv(e: Engine, e': Engine, i: nat)
    requires Inv(e) && i < |e.cache| && e.cache[i].id in e.again && e' == TryCached(e, i).engine
    requires e.net.SendHead(e.cache[i].id, e.cache[i].left == 0).1.Ok?
    ensures Inv(e')
  {
    var c := e.cache[i];
    TryCachedResult(e, i);
    var e1 := e'.(net := e.net);
    if TryCached(e, i).kept {
      assert e1 == e.(cache := e.cache[i := e'.cache[i]]);
      UpdateAgainKeepsInv(e, e1, i, e'.cache[i]);
    } else {
      CacheEraseKeepsInv(e, e1, i);
    }
    TouchesOne(e1, e', c.id);
    AgainKeepsInv(e1, e', c.id);
  }

  lemma TryCachedKeepsInv(e: Engine, e': Engine, i: nat)
    requires Inv(e) && i < |e.cache| && e' == TryCached(e, i).engine
    ensures Inv(e')
  {
    var r := e.net.SendHead(e.cache[i].id, e.cache[i].left == 0).1;
    if r == Blocked(true) {
      RefusalKeepsInv(e, e');
    } else if !r.Ok? {
      CachedDropKeepsInv(e, e', i);
    } else if e.cache[i].id in e.again {
      CachedAgainKeepsInv(e, e', i);
    } else if e.cache[i].left == 0 {
      CachedEmptyKeepsInv(e, e', i);
    } else {
      CachedBodyKeepsInv(e, e', i);
    }
  }

  lemma {:induction false} FlushCacheKeepsInv(e: Engine, e': Engine, i: nat)
    requires Inv(e) && i <= |e.cache| && e' == FlushCacheFrom(e, i)
    ensures Inv(e')
    decreases |e.cache| - i
  {
    if i == |e.cache| {
    } else {
      var t := TryCached(e, i);
      TryCachedKeepsInv(e, t.engine, i);
      FlushCacheKeepsInv(t.engine, e', if t.kept then i + 1 else i);
    }
  }

  // ----- Runs

  lemma DestroyKeepsInv(e: Engine, e': Engine, id: StreamId)
    requires Inv(e) && e' == Step(e, Destroy(id))
    ensures Inv(e')
  {
    forall j | Sole(e', j) ensures StreamOk(e', j) { assert Sole(e, j) && StreamOk(e, j); }
    forall i | 0 <= i < |e'.cache| && e'.cache[i].id !in e'.again ensures CacheOk(e', i) { assert CacheOk(e, i); }
  }

  lemma StepKeepsInv(e: Engine, e': Engine, op: Op)
    requires Inv(e) && e' == Step(e, op)
    ensures Inv(e')
  {
    match op
    case Request(id, body) => SendRequestKeepsInv(e, e', id, body);
    case Response(id, body) => SendResponseKeepsInv(e, e', id, body);
    case FlushCache => FlushCacheKeepsInv(e, e', 0);
    case FlushTransfers(order) => SweepKeepsInv(e, e', order);
    case Destroy(id) => DestroyKeepsInv(e, e', id);
  }

  lemma {:induction false} RunKeepsInv(e: Engine, ops: seq<Op>)
    requires Inv(e)
    ensures Inv(Run(e, ops))
  {
    if ops == [] {
    } else {
      RunKeepsInv(e, ops[..|ops| - 1]);
      StepKeepsInv(Run(e, ops[..|ops| - 1]), Run(e, ops), ops[|ops| - 1]);
    }
  }

  lemma InitialInv(e: Engine)
    requires Initial(e)
    ensures Inv(e)
  {
  }
}

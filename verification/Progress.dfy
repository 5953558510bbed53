/** Progress of FlushTransfers: what it still owes and what the transport has accepted add up to a constant. */
module Progress {
  import opened Transport
  import opened Transfer
  import opened TransferProofs
  import opened TransferTheorems

  /** Remaining bytes and the FIN of a queued stream. */
  function Left(e: Engine, id: StreamId): nat {
    if id in e.outgoing && e.outgoing[id].offset <= |e.outgoing[id].buffer|
    then |e.outgoing[id].buffer| - e.outgoing[id].offset + 1
    else 0
  }

  /** Accepted bytes and FINs of a stream. */
  function Volume(f: seq<Frame>): nat {
    if f == [] then 0 else
      Volume(f[..|f| - 1]) + match f[|f| - 1] case Head => 0 case Chunk(bytes) => |bytes| case Fin => 1
  }

  lemma {:induction false} VolumeConcat(f: seq<Frame>, g: seq<Frame>)
    ensures Volume(f + g) == Volume(f) + Volume(g)
  {
    if g == [] {
      assert f + g == f;
    } else {
      VolumeConcat(f, g[..|g| - 1]);
      assert (f + g)[..|f + g| - 1] == f + g[..|g| - 1];
    }
  }

  lemma VolumeAccepted(bytes: seq<Byte>, fin: bool)
    ensures Volume(Transport.Accepted(bytes, fin)) == |bytes| + if fin then 1 else 0
  {
    var f := Transport.Accepted(bytes, fin);
    assert Volume([]) == 0;
    if bytes != [] {
      assert [Chunk(bytes)][..0] == [];
      if fin { assert f[..1] == [Chunk(bytes)]; }
    }
  }

  /** With FIN last, the volume is the payload and FIN. */
  lemma {:induction false} VolumeMeaning(f: seq<Frame>)
    requires FinIsLast(f)
    ensures Volume(f) == |Payload(f)| + if Finished(f) then 1 else 0
  {
    if f == [] {
    } else {
      var before := f[..|f| - 1];
      assert f == before + [f[|f| - 1]];
      VolumeMeaning(before);
      assert !Finished(before);
    }
  }

  ghost function Sum(s: set<StreamId>, g: StreamId -> nat): nat {
    if s == {} then 0 else var id :| id in s; g(id) + Sum(s - {id}, g)
  }

  lemma {:induction false} SumSplit(s: set<StreamId>, g: StreamId -> nat, id: StreamId)
    requires id in s
    ensures Sum(s, g) == g(id) + Sum(s - {id}, g)
  {
    var k :| k in s && Sum(s, g) == g(k) + Sum(s - {k}, g);
    if k != id {
      SumSplit(s - {k}, g, id);
      SumSplit(s - {id}, g, k);
      assert s - {k} - {id} == s - {id} - {k};
    }
  }

  /** Termwise equal sums are equal. */
  lemma {:induction false} SumBalance(s: set<StreamId>, a: StreamId -> nat, b: StreamId -> nat, a': StreamId -> nat,
                                      b': StreamId -> nat)
    requires forall id | id in s :: a(id) + b(id) == a'(id) + b'(id)
    ensures Sum(s, a) + Sum(s, b) == Sum(s, a') + Sum(s, b')
  {
    if s == {} {
    } else {
      var id :| id in s;
      SumSplit(s, a, id); SumSplit(s, b, id); SumSplit(s, a', id); SumSplit(s, b', id);
      SumBalance(s - {id}, a, b, a', b');
    }
  }

  lemma {:induction false} SumMonotone(s: set<StreamId>, a: StreamId -> nat, b: StreamId -> nat)
    requires forall id | id in s :: a(id) <= b(id)
    ensures Sum(s, a) <= Sum(s, b)
    ensures (exists id | id in s :: a(id) < b(id)) ==> Sum(s, a) < Sum(s, b)
  {
    if s == {} {
    } else {
      var id :| id in s && ((exists j | j in s :: a(j) < b(j)) ==> a(id) < b(id));
      SumSplit(s, a, id); SumSplit(s, b, id);
      SumMonotone(s - {id}, a, b);
    }
  }

  lemma {:induction false} SumShrink(s: set<StreamId>, t: set<StreamId>, g: StreamId -> nat)
    requires s <= t && forall id | id in t - s :: g(id) == 0
    ensures Sum(s, g) == Sum(t, g)
  {
    if s == t {
    } else {
      assert t == s + (t - s);
      var id :| id in t - s;
      SumSplit(t, g, id);
      SumShrink(s, t - {id}, g);
    }
  }

  /** The sum over queued streams of (remaining + 1). */
  ghost function Measure(e: Engine): nat {
    Sum(e.outgoing.Keys, id => Left(e, id))
  }

  /** What the transport has accepted on the given streams. */
  ghost function Accepted(e: Engine, ids: set<StreamId>): nat {
    Sum(ids, id => Volume(e.net.Stream(id)))
  }

  // ----- One sweep

  ghost predicate Offsets(e: Engine) {
    forall id | id in e.outgoing :: e.outgoing[id].offset <= |e.outgoing[id].buffer|
  }

  /** What a stream no longer owes was accepted, and nothing else happened to it. */
  ghost predicate Balanced(e: Engine, e': Engine, id: StreamId) {
    var f, f' := e.net.Stream(id), e'.net.Stream(id);
    && Left(e', id) + Volume(f') == Left(e, id) + Volume(f)
    && (f' == f || Volume(f') > Volume(f))
  }

  lemma PushedVolume(f: seq<Frame>, bytes: seq<Byte>, fin: bool)
    ensures var g := f + Transport.Accepted(bytes, fin);
      && Volume(g) == Volume(f) + |bytes| + (if fin then 1 else 0)
      && (g == f <==> bytes == [] && !fin)
  {
    VolumeConcat(f, Transport.Accepted(bytes, fin));
    VolumeAccepted(bytes, fin);
    if bytes == [] && !fin { assert f + Transport.Accepted(bytes, fin) == f; }
  }

  lemma SendFinBalances(e: Engine, id: StreamId, j: StreamId)
    requires Offsets(e) && id in e.outgoing && Left(e, id) == 1
    ensures Offsets(SendFin(e, id).engine) && Balanced(e, SendFin(e, id).engine, j)
  {
    PushedVolume(e.net.Stream(id), [], true);
  }

  lemma AdvanceBalances(e: Engine, e': Engine, id: StreamId, bytes: seq<Byte>, o': Outgoing, j: StreamId)
    requires Offsets(e) && id in e.outgoing && o'.offset <= |o'.buffer|
    requires var o := e.outgoing[id]; |o'.buffer| - o'.offset + |bytes| == |o.buffer| - o.offset
    requires e' == e.(outgoing := e.outgoing[id := o'], net := e.net.Push(id, Transport.Accepted(bytes, false)))
    ensures Offsets(e') && Balanced(e, e', j)
  {
    PushedVolume(e.net.Stream(id), bytes, false);
  }

  lemma VisitBalances(e: Engine, id: StreamId, j: StreamId)
    requires Offsets(e)
    ensures Offsets(Visit(e, id).engine) && Balanced(e, Visit(e, id).engine, j)
  {
    if id in e.outgoing {
      var o := e.outgoing[id];
      if |o.buffer| <= o.offset {
        SendFinBalances(e, id, j);
      } else {
        VisitResult(e, id);
        var rest := o.buffer[o.offset..];
        var r := e.net.SendBody(id, rest, false).1;
        if r.Ok? {
          var o' := if r.n < |rest| then o.(offset := o.offset + r.n) else Outgoing([], 0);
          var e1 := e.(outgoing := e.outgoing[id := o'],
                       net := e.net.Push(id, Transport.Accepted(rest[..r.n], false)));
          AdvanceBalances(e, e1, id, rest[..r.n], o', j);
          if r.n == |rest| { SendFinBalances(e1, id, j); }
        }
      }
    }
  }

  lemma {:induction false} SweepStreamBalances(e: Engine, order: seq<StreamId>, j: StreamId)
    requires Offsets(e)
    ensures Offsets(Sweep(e, order).engine) && Balanced(e, Sweep(e, order).engine, j)
    decreases |order|
  {
    if order == [] {
    } else {
      var s := Visit(e, order[0]);
      VisitBalances(e, order[0], j);
      if !s.stopped { SweepStreamBalances(s.engine, order[1..], j); }
    }
  }

  lemma SweepBalances(e: Engine, e': Engine, order: seq<StreamId>)
    requires Offsets(e) && e' == Sweep(e, order).engine
    ensures Measure(e') + Accepted(e', e.outgoing.Keys) == Measure(e) + Accepted(e, e.outgoing.Keys)
  {
    var K := e.outgoing.Keys;
    SweepKeepsDestroyed(e, order);
    var l, l', v, v' := (id: StreamId) => Left(e, id), (id: StreamId) => Left(e', id),
                        (id: StreamId) => Volume(e.net.Stream(id)), (id: StreamId) => Volume(e'.net.Stream(id));
    forall id | id in K ensures l'(id) + v'(id) == l(id) + v(id) { SweepStreamBalances(e, order, id); }
    SumShrink(e'.outgoing.Keys, K, l');
    SumBalance(K, l', v', l, v);
    assert Measure(e) == Sum(K, l) && Measure(e') == Sum(K, l');
    assert Accepted(e, K) == Sum(K, v) && Accepted(e', K) == Sum(K, v');
  }

  /** Conservation: a sweep turns what is owed into what is accepted, byte for byte and FIN for FIN, in every order
  of visits and wherever it stops; it owes less afterwards exactly when the transport accepted anything. */
  lemma SweepConserves(e: Engine, order: seq<StreamId>)
    requires Offsets(e)
    ensures var e' := Sweep(e, order).engine;
      && Measure(e') + Accepted(e', e.outgoing.Keys) == Measure(e) + Accepted(e, e.outgoing.Keys)
      && Measure(e') <= Measure(e)
      && (Measure(e') < Measure(e) <==> exists id :: e'.net.Stream(id) != e.net.Stream(id))
  {
    var e', K := Sweep(e, order).engine, e.outgoing.Keys;
    SweepBalances(e, e', order);
    var v, v' := (id: StreamId) => Volume(e.net.Stream(id)), (id: StreamId) => Volume(e'.net.Stream(id));
    forall id | id in K
      ensures v(id) <= v'(id) && (e'.net.Stream(id) != e.net.Stream(id) ==> v(id) < v'(id))
    {
      SweepStreamBalances(e, order, id);
    }
    SumMonotone(K, v, v');
    assert Accepted(e, K) == Sum(K, v) && Accepted(e', K) == Sum(K, v');
    if exists id :: e'.net.Stream(id) != e.net.Stream(id) {
      var id :| e'.net.Stream(id) != e.net.Stream(id);
      if id !in K { SweepFrame(e, order, id); }
      assert id in K && v(id) < v'(id);
    } else {
      SumMonotone(K, v', v);
    }
  }

  lemma {:induction false} SweepFrame(e: Engine, order: seq<StreamId>, id: StreamId)
    requires id !in e.outgoing
    ensures Sweep(e, order).engine.net.Stream(id) == e.net.Stream(id)
    decreases |order|
  {
    if order == [] {
    } else if !Visit(e, order[0]).stopped {
      SweepFrame(Visit(e, order[0]).engine, order[1..], id);
    }
  }

  /** Of a queued stream that was handed one body, what is owed and what was accepted make the body and its FIN. */
  lemma OwedOfBody(e: Engine, id: StreamId)
    requires Inv(e) && id in e.outgoing && Sole(e, id)
    ensures Left(e, id) + Volume(e.net.Stream(id)) == |e.jobs[id].body| + 1
  {
    assert StreamOk(e, id);
    VolumeMeaning(e.net.Stream(id));
    var o := e.outgoing[id];
    assert |Payload(e.net.Stream(id)) + o.buffer[o.offset..]| == |e.jobs[id].body|;
  }

  // ----- When a sweep is idle

  function Skip(e: Engine, k: nat): Engine {
    e.(net := e.net.(calls := e.net.calls + k))
  }

  /** From the k-th visit on, every answer before the first refusal accepts no byte of a stream that has some left. */
  predicate Idle(e: Engine, order: seq<StreamId>, k: nat)
    requires k <= |order|
    decreases |order| - k
  {
    || k == |order|
    || !e.net.answers(e.net.calls + k).Ok?
    || (e.net.answers(e.net.calls + k) == Ok(0) && Left(e, order[k]) > 1 && Idle(e, order, k + 1))
  }

  /** One visit: it stops, it does nothing, or it gets something accepted. */
  lemma VisitIdle(e: Engine, id: StreamId)
    requires Shape(e) && id in e.outgoing
    ensures var r, s := e.net.answers(e.net.calls), Visit(e, id);
      && (!r.Ok? ==> s == Swept(Skip(e, 1), true))
      && (r == Ok(0) && Left(e, id) > 1 ==> s == Swept(Skip(e, 1), false))
      && (r.Ok? && !(r == Ok(0) && Left(e, id) > 1) ==> |s.engine.net.Stream(id)| > |e.net.Stream(id)|)
  {
    var o := e.outgoing[id];
    if Left(e, id) > 1 {
      VisitResult(e, id);
      var rest := o.buffer[o.offset..];
      assert rest[..0] == [] && e.net.Stream(id) + Transport.Accepted([], false) == e.net.Stream(id);
      assert e.outgoing[id := o] == e.outgoing && e.net.frames[id := e.net.Stream(id)] == e.net.frames;
    }
  }

  lemma {:induction false} SweepIdleFrom(e: Engine, order: seq<StreamId>, k: nat)
    requires Shape(e) && (forall id | id in order :: id in e.outgoing) && k <= |order|
    ensures (forall id :: Sweep(Skip(e, k), order[k..]).engine.net.Stream(id) == e.net.Stream(id)) <==> Idle(e, order, k)
    decreases |order| - k
  {
    if k == |order| {
    } else {
      var e0, id := Skip(e, k), order[k];
      var s, r := Visit(e0, id), e0.net.answers(e0.net.calls);
      VisitIdle(e0, id);
      assert order[k..][0] == id && order[k..][1..] == order[k + 1..];
      if r == Ok(0) && Left(e, id) > 1 {
        assert s.engine == Skip(e, k + 1);
        SweepIdleFrom(e, order, k + 1);
      } else if r.Ok? {
        if !s.stopped { SweepGrows(s.engine, order[k + 1..]); }
        assert Sweep(e0, order[k..]).engine.net.Stream(id) != e.net.Stream(id);
      }
    }
  }

  /** A sweep sends nothing at all if and only if every visit before the first refusal was answered Ok(0). */
  lemma SweepIdleIff(e: Engine, order: seq<StreamId>)
    requires Shape(e) && forall id | id in order :: id in e.outgoing
    ensures (forall id :: Sweep(e, order).engine.net.Stream(id) == e.net.Stream(id)) <==> Idle(e, order, 0)
  {
    SweepIdleFrom(e, order, 0);
    assert order[0..] == order && Skip(e, 0) == e;
  }

  // ----- Draining

  /** The sweeps of FlushEgress, one after the other: cached responses, then transfers in some order. */
  function Flushes(e: Engine, orders: seq<seq<StreamId>>): Engine
    decreases |orders|
  {
    if orders == [] then e else Flushes(Sweep(FlushCacheFrom(e, 0), orders[0]).engine, orders[1..])
  }

  /** No flush is idle while anything is queued: some answer before the first refusal accepts a byte or FIN. */
  ghost predicate EachMoves(e: Engine, orders: seq<seq<StreamId>>)
    decreases |orders|
  {
    orders != [] ==>
      var e1 := FlushCacheFrom(e, 0);
      && (forall id | id in orders[0] :: id in e1.outgoing)
      && (e1.outgoing == map[] || !Idle(e1, orders[0], 0))
      && EachMoves(Sweep(e1, orders[0]).engine, orders[1..])
  }

  lemma MeasureZero(e: Engine)
    requires Offsets(e)
    ensures Measure(e) == 0 <==> e.outgoing == map[]
  {
    if e.outgoing != map[] {
      var id :| id in e.outgoing;
      SumSplit(e.outgoing.Keys, id => Left(e, id), id);
    }
  }

  lemma MeasureOfQueue(e: Engine, e': Engine)
    requires e'.outgoing == e.outgoing
    ensures Measure(e') == Measure(e)
  {
    var l, l' := (id: StreamId) => Left(e, id), (id: StreamId) => Left(e', id);
    SumMonotone(e.outgoing.Keys, l, l');
    SumMonotone(e.outgoing.Keys, l', l);
    assert Measure(e) == Sum(e.outgoing.Keys, l) && Measure(e') == Sum(e.outgoing.Keys, l');
  }

  /** While no flush is idle, Measure(e) flushes empty the queue; every stream that was queued is finished, and with
  exactly its body if it was handed one only. */
  lemma Drains(e: Engine, orders: seq<seq<StreamId>>)
    requires Inv(e) && EachMoves(e, orders) && Measure(e) <= |orders|
    ensures var e' := Flushes(e, orders);
      && e'.outgoing == map[]
      && (forall id | id in e.outgoing :: Finished(e'.net.Stream(id)))
      && forall id | id in e.outgoing && Sole(e, id) :: Payload(e'.net.Stream(id)) == e.jobs[id].body
  {
    DrainsQueue(e, orders);
    FlushesKeepHistory(e, orders);
    var e' := Flushes(e, orders);
    forall id | id in e.outgoing ensures Finished(e'.net.Stream(id)) { FlushesFinish(e, orders, id); }
    forall id | id in e.outgoing && Sole(e, id) ensures Payload(e'.net.Stream(id)) == e.jobs[id].body {
      assert Sole(e', id) && StreamOk(e', id);
    }
  }

  lemma {:induction false} FlushesFinish(e: Engine, orders: seq<seq<StreamId>>, id: StreamId)
    requires id !in Flushes(e, orders).outgoing && (id in e.outgoing || Finished(e.net.Stream(id)))
    ensures Finished(Flushes(e, orders).net.Stream(id))
    decreases |orders|
  {
    if orders == [] {
    } else {
      var e1 := FlushCacheFrom(e, 0);
      var e2 := Sweep(e1, orders[0]).engine;
      FlushCacheGrows(e, 0);
      SweepGrows(e1, orders[0]);
      if id in e1.outgoing && id !in e2.outgoing {
        SweepErases(e1, orders[0], id);
        FinAddedWithin(e1.net.Stream(id), e1.net.Stream(id), e2.net.Stream(id), e2.net.Stream(id));
      }
      FlushesFinish(e2, orders[1..], id);
    }
  }

  /** One flush that is not idle lowers the measure of a queue that is not empty. */
  lemma FlushLowers(e: Engine, order: seq<StreamId>)
    requires Inv(e) && (forall id | id in order :: id in FlushCacheFrom(e, 0).outgoing)
    requires FlushCacheFrom(e, 0).outgoing == map[] || !Idle(FlushCacheFrom(e, 0), order, 0)
    ensures var e' := Sweep(FlushCacheFrom(e, 0), order).engine;
      Inv(e') && Measure(e') <= Measure(e) && (Measure(e) > 0 ==> Measure(e') < Measure(e))
  {
    var e1 := FlushCacheFrom(e, 0);
    FlushCacheKeepsInv(e, e1, 0);
    FlushCacheGrows(e, 0);
    MeasureOfQueue(e, e1);
    MeasureZero(e1);
    SweepKeepsInv(e1, Sweep(e1, order).engine, order);
    SweepConserves(e1, order);
    SweepIdleIff(e1, order);
  }

  lemma {:induction false} DrainsQueue(e: Engine, orders: seq<seq<StreamId>>)
    requires Inv(e) && EachMoves(e, orders) && Measure(e) <= |orders|
    ensures Flushes(e, orders).outgoing == map[]
    decreases |orders|
  {
    MeasureZero(e);
    if orders == [] {
    } else {
      FlushLowers(e, orders[0]);
      DrainsQueue(Sweep(FlushCacheFrom(e, 0), orders[0]).engine, orders[1..]);
    }
  }

  lemma {:induction false} FlushesKeepHistory(e: Engine, orders: seq<seq<StreamId>>)
    requires Inv(e)
    ensures var e' := Flushes(e, orders);
      Inv(e') && e'.jobs == e.jobs && e'.again == e.again && e'.destroyed == e.destroyed
    decreases |orders|
  {
    if orders == [] {
    } else {
      var e1 := FlushCacheFrom(e, 0);
      var e2 := Sweep(e1, orders[0]).engine;
      FlushCacheKeepsInv(e, e1, 0);
      FlushCacheGrows(e, 0);
      SweepKeepsInv(e1, e2, orders[0]);
      SweepKeepsDestroyed(e1, orders[0]);
      FlushesKeepHistory(e2, orders[1..]);
    }
  }

  /** The other side of the break: while the stream visited first is refused, no flush moves any queued stream. */
  ghost predicate EachRefuses(e: Engine, orders: seq<seq<StreamId>>)
    decreases |orders|
  {
    orders != [] ==>
      var e1 := FlushCacheFrom(e, 0);
      && orders[0] != [] && orders[0][0] in e1.outgoing && !e1.net.answers(e1.net.calls).Ok?
      && EachRefuses(Sweep(e1, orders[0]).engine, orders[1..])
  }

  lemma {:induction false} OneStreamStarvesAll(e: Engine, orders: seq<seq<StreamId>>)
    requires Inv(e) && EachRefuses(e, orders)
    ensures Flushes(e, orders).outgoing == e.outgoing
    decreases |orders|
  {
    if orders == [] {
    } else {
      var e1 := FlushCacheFrom(e, 0);
      FlushCacheKeepsInv(e, e1, 0);
      FlushCacheGrows(e, 0);
      VisitIdle(e1, orders[0][0]);
      SweepKeepsInv(e1, Sweep(e1, orders[0]).engine, orders[0]);
      OneStreamStarvesAll(Sweep(e1, orders[0]).engine, orders[1..]);
    }
  }

  /** A transport that never refuses and always takes something. */
  ghost predicate Generous(e: Engine) {
    forall k :: e.net.answers(k).Ok? && e.net.answers(k).n >= 1
  }

  /** Every sweep's order visits queued streams, some if there are any, as any enumeration of the queue does. */
  ghost predicate EachVisits(e: Engine, orders: seq<seq<StreamId>>)
    decreases |orders|
  {
    orders != [] ==>
      var e1 := FlushCacheFrom(e, 0);
      && (forall id | id in orders[0] :: id in e1.outgoing)
      && (e1.outgoing == map[] || orders[0] != [])
      && EachVisits(Sweep(e1, orders[0]).engine, orders[1..])
  }

  /** So on a transport that always takes something, no flush is idle and Drains applies. */
  lemma {:induction false} GenerousMoves(e: Engine, orders: seq<seq<StreamId>>)
    requires Generous(e) && EachVisits(e, orders)
    ensures EachMoves(e, orders)
    decreases |orders|
  {
    if orders == [] {
    } else {
      var e1 := FlushCacheFrom(e, 0);
      FlushCacheGrows(e, 0);
      SweepGrows(e1, orders[0]);
      GenerousMoves(Sweep(e1, orders[0]).engine, orders[1..]);
    }
  }
}

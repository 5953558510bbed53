/** The sending half of QuicheConnection as the code writes it: fields updated in place, a loop over an unordered
map that breaks on back-pressure and erases completed streams afterwards, and a loop that erases while it iterates.
Every method is tied to the state machine of module Transfer. */
module TransferEngine {
  import opened Transport
  import opened Transfer

  class QuicheTransport {
    const answers: nat -> Reply
    var calls: nat
    ghost var frames: map<StreamId, seq<Frame>>

    ghost function View(): Net
      reads this
    {
      Net(frames, answers, calls)
    }

    constructor (answers: nat -> Reply)
      ensures View() == Net(map[], answers, 0)
    {
      this.answers, calls, frames := answers, 0, map[];
    }

    method SendHead(id: StreamId, fin: bool) returns (r: Reply)
      modifies this
      ensures (View(), r) == old(View()).SendHead(id, fin)
    {
      ghost var before := View();
      r := answers(calls);
      calls := calls + 1;
      if r.Ok? { frames := before.SendHead(id, fin).0.frames; }
    }

    method SendBody(id: StreamId, data: seq<Byte>, fin: bool) returns (r: Reply)
      modifies this
      ensures (View(), r) == old(View()).SendBody(id, data, fin)
    {
      ghost var before := View();
      r := answers(calls);
      calls := calls + 1;
      if r.Ok? {
        frames := before.SendBody(id, data, fin).0.frames;
        if |data| < r.n { r := Ok(|data|); }
      }
    }
  }

  /** An enumeration of a key set, as an unordered map may produce it. */
  ghost predicate IsOrder(order: seq<StreamId>, keys: set<StreamId>) {
    && (forall i, j | 0 <= i < j < |order| :: order[i] != order[j])
    && (forall id :: id in order <==> id in keys)
  }

  lemma {:induction false} OrderExists(keys: set<StreamId>) returns (order: seq<StreamId>)
    ensures IsOrder(order, keys)
  {
    if keys == {} {
      order := [];
    } else {
      var id :| id in keys;
      order := OrderExists(keys - {id});
      order := order + [id];
    }
  }

  lemma OrderConcat(a: seq<StreamId>, s: set<StreamId>, b: seq<StreamId>, t: set<StreamId>)
    requires IsOrder(a, s) && IsOrder(b, t) && s !! t
    ensures IsOrder(a + b, s + t)
  {
    var c := a + b;
    forall i, j | 0 <= i < j < |c| ensures c[i] != c[j] {
      if i < |a| <= j { assert a[i] in s && b[j - |a|] in t; }
    }
  }

  lemma {:induction false} SweepConcat(e: Engine, a: seq<StreamId>, b: seq<StreamId>)
    ensures Sweep(e, a + b) ==
      if Sweep(e, a).stopped then Sweep(e, a) else Sweep(Sweep(e, a).engine, b)
    decreases |a|
  {
    if a == [] {
      assert a + b == b;
    } else {
      assert (a + b)[1..] == a[1..] + b;
      if !Visit(e, a[0]).stopped { SweepConcat(Visit(e, a[0]).engine, a[1..], b); }
    }
  }

  /** A sweep that stopped early is the sweep of the whole map in any order that goes on after the stop. */
  lemma SweepRest(e: Engine, order: seq<StreamId>, rest: seq<StreamId>, pending: set<StreamId>, keys: set<StreamId>)
    requires pending <= keys && IsOrder(order, keys - pending) && IsOrder(rest, pending)
    requires Sweep(e, order).stopped || pending == {}
    ensures IsOrder(order + rest, keys) && Sweep(e, order + rest) == Sweep(e, order)
  {
    OrderConcat(order, keys - pending, rest, pending);
    assert keys - pending + pending == keys;
    SweepConcat(e, order, rest);
    if rest != [] { assert rest[0] in pending; }
    if rest == [] { assert order + rest == order; }
  }

  function Flush(e: Engine, order: seq<StreamId>): Engine {
    Sweep(FlushCacheFrom(e, 0), order).engine
  }

  /** SendBody ends with FlushEgress unless it returns false. */
  function AfterSend(e: Engine, id: StreamId, order: seq<StreamId>): Engine
    requires id in e.jobs
  {
    if e.jobs[id].route.Direct? then Flush(e, order) else e
  }

  class QuicheConnection {
    var outgoing: map<StreamId, Outgoing>
    var responseCache: seq<Cached>
    const transport: QuicheTransport
    ghost var jobs: map<StreamId, Job>
    ghost var again: set<StreamId>
    ghost var destroyed: set<StreamId>

    ghost function View(): Engine
      reads this, transport
    {
      Engine(outgoing, responseCache, transport.View(), jobs, again, destroyed)
    }

    constructor (transport: QuicheTransport)
      ensures this.transport == transport
      ensures View() == Engine(map[], [], transport.View(), map[], {}, {})
    {
      this.transport := transport;
      outgoing, responseCache, jobs, again, destroyed := map[], [], map[], {}, {};
    }

    /** History only. */
    ghost method Record(id: StreamId, job: Job)
      modifies this`jobs, this`again
      ensures View() == Hand(old(View()), id, job)
    {
      again := if id in jobs then again + {id} else again;
      jobs := jobs[id := job];
    }

    /** One visit of the FlushTransfers loop. A completed stream stays in the map until the sweep is over, so the
    state it leaves is the machine's with that stream put back, its buffer empty. */
    method VisitStream(id: StreamId) returns (stop: bool, done: bool)
      requires id in outgoing
      modifies this`outgoing, transport
      ensures stop == Visit(old(View()), id).stopped
      ensures done <==> id !in Visit(old(View()), id).engine.outgoing
      ensures done ==> !stop
      ensures outgoing.Keys == old(outgoing.Keys) && outgoing - {id} == old(outgoing) - {id}
      ensures (if done then Erase(View(), id) else View()) == Visit(old(View()), id).engine
    {
      var stream := outgoing[id];
      done := false;
      var remaining := |stream.buffer| - stream.offset;
      if remaining <= 0 {
        var r := transport.SendBody(id, [], true);
        stop := !r.Ok?;
        done := r.Ok?;
        return;
      }
      var r := transport.SendBody(id, stream.buffer[stream.offset..], false);
      if !r.Ok? {
        stop := true;
        return;
      }
      if r.n < remaining {
        outgoing := outgoing[id := stream.(offset := stream.offset + r.n)];
        stop := false;
        return;
      }
      outgoing := outgoing[id := Outgoing([], 0)];
      r := transport.SendBody(id, [], true);
      stop := !r.Ok?;
      done := r.Ok?;
    }

    method FlushCachedResponses()
      modifies this`responseCache, transport
      ensures View() == FlushCacheFrom(old(View()), 0)
    {
      ghost var target := FlushCacheFrom(View(), 0);
      var i := 0;
      while i < |responseCache|
        invariant i <= |responseCache|
        invariant FlushCacheFrom(View(), i) == target
        decreases |responseCache| - i
      {
        ghost var before := View();
        var kept := TryCachedResponse(i);
        FlushCacheTurn(before, i);
        if kept { i := i + 1; }
      }
    }

    method TryCachedResponse(i: nat) returns (kept: bool)
      requires i < |responseCache|
      modifies this`responseCache, transport
      ensures Tried(View(), kept) == TryCached(old(View()), i)
    {
      var c := responseCache[i];
      var r := transport.SendHead(c.id, c.left == 0);
      if r.Blocked? && r.established {
        return true;
      } else if !r.Ok? {
        responseCache := responseCache[..i] + responseCache[i + 1..];
        return false;
      }
      if c.data != [] && c.left > 0 {
        var sent := transport.SendBody(c.id, c.data[..c.left], c.left == 0);
        if sent.Done? {
          responseCache := responseCache[..i] + responseCache[i + 1..];
          return false;
        }
        if sent.Blocked? {
          return true;
        } else if !sent.Ok? {
          responseCache := responseCache[..i] + responseCache[i + 1..];
          return false;
        }
        if c.left - sent.n <= 0 {
          responseCache := responseCache[..i] + responseCache[i + 1..];
          return false;
        }
        responseCache := responseCache[i := c.(left := c.left - sent.n)];
        return true;
      }
      responseCache := responseCache[..i] + responseCache[i + 1..];
      return false;
    }

    /** The two sweeps of FlushEgress; the packets it then emits change none of this state. */
    method FlushEgress() returns (ghost order: seq<StreamId>)
      modifies this`outgoing, this`responseCache, transport
      ensures IsOrder(order, FlushCacheFrom(old(View()), 0).outgoing.Keys)
      ensures View() == Flush(old(View()), order)
    {
      FlushCachedResponses();
      order := FlushTransfers();
    }

    /** Returns false exactly when the FIN was refused, and then nothing is flushed. */
    method SendBody(id: StreamId, data: seq<Byte>) returns (ok: bool, ghost order: seq<StreamId>)
      modifies this, transport
      ensures var sent := Transfer.SendBody(old(View()), id, data);
        && (ok <==> sent.jobs[id].route.Direct?)
        && (ok ==> IsOrder(order, FlushCacheFrom(sent, 0).outgoing.Keys))
        && View() == AfterSend(sent, id, order)
    {
      order := [];
      if |data| > 0 {
        var rc := transport.SendBody(id, data, false);
        var taken := if rc.Ok? then rc.n else 0;
        if taken < |data| {
          outgoing := outgoing[id := Outgoing(data[taken..], 0)];
          Record(id, Job(data, Direct));
        } else {
          rc := transport.SendBody(id, [], true);
          if !rc.Ok? {
            Record(id, Job(data, FinRefused));
            return false, order;
          }
          Record(id, Job(data, Direct));
        }
      } else {
        Record(id, Job(data, Direct));
      }
      order := FlushEgress();
      return true, order;
    }

    /** True exactly when SendBody ran and its FIN was not refused; a parked response reports false. After the timeout
    nothing happens. */
    method SendResponse(id: StreamId, data: seq<Byte>, timedOut: bool) returns (ok: bool, ghost order: seq<StreamId>)
      modifies this, transport
      ensures timedOut ==> !ok && View() == old(View())
      ensures !timedOut ==>
        var head, sent := old(View()).net.SendHead(id, data == []).1, Transfer.SendResponse(old(View()), id, data);
        && (ok <==> head.Ok? && sent.jobs[id].route.Direct?)
        && (ok ==> IsOrder(order, FlushCacheFrom(sent, 0).outgoing.Keys))
        && View() == if head.Ok? then AfterSend(sent, id, order) else sent
    {
      order := [];
      if timedOut {
        return false, order;
      }
      var r := transport.SendHead(id, |data| == 0);
      if r.Blocked? && r.established {
        responseCache := responseCache + [CachedResponse(id, data, |data|)];
        Record(id, Job(data, Parked));
        return false, order;
      } else if !r.Ok? {
        return false, order;
      }
      ok, order := SendBody(id, data);
    }

    /** What SendRequest does each time it holds the mutex: one attempt, with the body and a flush if it succeeds. The
    result of SendBody is ignored; id is the stream the transport opens. */
    method TryRequest(id: StreamId, data: seq<Byte>) returns (r: Reply, ghost order: seq<StreamId>)
      modifies this, transport
      ensures var e, sent := old(View()), Transfer.SendRequest(old(View()), id, data);
        && r == e.net.answers(e.net.calls)
        && (r.Ok? && sent.jobs[id].route.Direct? ==> IsOrder(order, FlushCacheFrom(sent, 0).outgoing.Keys))
        && View() == if r.Ok? then AfterSend(sent, id, order) else sent
    {
      order := [];
      r := transport.SendHead(id, |data| == 0);
      if r.Ok? {
        var ok: bool;
        ok, order := SendBody(id, data);
      }
    }

    /** SendRequest retries while the headers are blocked and the connection has not timed out; patience is the
    number of attempts until it does. Here nothing else happens between the attempts. */
    method SendRequest(id: StreamId, data: seq<Byte>, patience: nat)
      returns (accepted: bool, blocked: nat, ghost order: seq<StreamId>)
      modifies this, transport
      ensures blocked <= patience
      ensures var e := old(View());
        && (forall k | e.net.calls <= k < e.net.calls + blocked :: e.net.answers(k) == Blocked(true))
        && (accepted <==> blocked < patience && e.net.answers(e.net.calls + blocked).Ok?)
        && (blocked < patience ==> e.net.answers(e.net.calls + blocked) != Blocked(true))
        && var e' := e.(net := e.net.(calls := e.net.calls + blocked));
          && (accepted && Transfer.SendRequest(e', id, data).jobs[id].route.Direct? ==>
                IsOrder(order, FlushCacheFrom(Transfer.SendRequest(e', id, data), 0).outgoing.Keys))
          && View() == if blocked == patience then e'
                    else if accepted then AfterSend(Transfer.SendRequest(e', id, data), id, order)
                    else Transfer.SendRequest(e', id, data)
    {
      order := [];
      blocked := 0;
      accepted := false;
      while blocked < patience
        invariant blocked <= patience
        invariant forall k | old(View()).net.calls <= k < old(View()).net.calls + blocked ::
          old(View()).net.answers(k) == Blocked(true)
        invariant View() == old(View()).(net := old(View()).net.(calls := old(View()).net.calls + blocked))
      {
        var r: Reply;
        r, order := TryRequest(id, data);
        if !(r.Blocked? && r.established) {
          accepted := r.Ok?;
          return;
        }
        blocked := blocked + 1;
      }
    }

    method DestroyStream(id: StreamId)
      modifies this
      ensures View() == Step(old(View()), Destroy(id))
    {
      if id in outgoing { outgoing := outgoing - {id}; }
      destroyed := if id in jobs then destroyed + {id} else destroyed;
    }

    method FlushTransfers() returns (ghost order: seq<StreamId>)
      modifies this`outgoing, transport
      ensures IsOrder(order, old(outgoing.Keys))
      ensures View() == Sweep(old(View()), order).engine
    {
      ghost var e0 := View();
      var completed: seq<StreamId>;
      ghost var gone, pending, stop;
      completed, order, gone, pending, stop := VisitStreams();
      ghost var rest := OrderExists(pending);
      SweepRest(e0, order, rest, pending, e0.outgoing.Keys);
      order := order + rest;
      EraseCompleted(completed, gone);
      assert View() == Sweep(e0, order).engine;
    }

    /** The loop over the map, in whatever order it yields its keys; pending are those it did not reach. */
    method VisitStreams()
      returns (completed: seq<StreamId>, ghost order: seq<StreamId>, ghost gone: set<StreamId>,
               ghost pending: set<StreamId>, ghost stopped: bool)
      modifies this`outgoing, transport
      ensures pending <= old(outgoing.Keys) && IsOrder(order, old(outgoing.Keys) - pending)
      ensures stopped || pending == {}
      ensures forall id :: id in completed <==> id in gone
      ensures Sweep(old(View()), order) == Swept(Without(View(), gone), stopped)
    {
      ghost var e0 := View();
      var keys := outgoing.Keys;
      var stop := false;
      completed, order, gone := [], [], {};
      assert outgoing - gone == outgoing;
      while keys != {} && !stop
        invariant outgoing.Keys == e0.outgoing.Keys
        invariant keys <= outgoing.Keys && gone !! keys
        invariant forall id :: id in completed <==> id in gone
        invariant IsOrder(order, outgoing.Keys - keys)
        invariant Sweep(e0, order) == Swept(Without(View(), gone), stop)
        decreases |keys|
      {
        var id :| id in keys;
        keys := keys - {id};
        ghost var before := View();
        var done: bool;
        stop, done := VisitStream(id);
        SweepTurn(e0, order, before, gone, id, View(), stop, done);
        order := order + [id];
        if done {
          completed := completed + [id];
          gone := gone + {id};
        }
      }
      pending, stopped := keys, stop;
    }

    /** The loop that erases the completed streams after the sweep. */
    method EraseCompleted(completed: seq<StreamId>, ghost gone: set<StreamId>)
      requires forall id :: id in completed <==> id in gone
      modifies this`outgoing
      ensures outgoing == old(outgoing) - gone
    {
      for i := 0 to |completed|
        invariant outgoing == old(outgoing) - (set id | id in completed[..i])
      {
        if completed[i] in outgoing { outgoing := outgoing - {completed[i]}; }
        assert completed[..i + 1] == completed[..i] + [completed[i]];
      }
      assert completed[..|completed|] == completed;
      assert (set id | id in completed) == gone;
    }
  }

  lemma FlushCacheTurn(e: Engine, i: nat)
    requires i < |e.cache|
    ensures var t := TryCached(e, i);
      && |t.engine.cache| == (if t.kept then |e.cache| else |e.cache| - 1)
      && FlushCacheFrom(e, i) == FlushCacheFrom(t.engine, if t.kept then i + 1 else i)
  {
  }

  function Without(e: Engine, gone: set<StreamId>): Engine {
    e.(outgoing := e.outgoing - gone)
  }

  /** Erasing completed streams at once or after the sweep is the same to the visit of another stream. */
  lemma VisitCommutes(e: Engine, gone: set<StreamId>, id: StreamId)
    requires id in e.outgoing && id !in gone
    ensures var v := Visit(e, id);
      Visit(Without(e, gone), id) == Swept(Without(v.engine, gone), v.stopped)
  {
    var o, m := e.outgoing[id], e.outgoing;
    var r := e.net.SendBody(id, if o.offset <= |o.buffer| then o.buffer[o.offset..] else [], false).1;
    assert (m - gone) - {id} == (m - {id}) - gone;
    assert (m - gone)[id := Outgoing([], 0)] == m[id := Outgoing([], 0)] - gone;
    assert (m - gone)[id := Outgoing([], 0)] - {id} == (m[id := Outgoing([], 0)] - {id}) - gone;
    if r.Ok? {
      var o' := o.(offset := o.offset + r.n);
      assert (m - gone)[id := o'] == m[id := o'] - gone;
    }
  }

  /** The deferred erasure, one turn of the loop at a time. */
  lemma SweepTurn(e0: Engine, order: seq<StreamId>, e: Engine, gone: set<StreamId>, id: StreamId, e': Engine,
                  stop: bool, done: bool)
    requires id in e.outgoing && id !in gone
    requires Sweep(e0, order) == Swept(Without(e, gone), false)
    requires stop == Visit(e, id).stopped && (if done then Erase(e', id) else e') == Visit(e, id).engine
    ensures Sweep(e0, order + [id]) == Swept(Without(e', if done then gone + {id} else gone), stop)
  {
    VisitCommutes(e, gone, id);
    SweepConcat(e0, order, [id]);
    assert Sweep(Without(e, gone), [id]) == Visit(Without(e, gone), id) by {
      assert [id][1..] == [];
    }
    if done { assert e'.outgoing - (gone + {id}) == (e'.outgoing - {id}) - gone; }
  }
}

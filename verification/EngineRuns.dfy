/** What the methods of QuicheConnection do is a run of the state machine, so every result about runs holds of any
sequence of their calls. */
module EngineRuns {
  import opened Transport
  import opened Transfer
  import opened TransferProofs
  import opened TransferTheorems
  import opened TransferEngine
  import opened Progress

  lemma {:induction false} RunConcat(e: Engine, a: seq<Op>, b: seq<Op>)
    ensures Run(e, a + b) == Run(Run(e, a), b)
  {
    if b == [] {
      assert a + b == a;
    } else {
      RunConcat(e, a, b[..|b| - 1]);
      assert (a + b)[..|a + b| - 1] == a + b[..|b| - 1];
    }
  }

  lemma OneStep(e: Engine, op: Op)
    ensures Run(e, [op]) == Step(e, op)
  {
    assert [op][..0] == [];
    assert Run(e, []) == e;
  }

  lemma FlushIsARun(e: Engine, order: seq<StreamId>)
    ensures Run(e, [FlushCache, FlushTransfers(order)]) == Flush(e, order)
  {
    OneStep(e, FlushCache);
    OneStep(Step(e, FlushCache), FlushTransfers(order));
    RunConcat(e, [FlushCache], [FlushTransfers(order)]);
    assert [FlushCache] + [FlushTransfers(order)] == [FlushCache, FlushTransfers(order)];
  }

  lemma AcceptedSend(e: Engine, op: Op)
    requires (op.Request? || op.Response?) && e.net.answers(e.net.calls).Ok?
    ensures var sent := Step(e, op);
      && op.id in sent.jobs
      && (!sent.jobs[op.id].route.Direct? ==>
            sent.net.calls == e.net.calls + 3 && op.body != [] && !e.net.answers(sent.net.calls - 1).Ok?)
  {
    if op.body == [] {
      assert Step(e, op) == SendBody(e.(net := e.net.Push(op.id, [Head, Fin])), op.id, []);
    } else {
      SendBytesResult(e, op.id, op.body);
      assert Step(e, op) == SendBody(e.(net := e.net.Push(op.id, [Head])), op.id, op.body);
    }
  }

  /** A request or response whose headers are accepted, with what follows in the same call. When it returns true, which
  is on the Direct route, the call is the operation, then the sweep of cached responses, then that of transfers; when it
  returns false, its last call of the transport is the FIN that was refused, and nothing is flushed. */
  lemma SendIsARun(e: Engine, op: Op, order: seq<StreamId>)
    requires (op.Request? || op.Response?) && e.net.answers(e.net.calls).Ok?
    ensures var sent := Step(e, op);
      && op.id in sent.jobs
      && var v := AfterSend(sent, op.id, order);
      if sent.jobs[op.id].route.Direct? then v == Run(e, [op, FlushCache, FlushTransfers(order)])
      else
        && v == Run(e, [op]) && v.net.calls == e.net.calls + 3
        && op.body != [] && !e.net.answers(v.net.calls - 1).Ok?
  {
    var sent := Step(e, op);
    OneStep(e, op);
    AcceptedSend(e, op);
    var flush := [FlushCache, FlushTransfers(order)];
    FlushIsARun(sent, order);
    RunConcat(e, [op], flush);
    assert [op] + flush == [op, FlushCache, FlushTransfers(order)];
  }

  /** And the flush is felt: after a call that returns true, less is owed than the operation alone left, if anything was
  queued and the answers to the sweep were not idle. */
  lemma SendFlushes(e: Engine, op: Op, order: seq<StreamId>)
    requires Inv(e) && (op.Request? || op.Response?) && e.net.answers(e.net.calls).Ok?
    requires op.id in Step(e, op).jobs && Step(e, op).jobs[op.id].route.Direct?
    requires var q := FlushCacheFrom(Step(e, op), 0);
      (forall id | id in order :: id in q.outgoing) && q.outgoing != map[] && !Idle(q, order, 0)
    ensures Measure(AfterSend(Step(e, op), op.id, order)) < Measure(Step(e, op))
  {
    var sent := Step(e, op);
    StepKeepsInv(e, sent, op);
    FlushCacheGrows(sent, 0);
    MeasureZero(sent);
    FlushLowers(sent, order);
    FlushIsARun(sent, order);
    OneStep(sent, FlushCache);
  }

  /** The refused attempts of the retry loop of SendRequest: nothing but answers is used up. */
  lemma {:induction false} AttemptsAreARun(e: Engine, id: StreamId, body: seq<Byte>, n: nat)
    requires forall k | e.net.calls <= k < e.net.calls + n :: e.net.answers(k) == Blocked(true)
    ensures Run(e, seq(n, _ => Request(id, body))) == e.(net := e.net.(calls := e.net.calls + n))
  {
    if n == 0 {
    } else {
      AttemptsAreARun(e, id, body, n - 1);
      var before: seq<Op> := seq(n - 1, _ => Request(id, body));
      OneStep(Run(e, before), Request(id, body));
      RunConcat(e, before, [Request(id, body)]);
      assert seq(n, _ => Request(id, body)) == before + [Request(id, body)];
    }
  }

  /** The attempt of a request that is not blocked. */
  lemma LastAttemptIsARun(e: Engine, id: StreamId, data: seq<Byte>, order: seq<StreamId>, v: Engine)
    requires var sent := Transfer.SendRequest(e, id, data);
      v == if e.net.answers(e.net.calls).Ok? then AfterSend(sent, id, order) else sent
    ensures Run(e, LastAttempt(e, id, data, order, v)) == v
  {
    var op := Request(id, data);
    OneStep(e, op);
    if e.net.answers(e.net.calls).Ok? {
      SendIsARun(e, op, order);
      FlushKeepsJobs(Step(e, op), order);
    }
  }

  function LastAttempt(e: Engine, id: StreamId, data: seq<Byte>, order: seq<StreamId>, v: Engine): seq<Op> {
    if id in v.jobs && v.jobs[id].route.Direct? && e.net.answers(e.net.calls).Ok?
    then [Request(id, data), FlushCache, FlushTransfers(order)]
    else [Request(id, data)]
  }

  /** A whole call of SendRequest, by its contract: the refused attempts, and then the one that is not, with what follows
  it. With RunKeepsInv the invariant holds after it. */
  lemma RequestIsARun(e: Engine, id: StreamId, data: seq<Byte>, blocked: nat, more: bool, order: seq<StreamId>, v: Engine)
    returns (ops: seq<Op>)
    requires forall k | e.net.calls <= k < e.net.calls + blocked :: e.net.answers(k) == Blocked(true)
    requires var e' := e.(net := e.net.(calls := e.net.calls + blocked));
      if !more then v == e' else
        var sent := Transfer.SendRequest(e', id, data);
        v == if e.net.answers(e.net.calls + blocked).Ok? then AfterSend(sent, id, order) else sent
    ensures ops == seq(blocked, _ => Request(id, data)) +
      if !more then []
      else if id in v.jobs && v.jobs[id].route.Direct? && e.net.answers(e.net.calls + blocked).Ok?
        then [Request(id, data), FlushCache, FlushTransfers(order)]
      else [Request(id, data)]
    ensures Run(e, ops) == v
    ensures Inv(e) ==> Inv(v)
  {
    AttemptsAreARun(e, id, data, blocked);
    var attempts: seq<Op> := seq(blocked, _ => Request(id, data));
    var e' := Run(e, attempts);
    var rest := if more then LastAttempt(e', id, data, order, v) else [];
    if more { LastAttemptIsARun(e', id, data, order, v); }
    RunConcat(e, attempts, rest);
    ops := attempts + rest;
    if Inv(e) { RunKeepsInv(e, ops); }
  }

  lemma FlushKeepsJobs(e: Engine, order: seq<StreamId>)
    ensures Flush(e, order).jobs == e.jobs
  {
    FlushCacheGrows(e, 0);
    SweepKeepsDestroyed(FlushCacheFrom(e, 0), order);
  }
}

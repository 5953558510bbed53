/** The HTTP/3 library as its callers see it: a reliable transport that answers every call as it likes.

A stream is the list of frames the transport has accepted for it. Every call consumes one answer of an
arbitrary oracle, so a statement about all oracles is a statement about all transports. */
module Transport {

  type StreamId = nat
  type Byte = bv8

  datatype Frame = Head | Chunk(bytes: seq<Byte>) | Fin

  /** What a send call returns: a count, STREAM_BLOCKED or for a request STREAM_LIMIT (with the answer of
  quiche_conn_is_established at that moment), DONE, or any other negative code. */
  datatype Reply = Ok(n: nat) | Blocked(established: bool) | Done | Failed

  datatype Net = Net(frames: map<StreamId, seq<Frame>>, answers: nat -> Reply, calls: nat) {

    function Stream(id: StreamId): seq<Frame> {
      if id in frames then frames[id] else []
    }

    function Push(id: StreamId, more: seq<Frame>): Net {
      Net(frames[id := Stream(id) + more], answers, calls + 1)
    }

    /** quiche_h3_send_request and quiche_h3_send_response: the headers, and FIN with them when asked. */
    function SendHead(id: StreamId, fin: bool): (Net, Reply) {
      var r := answers(calls);
      if r.Ok? then (Push(id, if fin then [Head, Fin] else [Head]), r) else (this.(calls := calls + 1), r)
    }

    /** quiche_h3_send_body: the first n bytes are accepted, and FIN only once every byte is. */
    function SendBody(id: StreamId, data: seq<Byte>, fin: bool): (Net, Reply) {
      var r := answers(calls);
      if r.Ok? then
        var k := if r.n < |data| then r.n else |data|;
        (Push(id, Accepted(data[..k], fin && k == |data|)), Ok(k))
      else
        (this.(calls := calls + 1), r)
    }
  }

  function Accepted(bytes: seq<Byte>, fin: bool): seq<Frame> {
    (if bytes == [] then [] else [Chunk(bytes)]) + (if fin then [Fin] else [])
  }

  /** The bytes a receiver reads from a stream. */
  function Payload(f: seq<Frame>): seq<Byte> {
    if f == [] then [] else
      Payload(f[..|f| - 1]) + if f[|f| - 1].Chunk? then f[|f| - 1].bytes else []
  }

  predicate Finished(f: seq<Frame>) { Fin in f }

  /** Nothing follows FIN, hence at most one FIN. */
  ghost predicate FinIsLast(f: seq<Frame>) {
    forall i | 0 <= i < |f| - 1 :: f[i] != Fin
  }

  /** The headers come first and once. */
  ghost predicate OneHead(f: seq<Frame>) {
    f != [] && f[0] == Head && forall i | 1 <= i < |f| :: f[i] != Head
  }

  lemma {:induction false} PayloadConcat(f: seq<Frame>, g: seq<Frame>)
    ensures Payload(f + g) == Payload(f) + Payload(g)
  {
    if g == [] {
      assert f + g == f;
    } else {
      PayloadConcat(f, g[..|g| - 1]);
      assert (f + g)[..|f + g| - 1] == f + g[..|g| - 1];
    }
  }

  lemma PayloadAccepted(bytes: seq<Byte>, fin: bool)
    ensures Payload(Accepted(bytes, fin)) == bytes
  {
    var f := Accepted(bytes, fin);
    assert Payload([]) == [];
    if bytes != [] {
      assert [Chunk(bytes)][..0] == [];
      assert Payload([Chunk(bytes)]) == bytes;
      if fin { assert f[..1] == [Chunk(bytes)]; }
    }
  }
}

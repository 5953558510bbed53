/** The sending half of a connection as a state machine over values.

SendRequest, SendResponse, SendBody, FlushCachedResponses, FlushTransfers and DestroyStream of QuicheConnection,
with the history of the bodies handed over. The invariant says, for every run and every stream handed one body, what
the transport has accepted of the body and what becomes of the rest. */
module Transfer {
  import opened Transport

  datatype Outgoing = Outgoing(buffer: seq<Byte>, offset: nat)

  /** A response whose headers were blocked; data is the whole body, left is bytes_left. */
  datatype CachedResponse = CachedResponse(id: StreamId, data: seq<Byte>, left: nat)

  type Cached = c: CachedResponse | c.left <= |c.data| && (c.left == 0 ==> c.data == []) witness CachedResponse(0, [], 0)

  /** How a body was taken: by SendBody, by SendBody with the FIN refused (it returned false), or by the cache. */
  datatype Route = Direct | FinRefused | Parked

  datatype Job = Job(body: seq<Byte>, route: Route)

  datatype Engine = Engine(
    outgoing: map<StreamId, Outgoing>,
    cache: seq<Cached>,
    net: Net,
    jobs: map<StreamId, Job>,
    again: set<StreamId>,
    destroyed: set<StreamId>)

  /** History: a body is taken for a stream, the latest one; again holds the streams for which a second one was. */
  function Hand(e: Engine, id: StreamId, job: Job): Engine {
    e.(jobs := e.jobs[id := job], again := if id in e.jobs then e.again + {id} else e.again)
  }

  // ----- SendBody, SendRequest, SendResponse

  /** SendBody up to its call of FlushEgress; the route it records is Direct exactly when it returns true. */
  function SendBody(e: Engine, id: StreamId, body: seq<Byte>): Engine {
    if body == [] then
      Hand(e, id, Job(body, Direct))
    else
      var (net, r) := e.net.SendBody(id, body, false);
      var k := if r.Ok? then r.n else 0;
      if k < |body| then
        Hand(e.(outgoing := e.outgoing[id := Outgoing(body[k..], 0)], net := net), id, Job(body, Direct))
      else
        var (net', r') := net.SendBody(id, [], true);
        Hand(e.(net := net'), id, Job(body, if r'.Ok? then Direct else FinRefused))
  }

  /** One attempt of SendRequest; the transport picks the stream. */
  function SendRequest(e: Engine, id: StreamId, body: seq<Byte>): Engine {
    var (net, r) := e.net.SendHead(id, body == []);
    if r.Ok? then SendBody(e.(net := net), id, body) else e.(net := net)
  }

  function SendResponse(e: Engine, id: StreamId, body: seq<Byte>): Engine {
    var (net, r) := e.net.SendHead(id, body == []);
    if r == Blocked(true) then
      Hand(e.(cache := e.cache + [CachedResponse(id, body, |body|)], net := net), id, Job(body, Parked))
    else if r.Ok? then SendBody(e.(net := net), id, body)
    else e.(net := net)
  }

  // ----- FlushTransfers

  datatype Swept = Swept(engine: Engine, stopped: bool)

  function Erase(e: Engine, id: StreamId): Engine {
    e.(outgoing := e.outgoing - {id})
  }

  function SendFin(e: Engine, id: StreamId): Swept {
    var (net, r) := e.net.SendBody(id, [], true);
    if r.Ok? then Swept(Erase(e.(net := net), id), false) else Swept(e.(net := net), true)
  }

  /** The body of the FlushTransfers loop for one queued stream, with a completed stream erased at once. */
  function Visit(e: Engine, id: StreamId): Swept {
    if id !in e.outgoing then Swept(e, false) else
    var o := e.outgoing[id];
    if |o.buffer| <= o.offset then SendFin(e, id) else
    var (net, r) := e.net.SendBody(id, o.buffer[o.offset..], false);
    if !r.Ok? then Swept(e.(net := net), true)
    else if r.n < |o.buffer| - o.offset then
      Swept(e.(outgoing := e.outgoing[id := o.(offset := o.offset + r.n)], net := net), false)
    else SendFin(e.(outgoing := e.outgoing[id := Outgoing([], 0)], net := net), id)
  }

  /** A sweep in the given order of visits, ended by the first refusal. */
  function Sweep(e: Engine, order: seq<StreamId>): Swept
    decreases |order|
  {
    if order == [] then Swept(e, false) else
    var s := Visit(e, order[0]);
    if s.stopped then s else Sweep(s.engine, order[1..])
  }

  // ----- FlushCachedResponses

  function EraseCached(e: Engine, i: nat): Engine
    requires i < |e.cache|
  {
    e.(cache := e.cache[..i] + e.cache[i + 1..])
  }

  datatype Tried = Tried(engine: Engine, kept: bool)

  /** The loop body of FlushCachedResponses for entry i. The body is always offered from its first byte. */
  function TryCached(e: Engine, i: nat): Tried
    requires i < |e.cache|
  {
    var c := e.cache[i];
    var (net, r) := e.net.SendHead(c.id, c.left == 0);
    var e1 := e.(net := net);
    if r == Blocked(true) then Tried(e1, true)
    else if !r.Ok? || c.data == [] || c.left == 0 then Tried(EraseCached(e1, i), false)
    else
      var (net', r') := net.SendBody(c.id, c.data[..c.left], false);
      var e2 := e.(net := net');
      if r'.Blocked? then Tried(e2, true)
      else if !r'.Ok? || c.left <= r'.n then Tried(EraseCached(e2, i), false)
      else Tried(e2.(cache := e.cache[i := c.(left := c.left - r'.n)]), true)
  }

  function FlushCacheFrom(e: Engine, i: nat): Engine
    requires i <= |e.cache|
    decreases |e.cache| - i
  {
    if i == |e.cache| then e else
    var t := TryCached(e, i);
    if t.kept then FlushCacheFrom(t.engine, i + 1) else FlushCacheFrom(t.engine, i)
  }

  // ----- Runs

  datatype Op =
    | Request(id: StreamId, body: seq<Byte>)
    | Response(id: StreamId, body: seq<Byte>)
    | FlushCache
    | FlushTransfers(order: seq<StreamId>)
    | Destroy(id: StreamId)

  function Step(e: Engine, op: Op): Engine {
    match op
    case Request(id, body) => SendRequest(e, id, body)
    case Response(id, body) => SendResponse(e, id, body)
    case FlushCache => FlushCacheFrom(e, 0)
    case FlushTransfers(order) => Sweep(e, order).engine
    case Destroy(id) =>
      e.(outgoing := e.outgoing - {id}, destroyed := if id in e.jobs then e.destroyed + {id} else e.destroyed)
  }

  function Run(e: Engine, ops: seq<Op>): Engine {
    if ops == [] then e else Step(Run(e, ops[..|ops| - 1]), ops[|ops| - 1])
  }

  predicate Initial(e: Engine) {
    && e.outgoing == map[] && e.cache == [] && e.net.frames == map[]
    && e.jobs == map[] && e.again == {} && e.destroyed == {}
  }

  // ----- The invariant

  ghost predicate ChunksArePrefixes(f: seq<Frame>, body: seq<Byte>) {
    forall i | 0 <= i < |f| && f[i].Chunk? :: f[i].bytes <= body
  }

  function CacheIds(cache: seq<Cached>): set<StreamId> {
    set c | c in cache :: c.id
  }

  /** A queued stream: what was accepted, followed by what is buffered past the offset, is the body. */
  ghost predicate Queued(f: seq<Frame>, o: Outgoing, body: seq<Byte>) {
    && o.offset <= |o.buffer|
    && !Finished(f)
    && Payload(f) + o.buffer[o.offset..] == body
  }

  ghost predicate StreamOk(e: Engine, id: StreamId)
    requires id in e.jobs
  {
    var f, body := e.net.Stream(id), e.jobs[id].body;
    && FinIsLast(f)
    && (Finished(f) ==> Payload(f) == body && id !in e.outgoing && id !in CacheIds(e.cache))
    && match e.jobs[id].route
       case Direct =>
         && OneHead(f)
         && id !in CacheIds(e.cache)
         && (id in e.outgoing ==> Queued(f, e.outgoing[id], body) && id !in e.destroyed)
         && (id in e.outgoing || id in e.destroyed || Finished(f))
       case FinRefused =>
         && OneHead(f)
         && body != []
         && id !in CacheIds(e.cache)
         && id !in e.outgoing
         && !Finished(f)
         && Payload(f) == body
       case Parked =>
         && id !in e.outgoing
         && ChunksArePrefixes(f, body)
         && |Payload(f)| <= |body|
         && (body != [] ==> !Finished(f))
  }

  ghost predicate CacheOk(e: Engine, i: nat)
    requires i < |e.cache|
  {
    var c := e.cache[i];
    && c.id in e.jobs
    && e.jobs[c.id] == Job(c.data, Parked)
    && c.left + |Payload(e.net.Stream(c.id))| == |c.data|
    && (c.data != [] ==> c.left > 0)
  }

  /** A stream that was handed exactly one body. */
  predicate Sole(e: Engine, id: StreamId) {
    id in e.jobs && id !in e.again
  }

  /** Headers come first. */
  predicate Opened(f: seq<Frame>) {
    f != [] && f[0] == Head
  }

  /** What holds of every stream, however often it was answered. */
  ghost predicate Shape(e: Engine) {
    && e.outgoing.Keys <= e.net.frames.Keys <= e.jobs.Keys
    && e.again <= e.jobs.Keys && e.destroyed <= e.jobs.Keys && CacheIds(e.cache) <= e.jobs.Keys
    && (forall id | id in e.outgoing :: e.outgoing[id].offset <= |e.outgoing[id].buffer|)
    && (forall id | id in e.net.frames :: Opened(e.net.frames[id]))
  }

  ghost predicate Inv(e: Engine) {
    && Shape(e)
    && (forall id | Sole(e, id) :: StreamOk(e, id))
    && (forall i | 0 <= i < |e.cache| && e.cache[i].id !in e.again :: CacheOk(e, i))
    && (forall i, j | 0 <= i < j < |e.cache| && e.cache[i].id == e.cache[j].id :: e.cache[i].id in e.again)
  }
}

/** The receiving half of a connection over values: the event loop of ProcessH3Events and what it makes of each
stream. */
module Receive {
  import opened Options
  import opened Transport

  datatype Incoming = Incoming(
    id: StreamId,
    verb: string, path: string, status: string, authorization: string, contentType: string, headerInfo: string,
    buffer: seq<Byte>)

  /** A result of quiche_h3_recv_body before the DONE that ends the loop; a read of no bytes ends it too. */
  datatype Read = Got(bytes: seq<Byte>) | Error

  datatype Event =
    | Headers(id: StreamId, headers: seq<(string, string)>)
    | Body(id: StreamId, pieces: seq<Read>)
    | Finish(id: StreamId)
    | Reset(id: StreamId)
    | Other(id: StreamId)

  /** The streams being received, the streams of the Data events posted, and the calls of DestroyStream. */
  datatype Receiver = Receiver(
    isServer: bool,
    incoming: map<StreamId, Incoming>,
    posted: seq<Incoming>,
    destroyed: seq<StreamId>)

  function NewStream(id: StreamId): Incoming {
    Incoming(id, "", "", "", "", "", "", [])
  }

  function OnHeader(s: Incoming, name: string, value: string): Incoming {
    if name == ":method" then s.(verb := value)
    else if name == ":path" then s.(path := value)
    else if name == ":status" then s.(status := value)
    else if name == "Authorization" then s.(authorization := value)
    else if name == "content-type" then s.(contentType := value)
    else if name == "quicsend-header-info" then s.(headerInfo := value)
    else s
  }

  function OnHeaders(s: Incoming, headers: seq<(string, string)>): Incoming {
    if headers == [] then s else
      var last := headers[|headers| - 1];
      OnHeader(OnHeaders(s, headers[..|headers| - 1]), last.0, last.1)
  }

  /** The bytes the body loop appends. */
  function ReadAll(pieces: seq<Read>): seq<Byte> {
    if pieces == [] || pieces[0] == Got([]) then []
    else (if pieces[0].Got? then pieces[0].bytes else []) + ReadAll(pieces[1..])
  }

  /** Reads add up in the order they are made, an error among them adds nothing, and a read of nothing ends them. */
  lemma {:induction false} ReadAllConcat(a: seq<Read>, b: seq<Read>)
    requires Got([]) !in a
    ensures ReadAll(a + b) == ReadAll(a) + ReadAll(b)
  {
    if a == [] {
      assert a + b == b;
    } else {
      assert (a + b)[1..] == a[1..] + b;
      ReadAllConcat(a[1..], b);
    }
  }

  lemma ReadAllOne(x: seq<Byte>)
    ensures ReadAll([Got(x)]) == x && ReadAll([Error]) == []
  {
    assert [Got(x)][1..] == [] && [Error][1..] == [];
  }

  lemma ReadAllStops(a: seq<Read>, b: seq<Read>)
    requires Got([]) !in a
    ensures ReadAll(a + [Got([])] + b) == ReadAll(a)
  {
    assert a + [Got([])] + b == a + ([Got([])] + b);
    ReadAllConcat(a, [Got([])] + b);
  }

  function Get(rx: Receiver, id: StreamId): Incoming {
    if id in rx.incoming then rx.incoming[id] else NewStream(id)
  }

  function OnEvent(rx: Receiver, ev: Event): Receiver {
    match ev
    case Headers(id, headers) => rx.(incoming := rx.incoming[id := OnHeaders(Get(rx, id), headers)])
    case Body(id, pieces) =>
      var s := Get(rx, id);
      rx.(incoming := rx.incoming[id := s.(buffer := s.buffer + ReadAll(pieces))])
    case Finish(id) =>
      if id !in rx.incoming then rx else
      rx.(incoming := rx.incoming - {id}, posted := rx.posted + [rx.incoming[id]],
          destroyed := if rx.isServer then rx.destroyed else rx.destroyed + [id])
    case Reset(id) => rx.(incoming := rx.incoming - {id}, destroyed := rx.destroyed + [id])
    case Other(_) => rx
  }

  function Process(rx: Receiver, events: seq<Event>): Receiver {
    if events == [] then rx else OnEvent(Process(rx, events[..|events| - 1]), events[|events| - 1])
  }

  ghost predicate WellKeyed(rx: Receiver) {
    forall id | id in rx.incoming :: rx.incoming[id].id == id
  }

  // ----- One stream on its own

  /** The stream being received, if any, and the streams posted under its id. */
  datatype Single = Single(current: Option<Incoming>, posted: seq<Incoming>)

  function Posted(posted: seq<Incoming>, id: StreamId): seq<Incoming> {
    if posted == [] then [] else
      Posted(posted[..|posted| - 1], id) + if posted[|posted| - 1].id == id then [posted[|posted| - 1]] else []
  }

  function Project(rx: Receiver, id: StreamId): Single {
    Single(if id in rx.incoming then Some(rx.incoming[id]) else None, Posted(rx.posted, id))
  }

  function Only(events: seq<Event>, id: StreamId): seq<Event> {
    if events == [] then [] else
      Only(events[..|events| - 1], id) + if events[|events| - 1].id == id then [events[|events| - 1]] else []
  }

  function Follow(v: Single, id: StreamId, ev: Event): Single {
    var s := if v.current.Some? then v.current.value else NewStream(id);
    match ev
    case Headers(_, headers) => v.(current := Some(OnHeaders(s, headers)))
    case Body(_, pieces) => v.(current := Some(s.(buffer := s.buffer + ReadAll(pieces))))
    case Finish(_) => if v.current.None? then v else Single(None, v.posted + [s])
    case Reset(_) => v.(current := None)
    case Other(_) => v
  }

  function FollowAll(v: Single, id: StreamId, events: seq<Event>): Single {
    if events == [] then v else Follow(FollowAll(v, id, events[..|events| - 1]), id, events[|events| - 1])
  }

  lemma {:induction false} OnHeadersKeepsId(s: Incoming, headers: seq<(string, string)>)
    ensures OnHeaders(s, headers).id == s.id && OnHeaders(s, headers).buffer == s.buffer
  {
    if headers == [] {
    } else {
      OnHeadersKeepsId(s, headers[..|headers| - 1]);
    }
  }

  lemma OnEventProjects(rx: Receiver, ev: Event, id: StreamId)
    requires WellKeyed(rx)
    ensures WellKeyed(OnEvent(rx, ev))
    ensures Project(OnEvent(rx, ev), id) ==
      if ev.id == id then Follow(Project(rx, id), id, ev) else Project(rx, id)
  {
    if ev.Headers? { OnHeadersKeepsId(Get(rx, ev.id), ev.headers); }
    if ev.Finish? && ev.id in rx.incoming {
      var posted := OnEvent(rx, ev).posted;
      assert posted[..|posted| - 1] == rx.posted;
      assert Posted(rx.posted, id) + [] == Posted(rx.posted, id);
    }
  }

  /** The loop over interleaved events is, for every stream, the loop over that stream's events alone. */
  lemma {:induction false} LoopIsPerStream(rx: Receiver, events: seq<Event>, id: StreamId)
    requires WellKeyed(rx)
    ensures WellKeyed(Process(rx, events))
    ensures Project(Process(rx, events), id) == FollowAll(Project(rx, id), id, Only(events, id))
  {
    if events == [] {
    } else {
      var before, last := events[..|events| - 1], events[|events| - 1];
      LoopIsPerStream(rx, before, id);
      OnEventProjects(Process(rx, before), last, id);
      var own := Only(before, id);
      if last.id == id {
        assert (own + [last])[..|own + [last]| - 1] == own;
      } else {
        assert own + [] == own;
      }
    }
  }

  // ----- What a whole message amounts to

  /** Headers, body and ignored events. */
  predicate Message(events: seq<Event>) {
    forall ev | ev in events :: ev.Headers? || ev.Body? || ev.Other?
  }

  function Bytes(events: seq<Event>): seq<Byte> {
    if events == [] then [] else
      var last := events[|events| - 1];
      Bytes(events[..|events| - 1]) + if last.Body? then ReadAll(last.pieces) else []
  }

  function LastIn(headers: seq<(string, string)>, name: string, initial: string): string {
    if headers == [] then initial
    else if headers[|headers| - 1].0 == name then headers[|headers| - 1].1
    else LastIn(headers[..|headers| - 1], name, initial)
  }

  /** The last value a message gives to a header. */
  function LastValue(events: seq<Event>, name: string): string {
    if events == [] then "" else
      var last, before := events[|events| - 1], LastValue(events[..|events| - 1], name);
      if last.Headers? then LastIn(last.headers, name, before) else before
  }

  function Summary(id: StreamId, events: seq<Event>): Incoming {
    Incoming(id, LastValue(events, ":method"), LastValue(events, ":path"), LastValue(events, ":status"),
             LastValue(events, "Authorization"), LastValue(events, "content-type"),
             LastValue(events, "quicsend-header-info"), Bytes(events))
  }

  lemma {:induction false} OnHeadersIsLast(s: Incoming, headers: seq<(string, string)>)
    ensures var t := OnHeaders(s, headers);
      && t.id == s.id && t.buffer == s.buffer
      && t.verb == LastIn(headers, ":method", s.verb)
      && t.path == LastIn(headers, ":path", s.path)
      && t.status == LastIn(headers, ":status", s.status)
      && t.authorization == LastIn(headers, "Authorization", s.authorization)
      && t.contentType == LastIn(headers, "content-type", s.contentType)
      && t.headerInfo == LastIn(headers, "quicsend-header-info", s.headerInfo)
  {
    if headers == [] {
    } else {
      OnHeadersIsLast(s, headers[..|headers| - 1]);
    }
  }

  /** A message is summarised field by field: the last value of each header, and the bytes in order. */
  lemma {:induction false} MessageSummary(id: StreamId, events: seq<Event>)
    requires Message(events)
    ensures var v := FollowAll(Single(None, []), id, events);
      && v.posted == []
      && (v.current.Some? ==> v.current.value == Summary(id, events))
      && (v.current.None? ==> Summary(id, events) == NewStream(id))
      && (v.current.None? <==> forall ev | ev in events :: ev.Other?)
  {
    if events == [] {
    } else {
      var before, last := events[..|events| - 1], events[|events| - 1];
      assert events == before + [last];
      MessageSummary(id, before);
      SummaryNext(id, before, last, events, FollowAll(Single(None, []), id, before));
      assert last in events && (last.Headers? || last.Body? || last.Other?);
      if last.Other? {
        assert forall ev | ev in events :: ev in before || ev == last;
      }
    }
  }

  /** One more event of a message, and its summary. */
  lemma SummaryNext(id: StreamId, before: seq<Event>, last: Event, events: seq<Event>, v: Single)
    requires events == before + [last] && (last.Headers? || last.Body? || last.Other?)
    requires v.current == None || v.current == Some(Summary(id, before))
    requires v.current.None? ==> Summary(id, before) == NewStream(id)
    ensures var s := Follow(v, id, last);
      && s.posted == v.posted
      && (last.Other? ==> s == v && Summary(id, events) == Summary(id, before))
      && (!last.Other? ==> s.current == Some(Summary(id, events)))
  {
    assert events[..|events| - 1] == before && events[|events| - 1] == last;
    var s := if v.current.Some? then v.current.value else NewStream(id);
    assert s == Summary(id, before);
    NextValue(before, last, events, ":method");
    NextValue(before, last, events, ":path");
    NextValue(before, last, events, ":status");
    NextValue(before, last, events, "Authorization");
    NextValue(before, last, events, "content-type");
    NextValue(before, last, events, "quicsend-header-info");
    if last.Headers? { OnHeadersIsLast(s, last.headers); }
    if !last.Other? {
      var t, u := Follow(v, id, last).current.value, Summary(id, events);
      assert t.id == u.id && t.buffer == u.buffer;
      assert t.verb == u.verb && t.path == u.path && t.status == u.status;
      assert t.authorization == u.authorization && t.contentType == u.contentType && t.headerInfo == u.headerInfo;
      assert t == u;
    }
  }

  lemma NextValue(before: seq<Event>, last: Event, events: seq<Event>, name: string)
    requires events == before + [last]
    ensures LastValue(events, name) ==
      if last.Headers? then LastIn(last.headers, name, LastValue(before, name)) else LastValue(before, name)
    ensures Bytes(events) == Bytes(before) + if last.Body? then ReadAll(last.pieces) else []
  {
    assert events[..|events| - 1] == before;
  }

  lemma {:induction false} FollowConcat(v: Single, id: StreamId, a: seq<Event>, b: seq<Event>)
    ensures FollowAll(v, id, a + b) == FollowAll(FollowAll(v, id, a), id, b)
  {
    if b == [] {
      assert a + b == a;
    } else {
      FollowConcat(v, id, a, b[..|b| - 1]);
      assert (a + b)[..|a + b| - 1] == a + b[..|b| - 1];
    }
  }

  lemma {:induction false} TailPostsNothing(v: Single, id: StreamId, tail: seq<Event>)
    requires v.current.None? && forall ev | ev in tail :: ev.Reset? || ev.Finish? || ev.Other?
    ensures FollowAll(v, id, tail) == v
  {
    if tail == [] {
    } else {
      assert tail[|tail| - 1] in tail;
      TailPostsNothing(v, id, tail[..|tail| - 1]);
    }
  }

  /** A stream that starts, carries a message, ends, and carries no more headers or bytes posts exactly one Data
  event, with the message's summary; ended by a reset it posts none. */
  lemma StreamOutcome(rx: Receiver, events: seq<Event>, id: StreamId, message: seq<Event>, end: Event, tail: seq<Event>)
    requires WellKeyed(rx) && id !in rx.incoming && Posted(rx.posted, id) == []
    requires Only(events, id) == message + [end] + tail
    requires Message(message) && exists ev :: ev in message && !ev.Other?
    requires end.Finish? || end.Reset?
    requires forall ev | ev in tail :: ev.Reset? || ev.Finish? || ev.Other?
    ensures id !in Process(rx, events).incoming
    ensures Posted(Process(rx, events).posted, id) == if end.Finish? then [Summary(id, message)] else []
  {
    var v0 := Project(rx, id);
    LoopIsPerStream(rx, events, id);
    FollowConcat(v0, id, message + [end], tail);
    MessageSummary(id, message);
    assert (message + [end])[..|message|] == message;
    TailPostsNothing(FollowAll(v0, id, message + [end]), id, tail);
  }

  // ----- Which streams the loop has destroyed

  /** A reset destroys its stream, and on the client so does the end of a stream that was being received. */
  predicate Destroys(rx: Receiver, ev: Event) {
    ev.Reset? || (ev.Finish? && !rx.isServer && ev.id in rx.incoming)
  }

  function DestroyedBy(rx: Receiver, events: seq<Event>): seq<StreamId> {
    if events == [] then [] else
      var before, last := events[..|events| - 1], events[|events| - 1];
      DestroyedBy(rx, before) + if Destroys(Process(rx, before), last) then [last.id] else []
  }

  lemma {:induction false} DestroyCalls(rx: Receiver, events: seq<Event>)
    ensures Process(rx, events).destroyed == rx.destroyed + DestroyedBy(rx, events)
    ensures Process(rx, events).isServer == rx.isServer
  {
    if events == [] {
      assert rx.destroyed + [] == rx.destroyed;
    } else {
      DestroyCalls(rx, events[..|events| - 1]);
    }
  }
}

/** ProcessH3Events over shared stream objects: a stream object is mutated while it is in the map, and handed to the
application in a Data event once it leaves it. No posted stream changes again. */
module ReceiveLoop {
  import opened Transport
  import opened Receive

  class IncomingStream {
    const id: StreamId
    var verb: string
    var path: string
    var status: string
    var authorization: string
    var contentType: string
    var headerInfo: string
    var buffer: seq<Byte>

    ghost function Value(): Incoming
      reads this
    {
      Incoming(id, verb, path, status, authorization, contentType, headerInfo, buffer)
    }

    constructor (id: StreamId)
      ensures Value() == NewStream(id)
    {
      this.id := id;
      verb, path, status, authorization, contentType, headerInfo, buffer := "", "", "", "", "", "", [];
    }

    method OnHeader(name: string, value: string)
      modifies this
      ensures Value() == Receive.OnHeader(old(Value()), name, value)
    {
      if name == ":method" {
        verb := value;
      } else if name == ":path" {
        path := value;
      } else if name == ":status" {
        status := value;
      } else if name == "Authorization" {
        authorization := value;
      } else if name == "content-type" {
        contentType := value;
      } else if name == "quicsend-header-info" {
        headerInfo := value;
      }
    }

    method OnHeaders(headers: seq<(string, string)>)
      modifies this
      ensures Value() == Receive.OnHeaders(old(Value()), headers)
    {
      for i := 0 to |headers|
        invariant Value() == Receive.OnHeaders(old(Value()), headers[..i])
      {
        OnHeader(headers[i].0, headers[i].1);
        assert headers[..i + 1][..i] == headers[..i];
      }
      assert headers[..|headers|] == headers;
    }

    method OnData(bytes: seq<Byte>)
      modifies this
      ensures Value() == old(Value()).(buffer := old(buffer) + bytes)
    {
      buffer := buffer + bytes;
    }

    /** The inner loop: reads until DONE or a read of nothing; an error is only logged. */
    method ReadBody(results: seq<Read>)
      modifies this
      ensures Value() == old(Value()).(buffer := old(buffer) + ReadAll(results))
    {
      var i := 0;
      while i < |results| && results[i] != Got([])
        invariant i <= |results|
        invariant Value() == old(Value()).(buffer := buffer)
        invariant buffer + ReadAll(results[i..]) == old(buffer) + ReadAll(results)
      {
        assert results[i..][1..] == results[i + 1..];
        ghost var before := buffer;
        if results[i].Got? {
          OnData(results[i].bytes);
          assert before + (results[i].bytes + ReadAll(results[i + 1..])) == buffer + ReadAll(results[i + 1..]);
        }
        i := i + 1;
      }
    }
  }

  class ReceivingConnection {
    const isServer: bool
    var incoming: map<StreamId, IncomingStream>
    var posted: seq<IncomingStream>
    var destroyed: seq<StreamId>
    /** What each posted stream held when its event was posted. */
    ghost var handed: seq<Incoming>
    ghost var Repr: set<IncomingStream>

    /** A stream object sits under its own id, so two keys never share one; none is shared with a posted event, and
    every posted stream still holds what it held when it was posted. */
    ghost predicate Valid()
      reads this, Repr
    {
      && (forall id | id in incoming :: incoming[id] in Repr && incoming[id].id == id && incoming[id] !in posted)
      && |posted| == |handed|
      && (forall i | 0 <= i < |posted| :: posted[i] in Repr && posted[i].Value() == handed[i])
    }

    ghost function Streams(): (r: map<StreamId, Incoming>)
      requires Valid()
      reads this, Repr
      ensures r.Keys == incoming.Keys && forall id | id in incoming :: r[id] == incoming[id].Value()
    {
      map id | id in incoming :: incoming[id].Value()
    }

    ghost function View(): Receiver
      requires Valid()
      reads this, Repr
    {
      Receiver(isServer, Streams(), handed, destroyed)
    }

    constructor (isServer: bool)
      ensures Valid() && View() == Receiver(isServer, map[], [], [])
      ensures Repr == {}
    {
      this.isServer := isServer;
      incoming, posted, destroyed, handed, Repr := map[], [], [], [], {};
    }

    method GetIncomingStream(id: StreamId) returns (s: IncomingStream)
      requires Valid()
      modifies this`incoming, this`Repr
      ensures Valid() && s.id == id && incoming == old(incoming)[id := s]
      ensures if id in old(incoming) then s == old(incoming[id]) else fresh(s)
      ensures Repr == old(Repr) + {s} && s !in posted
      ensures s.Value() == Get(old(View()), id)
    {
      if id in incoming {
        s := incoming[id];
      } else {
        s := new IncomingStream(id);
        incoming := incoming[id := s];
        Repr := Repr + {s};
      }
    }

    method OnHeadersEvent(id: StreamId, headers: seq<(string, string)>)
      requires Valid()
      modifies this`incoming, this`Repr, if id in incoming then {incoming[id]} else {}
      ensures Valid() && fresh(Repr - old(Repr))
      ensures Streams() == old(Streams())[id := Receive.OnHeaders(Get(old(View()), id), headers)]
    {
      var s := GetIncomingStream(id);
      s.OnHeaders(headers);
    }

    method OnDataEvent(id: StreamId, results: seq<Read>)
      requires Valid()
      modifies this`incoming, this`Repr, if id in incoming then {incoming[id]} else {}
      ensures Valid() && fresh(Repr - old(Repr))
      ensures var s := Get(old(View()), id);
        Streams() == old(Streams())[id := s.(buffer := s.buffer + ReadAll(results))]
    {
      var s := GetIncomingStream(id);
      s.ReadBody(results);
    }

    method OnFinishedEvent(id: StreamId)
      requires Valid()
      modifies this`incoming, this`posted, this`handed, this`destroyed
      ensures Valid() && Streams() == old(Streams()) - {id}
      ensures id in old(incoming) ==>
        && posted == old(posted) + [old(incoming[id])] && handed == old(handed) + [old(Streams()[id])]
        && destroyed == old(destroyed) + if isServer then [] else [id]
      ensures id !in old(incoming) ==> unchanged(this)
    {
      if id in incoming {
        var s := incoming[id];
        incoming := incoming - {id};
        posted := posted + [s];
        handed := handed + [s.Value()];
        if !isServer { destroyed := destroyed + [id]; }
      }
    }

    method DestroyStream(id: StreamId)
      requires Valid()
      modifies this`incoming, this`destroyed
      ensures Valid() && Streams() == old(Streams()) - {id} && destroyed == old(destroyed) + [id]
    {
      destroyed := destroyed + [id];
      if id in incoming { incoming := incoming - {id}; }
    }

    method OnEvent(ev: Event)
      requires Valid()
      modifies this, Repr
      ensures Valid() && fresh(Repr - old(Repr))
      ensures View() == Receive.OnEvent(old(View()), ev) && old(posted) <= posted
    {
      match ev
      case Headers(id, headers) => OnHeadersEvent(id, headers);
      case Body(id, results) => OnDataEvent(id, results);
      case Finish(id) => OnFinishedEvent(id);
      case Reset(id) => DestroyStream(id);
      case Other(_) =>
    }

    /** The whole loop: Valid carries that no event already posted changes, whatever arrives later. */
    method ProcessH3Events(events: seq<Event>)
      requires Valid()
      modifies this, Repr
      ensures Valid() && View() == Process(old(View()), events)
      ensures old(posted) <= posted && old(handed) <= handed
    {
      ghost var before := View();
      for i := 0 to |events|
        invariant Valid() && fresh(Repr - old(Repr))
        invariant old(posted) <= posted && old(handed) <= handed
        invariant View() == Process(before, events[..i])
      {
        OnEvent(events[i]);
        assert events[..i + 1][..i] == events[..i];
      }
      assert events[..|events|] == events;
    }
  }
}

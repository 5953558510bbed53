/** What one connection posts to the mailbox: the establishment of HTTP/3, the gates in front of the application, and
the two places that report a timeout. */
module Lifecycle {
  import opened Receive

  datatype Mail = Connect | Timeout | Data(stream: Incoming)

  /** http3 says whether the HTTP/3 connection exists; timeout is what IsClosed reports. */
  datatype Conn = Conn(isServer: bool, http3: bool, connected: bool, timeout: bool)

  /** What the transport reports while one datagram is processed: whether it was accepted, whether the connection is
  established, whether HTTP/3 could be set up, whether the peer certificate is the expected one, the streams that
  finished, and whether the connection is closed before and after the flush. */
  datatype Packet = Packet(
    accepted: bool, established: bool, http3Ready: bool, certMatches: bool,
    finished: seq<Incoming>, closed: bool, closedAfterFlush: bool)

  datatype Outcome = Outcome(conn: Conn, posts: seq<Mail>)

  /** on_connect: the client compares certificates, the server only logs. */
  function OnConnect(c: Conn, certMatches: bool): Outcome {
    if !c.isServer && certMatches then Outcome(c.(connected := true), [Connect]) else Outcome(c, [])
  }

  /** on_data: the server admits a connection by the first request that carries the expected authorization. */
  function OnData(c: Conn, s: Incoming, expected: string): Outcome {
    if c.connected then Outcome(c, [Data(s)])
    else if c.isServer && s.authorization == expected then Outcome(c.(connected := true), [Connect, Data(s)])
    else Outcome(c, [])
  }

  function OnFinished(c: Conn, finished: seq<Incoming>, expected: string): Outcome
    decreases |finished|
  {
    if finished == [] then Outcome(c, []) else
      var first := OnData(c, finished[0], expected);
      var rest := OnFinished(first.conn, finished[1..], expected);
      Outcome(rest.conn, first.posts + rest.posts)
  }

  function TickTimeout(c: Conn, closed: bool): Outcome {
    if closed then Outcome(c.(timeout := true), if c.timeout then [] else [Timeout]) else Outcome(c, [])
  }

  /** The tail of OnDatagram: a newly closed connection is reported at once, otherwise egress is flushed. */
  function Conclude(c: Conn, p: Packet): Outcome {
    if !c.timeout && p.closed then Outcome(c.(timeout := true), [Timeout]) else TickTimeout(c, p.closedAfterFlush)
  }

  /** HTTP/3 is set up once, and on_connect called then. */
  function Open(c: Conn, p: Packet): Outcome {
    if c.http3 then Outcome(c, []) else OnConnect(c.(http3 := true), p.certMatches)
  }

  function Then(a: Outcome, b: Outcome): Outcome {
    Outcome(b.conn, a.posts + b.posts)
  }

  /** ProcessH3Events, then the tail. */
  function Serve(c: Conn, p: Packet, expected: string): Outcome {
    var events := OnFinished(c, p.finished, expected);
    Then(events, Conclude(events.conn, p))
  }

  function OnDatagram(c: Conn, p: Packet, expected: string): Outcome {
    if !p.accepted then Outcome(c, [])
    else if !p.established then Conclude(c, p)
    else if !c.http3 && !p.http3Ready then Outcome(c, [])
    else Then(Open(c, p), Serve(Open(c, p).conn, p, expected))
  }

  datatype Section = Datagram(p: Packet) | Flush(closed: bool)

  /** One section under the connection's mutex. */
  function Run(c: Conn, s: Section, expected: string): Outcome {
    match s
    case Datagram(p) => OnDatagram(c, p, expected)
    case Flush(closed) => TickTimeout(c, closed)
  }

  // ----- The trace of one connection

  /** An observer of the posts: how many Connect and Timeout, whether a Data came before any Connect, whether the last
  post was a Connect, and whether every earlier Connect was followed at once by a request with that authorization. */
  datatype Trace = Trace(connects: nat, timeouts: nat, early: bool, waiting: bool, earned: bool)

  function Observe(t: Trace, m: Mail, expected: string): Trace {
    var earned := t.earned && (t.waiting ==> m.Data? && m.stream.authorization == expected);
    match m
    case Connect => Trace(t.connects + 1, t.timeouts, t.early, true, earned)
    case Timeout => Trace(t.connects, t.timeouts + 1, t.early, false, earned)
    case Data(_) => Trace(t.connects, t.timeouts, t.early || t.connects == 0, false, earned)
  }

  function Track(h: seq<Mail>, expected: string): Trace {
    if h == [] then Trace(0, 0, false, false, true)
    else Observe(Track(h[..|h| - 1], expected), h[|h| - 1], expected)
  }

  /** The posts so far against the flags. */
  ghost predicate TraceOk(c: Conn, h: seq<Mail>, expected: string) {
    var t := Track(h, expected);
    && t.connects == (if c.connected then 1 else 0)
    && t.timeouts == (if c.timeout then 1 else 0)
    && !t.early
    && (c.isServer ==> !t.waiting && t.earned)
    && (!c.isServer && c.connected ==> c.http3)
  }

  /** What a good trace says of the posts themselves. */
  ghost predicate InOrder(c: Conn, h: seq<Mail>, expected: string) {
    && multiset(h)[Connect] == (if c.connected then 1 else 0)
    && multiset(h)[Timeout] == (if c.timeout then 1 else 0)
    && (forall i | 0 <= i < |h| && h[i].Data? :: Connect in h[..i])
    && (c.isServer ==> forall i | 0 <= i < |h| && h[i] == Connect ::
          i + 1 < |h| && h[i + 1].Data? && h[i + 1].stream.authorization == expected)
  }

  lemma {:induction false} CountsMeaning(h: seq<Mail>, expected: string)
    ensures var t := Track(h, expected);
      multiset(h)[Connect] == t.connects && multiset(h)[Timeout] == t.timeouts
  {
    if h == [] {
    } else {
      assert h == h[..|h| - 1] + [h[|h| - 1]];
      CountsMeaning(h[..|h| - 1], expected);
    }
  }

  lemma {:induction false} EarlyMeaning(h: seq<Mail>, expected: string)
    requires !Track(h, expected).early
    ensures forall i | 0 <= i < |h| && h[i].Data? :: Connect in h[..i]
  {
    if h == [] {
    } else {
      var before := h[..|h| - 1];
      EarlyMeaning(before, expected);
      CountsMeaning(before, expected);
      forall i | 0 <= i < |h| && h[i].Data? ensures Connect in h[..i] {
        if i < |before| { assert before[i].Data? && before[..i] == h[..i]; }
      }
    }
  }

  lemma {:induction false} EarnedMeaning(h: seq<Mail>, expected: string)
    ensures var t := Track(h, expected);
      && (t.waiting <==> h != [] && h[|h| - 1] == Connect)
      && (t.earned ==> forall i | 0 <= i < |h| - 1 && h[i] == Connect ::
            h[i + 1].Data? && h[i + 1].stream.authorization == expected)
  {
    if h == [] {
    } else {
      EarnedMeaning(h[..|h| - 1], expected);
    }
  }

  lemma TraceMeaning(c: Conn, h: seq<Mail>, expected: string)
    requires TraceOk(c, h, expected)
    ensures InOrder(c, h, expected)
  {
    CountsMeaning(h, expected);
    EarnedMeaning(h, expected);
    EarlyMeaning(h, expected);
  }

  lemma PostTimeout(c: Conn, h: seq<Mail>, c': Conn, h': seq<Mail>, expected: string)
    requires TraceOk(c, h, expected) && !c.timeout && c' == c.(timeout := true) && h' == h + [Timeout]
    ensures TraceOk(c', h', expected)
  {
    assert h'[..|h|] == h;
  }

  lemma PostData(c: Conn, h: seq<Mail>, h': seq<Mail>, s: Incoming, expected: string)
    requires TraceOk(c, h, expected) && c.connected && h' == h + [Data(s)]
    ensures TraceOk(c, h', expected)
  {
    assert h'[..|h|] == h;
  }

  lemma PostClientConnect(c: Conn, h: seq<Mail>, c': Conn, h': seq<Mail>, expected: string)
    requires TraceOk(c, h, expected) && !c.connected && !c.isServer
    requires c' == c.(http3 := true, connected := true) && h' == h + [Connect]
    ensures TraceOk(c', h', expected)
  {
    assert h'[..|h|] == h;
  }

  lemma PostServerConnect(c: Conn, h: seq<Mail>, c': Conn, h': seq<Mail>, s: Incoming, expected: string)
    requires TraceOk(c, h, expected) && !c.connected && c.isServer && s.authorization == expected
    requires c' == c.(connected := true) && h' == h + [Connect, Data(s)]
    ensures TraceOk(c', h', expected)
  {
    assert h'[..|h'| - 1] == h + [Connect] && (h + [Connect])[..|h|] == h;
    assert Track(h + [Connect], expected) == Observe(Track(h, expected), Connect, expected);
  }

  lemma OnDataKeepsTrace(c: Conn, h: seq<Mail>, c': Conn, h': seq<Mail>, s: Incoming, expected: string)
    requires TraceOk(c, h, expected)
    requires c' == OnData(c, s, expected).conn && h' == h + OnData(c, s, expected).posts
    ensures TraceOk(c', h', expected)
  {
    if c.connected {
      PostData(c, h, h', s, expected);
    } else if c.isServer && s.authorization == expected {
      PostServerConnect(c, h, c', h', s, expected);
    } else {
      assert h' == h;
    }
  }

  lemma {:induction false} OnFinishedKeepsTrace(c: Conn, h: seq<Mail>, c': Conn, h': seq<Mail>,
                                                finished: seq<Incoming>, expected: string)
    requires TraceOk(c, h, expected)
    requires c' == OnFinished(c, finished, expected).conn && h' == h + OnFinished(c, finished, expected).posts
    ensures TraceOk(c', h', expected) && c' == c.(connected := c'.connected) && (c.connected ==> c'.connected)
    decreases |finished|
  {
    if finished == [] {
      assert h' == h;
    } else {
      var first := OnData(c, finished[0], expected);
      OnDataKeepsTrace(c, h, first.conn, h + first.posts, finished[0], expected);
      assert h' == h + first.posts + OnFinished(first.conn, finished[1..], expected).posts;
      OnFinishedKeepsTrace(first.conn, h + first.posts, c', h', finished[1..], expected);
    }
  }

  lemma TickKeepsTrace(c: Conn, h: seq<Mail>, c': Conn, h': seq<Mail>, closed: bool, expected: string)
    requires TraceOk(c, h, expected)
    requires c' == TickTimeout(c, closed).conn && h' == h + TickTimeout(c, closed).posts
    ensures TraceOk(c', h', expected)
  {
    if closed && !c.timeout { PostTimeout(c, h, c', h', expected); } else { assert h' == h && c' == c; }
  }

  lemma ConcludeKeepsTrace(c: Conn, h: seq<Mail>, c': Conn, h': seq<Mail>, p: Packet, expected: string)
    requires TraceOk(c, h, expected)
    requires c' == Conclude(c, p).conn && h' == h + Conclude(c, p).posts
    ensures TraceOk(c', h', expected)
  {
    if !c.timeout && p.closed {
      PostTimeout(c, h, c', h', expected);
    } else {
      TickKeepsTrace(c, h, c', h', p.closedAfterFlush, expected);
    }
  }

  lemma OpenKeepsTrace(c: Conn, h: seq<Mail>, c': Conn, h': seq<Mail>, p: Packet, expected: string)
    requires TraceOk(c, h, expected) && c' == Open(c, p).conn && h' == h + Open(c, p).posts
    ensures TraceOk(c', h', expected)
    ensures c'.isServer == c.isServer && c'.timeout == c.timeout && (c.connected ==> c'.connected)
  {
    if !c.http3 && !c.isServer && p.certMatches {
      PostClientConnect(c, h, c', h', expected);
    } else {
      assert h' == h;
    }
  }

  lemma ServeKeepsTrace(c: Conn, h: seq<Mail>, c': Conn, h': seq<Mail>, p: Packet, expected: string)
    requires TraceOk(c, h, expected)
    requires c' == Serve(c, p, expected).conn && h' == h + Serve(c, p, expected).posts
    ensures TraceOk(c', h', expected)
    ensures c'.isServer == c.isServer && (c.timeout ==> c'.timeout) && (c.connected ==> c'.connected)
  {
    var events := OnFinished(c, p.finished, expected);
    OnFinishedKeepsTrace(c, h, events.conn, h + events.posts, p.finished, expected);
    assert h' == h + events.posts + Conclude(events.conn, p).posts;
    ConcludeKeepsTrace(events.conn, h + events.posts, c', h', p, expected);
  }

  lemma DatagramKeepsTrace(c: Conn, h: seq<Mail>, c': Conn, h': seq<Mail>, p: Packet, expected: string)
    requires TraceOk(c, h, expected)
    requires c' == OnDatagram(c, p, expected).conn && h' == h + OnDatagram(c, p, expected).posts
    ensures TraceOk(c', h', expected)
    ensures c'.isServer == c.isServer && (c.timeout ==> c'.timeout) && (c.connected ==> c'.connected)
  {
    if !p.accepted || (p.established && !c.http3 && !p.http3Ready) {
      assert h' == h;
    } else if !p.established {
      ConcludeKeepsTrace(c, h, c', h', p, expected);
    } else {
      var opening := Open(c, p);
      OpenKeepsTrace(c, h, opening.conn, h + opening.posts, p, expected);
      assert h' == h + opening.posts + Serve(opening.conn, p, expected).posts;
      ServeKeepsTrace(opening.conn, h + opening.posts, c', h', p, expected);
    }
  }

  /** Every section under the mutex keeps the trace in order. The client's Connect is posted when HTTP/3 is set up and
  at no other time, so at most once. */
  lemma RunKeepsTrace(c: Conn, h: seq<Mail>, c': Conn, h': seq<Mail>, s: Section, expected: string)
    requires TraceOk(c, h, expected)
    requires c' == Run(c, s, expected).conn && h' == h + Run(c, s, expected).posts
    ensures TraceOk(c', h', expected)
    ensures c'.isServer == c.isServer && (c.timeout ==> c'.timeout) && (c.connected ==> c'.connected)
  {
    match s
    case Flush(closed) => TickKeepsTrace(c, h, c', h', closed, expected);
    case Datagram(p) => DatagramKeepsTrace(c, h, c', h', p, expected);
  }

  // ----- Whole runs of one connection

  function RunAll(c: Conn, sections: seq<Section>, expected: string): Outcome {
    if sections == [] then Outcome(c, []) else
      var before := RunAll(c, sections[..|sections| - 1], expected);
      Then(before, Run(before.conn, sections[|sections| - 1], expected))
  }

  lemma {:induction false} RunAllKeepsTrace(c: Conn, sections: seq<Section>, expected: string)
    requires !c.connected && !c.timeout
    ensures var o := RunAll(c, sections, expected);
      TraceOk(o.conn, o.posts, expected) && o.conn.isServer == c.isServer
  {
    if sections == [] {
    } else {
      var before := RunAll(c, sections[..|sections| - 1], expected);
      var o := RunAll(c, sections, expected);
      RunAllKeepsTrace(c, sections[..|sections| - 1], expected);
      RunKeepsTrace(before.conn, before.posts, o.conn, o.posts, sections[|sections| - 1], expected);
    }
  }

  /** For any run of a connection, client or server: at most one Connect, every Data after it, at most one Timeout, the
  timeout flag exactly when the Timeout is posted; on the server, Connect comes with the authorized request. */
  lemma ConnectionTrace(c: Conn, sections: seq<Section>, expected: string)
    requires !c.connected && !c.timeout
    ensures var o := RunAll(c, sections, expected); InOrder(o.conn, o.posts, expected)
  {
    RunAllKeepsTrace(c, sections, expected);
    TraceMeaning(RunAll(c, sections, expected).conn, RunAll(c, sections, expected).posts, expected);
  }

  /** The client posts Connect in the section that sets HTTP/3 up with a matching certificate, and in no other. */
  lemma ClientConnectIsVerified(c: Conn, s: Section, expected: string)
    requires !c.isServer
    ensures Connect in Run(c, s, expected).posts <==>
      s.Datagram? && s.p.accepted && s.p.established && !c.http3 && s.p.http3Ready && s.p.certMatches
  {
    if s.Datagram? {
      var opening := Open(c, s.p);
      OnFinishedOfClient(opening.conn, s.p.finished, expected);
      if s.p.accepted && s.p.established && (c.http3 || s.p.http3Ready) {
        assert Run(c, s, expected).posts == opening.posts + Serve(opening.conn, s.p, expected).posts;
      }
    }
  }

  /** The tail of OnDatagram is reached unless the packet or the set-up of HTTP/3 fails. */
  predicate Concludes(c: Conn, p: Packet) {
    p.accepted && (p.established ==> c.http3 || p.http3Ready)
  }

  /** The transport reports the connection closed, before or after the flush. */
  predicate FoundClosed(c: Conn, s: Section) {
    match s
    case Datagram(p) => Concludes(c, p) && (p.closed || p.closedAfterFlush)
    case Flush(closed) => closed
  }

  /** A closed connection is noticed in the section that finds it closed, and its Timeout posted there, last; in no
  other section, and not again. */
  lemma ClosedIsReported(c: Conn, s: Section, expected: string)
    ensures var o := Run(c, s, expected);
      && (o.conn.timeout <==> c.timeout || FoundClosed(c, s))
      && (Timeout in o.posts <==> !c.timeout && FoundClosed(c, s))
      && (Timeout in o.posts ==> o.posts[|o.posts| - 1] == Timeout)
  {
    if s.Datagram? && Concludes(c, s.p) {
      if s.p.established {
        var opening := Open(c, s.p);
        OnFinishedFlags(opening.conn, s.p.finished, expected);
        assert Run(c, s, expected).posts == opening.posts + Serve(opening.conn, s.p, expected).posts;
      }
    }
  }

  lemma {:induction false} OnFinishedFlags(c: Conn, finished: seq<Incoming>, expected: string)
    ensures var o := OnFinished(c, finished, expected); o.conn.timeout == c.timeout && Timeout !in o.posts
    decreases |finished|
  {
    if finished == [] {
    } else {
      OnFinishedFlags(OnData(c, finished[0], expected).conn, finished[1..], expected);
    }
  }

  lemma {:induction false} OnFinishedOfClient(c: Conn, finished: seq<Incoming>, expected: string)
    requires !c.isServer
    ensures Connect !in OnFinished(c, finished, expected).posts
    ensures !c.connected ==> OnFinished(c, finished, expected).posts == []
    decreases |finished|
  {
    if finished == [] {
    } else {
      OnFinishedOfClient(OnData(c, finished[0], expected).conn, finished[1..], expected);
    }
  }

  // ----- The client's two Authorization headers

  /** Request sends the token as it is without a body, and with the prefix "Bearer " with one. */
  function AuthorizationHeader(token: string, hasBody: bool): string {
    if hasBody then "Bearer " + token else token
  }

  /** So no expected string admits a client both by a request without a body and by one with a body: which kind opens
  the gate is decided by the token, and the other kind is dropped until it has. */
  lemma OneKindOpensTheGate(token: string, expected: string, a: Incoming, b: Incoming)
    requires a.authorization == AuthorizationHeader(token, false) && b.authorization == AuthorizationHeader(token, true)
    ensures var c := Conn(true, true, false, false);
      && !(OnData(c, a, expected).conn.connected && OnData(c, b, expected).conn.connected)
      && (OnData(c, a, expected).conn.connected <==> expected == token)
      && (OnData(c, b, expected).conn.connected <==> expected == "Bearer " + token)
  {
    assert |"Bearer " + token| == 7 + |token|;
  }
}

/** From the body that one side hands over to the Data event in the other side's mailbox: the streams that module
Delivery posts are the finished streams of the datagrams in modules Lifecycle and Server. */
module Journey {
  import opened Receive
  import opened Delivery
  import opened Lifecycle
  import Transfer
  import Server

  // ----- The gate of a server over a sequence of streams

  /** The streams from the first authorized one on. */
  function FromAuthorized(streams: seq<Incoming>, expected: string): seq<Incoming> {
    if streams == [] then []
    else if streams[0].authorization == expected then streams
    else FromAuthorized(streams[1..], expected)
  }

  lemma {:induction false} FromAuthorizedIs(streams: seq<Incoming>, expected: string) returns (n: nat)
    ensures n <= |streams| && FromAuthorized(streams, expected) == streams[n..]
    ensures forall i | 0 <= i < n :: streams[i].authorization != expected
    ensures n < |streams| ==> streams[n].authorization == expected
  {
    if streams == [] || streams[0].authorization == expected {
      n := 0;
    } else {
      n := FromAuthorizedIs(streams[1..], expected);
      n := n + 1;
    }
  }

  lemma {:induction false} FromAuthorizedConcat(a: seq<Incoming>, b: seq<Incoming>, expected: string)
    ensures FromAuthorized(a + b, expected) ==
      if FromAuthorized(a, expected) != [] then FromAuthorized(a, expected) + b else FromAuthorized(b, expected)
    decreases |a|
  {
    if a == [] {
      assert a + b == b;
    } else {
      assert (a + b)[1..] == a[1..] + b;
      if a[0].authorization != expected { FromAuthorizedConcat(a[1..], b, expected); }
    }
  }

  // ----- The Data events of a section

  function Datas(posts: seq<Mail>): seq<Incoming> {
    if posts == [] then [] else
      var last := posts[|posts| - 1];
      Datas(posts[..|posts| - 1]) + if last.Data? then [last.stream] else []
  }

  lemma {:induction false} DatasConcat(a: seq<Mail>, b: seq<Mail>)
    ensures Datas(a + b) == Datas(a) + Datas(b)
  {
    if b == [] {
      assert a + b == a;
    } else {
      DatasConcat(a, b[..|b| - 1]);
      assert (a + b)[..|a + b| - 1] == a + b[..|b| - 1];
    }
  }

  /** What on_data lets through of some finished streams: all of them once connected, on the server else those from the
  first authorized one on, on the client else none. */
  function Passed(c: Conn, finished: seq<Incoming>, expected: string): seq<Incoming> {
    if c.connected then finished else if c.isServer then FromAuthorized(finished, expected) else []
  }

  lemma OneData(c: Conn, s: Incoming, expected: string)
    ensures Datas(OnData(c, s, expected).posts) == Passed(c, [s], expected)
    ensures OnData(c, s, expected).conn == c.(connected := c.connected || (c.isServer && s.authorization == expected))
  {
    assert [Data(s)][..0] == [] && [Connect][..0] == [] && Datas([]) == [];
    assert FromAuthorized([], expected) == [];
    assert FromAuthorized([s], expected) == if s.authorization == expected then [s] else FromAuthorized([s][1..], expected);
    assert Datas([Connect]) == [] && Datas([Data(s)]) == [s] && [s][1..] == [];
    assert [Connect, Data(s)][..1] == [Connect] && Datas([Connect, Data(s)]) == [s];
  }

  lemma {:induction false} FinishedDatas(c: Conn, finished: seq<Incoming>, expected: string)
    ensures var o := OnFinished(c, finished, expected);
      && Datas(o.posts) == Passed(c, finished, expected)
      && o.conn == c.(connected := c.connected || (c.isServer && FromAuthorized(finished, expected) != []))
    decreases |finished|
  {
    if finished == [] {
    } else {
      FinishedDatas(OnData(c, finished[0], expected).conn, finished[1..], expected);
      OneMoreFinished(c, finished[0], finished[1..], finished, expected);
    }
  }

  lemma OneMoreFinished(c: Conn, s: Incoming, more: seq<Incoming>, finished: seq<Incoming>, expected: string)
    requires finished == [s] + more && finished[0] == s && finished[1..] == more
    requires var c1 := OnData(c, s, expected).conn;
      var o := OnFinished(c1, more, expected);
      && Datas(o.posts) == Passed(c1, more, expected)
      && o.conn == c1.(connected := c1.connected || (c1.isServer && FromAuthorized(more, expected) != []))
    ensures var o := OnFinished(c, finished, expected);
      && Datas(o.posts) == Passed(c, finished, expected)
      && o.conn == c.(connected := c.connected || (c.isServer && FromAuthorized(finished, expected) != []))
  {
    var first := OnData(c, s, expected);
    OneData(c, s, expected);
    DatasConcat(first.posts, OnFinished(first.conn, more, expected).posts);
    FromAuthorizedConcat([s], more, expected);
    assert [s][1..] == [];
  }

  lemma NoDatas(posts: seq<Mail>)
    requires |posts| <= 1 && forall m | m in posts :: !m.Data?
    ensures Datas(posts) == []
  {
    if |posts| == 1 { assert posts[..0] == [] && Datas([]) == []; }
  }

  /** ProcessH3Events runs if the datagram is accepted, the connection established, and HTTP/3 set up. */
  predicate Processes(c: Conn, p: Packet) {
    p.accepted && p.established && (c.http3 || p.http3Ready)
  }

  /** Whether the streams of a processed datagram find the connection connected: on the client the datagram that sets
  HTTP/3 up connects it if the certificate matches. */
  predicate MeetsConnected(c: Conn, p: Packet) {
    c.connected || (!c.isServer && !c.http3 && p.certMatches)
  }

  /** The streams for which a section posts Data: exactly those that its gate lets through, in their order. */
  function PassedIn(c: Conn, s: Section, expected: string): seq<Incoming> {
    match s
    case Datagram(p) =>
      if Processes(c, p) then Passed(c.(connected := MeetsConnected(c, p)), p.finished, expected) else []
    case Flush(_) => []
  }

  lemma OpenIs(c: Conn, p: Packet)
    ensures Open(c, p).conn == c.(http3 := true, connected := MeetsConnected(c, p)) && Datas(Open(c, p).posts) == []
  {
    NoDatas(Open(c, p).posts);
  }

  lemma ConcludeIs(c: Conn, p: Packet)
    ensures Conclude(c, p).conn == c.(timeout := Conclude(c, p).conn.timeout) && Datas(Conclude(c, p).posts) == []
  {
    NoDatas(Conclude(c, p).posts);
  }

  lemma ServeDatas(c: Conn, p: Packet, expected: string)
    ensures var o := Serve(c, p, expected);
      && Datas(o.posts) == Passed(c, p.finished, expected)
      && o.conn == c.(timeout := o.conn.timeout,
                      connected := c.connected || (c.isServer && FromAuthorized(p.finished, expected) != []))
  {
    var events := OnFinished(c, p.finished, expected);
    FinishedDatas(c, p.finished, expected);
    ConcludeIs(events.conn, p);
    DatasConcat(events.posts, Conclude(events.conn, p).posts);
  }

  /** The flags after a section. */
  function ConnectedBy(c: Conn, s: Section, expected: string): bool {
    s.Datagram? && Processes(c, s.p)
      && (MeetsConnected(c, s.p) || (c.isServer && FromAuthorized(s.p.finished, expected) != []))
  }

  /** A datagram that is processed; c1 is the connection as it was opened. */
  lemma ProcessedDatas(c: Conn, c1: Conn, p: Packet, expected: string)
    requires Processes(c, p) && c1 == c.(http3 := true, connected := MeetsConnected(c, p))
    ensures var o := OnDatagram(c, p, expected);
      && Datas(o.posts) == Passed(c1, p.finished, expected)
      && o.conn == c1.(timeout := o.conn.timeout,
           connected := c1.connected || (c.isServer && FromAuthorized(p.finished, expected) != []))
  {
    OpenIs(c, p);
    ServeDatas(c1, p, expected);
    DatasConcat(Open(c, p).posts, Serve(c1, p, expected).posts);
  }

  lemma SectionDatas(c: Conn, s: Section, expected: string)
    ensures Datas(Run(c, s, expected).posts) == PassedIn(c, s, expected)
    ensures var c' := Run(c, s, expected).conn;
      && c'.isServer == c.isServer
      && c'.http3 == (c.http3 || (s.Datagram? && Processes(c, s.p)))
      && c'.connected == (c.connected || ConnectedBy(c, s, expected))
  {
    if s.Datagram? && Processes(c, s.p) {
      ProcessedDatas(c, c.(http3 := true, connected := MeetsConnected(c, s.p)), s.p, expected);
    } else {
      NoDatas(Run(c, s, expected).posts);
    }
  }

  // ----- One connection, client or server, and its peer

  /** What happens to a connection: its peer works, a datagram is processed with some HTTP/3 events in it, or a flush. */
  datatype Beat = Peer(op: Transfer.Op) | Arrives(events: seq<Event>, p: Packet) | Flushes(closed: bool)

  /** moves is what happened on the streams from the peer to this side; posts are this connection's. */
  datatype Both = Both(moves: seq<Move>, conn: Conn, posts: seq<Mail>)

  function Deliveries(events: seq<Event>): seq<Move> {
    seq(|events|, i requires 0 <= i < |events| => Deliver(events[i]))
  }

  function After(b: Both, beat: Beat): seq<Move> {
    match beat
    case Peer(op) => b.moves + [Send(op)]
    case Arrives(events, p) => if Processes(b.conn, p) then b.moves + Deliveries(events) else b.moves
    case Flushes(_) => b.moves
  }

  /** The streams posted by the receiver in the datagram are those that on_data is called with. */
  function SectionOf(w: World, b: Both, beat: Beat): Section
    requires !beat.Peer?
  {
    match beat
    case Arrives(events, p) =>
      var before, after := Play(w, b.moves).receiver.posted, Play(w, After(b, beat)).receiver.posted;
      Datagram(p.(finished := if |before| <= |after| then after[|before|..] else []))
    case Flushes(closed) => Flush(closed)
  }

  function Beats(w: World, b: Both, beats: seq<Beat>, expected: string): Both {
    if beats == [] then b else
      var before, last := Beats(w, b, beats[..|beats| - 1], expected), beats[|beats| - 1];
      if last.Peer? then before.(moves := After(before, last)) else
      var o := Run(before.conn, SectionOf(w, before, last), expected);
      Both(After(before, last), o.conn, before.posts + o.posts)
  }

  lemma {:induction false} PostedGrows(w: World, moves: seq<Move>, more: seq<Move>)
    ensures Play(w, moves).receiver.posted <= Play(w, moves + more).receiver.posted
  {
    if more == [] {
      assert moves + more == moves;
    } else {
      PostedGrows(w, moves, more[..|more| - 1]);
      assert (moves + more)[..|moves + more| - 1] == moves + more[..|more| - 1];
    }
  }

  lemma PostedAfter(w: World, b: Both, beat: Beat)
    ensures Play(w, b.moves).receiver.posted <= Play(w, After(b, beat)).receiver.posted
  {
    var more := After(b, beat)[|b.moves|..];
    PostedGrows(w, b.moves, more);
    assert b.moves + more == After(b, beat);
  }

  lemma PeerPostsNothing(w: World, moves: seq<Move>, op: Transfer.Op)
    ensures Play(w, moves + [Send(op)]).receiver == Play(w, moves).receiver
  {
    var all := moves + [Send(op)];
    assert all[..|all| - 1] == moves;
  }

  /** The Data events of a connection that started unconnected, against all that its receiver posted. */
  ghost predicate MailComplete(c: Conn, posts: seq<Mail>, posted: seq<Incoming>, expected: string) {
    if c.isServer then
      && Datas(posts) == FromAuthorized(posted, expected)
      && (c.connected <==> FromAuthorized(posted, expected) != [])
    else
      && Datas(posts) == (if c.connected then posted else [])
      && (!c.http3 ==> posted == [] && !c.connected)
  }

  lemma SectionComplete(c: Conn, posts: seq<Mail>, posted: seq<Incoming>, s: Section, more: seq<Incoming>, expected: string)
    requires MailComplete(c, posts, posted, expected)
    requires more == if s.Datagram? && Processes(c, s.p) then s.p.finished else []
    ensures var o := Run(c, s, expected); MailComplete(o.conn, posts + o.posts, posted + more, expected)
  {
    var o := Run(c, s, expected);
    SectionDatas(c, s, expected);
    DatasConcat(posts, o.posts);
    FromAuthorizedConcat(posted, more, expected);
    assert [] + more == more && posted + [] == posted;
  }

  lemma {:induction false} BeatsComplete(w: World, c: Conn, beats: seq<Beat>, expected: string)
    requires w.receiver.posted == [] && !c.connected
    ensures var e := Beats(w, Both([], c, []), beats, expected);
      MailComplete(e.conn, e.posts, Play(w, e.moves).receiver.posted, expected) && e.conn.isServer == c.isServer
  {
    if beats == [] {
    } else {
      var before, last := Beats(w, Both([], c, []), beats[..|beats| - 1], expected), beats[|beats| - 1];
      BeatsComplete(w, c, beats[..|beats| - 1], expected);
      if last.Peer? {
        PeerPostsNothing(w, before.moves, last.op);
      } else {
        BeatComplete(w, before, last, expected);
        SectionDatas(before.conn, SectionOf(w, before, last), expected);
      }
    }
  }

  lemma BeatComplete(w: World, b: Both, beat: Beat, expected: string)
    requires !beat.Peer? && MailComplete(b.conn, b.posts, Play(w, b.moves).receiver.posted, expected)
    ensures var o := Run(b.conn, SectionOf(w, b, beat), expected);
      MailComplete(o.conn, b.posts + o.posts, Play(w, After(b, beat)).receiver.posted, expected)
  {
    var posted, later := Play(w, b.moves).receiver.posted, Play(w, After(b, beat)).receiver.posted;
    PostedAfter(w, b, beat);
    SectionComplete(b.conn, b.posts, posted, SectionOf(w, b, beat), later[|posted|..], expected);
    assert posted + later[|posted|..] == later;
  }

  // ----- Main results

  ghost predicate DifferentIds(s: seq<Incoming>) {
    forall i, j | 0 <= i < j < |s| :: s[i].id != s[j].id
  }

  /** What is said of the streams in Data events. */
  ghost predicate AllExact(w: World, moves: seq<Move>, datas: seq<Incoming>) {
    && DifferentIds(datas)
    && forall s | s in datas :: Faithful(w, moves, s)
  }

  lemma PostedDiffer(w: World, moves: seq<Move>)
    requires Start(w) && LegalPlay(w, moves)
    ensures DifferentIds(Play(w, moves).receiver.posted)
  {
    DataEventsAreExact(w, moves);
  }

  lemma SomeExact(w: World, moves: seq<Move>, posted: seq<Incoming>, i: nat, j: nat)
    requires Start(w) && LegalPlay(w, moves) && posted == Play(w, moves).receiver.posted && i <= j <= |posted|
    ensures AllExact(w, moves, posted[i..j])
  {
    var datas := posted[i..j];
    assert DifferentIds(datas) by { PostedDiffer(w, moves); }
    forall s | s in datas ensures Faithful(w, moves, s) {
      assert s in posted;
      PostedBody(w, moves, s);
    }
  }

  /** From one side's call to the other side's mailbox, in every run of a connection and its peer. Complete: a server's
  Data events are all the streams its receiver posted from the first authorized one on, a client's are all of them once
  it is connected. Exact: no stream has two, each one's stream was handed a body by the peer, and if one set of headers
  was accepted for it, or one body handed over, the event carries exactly that. And Connect and Timeout are in order. */
  lemma MailIsExact(w: World, c: Conn, beats: seq<Beat>, expected: string)
    requires Start(w) && !c.connected && !c.timeout
    requires LegalPlay(w, Beats(w, Both([], c, []), beats, expected).moves)
    ensures var e := Beats(w, Both([], c, []), beats, expected);
      var posted := Play(w, e.moves).receiver.posted;
      && Datas(e.posts) ==
           (if c.isServer then FromAuthorized(posted, expected) else if e.conn.connected then posted else [])
      && AllExact(w, e.moves, Datas(e.posts))
      && InOrder(e.conn, e.posts, expected)
  {
    var e := Beats(w, Both([], c, []), beats, expected);
    BeatsComplete(w, c, beats, expected);
    CompleteIsExact(w, e.moves, e.conn, e.posts, Play(w, e.moves).receiver.posted, expected);
    BeatsKeepTrace(w, c, beats, expected);
    TraceMeaning(e.conn, e.posts, expected);
  }

  lemma CompleteIsExact(w: World, moves: seq<Move>, c: Conn, posts: seq<Mail>, posted: seq<Incoming>, expected: string)
    requires Start(w) && LegalPlay(w, moves) && posted == Play(w, moves).receiver.posted
    requires MailComplete(c, posts, posted, expected)
    ensures AllExact(w, moves, Datas(posts))
  {
    var n := FromAuthorizedIs(posted, expected);
    var m := if c.isServer then n else if c.connected then 0 else |posted|;
    SomeExact(w, moves, posted, m, |posted|);
    assert posted[m..|posted|] == Datas(posts);
  }

  lemma {:induction false} BeatsKeepTrace(w: World, c: Conn, beats: seq<Beat>, expected: string)
    requires !c.connected && !c.timeout
    ensures var e := Beats(w, Both([], c, []), beats, expected); TraceOk(e.conn, e.posts, expected)
  {
    if beats == [] {
    } else {
      var before, last := Beats(w, Both([], c, []), beats[..|beats| - 1], expected), beats[|beats| - 1];
      var e := Beats(w, Both([], c, []), beats, expected);
      BeatsKeepTrace(w, c, beats[..|beats| - 1], expected);
      if !last.Peer? {
        RunKeepsTrace(before.conn, before.posts, e.conn, e.posts, SectionOf(w, before, last), expected);
      }
    }
  }

  // ----- The server's history

  /** The streams that finished in the datagrams a run delivered to a connection and that were processed. */
  function DeliveredTo(run: Server.Execution, k: nat, r: Server.Ref): seq<Incoming>
    requires k < |run.states| == |run.actions| + 1
  {
    if k == 0 then [] else DeliveredTo(run, k - 1, r) + FinishedFor(run.states[k - 1], run.actions[k - 1], r)
  }

  function FinishedFor(s: Server.State, a: Server.Action, r: Server.Ref): seq<Incoming> {
    if a.Deliver? && s.io == Server.Delivering(r) && r in s.objects && Processes(s.objects[r].conn, a.p)
    then a.p.finished else []
  }

  /** The history of a connection against what was delivered to it. */
  ghost predicate HistoryComplete(s: Server.State, r: Server.Ref, delivered: seq<Incoming>, expected: string) {
    if r in s.objects then
      s.objects[r].conn.isServer && MailComplete(s.objects[r].conn, Server.Mine(s.history, r), delivered, expected)
    else
      Server.Mine(s.history, r) == [] && delivered == []
  }

  lemma SectionHistoryComplete(s: Server.State, s': Server.State, ref: Server.Ref, work: Section, r: Server.Ref,
                               delivered: seq<Incoming>, expected: string)
    requires ref in s.objects && s' == Server.Section(s, ref, work, expected)
    requires HistoryComplete(s, r, delivered, expected)
    ensures var more :=
        if r == ref && work.Datagram? && Processes(s.objects[r].conn, work.p) then work.p.finished else [];
      HistoryComplete(s', r, delivered + more, expected)
  {
    Server.SectionHistory(s, s', ref, work, expected, r);
    if r == ref {
      var c := s.objects[r].conn;
      var more := if work.Datagram? && Processes(c, work.p) then work.p.finished else [];
      SectionComplete(c, Server.Mine(s.history, r), delivered, work, more, expected);
      SectionDatas(c, work, expected);
    } else {
      assert delivered + [] == delivered && Server.Mine(s.history, r) + [] == Server.Mine(s.history, r);
    }
  }

  lemma StepHistoryComplete(s: Server.State, a: Server.Action, s': Server.State, r: Server.Ref, delivered: seq<Incoming>,
                            expected: string)
    requires Server.Inv(s, expected) && Server.Moves(s, a, s', expected) && HistoryComplete(s, r, delivered, expected)
    ensures HistoryComplete(s', r, delivered + FinishedFor(s, a, r), expected)
  {
    assert delivered + [] == delivered;
    if a.Deliver? || a.Tick? || a.SweepFlush? {
      var ref := if a.Deliver? then s.io.ref else a.ref;
      var work := if a.Deliver? then Datagram(a.p) else Flush(a.closed);
      SectionHistoryComplete(s, Server.Section(s, ref, work, expected), ref, work, r, delivered, expected);
    }
  }

  lemma {:induction false} HistoryIsComplete(run: Server.Execution, expected: string, k: nat, r: Server.Ref)
    requires Server.IsRun(run, expected) && k < |run.states|
    ensures HistoryComplete(run.states[k], r, DeliveredTo(run, k, r), expected)
  {
    if k == 0 {
    } else {
      HistoryIsComplete(run, expected, k - 1, r);
      Server.RunKeepsInv(run, expected, k - 1);
      assert Server.Moves(run.states[k - 1], run.actions[k - 1], run.states[k], expected);
      StepHistoryComplete(run.states[k - 1], run.actions[k - 1], run.states[k], r, DeliveredTo(run, k - 1, r), expected);
    }
  }

  /** The same in the history of a server under all its threads: the Data events of connection r are all the streams
  that finished in its processed datagrams from the first authorized one on; and if those streams are the first that
  its receiver posts, each carries the body that its peer handed over. */
  lemma ServerMailIsExact(run: Server.Execution, expected: string, k: nat, r: Server.Ref, w: World, moves: seq<Move>)
    requires Server.IsRun(run, expected) && k < |run.states| && Start(w) && LegalPlay(w, moves)
    ensures Datas(Server.Mine(run.states[k].history, r)) == FromAuthorized(DeliveredTo(run, k, r), expected)
    ensures DeliveredTo(run, k, r) <= Play(w, moves).receiver.posted ==>
      AllExact(w, moves, Datas(Server.Mine(run.states[k].history, r)))
  {
    HistoryIsComplete(run, expected, k, r);
    if DeliveredTo(run, k, r) <= Play(w, moves).receiver.posted {
      GivenIsExact(w, moves, DeliveredTo(run, k, r), Play(w, moves).receiver.posted, expected);
    }
  }

  lemma GivenIsExact(w: World, moves: seq<Move>, given: seq<Incoming>, posted: seq<Incoming>, expected: string)
    requires Start(w) && LegalPlay(w, moves) && posted == Play(w, moves).receiver.posted && given <= posted
    ensures AllExact(w, moves, FromAuthorized(given, expected))
  {
    var n := FromAuthorizedIs(given, expected);
    SomeExact(w, moves, posted, n, |given|);
    assert posted[n..|given|] == given[n..];
  }
}

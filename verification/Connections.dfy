/** Connections, the sender's two indexes and the server's entry point as objects updated in place. What a connection
does is tied to the functions of module Lifecycle; several threads at work on these objects are module Server. */
module Connections {
  import opened Lifecycle
  import opened ConnectionIds
  import Receive
  import Mailbox

  /** An event in the mailbox, with the connection that posted it. */
  type Letter = (nat, Mail)

  function Letters(id: nat, posts: seq<Mail>): seq<Letter> {
    seq(|posts|, i requires 0 <= i < |posts| => (id, posts[i]))
  }

  /** The mailbox after some posts. */
  function WithMail(m: Mailbox.State<Letter>, letters: seq<Letter>): Mailbox.State<Letter> {
    m.(events := m.events + letters, posted := m.posted + letters)
  }

  /** Mail is what the posts of its letters, one after the other, make of the mailbox. */
  lemma {:induction false} MailIsPosts(m: Mailbox.State<Letter>, letters: seq<Letter>)
    ensures var posts := seq(|letters|, i requires 0 <= i < |letters| => Mailbox.Post(letters[i]));
      Mailbox.EnabledRun(m, posts) && Mailbox.Run(m, posts) == WithMail(m, letters)
    decreases |letters|
  {
    var posts := seq(|letters|, i requires 0 <= i < |letters| => Mailbox.Post(letters[i]));
    if letters == [] {
      assert m.events + [] == m.events && m.posted + [] == m.posted;
    } else {
      var rest := letters[1..];
      MailIsPosts(Mailbox.Apply(m, posts[0]), rest);
      assert posts[1..] == seq(|rest|, i requires 0 <= i < |rest| => Mailbox.Post(rest[i]));
      assert [letters[0]] + rest == letters;
      assert m.events + [letters[0]] + rest == m.events + letters && m.posted + [letters[0]] + rest == m.posted + letters;
    }
  }

  /** Every post becomes one letter, in order, with the id of its connection. */
  lemma LettersAre(id: nat, posts: seq<Mail>)
    ensures |Letters(id, posts)| == |posts|
    ensures forall i | 0 <= i < |posts| :: Letters(id, posts)[i].0 == id && Letters(id, posts)[i].1 == posts[i]
  {
  }

  class QuicheConnection {
    const isServer: bool
    const assignedId: nat
    const dcid: Cid
    var http3: bool
    var connected: bool
    var timeout: bool

    ghost function View(): Conn
      reads this
    {
      Conn(isServer, http3, connected, timeout)
    }

    constructor (isServer: bool, assignedId: nat, dcid: Cid)
      ensures this.isServer == isServer && this.assignedId == assignedId && this.dcid == dcid
      ensures View() == Conn(isServer, false, false, false)
    {
      this.isServer, this.assignedId, this.dcid := isServer, assignedId, dcid;
      http3, connected, timeout := false, false, false;
    }

    method Post(mailbox: Mailbox.QuicheMailbox<Letter>, mail: Mail)
      modifies mailbox
      ensures mailbox.View() == WithMail(old(mailbox.View()), Letters(assignedId, [mail]))
    {
      assert Letters(assignedId, [mail]) == [(assignedId, mail)];
      mailbox.Post((assignedId, mail));
    }

    method OnConnect(certMatches: bool, mailbox: Mailbox.QuicheMailbox<Letter>)
      modifies this, mailbox
      ensures var o := Lifecycle.OnConnect(old(View()), certMatches);
        View() == o.conn && mailbox.View() == WithMail(old(mailbox.View()), Letters(assignedId, o.posts))
    {
      if !isServer && certMatches {
        connected := true;
        Post(mailbox, Connect);
      }
    }

    method OnData(s: Receive.Incoming, expected: string, mailbox: Mailbox.QuicheMailbox<Letter>)
      modifies this, mailbox
      ensures var o := Lifecycle.OnData(old(View()), s, expected);
        View() == o.conn && mailbox.View() == WithMail(old(mailbox.View()), Letters(assignedId, o.posts))
    {
      if !connected {
        if !isServer || s.authorization != expected {
          return;
        }
        connected := true;
        Post(mailbox, Connect);
      }
      Post(mailbox, Data(s));
    }

    method TickTimeout(closed: bool, mailbox: Mailbox.QuicheMailbox<Letter>)
      modifies this, mailbox
      ensures var o := Lifecycle.TickTimeout(old(View()), closed);
        View() == o.conn && mailbox.View() == WithMail(old(mailbox.View()), Letters(assignedId, o.posts))
    {
      if closed {
        if !timeout {
          Post(mailbox, Timeout);
        }
        timeout := true;
      }
    }

    method ProcessFinished(finished: seq<Receive.Incoming>, expected: string, mailbox: Mailbox.QuicheMailbox<Letter>)
      modifies this, mailbox
      ensures var o := OnFinished(old(View()), finished, expected);
        View() == o.conn && mailbox.View() == WithMail(old(mailbox.View()), Letters(assignedId, o.posts))
    {
      ghost var start, box := View(), mailbox.View();
      assert finished[..0] == [];
      for i := 0 to |finished|
        invariant var o := OnFinished(start, finished[..i], expected);
          View() == o.conn && mailbox.View() == WithMail(box, Letters(assignedId, o.posts))
      {
        OnFinishedNext(start, finished[..i], finished[i], expected);
        assert finished[..i + 1] == finished[..i] + [finished[i]];
        ghost var o := OnFinished(start, finished[..i], expected);
        OnData(finished[i], expected, mailbox);
        MailConcat(box, assignedId, o.posts, Lifecycle.OnData(o.conn, finished[i], expected).posts);
      }
      assert finished[..|finished|] == finished;
    }

    /** HTTP/3 is set up once, and on_connect called then. */
    method OpenHttp3(p: Packet, mailbox: Mailbox.QuicheMailbox<Letter>) returns (ready: bool)
      modifies this, mailbox
      ensures ready == (old(http3) || p.http3Ready)
      ensures var o := if ready then Open(old(View()), p) else Outcome(old(View()), []);
        View() == o.conn && mailbox.View() == WithMail(old(mailbox.View()), Letters(assignedId, o.posts))
    {
      ready := true;
      if !http3 {
        if !p.http3Ready {
          return false;
        }
        http3 := true;
        OnConnect(p.certMatches, mailbox);
      }
    }

    method ConcludeDatagram(p: Packet, mailbox: Mailbox.QuicheMailbox<Letter>)
      modifies this, mailbox
      ensures var o := Conclude(old(View()), p);
        View() == o.conn && mailbox.View() == WithMail(old(mailbox.View()), Letters(assignedId, o.posts))
    {
      if !timeout && p.closed {
        Post(mailbox, Timeout);
        timeout := true;
        return;
      }
      TickTimeout(p.closedAfterFlush, mailbox);
    }

    method OnDatagram(p: Packet, expected: string, mailbox: Mailbox.QuicheMailbox<Letter>)
      modifies this, mailbox
      ensures var o := Lifecycle.OnDatagram(old(View()), p, expected);
        View() == o.conn && mailbox.View() == WithMail(old(mailbox.View()), Letters(assignedId, o.posts))
    {
      if !p.accepted {
        return;
      }
      if p.established {
        var ready := OpenHttp3(p, mailbox);
        if !ready {
          return;
        }
        ghost var open, box := View(), mailbox.View();
        ProcessFinished(p.finished, expected, mailbox);
        ghost var events := OnFinished(open, p.finished, expected);
        ConcludeDatagram(p, mailbox);
        MailConcat(box, assignedId, events.posts, Conclude(events.conn, p).posts);
        MailConcat(old(mailbox.View()), assignedId, Open(old(View()), p).posts, Serve(open, p, expected).posts);
      } else {
        ConcludeDatagram(p, mailbox);
      }
    }
  }

  lemma MailConcat(m: Mailbox.State<Letter>, id: nat, a: seq<Mail>, b: seq<Mail>)
    ensures WithMail(WithMail(m, Letters(id, a)), Letters(id, b)) == WithMail(m, Letters(id, a + b))
  {
    LettersConcat(id, a, b);
    assert m.events + Letters(id, a) + Letters(id, b) == m.events + (Letters(id, a) + Letters(id, b));
    assert m.posted + Letters(id, a) + Letters(id, b) == m.posted + (Letters(id, a) + Letters(id, b));
  }

  lemma LettersConcat(id: nat, a: seq<Mail>, b: seq<Mail>)
    ensures Letters(id, a + b) == Letters(id, a) + Letters(id, b)
  {
  }

  /** on_data is called for each finished stream in turn. */
  lemma {:induction false} OnFinishedNext(c: Conn, finished: seq<Receive.Incoming>, s: Receive.Incoming, expected: string)
    ensures var o := OnFinished(c, finished, expected);
      OnFinished(c, finished + [s], expected) == Then(o, Lifecycle.OnData(o.conn, s, expected))
    decreases |finished|
  {
    if finished != [] {
      assert (finished + [s])[1..] == finished[1..] + [s];
      OnFinishedNext(Lifecycle.OnData(c, finished[0], expected).conn, finished[1..], s, expected);
    } else {
      assert (finished + [s])[1..] == [];
    }
  }

  class QuicheSender {
    var connections: map<Cid, QuicheConnection>
    var connectionsById: map<nat, QuicheConnection>

    /** Both maps hold the same connections, each under its own keys. */
    ghost predicate Valid()
      reads this
    {
      && (forall d | d in connections ::
            var c := connections[d];
            c.dcid == d && c.assignedId in connectionsById && connectionsById[c.assignedId] == c)
      && (forall i | i in connectionsById ::
            var c := connectionsById[i];
            c.assignedId == i && c.dcid in connections && connections[c.dcid] == c)
    }

    constructor ()
      ensures Valid() && connections == map[] && connectionsById == map[]
    {
      connections, connectionsById := map[], map[];
    }

    method Add(qc: QuicheConnection)
      modifies this
      ensures connections == old(connections)[qc.dcid := qc]
      ensures connectionsById == old(connectionsById)[qc.assignedId := qc]
      ensures old(Valid()) && qc.dcid !in old(connections) && qc.assignedId !in old(connectionsById) ==> Valid()
    {
      connections := connections[qc.dcid := qc];
      connectionsById := connectionsById[qc.assignedId := qc];
    }

    /** The one connection known by the dcid, registered under its assigned id too, or none. */
    method Find(dcid: Cid) returns (qc: QuicheConnection?)
      requires Valid()
      ensures forall c | c in connections.Values :: c.dcid == dcid <==> c == qc
      ensures qc != null ==> qc in connections.Values && qc in connectionsById.Values && qc.dcid == dcid
    {
      qc := if dcid in connections then connections[dcid] else null;
      assert qc != null ==> connectionsById[qc.assignedId] == qc;
    }

    /** The one connection with the assigned id, registered under its dcid too, or none. */
    method FindById(id: nat) returns (qc: QuicheConnection?)
      requires Valid()
      ensures forall c | c in connections.Values :: c.assignedId == id <==> c == qc
      ensures qc != null ==> qc in connections.Values && qc in connectionsById.Values && qc.assignedId == id
    {
      qc := if id in connectionsById then connectionsById[id] else null;
      assert qc != null ==> connections[qc.dcid] == qc;
    }

    /** The flags of all connections in the index. */
    ghost function Views(): (m: map<Cid, Conn>)
      reads this, connections.Values
    {
      map d | d in connections :: connections[d].View()
    }

    /** Takes one connection out of both maps. */
    method Remove(dcid: Cid)
      requires Valid() && dcid in connections
      modifies this
      ensures Valid() && connections == old(connections) - {dcid}
    {
      var connection := connections[dcid];
      connections := connections - {dcid};
      if connection.assignedId in connectionsById {
        connectionsById := connectionsById - {connection.assignedId};
      }
    }

    /** The body of the loop: a connection that has timed out leaves both maps, another is flushed. */
    method Visit(dcid: Cid, closed: Cid -> bool, mailbox: Mailbox.QuicheMailbox<Letter>,
                 ghost began: map<Cid, QuicheConnection>, ghost was: map<Cid, Conn>, ghost unvisited: set<Cid>)
      returns (flushed: bool)
      requires Valid() && was.Keys == began.Keys && dcid in unvisited && unvisited <= began.Keys
      requires dcid in connections && connections[dcid] == began[dcid] && SweptTo(began, was, unvisited, closed)
      modifies this, began[dcid], mailbox
      ensures Valid() && flushed == !was[dcid].timeout
      ensures connections == if flushed then old(connections) else old(connections) - {dcid}
      ensures SweptTo(began, was, unvisited - {dcid}, closed)
      ensures mailbox.View() == WithMail(old(mailbox.View()), FlushMail(dcid, began, was, closed))
    {
      var connection := connections[dcid];
      assert connection.View() == was[dcid];
      if connection.timeout {
        Remove(dcid);
        flushed := false;
      } else {
        connection.TickTimeout(closed(dcid), mailbox);
        flushed := true;
      }
    }

    /** One pass of the sender's loop that no other thread interrupts, in any order of the map. It drops exactly the
    connections that had timed out when it began, from both maps, and flushes the others once; what they post reaches
    the mailbox in the order of the visits. */
    method Sweep(closed: Cid -> bool, mailbox: Mailbox.QuicheMailbox<Letter>)
      returns (freed: seq<QuicheConnection>, ghost order: seq<Cid>)
      requires Valid()
      modifies this, connections.Values, mailbox
      ensures Valid() && VisitedBut(order, old(connections.Keys), {})
      ensures connections == Remaining(old(connections), old(Views()), {})
      ensures freed == Freed(order, old(connections), old(Views()))
      ensures SweptTo(old(connections), old(Views()), {}, closed)
      ensures mailbox.View() == WithMail(old(mailbox.View()), SweepMail(order, old(connections), old(Views()), closed))
    {
      ghost var began, was, box := connections, Views(), mailbox.View();
      freed, order := [], [];
      var unvisited := connections.Keys;
      while unvisited != {}
        invariant Valid() && VisitedBut(order, began.Keys, unvisited)
        invariant connections == Remaining(began, was, unvisited)
        invariant freed == Freed(order, began, was)
        invariant SweptTo(began, was, unvisited, closed)
        invariant mailbox.View() == WithMail(box, SweepMail(order, began, was, closed))
        decreases unvisited
      {
        var dcid :| dcid in unvisited;
        var connection := connections[dcid];
        assert connection == began[dcid];
        RemainingNext(began, was, unvisited, dcid);
        FreedNext(order, began, was, dcid);
        MailNext(box, order, began, was, closed, dcid);
        var flushed := Visit(dcid, closed, mailbox, began, was, unvisited);
        if !flushed {
          freed := freed + [connection];
        }
        VisitNext(order, began.Keys, unvisited, dcid);
        unvisited := unvisited - {dcid};
        order := order + [dcid];
      }
    }
  }

  /** The index when all but the unvisited connections have been visited. */
  ghost function Remaining(began: map<Cid, QuicheConnection>, was: map<Cid, Conn>, unvisited: set<Cid>): map<Cid, QuicheConnection>
    requires was.Keys == began.Keys
  {
    map d | d in began && (d in unvisited || !was[d].timeout) :: began[d]
  }

  lemma RemainingNext(began: map<Cid, QuicheConnection>, was: map<Cid, Conn>, unvisited: set<Cid>, d: Cid)
    requires was.Keys == began.Keys && d in unvisited && unvisited <= began.Keys
    ensures Remaining(began, was, unvisited - {d}) ==
      if was[d].timeout then Remaining(began, was, unvisited) - {d} else Remaining(began, was, unvisited)
  {
  }

  /** The connections found timed out, in the order of the visits. */
  ghost function Freed(order: seq<Cid>, began: map<Cid, QuicheConnection>, was: map<Cid, Conn>): seq<QuicheConnection>
    requires was.Keys == began.Keys && forall d | d in order :: d in began
  {
    if order == [] then [] else
      var d := order[|order| - 1];
      Freed(order[..|order| - 1], began, was) + if was[d].timeout then [began[d]] else []
  }

  /** The order of the visits so far: every key once, but the unvisited. */
  ghost predicate VisitedBut(order: seq<Cid>, keys: set<Cid>, unvisited: set<Cid>) {
    && unvisited <= keys && |order| + |unvisited| == |keys|
    && forall d :: d in order <==> d in keys && d !in unvisited
  }

  lemma VisitNext(order: seq<Cid>, keys: set<Cid>, unvisited: set<Cid>, d: Cid)
    requires VisitedBut(order, keys, unvisited) && d in unvisited
    ensures VisitedBut(order + [d], keys, unvisited - {d})
  {
  }

  /** The flags after the sweep has been to all but the unvisited connections. */
  ghost predicate SweptTo(began: map<Cid, QuicheConnection>, was: map<Cid, Conn>, unvisited: set<Cid>, closed: Cid -> bool)
    requires was.Keys == began.Keys
    reads began.Values
  {
    forall d | d in began ::
      && began[d].dcid == d
      && began[d].View() == if d in unvisited then was[d] else TickTimeout(was[d], closed(d)).conn
  }

  ghost function FlushMail(d: Cid, began: map<Cid, QuicheConnection>, was: map<Cid, Conn>, closed: Cid -> bool): seq<Letter>
    requires was.Keys == began.Keys && d in began
  {
    Letters(began[d].assignedId, TickTimeout(was[d], closed(d)).posts)
  }

  /** The posts of a sweep: those of each visited connection's flush, in order. One that had timed out posts nothing. */
  ghost function SweepMail(order: seq<Cid>, began: map<Cid, QuicheConnection>, was: map<Cid, Conn>, closed: Cid -> bool): seq<Letter>
    requires was.Keys == began.Keys && forall d | d in order :: d in began
  {
    if order == [] then [] else
      var d := order[|order| - 1];
      SweepMail(order[..|order| - 1], began, was, closed)
        + FlushMail(d, began, was, closed)
  }

  /** What a sweep leaves and frees, key by key. */
  lemma RemainingIs(began: map<Cid, QuicheConnection>, was: map<Cid, Conn>, d: Cid)
    requires was.Keys == began.Keys
    ensures d in Remaining(began, was, {}) <==> d in began && !was[d].timeout
    ensures d in Remaining(began, was, {}) ==> Remaining(began, was, {})[d] == began[d]
  {
  }

  lemma {:induction false} FreedIs(order: seq<Cid>, began: map<Cid, QuicheConnection>, was: map<Cid, Conn>, c: QuicheConnection)
    requires was.Keys == began.Keys && forall d | d in order :: d in began
    ensures c in Freed(order, began, was) <==> exists d | d in order :: was[d].timeout && began[d] == c
  {
    if order == [] {
    } else {
      assert order == order[..|order| - 1] + [order[|order| - 1]];
      FreedIs(order[..|order| - 1], began, was, c);
    }
  }

  /** What it posts: a Timeout for each connection that its flush finds closed for the first time, and nothing else. */
  lemma {:induction false} SweepMailIs(order: seq<Cid>, began: map<Cid, QuicheConnection>, was: map<Cid, Conn>,
                                       closed: Cid -> bool, letter: Letter)
    requires was.Keys == began.Keys && forall d | d in order :: d in began
    ensures letter in SweepMail(order, began, was, closed) <==>
      exists d | d in order :: closed(d) && !was[d].timeout && letter == (began[d].assignedId, Timeout)
  {
    if order == [] {
    } else {
      var last := order[|order| - 1];
      assert order == order[..|order| - 1] + [last];
      SweepMailIs(order[..|order| - 1], began, was, closed, letter);
      FlushMailIs(last, began, was, closed);
    }
  }

  lemma FlushMailIs(d: Cid, began: map<Cid, QuicheConnection>, was: map<Cid, Conn>, closed: Cid -> bool)
    requires was.Keys == began.Keys && d in began
    ensures FlushMail(d, began, was, closed) ==
      if closed(d) && !was[d].timeout then [(began[d].assignedId, Timeout)] else []
  {
  }

  /** And what it leaves of the flags: a timeout where one was or the flush found the connection closed, and the rest. */
  lemma SweptIs(began: map<Cid, QuicheConnection>, was: map<Cid, Conn>, closed: Cid -> bool, d: Cid)
    requires was.Keys == began.Keys && SweptTo(began, was, {}, closed) && d in began
    ensures began[d].View() == was[d].(timeout := was[d].timeout || closed(d))
  {
  }

  lemma FreedNext(order: seq<Cid>, began: map<Cid, QuicheConnection>, was: map<Cid, Conn>, d: Cid)
    requires was.Keys == began.Keys && (forall d' | d' in order :: d' in began) && d in began
    ensures Freed(order + [d], began, was) == Freed(order, began, was) + if was[d].timeout then [began[d]] else []
  {
    assert (order + [d])[..|order|] == order;
  }

  lemma MailNext(box: Mailbox.State<Letter>, order: seq<Cid>, began: map<Cid, QuicheConnection>, was: map<Cid, Conn>,
                 closed: Cid -> bool, d: Cid)
    requires was.Keys == began.Keys && (forall d' | d' in order :: d' in began) && d in began
    ensures WithMail(box, SweepMail(order + [d], began, was, closed)) ==
      WithMail(WithMail(box, SweepMail(order, began, was, closed)), FlushMail(d, began, was, closed))
  {
    assert (order + [d])[..|order|] == order;
    var a, b := SweepMail(order, began, was, closed), FlushMail(d, began, was, closed);
    assert box.events + a + b == box.events + (a + b) && box.posted + a + b == box.posted + (a + b);
  }
}

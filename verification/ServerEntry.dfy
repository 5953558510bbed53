/** The server's handler of one datagram: which connection it goes to, and what a sender without one must show first. */
module ServerEntry {
  import opened ConnectionIds
  import opened Token
  import opened Connections
  import opened Mailbox
  import Lifecycle
  import Server

  /** What the header of a datagram says, with the address it came from. */
  datatype Header = Malformed | Header(dcid: Cid, versionSupported: bool, token: seq<Octet>, peer: Endpoint)

  /** What to do with a datagram whose dcid is not in the index. */
  datatype Verdict = Ignore | Negotiate | Retry(token: seq<Octet>) | Create(odcid: Cid) | Fail

  function Admit(h: Header): Verdict
    requires h.Header?
  {
    if !h.versionSupported then Negotiate
    else if |h.token| == 0 then Retry(Token.Token(h.dcid, h.peer))
    else match ReadToken(h.token, h.peer)
      case Accepted(odcid) => Create(odcid)
      case Rejected => Ignore
      case Thrown => Fail
      case Overlong => Fail
  }

  /** What comes before a token is looked at: an unsupported version is negotiated, and without a token the address is
  asked to come back with one that names it. */
  lemma AdmitWithoutToken(h: Header)
    requires h.Header?
    ensures Admit(h).Negotiate? <==> !h.versionSupported
    ensures Admit(h).Retry? <==> h.versionSupported && h.token == []
    ensures Admit(h).Retry? && |h.dcid| <= CID_BYTES ==> ReadToken(Admit(h).token, h.peer) == Accepted(h.dcid)
  {
    if |h.dcid| <= CID_BYTES { RoundTrip(h.dcid, h.peer); }
  }

  /** A connection is created just for those datagrams whose token begins with one for the address they came from. */
  lemma CreatedIffToken(h: Header, odcid: Cid)
    requires h.Header?
    ensures Admit(h) == Create(odcid) <==>
      && h.versionSupported && |odcid| <= CID_BYTES
      && exists flag: Octet, suffix: seq<Octet> ::
           (flag != 0 <==> h.peer.V4?) && h.token == TokenWith(flag, odcid, h.peer) + suffix
  {
    AcceptedIffMinted(h.token, h.peer, odcid);
  }

  /** Who comes back from the same address with the token of the Retry is admitted, under whatever id, and the id of
  the first attempt is recovered; with the same token from another address nobody is. */
  lemma RetryIsHonoured(first: Header, again: Header)
    requires first.Header? && again.Header? && Admit(first).Retry? && again.versionSupported && |first.dcid| <= 16
    requires again.token == Admit(first).token
    ensures if again.peer == first.peer then Admit(again) == Create(first.dcid) else !Admit(again).Create?
  {
    assert |again.token| > 0;
    if again.peer == first.peer {
      RoundTrip(first.dcid, first.peer);
    } else {
      OtherEndpointsAreRefused(first.dcid, first.peer, again.peer);
    }
  }

  class QuicSendServer {
    const expected: string
    const sender: QuicheSender
    const mailbox: QuicheMailbox<Letter>
    var nextAssignedId: nat

    /** Ids in the index have been given out, from 1. */
    ghost predicate Valid()
      reads this, sender
    {
      sender.Valid() && forall i | i in sender.connectionsById :: 0 < i <= nextAssignedId
    }

    constructor (expected: string)
      ensures Valid() && this.expected == expected && nextAssignedId == 0
      ensures fresh(sender) && sender.connections == map[] && fresh(mailbox) && Initial(mailbox.View())
    {
      this.expected := expected;
      sender := new QuicheSender();
      mailbox := new QuicheMailbox<Letter>();
      nextAssignedId := 0;
    }

    /** accepted is quiche's answer. The id is spent either way. */
    method CreateConnection(dcid: Cid, accepted: bool) returns (qc: QuicheConnection?)
      requires Valid() && dcid !in sender.connections && nextAssignedId + 1 < Server.TWO_64
      modifies this, sender
      ensures Valid() && nextAssignedId == old(nextAssignedId) + 1 && (qc != null <==> accepted)
      ensures accepted ==>
        && fresh(qc) && qc.dcid == dcid && qc.assignedId == nextAssignedId
        && qc.View() == Lifecycle.Conn(true, false, false, false)
        && sender.connections == old(sender.connections)[dcid := qc]
        && sender.connectionsById == old(sender.connectionsById)[nextAssignedId := qc]
      ensures !accepted ==>
        sender.connections == old(sender.connections) && sender.connectionsById == old(sender.connectionsById)
    {
      nextAssignedId := nextAssignedId + 1;
      var created := new QuicheConnection(true, nextAssignedId, dcid);
      if !accepted {
        return null;
      }
      sender.Add(created);
      qc := created;
    }

    /** One datagram, with no other thread in between. A known dcid goes to its connection whatever version and token
    it carries; an unknown one is admitted by its token alone. served is the connection that got the datagram. */
    method OnDatagram(h: Header, accepted: bool, p: Lifecycle.Packet)
      returns (served: QuicheConnection?, verdict: Verdict)
      requires Valid() && nextAssignedId + 1 < Server.TWO_64
      modifies this, sender, sender.connections.Values, mailbox
      ensures Valid()
      ensures h.Header? && h.dcid in old(sender.connections) ==>
        && served == old(sender.connections)[h.dcid] && unchanged(this, sender)
        && var o := Lifecycle.OnDatagram(old(served.View()), p, expected);
        && served.View() == o.conn
        && mailbox.View() == WithMail(old(mailbox.View()), Letters(served.assignedId, o.posts))
      ensures h.Header? && h.dcid !in old(sender.connections) ==>
        verdict == Admit(h) && (served != null <==> verdict.Create? && accepted)
      ensures served != null ==> h.Header? && sender.connections == old(sender.connections)[h.dcid := served]
      ensures served != null && h.dcid !in old(sender.connections) ==>
        && served.assignedId == nextAssignedId == old(nextAssignedId) + 1
        && var o := Lifecycle.OnDatagram(Lifecycle.Conn(true, false, false, false), p, expected);
        && served.View() == o.conn
        && mailbox.View() == WithMail(old(mailbox.View()), Letters(served.assignedId, o.posts))
      ensures served == null ==>
        && sender.connections == old(sender.connections) && sender.connectionsById == old(sender.connectionsById)
        && unchanged(old(sender.connections.Values)) && unchanged(mailbox)
    {
      verdict := Ignore;
      if h.Malformed? {
        return null, Ignore;
      }
      served := sender.Find(h.dcid);
      if served == null {
        verdict := Admit(h);
        if !verdict.Create? {
          return;
        }
        served := CreateConnection(h.dcid, accepted);
        if served == null {
          return;
        }
      }
      served.OnDatagram(p, expected, mailbox);
    }
  }
}

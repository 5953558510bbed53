/** The locks each entry point takes, and why no interleaving of threads deadlocks.

The rank order is: the sender mutex, one connection's recursive mutex, a leaf. Each routine's script lists its lock
operations in program order; whatever depends on data or on the transport is a parameter. */
module Locks {
  import opened Options

  datatype Lock = SenderLock | ConnLock(conn: nat) | MailboxLock | AllocatorLock | LoggerLock {
    function Rank(): nat {
      match this
      case SenderLock => 0
      case ConnLock(_) => 1
      case _ => 2
    }
  }

  /** Touch stands for the work on what a lock protects. */
  datatype Act = Acquire(lock: Lock) | Touch(lock: Lock) | Release(lock: Lock)

  type Script = seq<Act>

  // ----- The scripts

  /** A locked section: it works on what the lock protects, and does what else is in it. */
  function Guarded(l: Lock, body: Script): Script {
    [Acquire(l), Touch(l)] + body + [Release(l)]
  }

  function Leaf(l: Lock, times: nat): Script {
    if times == 0 then [] else Guarded(l, []) + Leaf(l, times - 1)
  }

  /** The two callers of on_timeout, which logs and posts; a client that was closed before no longer logs. */
  datatype Tick = Quiet | TimedOut(logs: nat)

  function OnTimeout(t: Tick): Script {
    match t
    case Quiet => []
    case TimedOut(logs) => Leaf(LoggerLock, logs) + Leaf(MailboxLock, 1)
  }

  /** FlushEgress: cached responses under the mutex again, buffers, and then a log line if a packet could not be made,
  else TickTimeout. */
  datatype Egress = Egress(errors: nat, buffers: nat, failed: bool, tick: Tick)

  function FlushEgress(c: nat, e: Egress): Script {
    Guarded(ConnLock(c),
            Guarded(ConnLock(c), Leaf(LoggerLock, e.errors)) + Leaf(AllocatorLock, e.buffers)
            + (if e.failed then Leaf(LoggerLock, 1) else OnTimeout(e.tick)))
  }

  /** The inline FlushEgress frees its last buffer after the mutex is released. */
  function FlushAndFree(c: nat, e: Egress): Script {
    FlushEgress(c, e) + Leaf(AllocatorLock, 1)
  }

  /** Close, Accept, Connect and ComparePeerCertificate: the mutex, and log lines. */
  function Brief(c: nat, logs: nat): Script {
    Guarded(ConnLock(c), Leaf(LoggerLock, logs))
  }

  /** What ProcessH3Events meets: an error it logs, an admitted stream that posts once or twice, or one with a bad
  token, which is logged and closes the connection. */
  datatype Arrival = Logged | Admitted(posts: nat) | BadToken

  function Arrived(c: nat, a: Arrival): Script {
    match a
    case Logged => Leaf(LoggerLock, 1)
    case Admitted(posts) => Leaf(MailboxLock, posts)
    case BadToken => Leaf(LoggerLock, 1) + Brief(c, 0)
  }

  function ProcessH3Events(c: nat, arrivals: seq<Arrival>): Script {
    if arrivals == [] then [] else Arrived(c, arrivals[0]) + ProcessH3Events(c, arrivals[1..])
  }

  /** on_connect: the server logs; the client compares certificates under the mutex again, and on success logs and
  posts. */
  datatype Opening = AlreadyOpen | ServerOpens | ClientOpens(matches: bool)

  function OnConnect(c: nat, o: Opening): Script {
    match o
    case AlreadyOpen => []
    case ServerOpens => Leaf(LoggerLock, 1)
    case ClientOpens(true) => Brief(c, 0) + (Leaf(LoggerLock, 1) + Leaf(MailboxLock, 1))
    case ClientOpens(false) => Brief(c, 1)
  }

  /** How OnDatagram ends: the close it finds itself, or the flush, inside which a close may be found too. */
  datatype Ending = Closed(logs: nat) | Flushed(egress: Egress)

  function End(c: nat, e: Ending): Script {
    match e
    case Closed(logs) => OnTimeout(TimedOut(logs))
    case Flushed(egress) => FlushAndFree(c, egress)
  }

  /** QuicheConnection::OnDatagram: refused with a log line, or served. */
  datatype Arriving = Refused | Served(opening: Opening, arrivals: seq<Arrival>, ending: Ending)

  function Serve(c: nat, a: Arriving): Script {
    match a
    case Refused => Leaf(LoggerLock, 1)
    case Served(opening, arrivals, ending) =>
      OnConnect(c, opening) + ProcessH3Events(c, arrivals) + End(c, ending)
  }

  function ConnDatagram(c: nat, a: Arriving): Script {
    Guarded(ConnLock(c), Serve(c, a))
  }

  function FlushAll(conns: seq<(nat, Egress)>): Script {
    if conns == [] then [] else FlushEgress(conns[0].0, conns[0].1) + FlushAll(conns[1..])
  }

  /** One locked attempt to send headers and body: refused or cached, or ended by a flush. */
  datatype Sending = NotSent(logs: nat) | Sent(egress: Egress)

  function SendOnce(c: nat, s: Sending): Script {
    Guarded(ConnLock(c), match s case NotSent(logs) => Leaf(LoggerLock, logs) case Sent(e) => FlushAndFree(c, e))
  }

  /** Calls of the application: Respond and Close look the connection up first; Request retries and may send a body. */
  datatype Api =
    | Missing
    | Respond(conn: nat, sending: Sending)
    | Request(conn: nat, retries: nat, sending: Sending)
    | CloseConn(conn: nat)

  function ApiScript(a: Api): Script {
    match a
    case Missing => Leaf(SenderLock, 1)
    case Respond(c, s) => Leaf(SenderLock, 1) + SendOnce(c, s)
    case Request(c, retries, s) => Leaf(ConnLock(c), retries) + SendOnce(c, s)
    case CloseConn(c) => Leaf(SenderLock, 1) + Brief(c, 0)
  }

  function Callbacks(apis: seq<Api>): Script {
    if apis == [] then [] else ApiScript(apis[0]) + Callbacks(apis[1..])
  }

  /** The entry points of the I/O thread, the sender thread and the application's threads. A wait of Poll releases and
  takes the mailbox again. */
  datatype Entry =
    | OnlyLogs(logs: nat)
    | RefusedDatagram(buffers: nat, logs: nat)
    | FailedAccept(conn: nat)
    | ServerDatagram(conn: nat, creates: bool, arriving: Arriving)
    | ClientDatagram(conn: nat, arriving: Arriving)
    | ClientResolved(conn: nat, logs: nat, connected: bool, egress: Egress)
    | SendCompletion(logs: nat)
    | Timer(conn: nat, egress: Egress)
    | Reconnect(conn: nat, logs: nat)
    | SenderStarts
    | SenderSweep(conns: seq<(nat, Egress)>)
    | Call(api: Api)
    | Poll(waits: nat, callbacks: seq<Api>)
    | ShutDown(logs: nat)

  function EntryScript(e: Entry): Script {
    match e
    case OnlyLogs(logs) => Leaf(LoggerLock, logs)
    case RefusedDatagram(buffers, logs) => Leaf(SenderLock, 1) + Leaf(AllocatorLock, buffers) + Leaf(LoggerLock, logs)
    case FailedAccept(c) => Leaf(SenderLock, 1) + Brief(c, 1) + Leaf(LoggerLock, 1)
    case ServerDatagram(c, creates, a) =>
      Leaf(SenderLock, 1) + (if creates then Brief(c, 0) + Leaf(SenderLock, 1) else []) + ConnDatagram(c, a)
    case ClientDatagram(c, a) => ConnDatagram(c, a)
    case ClientResolved(c, logs, connected, egress) =>
      Leaf(SenderLock, 1) + Brief(c, logs) + (if connected then FlushAndFree(c, egress) else Leaf(LoggerLock, 1))
    case SendCompletion(logs) => Leaf(LoggerLock, logs) + Leaf(AllocatorLock, 1)
    case Timer(c, egress) => Guarded(ConnLock(c), FlushAndFree(c, egress))
    case Reconnect(c, logs) => Guarded(ConnLock(c), Leaf(LoggerLock, 1) + Brief(c, logs))
    case SenderStarts => Leaf(AllocatorLock, 1)
    case SenderSweep(conns) => Guarded(SenderLock, FlushAll(conns))
    case Call(api) => ApiScript(api)
    case Poll(waits, callbacks) => Leaf(MailboxLock, waits + 1) + Callbacks(callbacks)
    case ShutDown(logs) => Leaf(MailboxLock, 1) + Leaf(LoggerLock, logs)
  }

  // ----- The discipline

  /** A lock may be taken above everything held; the connection mutex again while it is held. */
  predicate MayAcquire(held: seq<Lock>, l: Lock) {
    (l.ConnLock? && l in held) || forall h | h in held :: h.Rank() < l.Rank()
  }

  /** The locks held after the script, if it never breaks the order, touches nothing without its lock, and releases the
  latest lock first. */
  function Exec(held: seq<Lock>, s: Script): Option<seq<Lock>>
    decreases |s|
  {
    if s == [] then Some(held) else
    match s[0]
    case Acquire(l) => if MayAcquire(held, l) then Exec(held + [l], s[1..]) else None
    case Touch(l) => if l in held then Exec(held, s[1..]) else None
    case Release(l) =>
      if held != [] && held[|held| - 1] == l then Exec(held[..|held| - 1], s[1..]) else None
  }

  ghost predicate Balanced(held: seq<Lock>, s: Script) {
    Exec(held, s) == Some(held)
  }

  lemma {:induction false} ExecConcat(held: seq<Lock>, a: Script, b: Script)
    ensures Exec(held, a + b) == if Exec(held, a).None? then None else Exec(Exec(held, a).value, b)
    decreases |a|
  {
    if a == [] {
      assert a + b == b;
    } else {
      assert (a + b)[1..] == a[1..] + b;
      match a[0]
      case Acquire(l) => if MayAcquire(held, l) { ExecConcat(held + [l], a[1..], b); }
      case Touch(l) => if l in held { ExecConcat(held, a[1..], b); }
      case Release(l) => if held != [] { ExecConcat(held[..|held| - 1], a[1..], b); }
    }
  }

  lemma GuardedBalanced(held: seq<Lock>, l: Lock, body: Script)
    requires MayAcquire(held, l) && Balanced(held + [l], body)
    ensures Balanced(held, Guarded(l, body))
  {
    ExecConcat(held, [Acquire(l), Touch(l)] + body, [Release(l)]);
    ExecConcat(held, [Acquire(l), Touch(l)], body);
    assert [Acquire(l), Touch(l)][1..] == [Touch(l)] && [Touch(l)][1..] == [];
    assert Exec(held, [Acquire(l), Touch(l)]) == Exec(held + [l], [Touch(l)]) == Exec(held + [l], []);
    assert (held + [l])[..|held|] == held;
    assert [Release(l)][1..] == [];
  }

  lemma BothBalanced(held: seq<Lock>, a: Script, b: Script)
    requires Balanced(held, a) && Balanced(held, b)
    ensures Balanced(held, a + b)
  {
    ExecConcat(held, a, b);
  }

  lemma {:induction false} LeafBalanced(held: seq<Lock>, l: Lock, times: nat)
    requires MayAcquire(held, l)
    ensures Balanced(held, Leaf(l, times))
  {
    if times == 0 {
    } else {
      GuardedBalanced(held, l, []);
      LeafBalanced(held, l, times - 1);
      BothBalanced(held, Guarded(l, []), Leaf(l, times - 1));
    }
  }

  /** Nothing is held but the sender mutex and the mutex of connection c. */
  ghost predicate Within(held: seq<Lock>, c: nat) {
    forall l | l in held :: l == SenderLock || l == ConnLock(c)
  }

  lemma OnTimeoutBalanced(held: seq<Lock>, c: nat, t: Tick)
    requires Within(held, c)
    ensures Balanced(held, OnTimeout(t))
  {
    if t.TimedOut? {
      LeafBalanced(held, LoggerLock, t.logs);
      LeafBalanced(held, MailboxLock, 1);
      BothBalanced(held, Leaf(LoggerLock, t.logs), Leaf(MailboxLock, 1));
    }
  }

  lemma FlushEgressBalanced(held: seq<Lock>, c: nat, e: Egress)
    requires Within(held, c)
    ensures Balanced(held, FlushEgress(c, e))
  {
    var in1 := held + [ConnLock(c)];
    var cached := Guarded(ConnLock(c), Leaf(LoggerLock, e.errors));
    BriefBalanced(in1, c, e.errors);
    LeafBalanced(in1, AllocatorLock, e.buffers);
    BothBalanced(in1, cached, Leaf(AllocatorLock, e.buffers));
    OnTimeoutBalanced(in1, c, e.tick);
    LeafBalanced(in1, LoggerLock, 1);
    var ending := if e.failed then Leaf(LoggerLock, 1) else OnTimeout(e.tick);
    BothBalanced(in1, cached + Leaf(AllocatorLock, e.buffers), ending);
    GuardedBalanced(held, ConnLock(c), cached + Leaf(AllocatorLock, e.buffers) + ending);
  }

  lemma FlushAndFreeBalanced(held: seq<Lock>, c: nat, e: Egress)
    requires Within(held, c)
    ensures Balanced(held, FlushAndFree(c, e))
  {
    FlushEgressBalanced(held, c, e);
    LeafBalanced(held, AllocatorLock, 1);
    BothBalanced(held, FlushEgress(c, e), Leaf(AllocatorLock, 1));
  }

  lemma BriefBalanced(held: seq<Lock>, c: nat, logs: nat)
    requires Within(held, c)
    ensures Balanced(held, Brief(c, logs))
  {
    LeafBalanced(held + [ConnLock(c)], LoggerLock, logs);
    GuardedBalanced(held, ConnLock(c), Leaf(LoggerLock, logs));
  }

  lemma ArrivedBalanced(held: seq<Lock>, c: nat, a: Arrival)
    requires Within(held, c)
    ensures Balanced(held, Arrived(c, a))
  {
    LeafBalanced(held, LoggerLock, 1);
    match a
    case Logged =>
    case Admitted(posts) => LeafBalanced(held, MailboxLock, posts);
    case BadToken =>
      BriefBalanced(held, c, 0);
      BothBalanced(held, Leaf(LoggerLock, 1), Brief(c, 0));
  }

  lemma {:induction false} ProcessBalanced(held: seq<Lock>, c: nat, arrivals: seq<Arrival>)
    requires Within(held, c)
    ensures Balanced(held, ProcessH3Events(c, arrivals))
  {
    if arrivals == [] {
    } else {
      ArrivedBalanced(held, c, arrivals[0]);
      ProcessBalanced(held, c, arrivals[1..]);
      BothBalanced(held, Arrived(c, arrivals[0]), ProcessH3Events(c, arrivals[1..]));
    }
  }

  lemma OnConnectBalanced(held: seq<Lock>, c: nat, o: Opening)
    requires Within(held, c)
    ensures Balanced(held, OnConnect(c, o))
  {
    LeafBalanced(held, LoggerLock, 1);
    if o.ClientOpens? {
      BriefBalanced(held, c, 0);
      BriefBalanced(held, c, 1);
      LeafBalanced(held, MailboxLock, 1);
      BothBalanced(held, Leaf(LoggerLock, 1), Leaf(MailboxLock, 1));
      BothBalanced(held, Brief(c, 0), Leaf(LoggerLock, 1) + Leaf(MailboxLock, 1));
    }
  }

  lemma ServeBalanced(held: seq<Lock>, c: nat, a: Arriving)
    requires Within(held, c)
    ensures Balanced(held, Serve(c, a))
  {
    match a
    case Refused => LeafBalanced(held, LoggerLock, 1);
    case Served(opening, arrivals, ending) =>
      OnConnectBalanced(held, c, opening);
      ProcessBalanced(held, c, arrivals);
      match ending {
        case Closed(logs) => OnTimeoutBalanced(held, c, TimedOut(logs));
        case Flushed(egress) => FlushAndFreeBalanced(held, c, egress);
      }
      BothBalanced(held, OnConnect(c, opening), ProcessH3Events(c, arrivals));
      BothBalanced(held, OnConnect(c, opening) + ProcessH3Events(c, arrivals), End(c, ending));
  }

  lemma ConnDatagramBalanced(c: nat, a: Arriving)
    ensures Balanced([], ConnDatagram(c, a))
  {
    assert [] + [ConnLock(c)] == [ConnLock(c)];
    ServeBalanced([ConnLock(c)], c, a);
    GuardedBalanced([], ConnLock(c), Serve(c, a));
  }

  lemma {:induction false} FlushAllBalanced(conns: seq<(nat, Egress)>)
    ensures Balanced([SenderLock], FlushAll(conns))
  {
    if conns == [] {
    } else {
      FlushEgressBalanced([SenderLock], conns[0].0, conns[0].1);
      FlushAllBalanced(conns[1..]);
      BothBalanced([SenderLock], FlushEgress(conns[0].0, conns[0].1), FlushAll(conns[1..]));
    }
  }

  lemma SendOnceBalanced(c: nat, s: Sending)
    ensures Balanced([], SendOnce(c, s))
  {
    assert [] + [ConnLock(c)] == [ConnLock(c)];
    match s
    case NotSent(logs) => BriefBalanced([], c, logs);
    case Sent(e) =>
      FlushAndFreeBalanced([ConnLock(c)], c, e);
      GuardedBalanced([], ConnLock(c), FlushAndFree(c, e));
  }

  lemma ApiBalanced(a: Api)
    ensures Balanced([], ApiScript(a))
  {
    LeafBalanced([], SenderLock, 1);
    match a
    case Missing =>
    case Respond(c, s) =>
      SendOnceBalanced(c, s);
      BothBalanced([], Leaf(SenderLock, 1), SendOnce(c, s));
    case Request(c, retries, s) =>
      LeafBalanced([], ConnLock(c), retries);
      SendOnceBalanced(c, s);
      BothBalanced([], Leaf(ConnLock(c), retries), SendOnce(c, s));
    case CloseConn(c) =>
      BriefBalanced([], c, 0);
      BothBalanced([], Leaf(SenderLock, 1), Brief(c, 0));
  }

  lemma {:induction false} CallbacksBalanced(apis: seq<Api>)
    ensures Balanced([], Callbacks(apis))
  {
    if apis == [] {
    } else {
      ApiBalanced(apis[0]);
      CallbacksBalanced(apis[1..]);
      BothBalanced([], ApiScript(apis[0]), Callbacks(apis[1..]));
    }
  }

  /** What the I/O thread runs. */
  lemma IoBalanced(e: Entry)
    requires e.RefusedDatagram? || e.FailedAccept? || e.ServerDatagram? || e.ClientResolved? || e.Timer? || e.Reconnect?
    ensures Balanced([], EntryScript(e))
  {
    LeafBalanced([], SenderLock, 1);
    LeafBalanced([], LoggerLock, 1);
    match e
    case RefusedDatagram(buffers, logs) =>
      LeafBalanced([], AllocatorLock, buffers);
      LeafBalanced([], LoggerLock, logs);
      BothBalanced([], Leaf(SenderLock, 1), Leaf(AllocatorLock, buffers));
      BothBalanced([], Leaf(SenderLock, 1) + Leaf(AllocatorLock, buffers), Leaf(LoggerLock, logs));
    case FailedAccept(c) =>
      BriefBalanced([], c, 1);
      BothBalanced([], Leaf(SenderLock, 1), Brief(c, 1));
      BothBalanced([], Leaf(SenderLock, 1) + Brief(c, 1), Leaf(LoggerLock, 1));
    case ServerDatagram(c, creates, a) =>
      BriefBalanced([], c, 0);
      ConnDatagramBalanced(c, a);
      BothBalanced([], Brief(c, 0), Leaf(SenderLock, 1));
      var creation := if creates then Brief(c, 0) + Leaf(SenderLock, 1) else [];
      BothBalanced([], Leaf(SenderLock, 1), creation);
      BothBalanced([], Leaf(SenderLock, 1) + creation, ConnDatagram(c, a));
    case ClientResolved(c, logs, connected, egress) =>
      BriefBalanced([], c, logs);
      FlushAndFreeBalanced([], c, egress);
      BothBalanced([], Leaf(SenderLock, 1), Brief(c, logs));
      BothBalanced([], Leaf(SenderLock, 1) + Brief(c, logs),
                   if connected then FlushAndFree(c, egress) else Leaf(LoggerLock, 1));
    case Timer(c, egress) => SendOnceBalanced(c, Sent(egress));
    case Reconnect(c, logs) =>
      assert [] + [ConnLock(c)] == [ConnLock(c)];
      LeafBalanced([ConnLock(c)], LoggerLock, 1);
      BriefBalanced([ConnLock(c)], c, logs);
      BothBalanced([ConnLock(c)], Leaf(LoggerLock, 1), Brief(c, logs));
      GuardedBalanced([], ConnLock(c), Leaf(LoggerLock, 1) + Brief(c, logs));
  }

  /** Every entry point, whatever its data, takes locks in rank order and ends holding none. In particular Poll holds
  nothing when its callbacks begin. */
  lemma EntryBalanced(e: Entry)
    ensures Balanced([], EntryScript(e))
  {
    LeafBalanced([], AllocatorLock, 1);
    match e
    case OnlyLogs(logs) => LeafBalanced([], LoggerLock, logs);
    case ClientDatagram(c, a) => ConnDatagramBalanced(c, a);
    case SendCompletion(logs) =>
      LeafBalanced([], LoggerLock, logs);
      BothBalanced([], Leaf(LoggerLock, logs), Leaf(AllocatorLock, 1));
    case SenderStarts =>
    case SenderSweep(conns) =>
      assert [] + [SenderLock] == [SenderLock];
      FlushAllBalanced(conns);
      GuardedBalanced([], SenderLock, FlushAll(conns));
    case Call(api) => ApiBalanced(api);
    case Poll(waits, callbacks) =>
      LeafBalanced([], MailboxLock, waits + 1);
      CallbacksBalanced(callbacks);
      BothBalanced([], Leaf(MailboxLock, waits + 1), Callbacks(callbacks));
    case ShutDown(logs) =>
      LeafBalanced([], MailboxLock, 1);
      LeafBalanced([], LoggerLock, logs);
      BothBalanced([], Leaf(MailboxLock, 1), Leaf(LoggerLock, logs));
    case _ => IoBalanced(e);
  }

  // ----- How often a script works on what a lock protects

  function Work(s: Script, l: Lock): nat {
    if s == [] then 0 else (if s[0] == Touch(l) then 1 else 0) + Work(s[1..], l)
  }

  lemma {:induction false} WorkConcat(a: Script, b: Script, l: Lock)
    ensures Work(a + b, l) == Work(a, l) + Work(b, l)
  {
    if a == [] {
      assert a + b == b;
    } else {
      assert (a + b)[1..] == a[1..] + b;
      WorkConcat(a[1..], b, l);
    }
  }

  lemma WorkGuarded(k: Lock, body: Script, l: Lock)
    ensures Work(Guarded(k, body), l) == (if k == l then 1 else 0) + Work(body, l)
  {
    WorkConcat([Acquire(k), Touch(k)] + body, [Release(k)], l);
    WorkConcat([Acquire(k), Touch(k)], body, l);
    assert [Acquire(k), Touch(k)][1..] == [Touch(k)] && [Touch(k)][1..] == [] && [Release(k)][1..] == [];
  }

  lemma {:induction false} WorkLeaf(k: Lock, times: nat, l: Lock)
    ensures Work(Leaf(k, times), l) == if k == l then times else 0
  {
    if times == 0 {
    } else {
      WorkGuarded(k, [], l);
      WorkLeaf(k, times - 1, l);
      WorkConcat(Guarded(k, []), Leaf(k, times - 1), l);
    }
  }

  /** A timeout posts once; nothing else in a flush does. */
  function TickPosts(t: Tick): nat { if t.TimedOut? then 1 else 0 }

  function EgressPosts(e: Egress): nat { if e.failed then 0 else TickPosts(e.tick) }

  lemma OnTimeoutWork(t: Tick)
    ensures Work(OnTimeout(t), MailboxLock) == TickPosts(t) && Work(OnTimeout(t), AllocatorLock) == 0
  {
    if t.TimedOut? {
      forall l: Lock ensures Work(OnTimeout(t), l) == Work(Leaf(LoggerLock, t.logs), l) + Work(Leaf(MailboxLock, 1), l) {
        WorkConcat(Leaf(LoggerLock, t.logs), Leaf(MailboxLock, 1), l);
      }
      WorkLeaf(LoggerLock, t.logs, MailboxLock);
      WorkLeaf(LoggerLock, t.logs, AllocatorLock);
      WorkLeaf(MailboxLock, 1, MailboxLock);
      WorkLeaf(MailboxLock, 1, AllocatorLock);
    }
  }

  lemma FlushWork(c: nat, e: Egress, l: Lock)
    requires l == MailboxLock || l == AllocatorLock
    ensures Work(FlushEgress(c, e), l) == if l == MailboxLock then EgressPosts(e) else e.buffers
    ensures Work(FlushAndFree(c, e), l) == if l == MailboxLock then EgressPosts(e) else e.buffers + 1
  {
    var cached, buffers := Guarded(ConnLock(c), Leaf(LoggerLock, e.errors)), Leaf(AllocatorLock, e.buffers);
    var ending := if e.failed then Leaf(LoggerLock, 1) else OnTimeout(e.tick);
    WorkLeaf(LoggerLock, e.errors, l);
    WorkGuarded(ConnLock(c), Leaf(LoggerLock, e.errors), l);
    WorkLeaf(AllocatorLock, e.buffers, l);
    WorkLeaf(LoggerLock, 1, l);
    OnTimeoutWork(e.tick);
    WorkConcat(cached, buffers, l);
    WorkConcat(cached + buffers, ending, l);
    WorkGuarded(ConnLock(c), cached + buffers + ending, l);
    WorkLeaf(AllocatorLock, 1, l);
    WorkConcat(FlushEgress(c, e), Leaf(AllocatorLock, 1), l);
  }

  function ArrivalPosts(arrivals: seq<Arrival>): nat {
    if arrivals == [] then 0
    else (if arrivals[0].Admitted? then arrivals[0].posts else 0) + ArrivalPosts(arrivals[1..])
  }

  lemma {:induction false} ProcessWork(c: nat, arrivals: seq<Arrival>)
    ensures Work(ProcessH3Events(c, arrivals), MailboxLock) == ArrivalPosts(arrivals)
  {
    if arrivals == [] {
    } else {
      var a := arrivals[0];
      ProcessWork(c, arrivals[1..]);
      WorkConcat(Arrived(c, a), ProcessH3Events(c, arrivals[1..]), MailboxLock);
      WorkLeaf(LoggerLock, 1, MailboxLock);
      if a.Admitted? { WorkLeaf(MailboxLock, a.posts, MailboxLock); }
      WorkLeaf(LoggerLock, 0, MailboxLock);
      WorkGuarded(ConnLock(c), Leaf(LoggerLock, 0), MailboxLock);
      WorkConcat(Leaf(LoggerLock, 1), Brief(c, 0), MailboxLock);
    }
  }

  lemma OnConnectWork(c: nat, o: Opening)
    ensures Work(OnConnect(c, o), MailboxLock) == if o == ClientOpens(true) then 1 else 0
  {
    WorkLeaf(LoggerLock, 0, MailboxLock);
    WorkLeaf(LoggerLock, 1, MailboxLock);
    WorkLeaf(MailboxLock, 1, MailboxLock);
    WorkGuarded(ConnLock(c), Leaf(LoggerLock, 0), MailboxLock);
    WorkGuarded(ConnLock(c), Leaf(LoggerLock, 1), MailboxLock);
    WorkConcat(Leaf(LoggerLock, 1), Leaf(MailboxLock, 1), MailboxLock);
    WorkConcat(Brief(c, 0), Leaf(LoggerLock, 1) + Leaf(MailboxLock, 1), MailboxLock);
  }

  /** A datagram works on the mailbox once for each event it posts: the client's Connect, what each arrival posts, and
  the Timeout, wherever the close is found. */
  lemma DatagramWork(c: nat, opening: Opening, arrivals: seq<Arrival>, ending: Ending)
    ensures Work(ConnDatagram(c, Served(opening, arrivals, ending)), MailboxLock) ==
      (if opening == ClientOpens(true) then 1 else 0) + ArrivalPosts(arrivals)
        + match ending case Closed(_) => 1 case Flushed(egress) => EgressPosts(egress)
  {
    OnConnectWork(c, opening);
    ProcessWork(c, arrivals);
    match ending {
      case Closed(logs) => OnTimeoutWork(TimedOut(logs));
      case Flushed(egress) => FlushWork(c, egress, MailboxLock);
    }
    WorkConcat(OnConnect(c, opening), ProcessH3Events(c, arrivals), MailboxLock);
    WorkConcat(OnConnect(c, opening) + ProcessH3Events(c, arrivals), End(c, ending), MailboxLock);
    WorkGuarded(ConnLock(c), Serve(c, Served(opening, arrivals, ending)), MailboxLock);
  }

  /** A sweep works on the indexes once, under the sender mutex, and inside that on every connection it flushes, twice:
  its cached responses and then its transfers and packets. */
  lemma SweepWork(conns: seq<(nat, Egress)>, c: nat)
    ensures Work(EntryScript(SenderSweep(conns)), SenderLock) == 1
    ensures Work(EntryScript(SenderSweep(conns)), ConnLock(c)) == 2 * Visits(conns, c)
  {
    WorkGuarded(SenderLock, FlushAll(conns), SenderLock);
    WorkGuarded(SenderLock, FlushAll(conns), ConnLock(c));
    FlushAllWork(conns, c);
  }

  function Visits(conns: seq<(nat, Egress)>, c: nat): nat {
    if conns == [] then 0 else (if conns[0].0 == c then 1 else 0) + Visits(conns[1..], c)
  }

  lemma {:induction false} FlushAllWork(conns: seq<(nat, Egress)>, c: nat)
    ensures Work(FlushAll(conns), ConnLock(c)) == 2 * Visits(conns, c)
    ensures Work(FlushAll(conns), SenderLock) == 0
  {
    if conns == [] {
    } else {
      FlushAllWork(conns[1..], c);
      ConnWork(conns[0].0, conns[0].1, ConnLock(c));
      ConnWork(conns[0].0, conns[0].1, SenderLock);
      WorkConcat(FlushEgress(conns[0].0, conns[0].1), FlushAll(conns[1..]), ConnLock(c));
      WorkConcat(FlushEgress(conns[0].0, conns[0].1), FlushAll(conns[1..]), SenderLock);
    }
  }

  lemma ConnWork(k: nat, e: Egress, l: Lock)
    requires l.ConnLock? || l == SenderLock
    ensures Work(FlushEgress(k, e), l) == if l == ConnLock(k) then 2 else 0
  {
    var cached, buffers := Guarded(ConnLock(k), Leaf(LoggerLock, e.errors)), Leaf(AllocatorLock, e.buffers);
    var ending := if e.failed then Leaf(LoggerLock, 1) else OnTimeout(e.tick);
    WorkLeaf(LoggerLock, e.errors, l);
    WorkGuarded(ConnLock(k), Leaf(LoggerLock, e.errors), l);
    WorkLeaf(AllocatorLock, e.buffers, l);
    WorkLeaf(LoggerLock, 1, l);
    WorkLeaf(MailboxLock, 1, l);
    if e.tick.TimedOut? {
      WorkLeaf(LoggerLock, e.tick.logs, l);
      WorkConcat(Leaf(LoggerLock, e.tick.logs), Leaf(MailboxLock, 1), l);
    }
    WorkConcat(cached, buffers, l);
    WorkConcat(cached + buffers, ending, l);
    WorkGuarded(ConnLock(k), cached + buffers + ending, l);
  }
}

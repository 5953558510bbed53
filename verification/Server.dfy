/** The server's two indexes under its threads: the I/O thread that looks up, creates and registers connections, the
sender thread that sweeps them, and everyone who runs a section of a connection. Each step is one critical section;
a sweep holds the sender mutex over many steps, between which other threads work on the connections. */
module Server {
  import opened Lifecycle
  import opened ConnectionIds

  /** A connection object, by the order of creation. */
  type Ref = nat

  const TWO_64 := 0x1_0000_0000_0000_0000

  datatype Entry = Entry(conn: Conn, dcid: Cid, assignedId: nat)

  /** Where OnDatagram of the server stands. */
  datatype Io = Idle | Missed(dcid: Cid) | Registering(ref: Ref) | Delivering(ref: Ref)

  /** Where the sender thread's loop stands: the index it began with, the keys it has yet to visit, the connection
  whose egress it is about to flush, and those it has found closed. */
  datatype Sweep = Off | On(began: map<Cid, Ref>, unvisited: set<Cid>, flushing: set<Ref>, freed: set<Ref>)

  datatype State = State(
    objects: map<Ref, Entry>,
    created: nat,
    nextAssignedId: nat,
    byDcid: map<Cid, Ref>,
    byId: map<nat, Ref>,
    registered: set<Ref>,
    history: seq<(Ref, Mail)>,
    io: Io,
    sweep: Sweep)

  datatype Action =
    | Lookup(dcid: Cid)
    | Reject
    | Create(accepted: bool)
    | Register
    | Deliver(p: Packet)
    | Tick(ref: Ref, closed: bool)
    | SweepBegin
    | SweepLook(dcid: Cid)
    | SweepFlush(ref: Ref, closed: bool)
    | SweepEnd

  /** The sender mutex is free except during a sweep; the I/O thread needs it to look up and to register. That the
  objects a thread refers to exist is no restriction: the invariant says so. */
  predicate Enabled(s: State, a: Action) {
    match a
    case Lookup(_) => s.io == Idle && s.sweep == Off
    case Reject => s.io.Missed?
    case Create(_) => s.io.Missed?
    case Register => s.io.Registering? && s.sweep == Off && s.io.ref in s.objects
    case Deliver(_) => s.io.Delivering? && s.io.ref in s.objects
    case Tick(ref, _) => ref in s.objects
    case SweepBegin => s.sweep == Off
    case SweepLook(dcid) => s.sweep.On? && s.sweep.flushing == {} && dcid in s.sweep.unvisited && dcid in s.byDcid
                             && s.byDcid[dcid] in s.objects
    case SweepFlush(ref, _) => s.sweep.On? && ref in s.sweep.flushing && ref in s.objects
    case SweepEnd => s.sweep.On? && s.sweep.unvisited == {} && s.sweep.flushing == {}
  }

  function Tagged(ref: Ref, posts: seq<Mail>): seq<(Ref, Mail)> {
    seq(|posts|, i requires 0 <= i < |posts| => (ref, posts[i]))
  }

  /** One section of a connection, with its posts. */
  function Section(s: State, ref: Ref, work: Lifecycle.Section, expected: string): State
    requires ref in s.objects
  {
    var o := Run(s.objects[ref].conn, work, expected);
    s.(objects := s.objects[ref := s.objects[ref].(conn := o.conn)], history := s.history + Tagged(ref, o.posts))
  }

  function Apply(s: State, a: Action, expected: string): State
    requires Enabled(s, a)
  {
    match a
    case Lookup(dcid) => s.(io := if dcid in s.byDcid then Delivering(s.byDcid[dcid]) else Missed(dcid))
    case Reject => s.(io := Idle)
    case Create(accepted) =>
      var ref, id := s.created, (s.nextAssignedId + 1) % TWO_64;
      s.(objects := s.objects[ref := Entry(Conn(true, false, false, false), s.io.dcid, id)],
         created := s.created + 1, nextAssignedId := id,
         io := if accepted then Registering(ref) else Idle)
    case Register =>
      var ref := s.io.ref;
      var e := s.objects[ref];
      s.(byDcid := s.byDcid[e.dcid := ref], byId := s.byId[e.assignedId := ref],
         registered := s.registered + {ref}, io := Delivering(ref))
    case Deliver(p) => Section(s, s.io.ref, Datagram(p), expected).(io := Idle)
    case Tick(ref, closed) => Section(s, ref, Flush(closed), expected)
    case SweepBegin => s.(sweep := On(s.byDcid, s.byDcid.Keys, {}, {}))
    case SweepLook(dcid) =>
      var ref := s.byDcid[dcid];
      if s.objects[ref].conn.timeout then
        s.(byDcid := s.byDcid - {dcid}, byId := s.byId - {s.objects[ref].assignedId},
           sweep := s.sweep.(unvisited := s.sweep.unvisited - {dcid}, freed := s.sweep.freed + {ref}))
      else
        s.(sweep := s.sweep.(unvisited := s.sweep.unvisited - {dcid}, flushing := {ref}))
    case SweepFlush(ref, closed) =>
      Section(s, ref, Flush(closed), expected).(sweep := s.sweep.(flushing := {}))
    case SweepEnd => s.(sweep := Off)
  }

  predicate Initial(s: State) {
    && s.objects == map[] && s.created == 0 && s.nextAssignedId == 0
    && s.byDcid == map[] && s.byId == map[] && s.registered == {}
    && s.history == [] && s.io == Idle && s.sweep == Off
  }

  // ----- Invariants

  function Mine(h: seq<(Ref, Mail)>, ref: Ref): seq<Mail> {
    if h == [] then [] else
      Mine(h[..|h| - 1], ref) + if h[|h| - 1].0 == ref then [h[|h| - 1].1] else []
  }

  /** Both maps hold the same connections, each under its own dcid and assigned id. */
  ghost predicate IndexesAgree(s: State) {
    && (forall d | d in s.byDcid ::
          var r := s.byDcid[d];
          r in s.objects && s.objects[r].dcid == d
          && s.objects[r].assignedId in s.byId && s.byId[s.objects[r].assignedId] == r)
    && (forall i | i in s.byId ::
          var r := s.byId[i];
          r in s.objects && s.objects[r].assignedId == i
          && s.objects[r].dcid in s.byDcid && s.byDcid[s.objects[r].dcid] == r)
  }

  ghost predicate Indexed(s: State, ref: Ref)
    requires ref in s.objects
  {
    s.objects[ref].dcid in s.byDcid && s.byDcid[s.objects[ref].dcid] == ref
  }

  /** Ids are the order of creation, counted from 1, modulo the width of the counter. */
  ghost predicate IdsInOrder(s: State) {
    && s.nextAssignedId == s.created % TWO_64
    && forall r | r in s.objects :: r < s.created && s.objects[r].assignedId == (r + 1) % TWO_64
  }

  ghost predicate ThreadsOk(s: State) {
    && s.registered <= s.objects.Keys
    && match s.io
       case Idle => true
       case Missed(d) => d !in s.byDcid
       case Registering(r) => r in s.objects && r !in s.registered && s.objects[r].dcid !in s.byDcid
       case Delivering(r) => r in s.objects
  }

  ghost predicate SweepOk(s: State) {
    s.sweep.On? ==>
      && s.sweep.unvisited <= s.byDcid.Keys
      && s.sweep.flushing <= s.objects.Keys
      && s.sweep.freed <= s.objects.Keys
      && s.byDcid.Keys <= s.sweep.began.Keys
      && (forall d | d in s.sweep.began ::
            if d in s.byDcid then s.byDcid[d] == s.sweep.began[d] && s.byDcid[d] !in s.sweep.freed
            else s.sweep.began[d] in s.sweep.freed)
  }

  /** A registered connection is indexed, or it had timed out. */
  ghost predicate RemovedTimedOut(s: State) {
    && (forall d | d in s.byDcid :: s.byDcid[d] in s.registered)
    && (forall r | r in s.registered && r in s.objects :: Indexed(s, r) || s.objects[r].conn.timeout)
    && (s.sweep.On? ==> forall r | r in s.sweep.freed :: r in s.objects && s.objects[r].conn.timeout && !Indexed(s, r))
  }

  ghost predicate TracesOk(s: State, expected: string) {
    forall r | r in s.objects :: Standing(s, r, expected)
  }

  ghost predicate PostsOwned(s: State) {
    forall i | 0 <= i < |s.history| :: s.history[i].0 in s.objects
  }

  ghost predicate Inv(s: State, expected: string) {
    && IndexesAgree(s) && IdsInOrder(s) && ThreadsOk(s) && SweepOk(s) && RemovedTimedOut(s) && PostsOwned(s) && TracesOk(s, expected)
  }

  lemma {:induction false} MineConcat(a: seq<(Ref, Mail)>, b: seq<(Ref, Mail)>, ref: Ref)
    ensures Mine(a + b, ref) == Mine(a, ref) + Mine(b, ref)
  {
    if b == [] {
      assert a + b == a;
    } else {
      MineConcat(a, b[..|b| - 1], ref);
      assert (a + b)[..|a + b| - 1] == a + b[..|b| - 1];
    }
  }

  lemma {:induction false} MineTagged(posts: seq<Mail>, owner: Ref, ref: Ref)
    ensures Mine(Tagged(owner, posts), ref) == if owner == ref then posts else []
  {
    if posts == [] {
    } else {
      var before := posts[..|posts| - 1];
      MineTagged(before, owner, ref);
      assert Tagged(owner, posts)[..|posts| - 1] == Tagged(owner, before);
    }
  }

  /** Sections touch only flags and posts. */
  ghost predicate OnlyFlags(s: State, s': State) {
    && s'.objects.Keys == s.objects.Keys && s'.created == s.created && s'.nextAssignedId == s.nextAssignedId
    && s'.byDcid == s.byDcid && s'.byId == s.byId && s'.registered == s.registered
    && forall r | r in s.objects ::
         && s'.objects[r] == s.objects[r].(conn := s'.objects[r].conn)
         && (s.objects[r].conn.timeout ==> s'.objects[r].conn.timeout)
  }

  lemma SectionHistory(s: State, s': State, ref: Ref, work: Lifecycle.Section, expected: string, r: Ref)
    requires ref in s.objects && s' == Section(s, ref, work, expected)
    ensures Mine(s'.history, r) ==
      Mine(s.history, r) + if r == ref then Run(s.objects[ref].conn, work, expected).posts else []
  {
    var posts := Run(s.objects[ref].conn, work, expected).posts;
    MineConcat(s.history, Tagged(ref, posts), r);
    MineTagged(posts, ref, r);
  }

  /** One connection's good standing. */
  ghost predicate Standing(s: State, r: Ref, expected: string)
    requires r in s.objects
  {
    s.objects[r].conn.isServer && TraceOk(s.objects[r].conn, Mine(s.history, r), expected)
  }

  lemma SectionStanding(s: State, s': State, ref: Ref, work: Lifecycle.Section, expected: string, r: Ref)
    requires ref in s.objects && r in s.objects && s' == Section(s, ref, work, expected) && Standing(s, r, expected)
    ensures Standing(s', r, expected) && (s.objects[r].conn.timeout ==> s'.objects[r].conn.timeout)
  {
    SectionHistory(s, s', ref, work, expected, r);
    var h, h' := Mine(s.history, r), Mine(s'.history, r);
    if r == ref {
      RunKeepsTrace(s.objects[ref].conn, h, s'.objects[ref].conn, h', work, expected);
    } else {
      assert h' == h;
    }
  }

  lemma SectionOnlyFlags(s: State, s': State, ref: Ref, work: Lifecycle.Section, expected: string)
    requires ref in s.objects && s' == Section(s, ref, work, expected) && Standing(s, ref, expected)
    ensures OnlyFlags(s, s') && s'.io == s.io && s'.sweep == s.sweep
  {
    SectionStanding(s, s', ref, work, expected, ref);
  }

  lemma SectionKeepsOwners(s: State, s': State, ref: Ref, work: Lifecycle.Section, expected: string)
    requires ref in s.objects && s' == Section(s, ref, work, expected) && PostsOwned(s)
    ensures PostsOwned(s')
  {
    var posts := Tagged(ref, Run(s.objects[ref].conn, work, expected).posts);
    forall i | 0 <= i < |s'.history| ensures s'.history[i].0 in s'.objects {
      if i < |s.history| { assert s'.history[i] == s.history[i]; } else { assert s'.history[i] == posts[i - |s.history|]; }
    }
  }

  lemma SectionKeepsTraces(s: State, s': State, ref: Ref, work: Lifecycle.Section, expected: string)
    requires ref in s.objects && TracesOk(s, expected) && s' == Section(s, ref, work, expected)
    ensures TracesOk(s', expected)
  {
    forall r | r in s.objects ensures Standing(s', r, expected) {
      assert Standing(s, r, expected);
      SectionStanding(s, s', ref, work, expected, r);
    }
  }

  // ----- Each action keeps the invariant

  /** A step that only changes flags and posts keeps everything about the indexes and threads. */
  lemma FlagsKeepInv(s: State, s': State, expected: string)
    requires Inv(s, expected) && OnlyFlags(s, s') && s'.io == s.io && s'.sweep == s.sweep
    requires TracesOk(s', expected) && PostsOwned(s')
    ensures Inv(s', expected)
  {
    FlagsKeepStanding(s, s');
  }

  lemma FlagsKeepStanding(s: State, s': State)
    requires RemovedTimedOut(s) && IndexesAgree(s) && OnlyFlags(s, s') && s'.sweep == s.sweep
    ensures RemovedTimedOut(s') && IndexesAgree(s')
  {
  }

  lemma SectionKeepsInv(s: State, s': State, ref: Ref, work: Lifecycle.Section, expected: string)
    requires Inv(s, expected) && ref in s.objects && s' == Section(s, ref, work, expected)
    ensures Inv(s', expected) && s'.created == s.created
  {
    assert Standing(s, ref, expected);
    SectionOnlyFlags(s, s', ref, work, expected);
    SectionKeepsOwners(s, s', ref, work, expected);
    SectionKeepsTraces(s, s', ref, work, expected);
    FlagsKeepInv(s, s', expected);
  }

  /** Steps of the I/O thread that change no object. */
  lemma IoKeepsInv(s: State, s': State, expected: string)
    requires Inv(s, expected) && s' == s.(io := s'.io) && ThreadsOk(s')
    ensures Inv(s', expected)
  {
    forall r | r in s'.objects ensures Standing(s', r, expected) { assert Standing(s, r, expected); }
  }

  lemma CreateKeepsTraces(s: State, s': State, ref: Ref, e: Entry, expected: string)
    requires TracesOk(s, expected) && PostsOwned(s) && ref !in s.objects
    requires s'.objects == s.objects[ref := e] && s'.history == s.history && e.conn == Conn(true, false, false, false)
    ensures TracesOk(s', expected) && PostsOwned(s')
  {
    NoPosts(s.history, ref);
    forall r | r in s'.objects ensures Standing(s', r, expected) {
      if r != ref { assert Standing(s, r, expected); }
    }
  }

  lemma CreateKeepsIndexes(s: State, s': State, ref: Ref, e: Entry)
    requires IndexesAgree(s) && RemovedTimedOut(s) && ref !in s.objects && s.registered <= s.objects.Keys
    requires s'.objects == s.objects[ref := e] && s'.byDcid == s.byDcid && s'.byId == s.byId
    requires s'.registered == s.registered && s'.sweep == s.sweep
    ensures IndexesAgree(s') && RemovedTimedOut(s')
  {
  }

  lemma CreateKeepsInv(s: State, s': State, accepted: bool, expected: string)
    requires Inv(s, expected) && s.io.Missed? && s' == Apply(s, Create(accepted), expected)
    ensures Inv(s', expected)
  {
    CreateKeepsTraces(s, s', s.created, s'.objects[s.created], expected);
    CreateKeepsIndexes(s, s', s.created, s'.objects[s.created]);
  }

  lemma {:induction false} NoPosts(h: seq<(Ref, Mail)>, ref: Ref)
    requires forall i | 0 <= i < |h| :: h[i].0 != ref
    ensures Mine(h, ref) == []
  {
    if h == [] {
    } else {
      NoPosts(h[..|h| - 1], ref);
    }
  }

  /** With fewer than 2^64 connections created, ids tell connections apart. */
  lemma IdsDistinct(s: State, q: Ref, r: Ref)
    requires IdsInOrder(s) && s.created < TWO_64 && q in s.objects && r in s.objects
    ensures s.objects[r].assignedId == r + 1
    ensures q < r <==> s.objects[q].assignedId < s.objects[r].assignedId
  {
  }

  lemma TracesKept(s: State, s': State, expected: string)
    requires TracesOk(s, expected) && PostsOwned(s) && s'.objects == s.objects && s'.history == s.history
    ensures TracesOk(s', expected) && PostsOwned(s')
  {
    forall r | r in s'.objects ensures Standing(s', r, expected) { assert Standing(s, r, expected); }
  }

  lemma RegisterKeepsIndexes(s: State, s': State, ref: Ref)
    requires IndexesAgree(s) && ref in s.objects && s'.objects == s.objects
    requires s.objects[ref].dcid !in s.byDcid && s.objects[ref].assignedId !in s.byId
    requires s'.byDcid == s.byDcid[s.objects[ref].dcid := ref] && s'.byId == s.byId[s.objects[ref].assignedId := ref]
    ensures IndexesAgree(s')
  {
  }

  /** The id of the connection being registered is not in use. */
  lemma RegisteredIdIsNew(s: State, ref: Ref)
    requires IndexesAgree(s) && IdsInOrder(s) && s.created < TWO_64
    requires ref in s.objects && s.objects[ref].dcid !in s.byDcid
    ensures s.objects[ref].assignedId !in s.byId
  {
    if s.objects[ref].assignedId in s.byId {
      var q := s.byId[s.objects[ref].assignedId];
      IdsDistinct(s, q, ref);
      IdsDistinct(s, ref, q);
    }
  }

  lemma RegisterKeepsStanding(s: State, s': State, ref: Ref)
    requires IndexesAgree(s) && RemovedTimedOut(s) && ref in s.objects && s'.objects == s.objects
    requires s.objects[ref].dcid !in s.byDcid && s'.byDcid == s.byDcid[s.objects[ref].dcid := ref]
    requires s'.registered == s.registered + {ref} && s'.sweep == Off
    ensures RemovedTimedOut(s')
  {
  }

  lemma RegisterKeepsInv(s: State, s': State, expected: string)
    requires Inv(s, expected) && s.created < TWO_64
    requires s.io.Registering? && s.sweep == Off && s' == Apply(s, Register, expected)
    ensures Inv(s', expected)
  {
    RegisteredIdIsNew(s, s.io.ref);
    RegisterKeepsIndexes(s, s', s.io.ref);
    TracesKept(s, s', expected);
    RegisterKeepsStanding(s, s', s.io.ref);
  }

  lemma RemoveKeepsIndexes(s: State, s': State, dcid: Cid)
    requires IndexesAgree(s) && dcid in s.byDcid && s'.objects == s.objects
    requires s'.byDcid == s.byDcid - {dcid} && s'.byId == s.byId - {s.objects[s.byDcid[dcid]].assignedId}
    ensures IndexesAgree(s')
  {
  }

  lemma RemoveKeepsStanding(s: State, s': State, dcid: Cid)
    requires IndexesAgree(s) && RemovedTimedOut(s) && dcid in s.byDcid && s.sweep.On?
    requires s.objects[s.byDcid[dcid]].conn.timeout
    requires s'.objects == s.objects && s'.registered == s.registered && s'.byDcid == s.byDcid - {dcid}
    requires s'.sweep.On? && s'.sweep.freed == s.sweep.freed + {s.byDcid[dcid]}
    ensures RemovedTimedOut(s')
  {
  }

  lemma RemoveKeepsSweep(s: State, s': State, dcid: Cid)
    requires IndexesAgree(s) && SweepOk(s) && dcid in s.byDcid && s.sweep.On?
    requires s'.objects == s.objects && s'.byDcid == s.byDcid - {dcid}
    requires s'.sweep == s.sweep.(unvisited := s.sweep.unvisited - {dcid}, freed := s.sweep.freed + {s.byDcid[dcid]})
    ensures SweepOk(s')
  {
    forall d | d in s'.byDcid ensures s.byDcid[d] != s.byDcid[dcid] {
      assert s.objects[s.byDcid[d]].dcid == d;
    }
  }

  lemma SweepDropKeepsInv(s: State, s': State, dcid: Cid, expected: string)
    requires Inv(s, expected) && s.sweep.On? && dcid in s.byDcid && s.objects[s.byDcid[dcid]].conn.timeout
    requires s' == s.(byDcid := s.byDcid - {dcid}, byId := s.byId - {s.objects[s.byDcid[dcid]].assignedId},
                      sweep := s.sweep.(unvisited := s.sweep.unvisited - {dcid},
                                        freed := s.sweep.freed + {s.byDcid[dcid]}))
    ensures Inv(s', expected)
  {
    TracesKept(s, s', expected);
    RemoveKeepsIndexes(s, s', dcid);
    RemoveKeepsStanding(s, s', dcid);
    RemoveKeepsSweep(s, s', dcid);
  }

  lemma SweepStayKeepsInv(s: State, s': State, dcid: Cid, expected: string)
    requires Inv(s, expected) && s.sweep.On? && dcid in s.byDcid
    requires s' == s.(sweep := s.sweep.(unvisited := s.sweep.unvisited - {dcid}, flushing := {s.byDcid[dcid]}))
    ensures Inv(s', expected)
  {
    TracesKept(s, s', expected);
  }

  lemma SweepLookKeepsInv(s: State, s': State, dcid: Cid, expected: string)
    requires Inv(s, expected) && Enabled(s, SweepLook(dcid)) && s' == Apply(s, SweepLook(dcid), expected)
    ensures Inv(s', expected)
  {
    if s.objects[s.byDcid[dcid]].conn.timeout {
      SweepDropKeepsInv(s, s', dcid, expected);
    } else {
      SweepStayKeepsInv(s, s', dcid, expected);
    }
  }

  lemma SweepEdgeKeepsInv(s: State, s': State, expected: string)
    requires Inv(s, expected) && s' == s.(sweep := s'.sweep)
    requires s'.sweep == Off || s'.sweep == On(s.byDcid, s.byDcid.Keys, {}, {}) ||
      (s.sweep.On? && s'.sweep == s.sweep.(flushing := {}))
    ensures Inv(s', expected)
  {
    forall r | r in s'.objects ensures Standing(s', r, expected) { assert Standing(s, r, expected); }
  }

  lemma ApplyKeepsInv(s: State, s': State, a: Action, expected: string)
    requires Inv(s, expected) && s.created < TWO_64 && Enabled(s, a) && s' == Apply(s, a, expected)
    ensures Inv(s', expected)
  {
    match a
    case Lookup(dcid) => IoKeepsInv(s, s', expected);
    case Reject => IoKeepsInv(s, s', expected);
    case Create(accepted) => CreateKeepsInv(s, s', accepted, expected);
    case Register => RegisterKeepsInv(s, s', expected);
    case Deliver(p) =>
      var s1 := Section(s, s.io.ref, Datagram(p), expected);
      SectionKeepsInv(s, s1, s.io.ref, Datagram(p), expected);
      IoKeepsInv(s1, s', expected);
    case Tick(ref, closed) => SectionKeepsInv(s, s', ref, Flush(closed), expected);
    case SweepBegin => SweepEdgeKeepsInv(s, s', expected);
    case SweepLook(dcid) => SweepLookKeepsInv(s, s', dcid, expected);
    case SweepFlush(ref, closed) =>
      var s1 := Section(s, ref, Flush(closed), expected);
      SectionKeepsInv(s, s1, ref, Flush(closed), expected);
      SweepEdgeKeepsInv(s1, s', expected);
    case SweepEnd => SweepEdgeKeepsInv(s, s', expected);
  }

  // ----- Runs

  datatype Execution = Execution(states: seq<State>, actions: seq<Action>)

  /** A run: enabled actions from the initial state, with fewer than 2^64 connections created. */
  ghost predicate IsRun(run: Execution, expected: string) {
    && |run.states| == |run.actions| + 1
    && Initial(run.states[0])
    && (forall i | 0 <= i < |run.states| :: run.states[i].created < TWO_64)
    && forall i | 0 <= i < |run.actions| ::
         Moves(run.states[i], run.actions[i], run.states[i + 1], expected)
  }

  ghost predicate Moves(s: State, a: Action, s': State, expected: string) {
    && Enabled(s, a)
    && s' == Apply(s, a, expected)
  }

  lemma {:induction false} RunKeepsInv(run: Execution, expected: string, k: nat)
    requires IsRun(run, expected) && k < |run.states|
    ensures Inv(run.states[k], expected)
  {
    if k == 0 {
    } else {
      RunKeepsInv(run, expected, k - 1);
      assert Moves(run.states[k - 1], run.actions[k - 1], run.states[k], expected);
      ApplyKeepsInv(run.states[k - 1], run.states[k], run.actions[k - 1], expected);
    }
  }

  // ----- Main results

  /** What a thread took from the indexes before another thread's step still fits them: a key the sweep has yet to
  visit is still there, under the same connection, and a connection about to be registered displaces none. */
  lemma HeldKeysStillFit(run: Execution, expected: string, k: nat)
    requires IsRun(run, expected) && k < |run.states|
    ensures var s := run.states[k];
      && (s.sweep.On? ==>
            s.sweep.unvisited <= s.byDcid.Keys
            && forall d | d in s.sweep.unvisited :: d in s.sweep.began && s.byDcid[d] == s.sweep.began[d])
      && (s.io.Registering? ==>
            s.io.ref in s.objects && s.objects[s.io.ref].dcid !in s.byDcid && s.objects[s.io.ref].assignedId !in s.byId)
  {
    RunKeepsInv(run, expected, k);
    var s := run.states[k];
    if s.io.Registering? { RegisteredIdIsNew(s, s.io.ref); }
  }

  /** In every state of every run the two indexes hold exactly the same connections, each under its own keys. */
  lemma IndexAgreement(run: Execution, expected: string, k: nat)
    requires IsRun(run, expected) && k < |run.states|
    ensures IndexesAgree(run.states[k])
    ensures run.states[k].byDcid.Values == run.states[k].byId.Values
  {
    RunKeepsInv(run, expected, k);
    var s := run.states[k];
    forall r | r in s.byDcid.Values ensures r in s.byId.Values {
      var d :| d in s.byDcid && s.byDcid[d] == r;
      assert s.byId[s.objects[r].assignedId] == r;
    }
    forall r | r in s.byId.Values ensures r in s.byDcid.Values {
      var i :| i in s.byId && s.byId[i] == r;
      assert s.byDcid[s.objects[r].dcid] == r;
    }
  }

  /** Later connections have larger ids, so no id is used twice, removed connections included. */
  lemma IdsIncrease(run: Execution, expected: string, k: nat, q: Ref, r: Ref)
    requires IsRun(run, expected) && k < |run.states|
    requires q in run.states[k].objects && r in run.states[k].objects && q < r
    ensures run.states[k].objects[q].assignedId < run.states[k].objects[r].assignedId
  {
    RunKeepsInv(run, expected, k);
    IdsDistinct(run.states[k], q, r);
  }

  /** The posts of every connection are in order, in every state of every run. */
  lemma EventsInOrder(run: Execution, expected: string, k: nat, r: Ref)
    requires IsRun(run, expected) && k < |run.states| && r in run.states[k].objects
    ensures InOrder(run.states[k].objects[r].conn, Mine(run.states[k].history, r), expected)
  {
    RunKeepsInv(run, expected, k);
    var s := run.states[k];
    assert Standing(s, r, expected);
    TraceMeaning(s.objects[r].conn, Mine(s.history, r), expected);
  }

  /** A registered connection that has left the indexes has its one Timeout in the history already. */
  lemma TimeoutBeforeRemoval(run: Execution, expected: string, k: nat, r: Ref)
    requires IsRun(run, expected) && k < |run.states| && r in run.states[k].registered
    requires r !in run.states[k].byDcid.Values
    ensures multiset(Mine(run.states[k].history, r))[Timeout] == 1
  {
    RunKeepsInv(run, expected, k);
    var s := run.states[k];
    assert !Indexed(s, r);
    EventsInOrder(run, expected, k, r);
  }

  /** A sweep removes exactly what it found closed: at every moment of it the index is the one it began with less the
  connections found closed so far, all of which had posted their Timeout. */
  lemma SweepRemovesTheClosed(run: Execution, expected: string, k: nat)
    requires IsRun(run, expected) && k < |run.states| && run.states[k].sweep.On?
    ensures var s := run.states[k];
      && s.byDcid == (map d | d in s.sweep.began && s.sweep.began[d] !in s.sweep.freed :: s.sweep.began[d])
      && (forall r | r in s.sweep.freed :: multiset(Mine(s.history, r))[Timeout] == 1)
  {
    RunKeepsInv(run, expected, k);
    var s := run.states[k];
    forall r | r in s.sweep.freed ensures multiset(Mine(s.history, r))[Timeout] == 1 {
      EventsInOrder(run, expected, k, r);
    }
  }
}

/** What the server's threads get done: a sweep misses no connection that had timed out, and a datagram reaches its
connection. */
module ServerRuns {
  import opened Lifecycle
  import opened ConnectionIds
  import opened Server

  // ----- A sweep misses nothing

  /** No sweep ends from state j up to state k. */
  ghost predicate SameSweep(run: Execution, j: nat, k: nat)
    requires |run.states| == |run.actions| + 1 && k < |run.states|
  {
    forall i | j <= i < k :: run.actions[i] != SweepEnd
  }

  ghost predicate TimedOut(s: State, r: Ref) {
    r in s.objects && s.objects[r].conn.timeout
  }

  /** The object is there, under the same keys, and its timeout is not taken back. */
  ghost predicate Stays(s: State, s': State, r: Ref)
    requires r in s.objects
  {
    && r in s'.objects && s'.objects[r].dcid == s.objects[r].dcid && s'.objects[r].assignedId == s.objects[r].assignedId
    && (TimedOut(s, r) ==> TimedOut(s', r))
  }

  lemma StepKeepsObjects(s: State, a: Action, s': State, expected: string, r: Ref)
    requires Inv(s, expected) && Moves(s, a, s', expected) && r in s.objects
    ensures Stays(s, s', r)
  {
    if a.Deliver? || a.Tick? || a.SweepFlush? {
      var ref := if a.Deliver? then s.io.ref else a.ref;
      var work := if a.Deliver? then Datagram(a.p) else Flush(a.closed);
      assert Standing(s, r, expected);
      SectionStanding(s, Server.Section(s, ref, work, expected), ref, work, expected, r);
    }
  }

  lemma RunStepKeepsObjects(run: Execution, expected: string, k: nat, r: Ref)
    requires IsRun(run, expected) && k < |run.actions| && r in run.states[k].objects
    ensures Stays(run.states[k], run.states[k + 1], r)
  {
    RunKeepsInv(run, expected, k);
    assert Moves(run.states[k], run.actions[k], run.states[k + 1], expected);
    StepKeepsObjects(run.states[k], run.actions[k], run.states[k + 1], expected, r);
  }

  lemma {:induction false} ObjectsStay(run: Execution, expected: string, j: nat, k: nat, r: Ref)
    requires IsRun(run, expected) && j <= k < |run.states| && r in run.states[j].objects
    ensures Stays(run.states[j], run.states[k], r)
  {
    if j == k {
    } else {
      ObjectsStay(run, expected, j, k - 1, r);
      RunStepKeepsObjects(run, expected, k - 1, r);
    }
  }

  /** What one look of the sweep does: a connection that has timed out leaves both maps and is freed, and is not
  flushed; another stays where it is, to be flushed. */
  ghost predicate Decided(s: State, s': State, dcid: Cid, r: Ref)
    requires r in s.objects && s.sweep.On?
  {
    && s'.objects == s.objects && s'.history == s.history
    && s'.sweep.On? && s'.sweep.unvisited == s.sweep.unvisited - {dcid}
    && if s.objects[r].conn.timeout then
         && s'.byDcid == s.byDcid - {dcid} && s'.byId == s.byId - {s.objects[r].assignedId}
         && r in s'.sweep.freed && s'.sweep.flushing == {}
       else
         && s'.byDcid == s.byDcid && s'.byId == s.byId
         && r !in s'.sweep.freed && s'.sweep.flushing == {r}
  }

  lemma LookDecides(s: State, dcid: Cid, s': State, r: Ref, expected: string)
    requires dcid in s.byDcid && r == s.byDcid[dcid] && r in s.objects && s.sweep.On?
    requires SweepOk(s) && Moves(s, SweepLook(dcid), s', expected)
    ensures Decided(s, s', dcid, r)
  {
    assert s.byDcid[dcid] == s.sweep.began[dcid];
  }

  /** Within a sweep the index only loses keys that are looked at. */
  lemma SweepStep(s: State, a: Action, s': State, expected: string, d: Cid)
    requires Inv(s, expected) && Moves(s, a, s', expected) && s.sweep.On? && a != SweepEnd
    ensures s'.sweep.On? && s'.sweep.began == s.sweep.began
    ensures a != SweepLook(d) ==>
      (d in s'.byDcid <==> d in s.byDcid) && (d in s'.sweep.unvisited <==> d in s.sweep.unvisited)
  {
  }

  /** The same, for a step of a run. */
  lemma RunSweepStep(run: Execution, expected: string, k: nat, d: Cid)
    requires IsRun(run, expected) && k < |run.actions| && run.states[k].sweep.On? && run.actions[k] != SweepEnd
    ensures var s, s' := run.states[k], run.states[k + 1];
      && s'.sweep.On? && s'.sweep.began == s.sweep.began
      && (run.actions[k] != SweepLook(d) ==> (d in s'.byDcid <==> d in s.byDcid) && (d in s'.sweep.unvisited <==> d in s.sweep.unvisited))
  {
    RunKeepsInv(run, expected, k);
    assert Moves(run.states[k], run.actions[k], run.states[k + 1], expected);
    SweepStep(run.states[k], run.actions[k], run.states[k + 1], expected, d);
  }

  lemma RunLookDecides(run: Execution, expected: string, j: nat, d: Cid)
    requires IsRun(run, expected) && j < |run.actions| && run.actions[j] == SweepLook(d)
    ensures d in run.states[j].byDcid && run.states[j].sweep.On?
    ensures run.states[j + 1].sweep.On? && d !in run.states[j + 1].sweep.unvisited
    ensures d in run.states[j + 1].byDcid <==> !TimedOut(run.states[j], run.states[j].byDcid[d])
  {
    RunKeepsInv(run, expected, j);
    assert Moves(run.states[j], run.actions[j], run.states[j + 1], expected);
    LookDecides(run.states[j], d, run.states[j + 1], run.states[j].byDcid[d], expected);
  }

  /** A key is looked at no second time in a sweep. */
  lemma NotLookedAtAgain(run: Execution, expected: string, k: nat, d: Cid)
    requires IsRun(run, expected) && k < |run.actions| && run.states[k].sweep.On? && d !in run.states[k].sweep.unvisited
    ensures run.actions[k] != SweepLook(d)
  {
    assert Moves(run.states[k], run.actions[k], run.states[k + 1], expected);
  }

  /** The exact outcome of a look, at every later moment of the same sweep: the key is still indexed if and only if its
  connection had not timed out when it was looked at. */
  lemma {:induction false} LookedAtIff(run: Execution, expected: string, j: nat, k: nat, d: Cid)
    requires IsRun(run, expected) && j < k < |run.states| && run.actions[j] == SweepLook(d)
    requires SameSweep(run, j, k)
    ensures run.states[k].sweep.On? && d !in run.states[k].sweep.unvisited
    ensures d in run.states[j].byDcid
    ensures d in run.states[k].byDcid <==> !TimedOut(run.states[j], run.states[j].byDcid[d])
  {
    RunLookDecides(run, expected, j, d);
    if k == j + 1 {
    } else {
      LookedAtIff(run, expected, j, k - 1, d);
      NotLookedAtAgain(run, expected, k - 1, d);
      RunSweepStep(run, expected, k - 1, d);
    }
  }

  lemma RunSweepBegins(run: Execution, expected: string, b: nat)
    requires IsRun(run, expected) && b < |run.actions| && run.actions[b] == SweepBegin
    ensures var s' := run.states[b + 1]; s'.sweep == On(run.states[b].byDcid, run.states[b].byDcid.Keys, {}, {})
  {
    assert Moves(run.states[b], run.actions[b], run.states[b + 1], expected);
  }

  ghost predicate LookedAt(run: Execution, b: nat, k: nat, d: Cid)
    requires k <= |run.actions|
  {
    exists j :: b < j < k && run.actions[j] == SweepLook(d)
  }

  /** A key that was there when the sweep began is yet to be visited, or was looked at. */
  lemma {:induction false} VisitedWasLookedAt(run: Execution, expected: string, b: nat, k: nat, d: Cid)
    requires IsRun(run, expected) && b < k < |run.states| && run.actions[b] == SweepBegin && SameSweep(run, b, k)
    ensures run.states[k].sweep.On? && run.states[k].sweep.began == run.states[b].byDcid
    ensures d in run.states[b].byDcid ==> d in run.states[k].sweep.unvisited || LookedAt(run, b, k, d)
  {
    if k == b + 1 {
      RunSweepBegins(run, expected, b);
    } else {
      VisitedWasLookedAt(run, expected, b, k - 1, d);
      RunSweepStep(run, expected, k - 1, d);
      if run.actions[k - 1] == SweepLook(d) { assert b < k - 1 < k; }
    }
  }

  /** The connection a sweep will find under a key is the one that was there when it began. */
  lemma LookFindsTheSame(run: Execution, expected: string, b: nat, j: nat, d: Cid)
    requires IsRun(run, expected) && b < j < |run.actions| && run.actions[b] == SweepBegin && SameSweep(run, b, j)
    requires run.actions[j] == SweepLook(d)
    ensures d in run.states[b].byDcid && d in run.states[j].byDcid && run.states[j].byDcid[d] == run.states[b].byDcid[d]
  {
    VisitedWasLookedAt(run, expected, b, j, d);
    RunKeepsInv(run, expected, j);
    assert Moves(run.states[j], run.actions[j], run.states[j + 1], expected);
  }

  /** At every moment of a sweep: a connection that had timed out when it began is out of the index once visited, and one
  that has not timed out is still in it. */
  lemma SweepMissesNone(run: Execution, expected: string, b: nat, k: nat, d: Cid)
    requires IsRun(run, expected) && b < k < |run.states| && run.actions[b] == SweepBegin && SameSweep(run, b, k)
    requires d in run.states[b].byDcid
    ensures run.states[k].sweep.On?
    ensures TimedOut(run.states[b], run.states[b].byDcid[d]) && d !in run.states[k].sweep.unvisited ==>
      d !in run.states[k].byDcid
    ensures !TimedOut(run.states[k], run.states[b].byDcid[d]) ==>
      d in run.states[k].byDcid && run.states[k].byDcid[d] == run.states[b].byDcid[d]
  {
    var r := run.states[b].byDcid[d];
    RunKeepsInv(run, expected, b);
    RunKeepsInv(run, expected, k);
    VisitedWasLookedAt(run, expected, b, k, d);
    if TimedOut(run.states[b], r) && d !in run.states[k].sweep.unvisited {
      var j :| b < j < k && run.actions[j] == SweepLook(d);
      LookFindsTheSame(run, expected, b, j, d);
      ObjectsStay(run, expected, b, j, r);
      LookedAtIff(run, expected, j, k, d);
    }
  }

  /** So when a sweep ends, no connection that had timed out when it began is left in either map. */
  lemma SweepLeavesNone(run: Execution, expected: string, b: nat, k: nat, d: Cid)
    requires IsRun(run, expected) && b < k < |run.actions| && run.actions[b] == SweepBegin && SameSweep(run, b, k)
    requires run.actions[k] == SweepEnd && d in run.states[b].byDcid
    requires TimedOut(run.states[b], run.states[b].byDcid[d])
    ensures d !in run.states[k + 1].byDcid
    ensures run.states[b].byDcid[d] !in run.states[k + 1].byId.Values
  {
    var r := run.states[b].byDcid[d];
    assert Moves(run.states[k], run.actions[k], run.states[k + 1], expected);
    SweepMissesNone(run, expected, b, k, d);
    RunKeepsInv(run, expected, b);
    RunKeepsInv(run, expected, k);
    ObjectsStay(run, expected, b, k, r);
    IndexAgreement(run, expected, k);
    assert r !in run.states[k].byDcid.Values by {
      forall d' | d' in run.states[k].byDcid ensures run.states[k].byDcid[d'] != r {
        assert run.states[k].objects[run.states[k].byDcid[d']].dcid == d';
      }
    }
  }

  // ----- What each datagram comes to, when no other thread is in between

  /** A known dcid: the lookup leads to its connection. */
  lemma KnownIsFound(s: State, dcid: Cid, expected: string)
    requires Inv(s, expected) && s.io == Idle && s.sweep == Off && dcid in s.byDcid
    ensures Enabled(s, Lookup(dcid))
    ensures var s' := Apply(s, Lookup(dcid), expected);
      && s' == s.(io := Delivering(s.byDcid[dcid]))
      && s.byDcid[dcid] in s.objects && s.objects[s.byDcid[dcid]].dcid == dcid
  {
  }

  /** An unknown dcid that is refused, or whose connection quiche does not accept: no index changes. */
  lemma UnknownIsRefused(s: State, dcid: Cid, expected: string)
    requires Inv(s, expected) && s.io == Idle && s.sweep == Off && dcid !in s.byDcid
    ensures var s1 := Apply(s, Lookup(dcid), expected);
      && Enabled(s1, Reject) && Apply(s1, Reject, expected) == s
      && Enabled(s1, Create(false))
      && var failed := Apply(s1, Create(false), expected);
      failed.io == Idle && failed.byDcid == s.byDcid && failed.byId == s.byId && failed.history == s.history
  {
  }

  /** One that is admitted and accepted: a new connection with the next id, in both maps under its keys. */
  lemma UnknownIsRegistered(s: State, dcid: Cid, expected: string)
    requires Inv(s, expected) && s.io == Idle && s.sweep == Off && dcid !in s.byDcid && s.created + 1 < TWO_64
    ensures var s1 := Apply(s, Lookup(dcid), expected);
      && Enabled(s1, Create(true))
      && var s2 := Apply(s1, Create(true), expected);
      && Enabled(s2, Register)
      && var s3, r := Apply(s2, Register, expected), s.created;
      && s3.io == Delivering(r) && s3.history == s.history && s3.sweep == Off
      && s3.objects == s.objects[r := Entry(Conn(true, false, false, false), dcid, s.created + 1)]
      && s3.byDcid == s.byDcid[dcid := r] && s3.byId == s.byId[s.created + 1 := r]
  {
  }

  /** And the connection that is found or was registered processes the datagram; nothing else changes. */
  lemma DeliveredIsProcessed(s: State, p: Packet, expected: string)
    requires s.io.Delivering? && s.io.ref in s.objects
    ensures Enabled(s, Deliver(p))
    ensures var s', r := Apply(s, Deliver(p), expected), s.io.ref;
      var o := OnDatagram(s.objects[r].conn, p, expected);
      s' == s.(objects := s.objects[r := s.objects[r].(conn := o.conn)],
               history := s.history + Tagged(r, o.posts), io := Idle)
  {
  }

  /** A flush, by a timer or by the sweep, reports a connection that the transport has closed; a sweep begins with every
  key unvisited. */
  lemma FlushReports(s: State, ref: Ref, closed: bool, expected: string)
    requires ref in s.objects
    ensures var s', o := Apply(s, Tick(ref, closed), expected), TickTimeout(s.objects[ref].conn, closed);
      && s'.history == s.history + Tagged(ref, o.posts) && (TimedOut(s', ref) <==> closed || TimedOut(s, ref))
    ensures Enabled(s, SweepFlush(ref, closed)) ==>
      var s', o := Apply(s, SweepFlush(ref, closed), expected), TickTimeout(s.objects[ref].conn, closed);
      && s'.history == s.history + Tagged(ref, o.posts) && (TimedOut(s', ref) <==> closed || TimedOut(s, ref))
      && s'.sweep == s.sweep.(flushing := {})
    ensures s.sweep == Off ==> Apply(s, SweepBegin, expected) == s.(sweep := On(s.byDcid, s.byDcid.Keys, {}, {}))
  {
  }
}

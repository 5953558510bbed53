/** The sweep of cached responses, whose loop erases while it iterates. */
module CacheSweep {
  import opened Transport
  import opened Transfer
  import opened TransferProofs
  import opened TransferTheorems

  // ----- Which entries stay, for every transport and every state

  /** One turn of the loop removes entry i or lowers its count, and touches no other entry. */
  lemma TryCachedThins(e: Engine, i: nat)
    requires i < |e.cache|
    ensures var t := TryCached(e, i);
      if t.kept then
        && |t.engine.cache| == |e.cache|
        && t.engine.cache[..i] == e.cache[..i]
        && t.engine.cache[i + 1..] == e.cache[i + 1..]
        && t.engine.cache[i] == e.cache[i].(left := t.engine.cache[i].left)
        && t.engine.cache[i].left <= e.cache[i].left
      else
        |t.engine.cache| == |e.cache| - 1 && t.engine.cache[..i] == e.cache[..i] && t.engine.cache[i..] == e.cache[i + 1..]
  {
  }

  /** The state in which the sweep from entry i reaches the entry that was at j, and where that entry then is. */
  function Turn(e: Engine, i: nat, j: nat): (r: (Engine, nat))
    requires i <= j < |e.cache|
    ensures r.1 < |r.0.cache| && r.0.cache[r.1] == e.cache[j]
    decreases |e.cache| - i
  {
    if i == j then (e, i) else
      var t := TryCached(e, i);
      TryCachedThins(e, i);
      SameEntry(e.cache, i + 1, t.engine.cache, if t.kept then i + 1 else i, j - i - 1);
      if t.kept then Turn(t.engine, i + 1, j) else Turn(t.engine, i, j - 1)
  }

  /** For each entry from i on, whether it is still cached after the sweep. */
  function Kept(e: Engine, i: nat): (r: seq<bool>)
    requires i <= |e.cache|
    ensures |r| == |e.cache| - i
    decreases |e.cache| - i
  {
    if i == |e.cache| then [] else
      var t := TryCached(e, i);
      TryCachedThins(e, i);
      [t.kept] + Kept(t.engine, if t.kept then i + 1 else i)
  }

  /** The answers to an entry's headers and body that let it stay: blocked while established, or blocked in the body,
  or a part of the body accepted. */
  predicate Retains(net: Net, c: Cached) {
    var head, body := net.answers(net.calls), net.answers(net.calls + 1);
    || head == Blocked(true)
    || (head.Ok? && c.data != [] && c.left != 0 && (body.Blocked? || (body.Ok? && body.n < c.left)))
  }

  lemma TurnKeeps(e: Engine, i: nat)
    requires i < |e.cache|
    ensures TryCached(e, i).kept <==> Retains(e.net, e.cache[i])
  {
    TryCachedResult(e, i);
  }

  /** Where a later entry is after one turn. */
  lemma LaterEntry(e: Engine, i: nat, j: nat)
    requires i < j < |e.cache|
    ensures var t := TryCached(e, i);
      var i', j' := if t.kept then i + 1 else i, if t.kept then j else j - 1;
      j' < |t.engine.cache| && t.engine.cache[j'] == e.cache[j] && Turn(e, i, j) == Turn(t.engine, i', j')
  {
    var t := TryCached(e, i);
    TryCachedThins(e, i);
    SameEntry(e.cache, i + 1, t.engine.cache, if t.kept then i + 1 else i, j - i - 1);
  }

  lemma LaterKept(e: Engine, i: nat, d: nat)
    requires i + 1 + d < |e.cache|
    ensures var t := TryCached(e, i);
      && (if t.kept then i + 1 else i) + d < |t.engine.cache|
      && Kept(e, i)[d + 1] == Kept(t.engine, if t.kept then i + 1 else i)[d]
  {
    TryCachedThins(e, i);
  }

  lemma SameEntry(before: seq<Cached>, i: nat, after: seq<Cached>, i': nat, d: nat)
    requires i + d < |before| && i' <= |after| && after[i'..] == before[i..]
    ensures i' + d < |after| && after[i' + d] == before[i + d]
  {
    assert |after[i'..]| == |before[i..]|;
    assert after[i'..][d] == before[i..][d];
  }

  /** The sweep does get there: the entry's turn decides whether it stays, and the rest of the sweep follows from it. */
  lemma {:induction false} TurnReached(e: Engine, i: nat, j: nat)
    requires i <= j < |e.cache|
    ensures var (e', k) := Turn(e, i, j);
      Kept(e, i)[j - i] == TryCached(e', k).kept && FlushCacheFrom(e, i) == FlushCacheFrom(e', k)
    decreases |e.cache| - i
  {
    if i == j {
    } else {
      var t := TryCached(e, i);
      LaterEntry(e, i, j);
      LaterKept(e, i, j - i - 1);
      TurnReached(t.engine, if t.kept then i + 1 else i, if t.kept then j else j - 1);
    }
  }

  /** An entry stays if and only if the answers at its turn say so. In particular none whose headers are blocked while
  established is dropped. */
  lemma KeptIff(e: Engine, i: nat, j: nat)
    requires i <= j < |e.cache|
    ensures Kept(e, i)[j - i] <==> Retains(Turn(e, i, j).0.net, e.cache[j])
  {
    TurnReached(e, i, j);
    TurnKeeps(Turn(e, i, j).0, Turn(e, i, j).1);
  }

  /** after is exactly the entries of before that are kept, in their order, each with its stream and body, and owing no
  more than before. */
  ghost predicate Thinned(before: seq<Cached>, kept: seq<bool>, after: seq<Cached>)
    requires |kept| == |before|
  {
    if before == [] then after == []
    else if !kept[0] then Thinned(before[1..], kept[1..], after)
    else
      && after != [] && after[0] == before[0].(left := after[0].left) && after[0].left <= before[0].left
      && Thinned(before[1..], kept[1..], after[1..])
  }

  /** An entry kept, then the rest of the sweep. */
  lemma ThinnedKept(before: seq<Cached>, mid: seq<Cached>, after: seq<Cached>, kept: seq<bool>, i: nat)
    requires i < |before| == |mid| && i < |after| && |kept| == |before| - i && kept[0]
    requires mid[..i] == before[..i] && mid[i + 1..] == before[i + 1..]
    requires mid[i] == before[i].(left := mid[i].left) && mid[i].left <= before[i].left
    requires after[..i + 1] == mid[..i + 1] && Thinned(mid[i + 1..], kept[1..], after[i + 1..])
    ensures after[..i] == before[..i] && Thinned(before[i..], kept, after[i..])
  {
    assert after[i] == after[..i + 1][i] && after[..i] == after[..i + 1][..i];
    assert before[i..][1..] == before[i + 1..] && after[i..][1..] == after[i + 1..];
  }

  /** An entry erased, then the rest of the sweep. */
  lemma ThinnedErased(before: seq<Cached>, mid: seq<Cached>, after: seq<Cached>, kept: seq<bool>, i: nat)
    requires i < |before| && i <= |mid| && i <= |after| && |kept| == |before| - i && !kept[0]
    requires mid[..i] == before[..i] && mid[i..] == before[i + 1..]
    requires after[..i] == mid[..i] && Thinned(mid[i..], kept[1..], after[i..])
    ensures after[..i] == before[..i] && Thinned(before[i..], kept, after[i..])
  {
    assert before[i..][1..] == before[i + 1..];
  }

  lemma {:induction false} SweepThins(e: Engine, i: nat)
    requires i <= |e.cache|
    ensures var after := FlushCacheFrom(e, i).cache;
      i <= |after| && after[..i] == e.cache[..i] && Thinned(e.cache[i..], Kept(e, i), after[i..])
    decreases |e.cache| - i
  {
    if i == |e.cache| {
    } else {
      var t, after, kept := TryCached(e, i), FlushCacheFrom(e, i).cache, Kept(e, i);
      TryCachedThins(e, i);
      SweepThins(t.engine, if t.kept then i + 1 else i);
      assert kept[1..] == Kept(t.engine, if t.kept then i + 1 else i);
      if t.kept {
        ThinnedKept(e.cache, t.engine.cache, after, kept, i);
      } else {
        ThinnedErased(e.cache, t.engine.cache, after, kept, i);
      }
    }
  }

  // ----- What becomes of a response

  /** An entry is still cached, or all of its bytes were counted as accepted; then it is finished exactly when it
  had none. */
  ghost predicate Settled(e: Engine, c: Cached) {
    || c.id in CacheIds(e.cache)
    || Counted(e.net.Stream(c.id), c.data)
  }

  /** The answers on which an entry goes with its response not sent: headers refused otherwise than by blocking an
  established connection, or a body answered by DONE or an outright error. */
  predicate Loses(net: Net, c: Cached) {
    var head, body := net.answers(net.calls), net.answers(net.calls + 1);
    || (!head.Ok? && head != Blocked(true))
    || (head.Ok? && c.data != [] && (body.Done? || body.Failed?))
  }

  lemma TurnSettles(e: Engine, i: nat)
    requires Inv(e) && i < |e.cache| && e.cache[i].id !in e.again
    ensures Settled(TryCached(e, i).engine, e.cache[i]) <==> !Loses(e.net, e.cache[i])
    ensures e.cache[i].id in CacheIds(TryCached(e, i).engine.cache) <==> TryCached(e, i).kept
  {
    var t, c := TryCached(e, i), e.cache[i];
    CachedFacts(e, i);
    TryCachedResult(e, i);
    if t.kept {
      assert t.engine.cache[i] in t.engine.cache && t.engine.cache[i].id == c.id;
    } else {
      CacheEraseKeepsInv(e, EraseCached(e, i), i);
      assert t.engine.cache == EraseCached(e, i).cache;
      if c.left == 0 { DroppedEmpty(e, i); } else { DroppedBody(e, i); }
    }
  }

  /** The whole response went out, as far as the counts tell. */
  ghost predicate Counted(f: seq<Frame>, data: seq<Byte>) {
    |Payload(f)| == |data| && (Finished(f) <==> data == [])
  }

  lemma DroppedEmpty(e: Engine, i: nat)
    requires Inv(e) && i < |e.cache| && e.cache[i].id !in e.again && !TryCached(e, i).kept && e.cache[i].left == 0
    ensures Counted(TryCached(e, i).engine.net.Stream(e.cache[i].id), e.cache[i].data) <==> !Loses(e.net, e.cache[i])
  {
    var c := e.cache[i];
    CachedFacts(e, i);
    TryCachedResult(e, i);
    PayloadConcat(e.net.Stream(c.id), [Head, Fin]);
    FirstFrames([], true);
    assert [Head] + Accepted([], true) == [Head, Fin];
  }

  lemma DroppedBody(e: Engine, i: nat)
    requires Inv(e) && i < |e.cache| && e.cache[i].id !in e.again && !TryCached(e, i).kept && e.cache[i].left > 0
    ensures Counted(TryCached(e, i).engine.net.Stream(e.cache[i].id), e.cache[i].data) <==> !Loses(e.net, e.cache[i])
  {
    var c, f := e.cache[i], e.net.Stream(e.cache[i].id);
    var head, body := e.net.answers(e.net.calls), e.net.answers(e.net.calls + 1);
    var k := if body.Ok? then c.left else 0;
    CachedFacts(e, i);
    TryCachedResult(e, i);
    ResentShape(f, c.data, k);
    if head.Ok? {
      assert TryCached(e, i).engine.net.Stream(c.id) == Resent(f, c.data, k);
    } else {
      assert TryCached(e, i).engine.net.Stream(c.id) == f;
    }
  }

  lemma TryCachedHistory(e: Engine, i: nat)
    requires i < |e.cache|
    ensures TryCached(e, i).engine.jobs == e.jobs && TryCached(e, i).engine.again == e.again
    ensures CacheIds(TryCached(e, i).engine.cache) <= CacheIds(e.cache)
    ensures forall id | id != e.cache[i].id :: TryCached(e, i).engine.net.Stream(id) == e.net.Stream(id)
  {
    var t := TryCached(e, i);
    TryCachedResult(e, i);
    TryCachedThins(e, i);
    if t.kept {
      assert t.engine.cache == e.cache[i := t.engine.cache[i]];
      UpdateKeepsIds(e.cache, i, t.engine.cache[i]);
    } else {
      assert t.engine.cache == e.cache[..i] + e.cache[i + 1..];
      EraseKeepsIds(e.cache, i);
    }
  }

  /** A sweep does not touch what is not cached. */
  lemma {:induction false} SweepSkips(e: Engine, i: nat, id: StreamId)
    requires i <= |e.cache| && id !in CacheIds(e.cache)
    ensures var e' := FlushCacheFrom(e, i); id !in CacheIds(e'.cache) && e'.net.Stream(id) == e.net.Stream(id)
    decreases |e.cache| - i
  {
    if i == |e.cache| {
    } else {
      var t := TryCached(e, i);
      TryCachedHistory(e, i);
      assert e.cache[i] in e.cache;
      SweepSkips(t.engine, if t.kept then i + 1 else i, id);
    }
  }

  lemma {:induction false} TurnKeepsInv(e: Engine, i: nat, j: nat)
    requires Inv(e) && i <= j < |e.cache|
    ensures Inv(Turn(e, i, j).0) && Turn(e, i, j).0.again == e.again
    decreases |e.cache| - i
  {
    if i == j {
    } else {
      var t := TryCached(e, i);
      TryCachedKeepsInv(e, t.engine, i);
      TryCachedHistory(e, i);
      LaterEntry(e, i, j);
      TurnKeepsInv(t.engine, if t.kept then i + 1 else i, if t.kept then j else j - 1);
    }
  }

  /** What the sweep makes of the entry it is at. */
  lemma SweepHere(e: Engine, i: nat)
    requires Inv(e) && i < |e.cache| && e.cache[i].id !in e.again
    ensures var e', c := FlushCacheFrom(e, i), e.cache[i];
      (Settled(e', c) <==> !Loses(e.net, c)) && (c.id in CacheIds(e'.cache) <==> Retains(e.net, c))
  {
    var t, c := TryCached(e, i), e.cache[i];
    TurnSettles(e, i);
    TurnKeeps(e, i);
    TryCachedThins(e, i);
    if t.kept { StaysBehind(t.engine, i); } else { SweepSkips(t.engine, i, c.id); }
  }

  /** The exact outcome, on every transport: after a sweep a response is still cached, or its accepted byte count has
  reached the length of its body, unless the answers at its turn lost it. Only an empty response is finished. */
  lemma SweepSettles(e: Engine, i: nat, j: nat)
    requires Inv(e) && i <= j < |e.cache| && e.cache[j].id !in e.again
    ensures var e', c, turn := FlushCacheFrom(e, i), e.cache[j], Turn(e, i, j).0;
      && (Settled(e', c) <==> !Loses(turn.net, c))
      && (c.id in CacheIds(e'.cache) <==> Retains(turn.net, c))
  {
    TurnKeepsInv(e, i, j);
    TurnReached(e, i, j);
    SweepHere(Turn(e, i, j).0, Turn(e, i, j).1);
  }

  /** What the sweep has passed stays cached. */
  lemma StaysBehind(e: Engine, i: nat)
    requires i < |e.cache|
    ensures e.cache[i].id in CacheIds(FlushCacheFrom(e, i + 1).cache)
  {
    var after := FlushCacheFrom(e, i + 1).cache;
    SweepThins(e, i + 1);
    assert after[i] == after[..i + 1][i] == e.cache[i] && after[i] in after;
  }

  /** A response dropped with nothing of its body sent: the headers go out, the body is answered by DONE. */
  lemma DroppedBodyExample()
    ensures var e := FlushCacheFrom(SendResponse(Start([Blocked(true), Ok(0), Done]), 4, [1, 2]), 0);
      e.cache == [] && e.net.Stream(4) == [Head]
  {
    var e := SendResponse(Start([Blocked(true), Ok(0), Done]), 4, [1, 2]);
    TryCachedResult(e, 0);
    assert FlushCacheFrom(e, 0) == TryCached(e, 0).engine;
    assert Resent([], [1, 2], 0) == [Head];
  }

  /** In every state of every run an entry's count of bytes left is its length less what was accepted, and what was
  accepted is a series of prefixes of the body: the send never starts from where it stopped. */
  lemma CachedAccounting(e: Engine, ops: seq<Op>, i: nat)
    requires Initial(e) && i < |Run(e, ops).cache| && Run(e, ops).cache[i].id !in Run(e, ops).again
    ensures var e' := Run(e, ops);
      var c, f := e'.cache[i], e'.net.Stream(e'.cache[i].id);
      && c.left == |c.data| - |Payload(f)|
      && ChunksArePrefixes(f, c.data)
      && !Finished(f)
  {
    InitialInv(e);
    RunKeepsInv(e, ops);
    CachedFacts(Run(e, ops), i);
  }
}

/** The pool of send buffers shared by all threads, and the ownership of buffers through it. */
module Allocator {

  // ----- The pool as a machine over its critical sections

  type Buffer = nat

  type Tid = nat

  /** Who has a buffer that is not in the pool: a thread, or an asynchronous send. */
  datatype Holder = Thread(t: Tid) | Flying

  datatype Claim = Claim(holder: Holder, buffer: Buffer)

  /** observed is what each thread last read from the counter, without the lock; made counts the buffers created. */
  datatype Pool = Pool(free: seq<Buffer>, count: nat, claims: seq<Claim>, observed: map<Tid, nat>, made: nat)

  datatype Action =
    | Observe(t: Tid)        // Allocate reads the counter without the lock
    | Take(t: Tid)           // the rest of Allocate
    | Send(claim: nat)       // async_send_to takes the buffer over
    | Completed(claim: nat)  // the completion handler frees it
    | Free(claim: nat)       // a thread frees it
    | Drop(claim: nat)       // the last reference goes away outside the pool

  predicate Enabled(p: Pool, a: Action) {
    match a
    case Observe(_) => true
    case Take(t) => t in p.observed
    case Send(i) => i < |p.claims| && p.claims[i].holder.Thread?
    case Completed(i) => i < |p.claims| && p.claims[i].holder.Flying?
    case Free(i) => i < |p.claims| && p.claims[i].holder.Thread?
    case Drop(i) => i < |p.claims| && p.claims[i].holder.Thread?
  }

  function Without<T>(s: seq<T>, i: nat): seq<T>
    requires i < |s|
  {
    s[..i] + s[i + 1..]
  }

  /** The pool after Allocate: the last free buffer if the counter read as positive and one is there, else a new one. */
  function Allocated(p: Pool, observed: nat, holder: Holder): Pool {
    if observed > 0 && p.free != [] then
      p.(free := p.free[..|p.free| - 1], count := if p.count > 0 then p.count - 1 else 0,
         claims := p.claims + [Claim(holder, p.free[|p.free| - 1])])
    else
      p.(claims := p.claims + [Claim(holder, p.made)], made := p.made + 1)
  }

  function Apply(p: Pool, a: Action): Pool
    requires Enabled(p, a)
  {
    match a
    case Observe(t) => p.(observed := p.observed[t := p.count])
    case Take(t) => Allocated(p, p.observed[t], Thread(t)).(observed := p.observed - {t})
    case Send(i) => p.(claims := p.claims[i := p.claims[i].(holder := Flying)])
    case Completed(i) =>
      p.(free := p.free + [p.claims[i].buffer], count := p.count + 1, claims := Without(p.claims, i))
    case Free(i) =>
      p.(free := p.free + [p.claims[i].buffer], count := p.count + 1, claims := Without(p.claims, i))
    case Drop(i) => p.(claims := Without(p.claims, i))
  }

  predicate Initial(p: Pool) {
    p == Pool([], 0, [], map[], 0)
  }

  /** Every buffer is in one place: once in the pool, or with one holder. The counter is the pool's length. */
  ghost predicate Linear(p: Pool) {
    && p.count == |p.free|
    && (forall i | 0 <= i < |p.free| :: p.free[i] < p.made)
    && (forall i | 0 <= i < |p.claims| :: p.claims[i].buffer < p.made)
    && (forall i, j | 0 <= i < j < |p.free| :: p.free[i] != p.free[j])
    && (forall i, j | 0 <= i < j < |p.claims| :: p.claims[i].buffer != p.claims[j].buffer)
    && (forall i, j | 0 <= i < |p.free| && 0 <= j < |p.claims| :: p.free[i] != p.claims[j].buffer)
  }

  lemma AllocatedIsLinear(p: Pool, observed: nat, holder: Holder)
    requires Linear(p)
    ensures Linear(Allocated(p, observed, holder))
  {
  }

  /** The end of a claim, with the buffer going back to the pool or away. */
  lemma ReleasedIsLinear(p: Pool, p': Pool, i: nat, back: bool)
    requires Linear(p) && i < |p.claims| && p'.claims == Without(p.claims, i) && p'.made == p.made
    requires p'.free == p.free + (if back then [p.claims[i].buffer] else []) && p'.count == |p'.free|
    ensures Linear(p')
  {
  }

  lemma ApplyKeepsLinear(p: Pool, a: Action)
    requires Linear(p) && Enabled(p, a)
    ensures Linear(Apply(p, a))
  {
    match a
    case Observe(_) =>
    case Take(t) => AllocatedIsLinear(p, p.observed[t], Thread(t));
    case Send(_) =>
    case Completed(i) => ReleasedIsLinear(p, Apply(p, a), i, true);
    case Free(i) => ReleasedIsLinear(p, Apply(p, a), i, true);
    case Drop(i) => ReleasedIsLinear(p, Apply(p, a), i, false);
  }

  function Run(p: Pool, actions: seq<Action>): Pool
    requires EnabledRun(p, actions)
    decreases |actions|
  {
    if actions == [] then p else Run(Apply(p, actions[0]), actions[1..])
  }

  predicate EnabledRun(p: Pool, actions: seq<Action>)
    decreases |actions|
  {
    actions == [] || (Enabled(p, actions[0]) && EnabledRun(Apply(p, actions[0]), actions[1..]))
  }

  /** In every interleaving, with counter reads as stale as they may be, no buffer is handed to two holders, none is
  both free and held, and the counter is exact whenever the lock is free. */
  lemma {:induction false} RunIsLinear(p: Pool, actions: seq<Action>)
    requires Linear(p) && EnabledRun(p, actions)
    ensures Linear(Run(p, actions))
    decreases |actions|
  {
    if actions == [] {
    } else {
      ApplyKeepsLinear(p, actions[0]);
      RunIsLinear(Apply(p, actions[0]), actions[1..]);
    }
  }

  lemma EveryRunIsLinear(p: Pool, actions: seq<Action>)
    requires Initial(p) && EnabledRun(p, actions)
    ensures Linear(Run(p, actions))
  {
    RunIsLinear(p, actions);
  }

  function Drops(actions: seq<Action>): nat {
    if actions == [] then 0 else (if actions[0].Drop? then 1 else 0) + Drops(actions[1..])
  }

  /** Nothing gets lost but what is dropped: buffers made, less those dropped, are in the pool or held. */
  lemma {:induction false} RunConserves(p: Pool, actions: seq<Action>)
    requires EnabledRun(p, actions)
    ensures var p' := Run(p, actions);
      |p'.free| + |p'.claims| + Drops(actions) + p.made == |p.free| + |p.claims| + p'.made
    decreases |actions|
  {
    if actions == [] {
    } else {
      RunConserves(Apply(p, actions[0]), actions[1..]);
    }
  }

  /** A buffer that is freed or whose send completes is the next to be handed out, and no new one is made for it. */
  lemma FreedIsReused(p: Pool, i: nat, t: Tid, flying: bool)
    requires Linear(p) && i < |p.claims| && p.claims[i].holder.Flying? == flying
    ensures var a := if flying then Completed(i) else Free(i);
      && Enabled(p, a)
      && var p1 := Apply(Apply(p, a), Observe(t));
      && Enabled(p1, Take(t))
      && var p2 := Apply(p1, Take(t));
      && p2.free == p.free && p2.made == p.made
      && p2.claims == Without(p.claims, i) + [Claim(Thread(t), p.claims[i].buffer)]
  {
  }

  // ----- The pool over buffer objects

  class SendBuffer {
    var length: int

    constructor ()
      ensures length == 0
    {
      length := 0;
    }
  }

  class SendAllocator {
    var freeBuffers: seq<SendBuffer>
    var count: nat

    ghost predicate Valid()
      reads this
    {
      && count == |freeBuffers|
      && forall i, j | 0 <= i < j < |freeBuffers| :: freeBuffers[i] != freeBuffers[j]
    }

    constructor ()
      ensures Valid() && freeBuffers == []
    {
      freeBuffers, count := [], 0;
    }

    /** observed is the value of the counter read before the lock was taken. */
    method Allocate(observed: nat) returns (buffer: SendBuffer)
      requires Valid()
      modifies this
      ensures Valid() && buffer !in freeBuffers
      ensures if observed > 0 && old(freeBuffers) != [] then old(freeBuffers) == freeBuffers + [buffer]
              else freeBuffers == old(freeBuffers) && fresh(buffer)
    {
      if observed > 0 {
        if freeBuffers != [] {
          buffer := freeBuffers[|freeBuffers| - 1];
          freeBuffers := freeBuffers[..|freeBuffers| - 1];
          count := count - 1;
          return;
        }
      }
      buffer := new SendBuffer();
    }

    method Free(buffer: SendBuffer)
      modifies this
      ensures freeBuffers == old(freeBuffers) + [buffer] && count == old(count) + 1
      ensures old(Valid()) && buffer !in old(freeBuffers) ==> Valid()
    {
      freeBuffers := freeBuffers + [buffer];
      count := count + 1;
    }
  }

  /** What quiche_conn_send answers: a packet of some length, DONE, or an error. */
  datatype Written = Packet(length: nat) | Done | Error

  /** The lengths of the packets before the first answer that is not a packet. */
  function Lengths(written: seq<Written>): seq<int>
  {
    if written == [] || !written[0].Packet? then [] else [written[0].length] + Lengths(written[1..])
  }

  lemma {:induction false} LengthsOfPrefix(written: seq<Written>, n: nat)
    requires n <= |written| && (forall i | 0 <= i < n :: written[i].Packet?)
    requires n == |written| || !written[n].Packet?
    ensures |Lengths(written)| == n
    ensures forall i | 0 <= i < n :: Lengths(written)[i] == written[i].length
  {
    if n == 0 {
    } else {
      LengthsOfPrefix(written[1..], n - 1);
    }
  }

  /** Pairwise different, and none in the pool. */
  ghost predicate Owned(pool: SendAllocator, buffers: seq<SendBuffer>)
    reads pool
  {
    && (forall i, j | 0 <= i < j < |buffers| :: buffers[i] != buffers[j])
    && (forall i | 0 <= i < |buffers| :: buffers[i] !in pool.freeBuffers)
  }

  /** The emission loop of FlushEgress for one call: each packet goes out in its own buffer, and one buffer, never one
  that is being sent, is left in the caller's hand, even after an error. The answers come from written and, once they
  are used up, are DONE; the counter reads may be stale. */
  method EmitPackets(pool: SendAllocator, inHand: SendBuffer?, written: seq<Written>, observed: nat -> nat)
    returns (buffer: SendBuffer, flying: seq<SendBuffer>, sent: bool)
    requires pool.Valid() && (inHand != null ==> inHand !in pool.freeBuffers)
    modifies pool, inHand, pool.freeBuffers
    ensures pool.Valid() && pool.freeBuffers <= old(pool.freeBuffers)
    ensures Owned(pool, flying + [buffer])
    ensures sent <==> flying != []
    ensures |flying| == |Lengths(written)|
    ensures forall i | 0 <= i < |flying| :: flying[i].length == Lengths(written)[i]
  {
    if inHand == null {
      buffer := pool.Allocate(observed(0));
    } else {
      buffer := inHand;
    }
    flying, sent := [], false;
    var i := 0;
    while i < |written|
      invariant i <= |written| && |flying| == i
      invariant pool.Valid() && pool.freeBuffers <= old(pool.freeBuffers)
      invariant Owned(pool, flying + [buffer])
      invariant buffer == inHand || buffer in old(pool.freeBuffers) || fresh(buffer)
      invariant sent <==> flying != []
      invariant forall k | 0 <= k < i :: written[k].Packet? && flying[k].length == written[k].length
    {
      if written[i].Done? || written[i].Error? {
        LengthsOfPrefix(written, i);
        return;
      }
      assert forall k | 0 <= k < i :: (flying + [buffer])[k] != (flying + [buffer])[i];
      assert forall k | 0 <= k < i :: (flying + [buffer])[k] == flying[k];
      buffer.length := written[i].length;
      var next := AllocateAnother(pool, flying + [buffer], observed(i + 1));
      flying := flying + [buffer];
      buffer := next;
      sent := true;
      i := i + 1;
    }
    LengthsOfPrefix(written, i);
  }

  /** The form of FlushEgress that brings no buffer: whatever is left in hand goes to the pool, so that afterwards
  every buffer it touched is in the pool or in flight, and none is in both. */
  method EmitAndFree(pool: SendAllocator, written: seq<Written>, observed: nat -> nat)
    returns (flying: seq<SendBuffer>, sent: bool, ghost last: SendBuffer)
    requires pool.Valid()
    modifies pool, pool.freeBuffers
    ensures pool.Valid() && Owned(pool, flying)
    ensures pool.freeBuffers != [] && pool.freeBuffers[|pool.freeBuffers| - 1] == last && last !in flying
    ensures pool.freeBuffers[..|pool.freeBuffers| - 1] <= old(pool.freeBuffers)
    ensures sent <==> flying != []
    ensures |flying| == |Lengths(written)|
    ensures forall i | 0 <= i < |flying| :: flying[i].length == Lengths(written)[i]
  {
    var buffer;
    buffer, flying, sent := EmitPackets(pool, null, written, observed);
    assert forall i | 0 <= i < |flying| :: (flying + [buffer])[i] == flying[i];
    assert (flying + [buffer])[|flying|] == buffer;
    pool.Free(buffer);
    last := buffer;
  }

  /** Allocate, seen from a thread that owns some buffers: the new one is none of them. */
  method AllocateAnother(pool: SendAllocator, owned: seq<SendBuffer>, observed: nat) returns (buffer: SendBuffer)
    requires pool.Valid() && Owned(pool, owned)
    modifies pool
    ensures pool.Valid() && pool.freeBuffers <= old(pool.freeBuffers)
    ensures Owned(pool, owned + [buffer])
    ensures buffer in old(pool.freeBuffers) || fresh(buffer)
  {
    buffer := pool.Allocate(observed);
    assert pool.freeBuffers != old(pool.freeBuffers) ==> old(pool.freeBuffers)[|pool.freeBuffers|] == buffer;
  }
}

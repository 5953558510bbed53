/** Any number of threads running the entry points of module Locks, interleaved at every lock operation. */
module Deadlock {
  import opened Locks
  import opened Options

  type Tid = nat

  datatype Thread = Thread(held: seq<Lock>, todo: Script)

  type Threads = map<Tid, Thread>

  datatype Step = Begin(t: Tid, e: Entry) | Go(t: Tid)

  ghost predicate Holds(s: Threads, t: Tid, l: Lock) {
    t in s && l in s[t].held
  }

  /** A mutex excludes other threads; the connection mutex lets its owner in again. */
  ghost predicate Enabled(s: Threads, step: Step) {
    match step
    case Begin(t, _) => t in s && s[t].todo == []
    case Go(t) =>
      t in s && s[t].todo != [] &&
      (s[t].todo[0].Acquire? ==>
         var l := s[t].todo[0].lock;
         (forall u | u in s && u != t :: l !in s[u].held) && (l in s[t].held ==> l.ConnLock?))
  }

  function Do(th: Thread): Thread
    requires th.todo != []
  {
    match th.todo[0]
    case Acquire(l) => Thread(th.held + [l], th.todo[1..])
    case Touch(_) => Thread(th.held, th.todo[1..])
    case Release(l) => Thread(if th.held == [] then [] else th.held[..|th.held| - 1], th.todo[1..])
  }

  ghost function Apply(s: Threads, step: Step): Threads
    requires Enabled(s, step)
  {
    match step
    case Begin(t, e) => s[t := Thread(s[t].held, EntryScript(e))]
    case Go(t) => s[t := Do(s[t])]
  }

  ghost predicate Initial(s: Threads) {
    forall t | t in s :: s[t] == Thread([], [])
  }

  /** Mutual exclusion, and every thread keeps to the order until it holds nothing. */
  ghost predicate Inv(s: Threads) {
    && (forall t | t in s :: Exec(s[t].held, s[t].todo) == Some([]))
    && (forall t, u, l | Holds(s, t, l) && Holds(s, u, l) :: t == u)
  }

  lemma StepKeepsInv(s: Threads, step: Step)
    requires Inv(s) && Enabled(s, step)
    ensures Inv(Apply(s, step))
  {
    var s', t := Apply(s, step), step.t;
    assert Exec(s[t].held, s[t].todo) == Some([]);
    if step.Begin? { EntryBalanced(step.e); }
    forall a, l | Holds(s', a, l) && a != t ensures Holds(s, a, l) && !Holds(s', t, l) {
      assert Holds(s, a, l);
      assert !Holds(s, t, l);
      if step.Go? { DoHolds(s[t], l); }
    }
  }

  lemma DoHolds(th: Thread, l: Lock)
    requires th.todo != []
    ensures l in Do(th).held ==> l in th.held || th.todo[0] == Acquire(l)
  {
  }

  ghost predicate IsRun(states: seq<Threads>, steps: seq<Step>) {
    && |states| == |steps| + 1 && Initial(states[0])
    && forall i | 0 <= i < |steps| :: Enabled(states[i], steps[i]) && states[i + 1] == Apply(states[i], steps[i])
  }

  lemma {:induction false} RunKeepsInv(states: seq<Threads>, steps: seq<Step>, k: nat)
    requires IsRun(states, steps) && k < |states|
    ensures Inv(states[k])
  {
    if k == 0 {
    } else {
      RunKeepsInv(states, steps, k - 1);
      StepKeepsInv(states[k - 1], steps[k - 1]);
    }
  }

  /** No two threads are at work on what one lock protects, in any state of any run, and whoever is holds the lock. */
  lemma NoRace(states: seq<Threads>, steps: seq<Step>, k: nat, t: Tid, u: Tid, l: Lock)
    requires IsRun(states, steps) && k < |states| && t in states[k] && u in states[k]
    requires states[k][t].todo != [] && states[k][t].todo[0] == Touch(l)
    ensures Holds(states[k], t, l)
    ensures states[k][u].todo != [] && states[k][u].todo[0] == Touch(l) ==> t == u
  {
    RunKeepsInv(states, steps, k);
    var s := states[k];
    assert Exec(s[t].held, s[t].todo) == Some([]);
    assert Exec(s[u].held, s[u].todo) == Some([]);
    if s[u].todo != [] && s[u].todo[0] == Touch(l) { assert Holds(s, t, l) && Holds(s, u, l); }
  }

  // ----- Waiting

  /** t is about to acquire a lock that u holds. */
  ghost predicate Waits(s: Threads, t: Tid, u: Tid) {
    t in s && u != t && s[t].todo != [] && s[t].todo[0].Acquire? && Holds(s, u, s[t].todo[0].lock)
  }

  /** The rank of the lock a thread is about to acquire. */
  function Level(s: Threads, t: Tid): int {
    if t in s && s[t].todo != [] && s[t].todo[0].Acquire? then s[t].todo[0].lock.Rank() else -1
  }

  /** Whoever is waited for waits, if at all, for a lock of higher rank. */
  lemma WaitingClimbs(s: Threads, t: Tid, u: Tid, v: Tid)
    requires Inv(s) && Waits(s, t, u) && Waits(s, u, v)
    ensures Level(s, t) < Level(s, u)
  {
    var l := s[u].todo[0].lock;
    assert MayAcquire(s[u].held, l);
    assert l !in s[u].held by {
      if l in s[u].held { assert Holds(s, u, l) && Holds(s, v, l); }
    }
  }

  ghost predicate WaitChain(s: Threads, chain: seq<Tid>) {
    |chain| >= 2 && forall i | 0 <= i < |chain| - 1 :: Waits(s, chain[i], chain[i + 1])
  }

  lemma {:induction false} ChainClimbs(s: Threads, chain: seq<Tid>, k: nat)
    requires Inv(s) && WaitChain(s, chain) && k < |chain| - 1
    ensures Level(s, chain[k]) >= Level(s, chain[0]) + k
  {
    assert Waits(s, chain[k], chain[k + 1]);
    if k > 0 {
      ChainClimbs(s, chain, k - 1);
      assert Waits(s, chain[k - 1], chain[k]);
      WaitingClimbs(s, chain[k - 1], chain[k], chain[k + 1]);
    }
  }

  /** In every state of every run the wait-for graph has no cycle, and no chain of it is longer than three. */
  lemma NoWaitCycle(states: seq<Threads>, steps: seq<Step>, k: nat, chain: seq<Tid>)
    requires IsRun(states, steps) && k < |states| && WaitChain(states[k], chain)
    ensures chain[0] != chain[|chain| - 1] && |chain| <= 4
  {
    var s, n := states[k], |chain|;
    RunKeepsInv(states, steps, k);
    assert Waits(s, chain[0], chain[1]);
    ChainClimbs(s, chain, n - 2);
    assert Waits(s, chain[n - 2], chain[n - 1]);
    if chain[0] == chain[n - 1] {
      WaitingClimbs(s, chain[n - 2], chain[n - 1], chain[1]);
    }
  }

  /** A thread with work left that cannot go waits for some other thread, which has work left too. */
  lemma StuckWaits(s: Threads, t: Tid) returns (u: Tid)
    requires Inv(s) && t in s && s[t].todo != [] && !Enabled(s, Go(t))
    ensures Waits(s, t, u) && u in s && s[u].todo != []
  {
    var l := s[t].todo[0].lock;
    assert MayAcquire(s[t].held, l);
    u :| u in s && u != t && l in s[u].held;
    assert Holds(s, u, l);
    assert Exec(s[u].held, s[u].todo) == Some([]);
  }

  lemma {:induction false} SomeoneGoes(s: Threads, t: Tid) returns (u: Tid)
    requires Inv(s) && t in s && s[t].todo != []
    ensures Enabled(s, Go(u))
    decreases 3 - Level(s, t)
  {
    if Enabled(s, Go(t)) {
      u := t;
    } else {
      var v := StuckWaits(s, t);
      if Enabled(s, Go(v)) {
        u := v;
      } else {
        var w := StuckWaits(s, v);
        WaitingClimbs(s, t, v, w);
        u := SomeoneGoes(s, v);
      }
    }
  }

  /** No deadlock: while any thread is inside an entry point, some thread inside one can take its next step. */
  lemma DeadlockFree(states: seq<Threads>, steps: seq<Step>, k: nat, t: Tid)
    requires IsRun(states, steps) && k < |states| && t in states[k] && states[k][t].todo != []
    ensures exists u :: Enabled(states[k], Go(u))
  {
    RunKeepsInv(states, steps, k);
    var u := SomeoneGoes(states[k], t);
  }
}

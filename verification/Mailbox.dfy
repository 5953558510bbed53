/** The mailbox between the threads that post events and the application thread that polls them. Poll swaps the queue
out under the lock and calls back without it, so posts run between callbacks. */
module Mailbox {

  /** posted, taken and delivered are the history; taken holds what Poll has swapped out, the last of it perhaps still
  in hand. */
  datatype State<T> = State(events: seq<T>, terminated: bool, posted: seq<T>, taken: seq<T>, delivered: seq<T>)

  datatype Action<T> =
    | Post(event: T)
    | Shutdown
    | Swap     // the locked section of Poll
    | Callback // one callback of Poll, without the lock

  function InHand<T>(s: State<T>): seq<T> {
    if |s.delivered| <= |s.taken| then s.taken[|s.delivered|..] else []
  }

  /** Poll swaps once and then works through its batch before it is called again; its wait ends when there are events,
  at the shutdown, or by timeout, so the section may find nothing. */
  predicate Enabled<T(==)>(s: State<T>, a: Action<T>) {
    match a
    case Swap => InHand(s) == []
    case Callback => InHand(s) != []
    case _ => true
  }

  function Apply<T>(s: State<T>, a: Action<T>): State<T>
    requires Enabled(s, a)
  {
    match a
    case Post(event) => s.(events := s.events + [event], posted := s.posted + [event])
    case Shutdown => s.(terminated := true)
    case Swap => if s.terminated || s.events == [] then s else s.(events := [], taken := s.taken + s.events)
    case Callback => s.(delivered := s.delivered + [InHand(s)[0]])
  }

  predicate Initial<T(==)>(s: State<T>) {
    s.events == [] && !s.terminated && s.posted == [] && s.taken == [] && s.delivered == []
  }

  function Run<T>(s: State<T>, actions: seq<Action<T>>): State<T>
    requires EnabledRun(s, actions)
    decreases |actions|
  {
    if actions == [] then s else Run(Apply(s, actions[0]), actions[1..])
  }

  ghost predicate EnabledRun<T>(s: State<T>, actions: seq<Action<T>>)
    decreases |actions|
  {
    actions != [] ==> Enabled(s, actions[0]) && EnabledRun(Apply(s, actions[0]), actions[1..])
  }

  /** The mailbox is a queue: what was called back, what is in hand and what waits is what was posted, in order. */
  ghost predicate IsQueue<T>(s: State<T>) {
    s.delivered + InHand(s) + s.events == s.posted && s.delivered <= s.taken
  }

  lemma ApplyKeepsQueue<T>(s: State<T>, a: Action<T>)
    requires IsQueue(s) && Enabled(s, a)
    ensures IsQueue(Apply(s, a))
  {
    var s', d, h := Apply(s, a), s.delivered, InHand(s);
    match a
    case Post(event) => assert d + h + (s.events + [event]) == d + h + s.events + [event];
    case Shutdown =>
    case Swap =>
      if s' != s {
        assert InHand(s') == s.events;
        assert d + [] == d && d + s.events + [] == d + s.events;
      }
    case Callback =>
      assert h == [h[0]] + InHand(s');
      assert d + h == s'.delivered + InHand(s');
  }

  /** No event is lost, duplicated or reordered in any interleaving of posts, polls and the shutdown. */
  lemma {:induction false} RunIsQueue<T>(s: State<T>, actions: seq<Action<T>>)
    requires IsQueue(s) && EnabledRun(s, actions)
    ensures IsQueue(Run(s, actions))
    decreases |actions|
  {
    if actions == [] {
    } else {
      ApplyKeepsQueue(s, actions[0]);
      RunIsQueue(Apply(s, actions[0]), actions[1..]);
    }
  }

  lemma EveryRunIsQueue<T>(s: State<T>, actions: seq<Action<T>>)
    requires Initial(s) && EnabledRun(s, actions)
    ensures IsQueue(Run(s, actions))
  {
    RunIsQueue(s, actions);
  }

  /** A swap that is not stopped by the shutdown takes all there is, so that once its callbacks have run, everything
  posted by then has been delivered. */
  lemma SwapTakesAll<T>(s: State<T>)
    requires IsQueue(s) && !s.terminated && Enabled(s, Swap)
    ensures var s' := Apply(s, Swap);
      s'.events == [] && s'.taken == s'.posted == s.posted && s'.delivered == s.delivered
  {
  }

  /** A batch in hand can be worked through, one event a callback. */
  lemma {:induction false} CallbacksDeliver<T>(s: State<T>, n: nat)
    requires IsQueue(s) && n == |InHand(s)|
    ensures var actions := seq(n, _ => Action<T>.Callback);
      EnabledRun(s, actions) && Run(s, actions) == s.(delivered := s.taken)
    decreases n
  {
    var actions := seq(n, _ => Action<T>.Callback);
    if n == 0 {
      assert s.delivered == s.taken;
    } else {
      ApplyKeepsQueue(s, Callback);
      CallbacksDeliver(Apply(s, Callback), n - 1);
      assert actions[1..] == seq(n - 1, _ => Action<T>.Callback);
    }
  }

  /** The shutdown is what ends it: from there on nothing is taken. */
  lemma ShutdownStops<T>(s: State<T>, actions: seq<Action<T>>)
    requires IsQueue(s) && EnabledRun(Apply(s, Shutdown), actions)
    ensures Apply(s, Shutdown).terminated && Run(Apply(s, Shutdown), actions).taken == s.taken
  {
    ApplyKeepsQueue(s, Shutdown);
    NothingTakenAfterShutdown(Apply(s, Shutdown), actions);
  }

  /** After the shutdown no further batch is taken; only the one in hand is finished. */
  lemma {:induction false} NothingTakenAfterShutdown<T>(s: State<T>, actions: seq<Action<T>>)
    requires IsQueue(s) && s.terminated && EnabledRun(s, actions)
    ensures Run(s, actions).taken == s.taken && Run(s, actions).delivered <= s.taken
    decreases |actions|
  {
    if actions == [] {
    } else {
      ApplyKeepsQueue(s, actions[0]);
      NothingTakenAfterShutdown(Apply(s, actions[0]), actions[1..]);
    }
  }

  /** The application's side of a callback. */
  class Sink<T> {
    var seen: seq<T>

    method Call(event: T)
      modifies this
      ensures seen == old(seen) + [event]
    {
      seen := seen + [event];
    }
  }

  class QuicheMailbox<T(==)> {
    var events: seq<T>
    var terminated: bool
    ghost var posted: seq<T>
    ghost var taken: seq<T>

    /** The history kept beside the queue, seen between two polls. */
    ghost function View(): State<T>
      reads this
    {
      State(events, terminated, posted, taken, taken)
    }

    constructor ()
      ensures Initial(View())
    {
      events, terminated, posted, taken := [], false, [], [];
    }

    method Post(event: T)
      modifies this
      ensures View() == Apply(old(View()), Action.Post(event))
    {
      events := events + [event];
      posted := posted + [event];
    }

    method Shutdown()
      modifies this
      ensures View() == Apply(old(View()), Action.Shutdown)
    {
      terminated := true;
    }

    /** One Poll whose callbacks nothing interrupts: the swap, and a callback for each event of the batch in order. */
    method Poll(sink: Sink<T>)
      modifies this, sink
      ensures var before, batch := old(View()), if old(terminated) then [] else old(events);
        && Apply(before, Swap).(delivered := taken) == View()
        && taken == before.taken + batch
        && sink.seen == old(sink.seen) + batch
    {
      if terminated || events == [] {
        return;
      }
      var batch := events;
      events := [];
      taken := taken + batch;
      for i := 0 to |batch|
        invariant sink.seen == old(sink.seen) + batch[..i]
        invariant unchanged(`terminated) && events == [] && taken == old(taken) + batch && posted == old(posted)
      {
        sink.Call(batch[i]);
        assert batch[..i + 1] == batch[..i] + [batch[i]];
      }
      assert batch[..|batch|] == batch;
    }
  }
}

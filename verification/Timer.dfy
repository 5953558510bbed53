/** The timer of one connection: TickTimeout arms it under the mutex, the handler clears the flag without it. */
module Timer {

  /** How far a TickTimeout that found the flag clear has come; the mutex admits one at a time. */
  datatype Arming = Idle | Checked | Flagged

  /** flag is timer_set_; outstanding counts registered waits; firing counts handlers taken off the queue that have not
  yet cleared the flag. */
  datatype State = State(flag: bool, outstanding: nat, firing: nat, arming: Arming)

  datatype Step = Check | SetFlag | Register | Abandon | Fire | Clear

  predicate Enabled(s: State, step: Step) {
    match step
    case Check => s.arming == Idle
    case SetFlag => s.arming == Checked
    case Register => s.arming == Flagged
    case Abandon => s.arming == Checked
    case Fire => s.outstanding > 0
    case Clear => s.firing > 0
  }

  /** Check reads the flag; Abandon is the branch that finds no delay to wait for; SetFlag resets the expiry, which
  completes any wait still registered, and sets the flag; Register starts the wait. */
  function Apply(s: State, step: Step): State
    requires Enabled(s, step)
  {
    match step
    case Check => if s.flag then s else s.(arming := Checked)
    case SetFlag => State(true, 0, s.firing + s.outstanding, Flagged)
    case Register => s.(outstanding := s.outstanding + 1, arming := Idle)
    case Abandon => s.(arming := Idle)
    case Fire => s.(outstanding := s.outstanding - 1, firing := s.firing + 1)
    case Clear => s.(firing := s.firing - 1, flag := false)
  }

  predicate Initial(s: State) {
    s == State(false, 0, 0, Idle)
  }

  /** The flag is set exactly while one timer is between its arming and its handler. */
  predicate OneTimer(s: State) {
    && s.outstanding + s.firing + (if s.arming == Flagged then 1 else 0) == (if s.flag then 1 else 0)
    && (s.arming == Checked ==> !s.flag)
  }

  function Run(s: State, steps: seq<Step>): State
    requires EnabledRun(s, steps)
    decreases |steps|
  {
    if steps == [] then s else Run(Apply(s, steps[0]), steps[1..])
  }

  predicate EnabledRun(s: State, steps: seq<Step>)
    decreases |steps|
  {
    steps == [] || (Enabled(s, steps[0]) && EnabledRun(Apply(s, steps[0]), steps[1..]))
  }

  /** In every interleaving at most one timer is outstanding or firing, and while it is the flag is set; so arming never
  cuts a wait short. */
  lemma {:induction false} RunHasOneTimer(s: State, steps: seq<Step>)
    requires OneTimer(s) && EnabledRun(s, steps)
    ensures var s' := Run(s, steps);
      && OneTimer(s') && s'.outstanding + s'.firing <= 1 && (s'.outstanding > 0 ==> s'.flag)
      && (s'.arming == Checked ==> s'.outstanding == 0)
    decreases |steps|
  {
    if steps == [] {
    } else {
      RunHasOneTimer(Apply(s, steps[0]), steps[1..]);
    }
  }

  /** With the flag clear TickTimeout arms the timer, and then it is outstanding. */
  lemma TimerIsArmed(s: State, s1: State, s2: State)
    requires OneTimer(s) && s.arming == Idle && !s.flag
    requires s1 == Apply(s, Check)
    requires s1.arming == Checked ==> s2 == Apply(s1, SetFlag)
    ensures s1.arming == Checked && s2.arming == Flagged
    ensures Apply(s2, Register).outstanding == 1 && Apply(s2, Register).flag && Apply(s2, Register).arming == Idle
  {
  }

  /** Or there is no delay to wait for, and it can be armed later. */
  lemma TimerIsAbandoned(s: State)
    requires OneTimer(s) && s.arming == Checked
    ensures Apply(s, Abandon).arming == Idle && !Apply(s, Abandon).flag
  {
  }

  /** An outstanding timer fires once, and its handler clears the flag, so that it can be armed again. */
  lemma TimerFires(s: State, s1: State)
    requires OneTimer(s) && s.arming == Idle && s.outstanding == 1
    requires s1 == Apply(s, Fire)
    ensures s1.outstanding == 0 && s1.firing == 1 && s1.flag
    ensures !Apply(s1, Clear).flag && Apply(s1, Clear).firing == 0
  {
  }

  /** Between TickTimeouts there are no other states: the flag is clear, a wait is outstanding, or its handler is about
  to clear the flag; and in the latter two TickTimeout leaves the timer alone. */
  lemma IdleStates(s: State)
    requires OneTimer(s) && s.arming == Idle
    ensures s == State(false, 0, 0, Idle) || s == State(true, 1, 0, Idle) || s == State(true, 0, 1, Idle)
    ensures s.flag ==> Apply(s, Check) == s
  {
  }

  lemma EveryRunHasOneTimer(s: State, steps: seq<Step>)
    requires Initial(s) && EnabledRun(s, steps)
    ensures OneTimer(Run(s, steps))
  {
    RunHasOneTimer(s, steps);
  }
}

/** The timer: it takes the processor from a running thread, which later goes on as if nothing had happened. */
module ThreadInterrupts {
  import opened Sequences
  import opened ThreadSystem
  import opened ThreadPlaces
  import opened ThreadInvariants
  import opened ThreadSteps
  import opened ThreadTheorems
  import opened ThreadCalls
  import opened ThreadReturns

  lemma InterruptAlone(s: Sys)
    requires s.status == Live && s.mask && s.state[s.running] == Running && s.ready == []
    ensures var r := Interrupt(s);
            && r.status == Live && !r.mask && r.running == s.running && r.ctl[r.running] != []
            && CanResume(r) && Resume(r) == s.(picks := s.picks + 1)
  {
    var inside := Push(s, HandlerResume(s.ret[s.running])).(mask := false);
    YieldAlone(inside);
    var r := Interrupt(s);
    assert r.ctl[s.running][..|s.ctl[s.running]|] == s.ctl[s.running];
    assert Top(r) == HandlerResume(s.ret[s.running]);
    assert Pop(r).ctl == s.ctl;
    assert Resume(r).ret == s.ret;
  }

  lemma InterruptSwitchesTo(s: Sys)
    requires s.status == Live && s.state[s.running] == Running && s.ready != [] && s.ready[0] != s.running
    ensures var r := Interrupt(s);
            && TakenOver(s, r, Ready) && r.wait == s.wait && SameLocks(s, r)
            && r.ctl[s.running] == s.ctl[s.running] + [HandlerResume(s.ret[s.running]), YieldResume(false, s.ready[0])]
  {
    var inside := Push(s, HandlerResume(s.ret[s.running])).(mask := false);
    YieldToFirst(inside);
    assert s.ctl[s.running] + [HandlerResume(s.ret[s.running])] + [YieldResume(false, s.ready[0])] ==
      s.ctl[s.running] + [HandlerResume(s.ret[s.running]), YieldResume(false, s.ready[0])];
  }

  lemma InterruptedRuns(s: Sys)
    requires Reachable(s) && s.state[s.running] == Running
    ensures s.running !in s.ready
  {
    ReachableInv(s);
    RunnerIsNotReady(s);
  }

  /**
   Whenever the timer fires while a thread runs, in user code or between the
   critical sections of the library, the head of the ready queue takes over and
   the interrupted thread goes to the end; with nobody else ready it goes on at
   once, and nothing has changed.
   */
  lemma InterruptDoes(s: Sys)
    requires Reachable(s) && Enabled(s, TimerInterrupt) && s.state[s.running] == Running
    ensures var r := Step(s, TimerInterrupt);
            if s.ready == [] then
              && Enabled(r, Continue) && (forall e :: Enabled(r, e) ==> e == Continue)
              && Step(r, Continue) == s.(picks := s.picks + 1)
            else
              TakenOver(s, r, Ready) && r.wait == s.wait && SameLocks(s, r)
  {
    hide Reachable, Interrupt, Resume;
    InterruptedRuns(s);
    if s.ready == [] {
      InterruptAlone(s);
      OnlyContinues(Interrupt(s));
    } else {
      assert s.ready[0] in s.ready;
      InterruptSwitchesTo(s);
    }
  }

  /** The last part of thread_yield and then of the interrupt handler. */
  lemma HandlerUnwinds(s: Sys, stack: seq<Frame>, saved: int, value: int)
    requires s.status == Live && !s.mask
    requires s.ctl[s.running] == stack + [HandlerResume(saved), YieldResume(false, value)]
    ensures Enabled(s, Continue) && (forall e :: Enabled(s, e) ==> e == Continue)
    ensures var u := Step(s, Continue);
            && Enabled(u, Continue) && (forall e :: Enabled(u, e) ==> e == Continue)
            && var v := Step(u, Continue);
               v.running == s.running && v.ctl[s.running] == stack && v.ret[s.running] == saved && v.mask
  {
    OnlyContinues(s);
    assert Top(s) == YieldResume(false, value);
    assert s.ctl[s.running][..|stack| + 1] == stack + [HandlerResume(saved)];
    var u := Step(s, Continue);
    assert u == Return(Pop(s), value).(mask := false);
    OnlyContinues(u);
    assert Top(u) == HandlerResume(saved);
    assert u.ctl[s.running][..|stack|] == stack;
  }

  lemma InterruptParks(s: Sys)
    requires Reachable(s) && Enabled(s, TimerInterrupt) && s.state[s.running] == Running && s.ready != []
    ensures var k := Step(s, TimerInterrupt);
            && k.status == Live && Inv(k)
            && Parked(k, s.running,
                      s.ctl[s.running] + [HandlerResume(s.ret[s.running]), YieldResume(false, s.ready[0])])
  {
    hide Reachable, Inv, Interrupt;
    InterruptedRuns(s);
    ReachableInv(s);
    StepKeeps(s, TimerInterrupt);
    assert s.ready[0] in s.ready;
    InterruptSwitchesTo(s);
  }

  /**
   On every run an interrupted thread that is not killed goes on where it was:
   when it is dispatched again nothing but itself can happen until it is in the
   same place of the same calls, with the same return value, and with
   interrupts enabled as they were.
   */
  lemma InterruptReturns(s: Sys, es: seq<Event>)
    requires Reachable(s) && Enabled(s, TimerInterrupt) && s.state[s.running] == Running && s.ready != []
    requires var k := Step(s, TimerInterrupt); Possible(k, es) && Away(k, es, s.running)
    requires var r := Run(Step(s, TimerInterrupt), es); r.status == Live && r.running == s.running
    ensures var r := Run(Step(s, TimerInterrupt), es);
            || r.ctl[s.running] == [ExitEntry]
            || (&& Enabled(r, Continue) && (forall e :: Enabled(r, e) ==> e == Continue)
                && var u := Step(r, Continue);
                   && Enabled(u, Continue) && (forall e :: Enabled(u, e) ==> e == Continue)
                   && var v := Step(u, Continue);
                      && v.running == s.running && v.ctl[s.running] == s.ctl[s.running]
                      && v.ret[s.running] == s.ret[s.running] && v.mask == s.mask)
  {
    hide Reachable, Inv, Step;
    var k := Step(s, TimerInterrupt);
    var saved := s.ret[s.running];
    InterruptParks(s);
    RunParked(k, es, s.running, s.ctl[s.running] + [HandlerResume(saved), YieldResume(false, s.ready[0])]);
    var r := Run(k, es);
    if r.ctl[s.running] != [ExitEntry] {
      HandlerUnwinds(r, s.ctl[s.running], saved, s.ready[0]);
    }
  }
}

/** What becomes of one thread over a whole run, whatever the others do and whenever the timer fires. */
module ThreadFates {
  import opened Sequences
  import opened ThreadSystem
  import opened ThreadPlaces
  import opened ThreadInvariants
  import opened ThreadSteps
  import opened ThreadProgress
  import opened ThreadTheorems

  // ---------- Bounded waiting ----------

  ghost predicate ReadyAt(s: Sys, t: Tid, k: nat) {
    k < |s.ready| && s.ready[k] == t
  }

  /** `t` is dispatched, or moves up by at least one position for every thread picked from the head. */
  ghost predicate MovesUp(s: Sys, r: Sys, t: Tid, k: nat) {
    r.running == t || exists j: nat :: ReadyAt(r, t, j) && j + r.picks <= k + s.picks
  }

  lemma {:induction false} RemoveFirstMovesUp(s: seq<Tid>, x: Tid, t: Tid, k: nat) returns (j: nat)
    requires k < |s| && s[k] == t && t != x
    ensures j <= k && j < |RemoveFirst<Tid>(s, x)| && RemoveFirst<Tid>(s, x)[j] == t
  {
    if s[0] == x {
      j := k - 1;
    } else if k == 0 {
      j := 0;
    } else {
      j := RemoveFirstMovesUp(s[1..], x, t, k - 1);
      j := j + 1;
    }
  }

  lemma SwitchPicks(s: Sys, next: Tid, prev: bool)
    ensures var r := Switch(s, next, prev);
            r.running == next && r.ready == s.ready && r.picks == s.picks && r.gen == s.gen
  {
  }

  lemma YieldAnyPicks(s: Sys)
    requires Requeued(s) != []
    ensures YieldAny(s).running == Requeued(s)[0] && YieldAny(s).ready == Requeued(s)[1..]
    ensures YieldAny(s).picks == s.picks + 1 && YieldAny(s).gen == s.gen
  {
    var queue := Requeued(s);
    var picked := Picked(s);
    if queue[0] == s.running {
      assert YieldAny(s) == Return(picked, THREAD_NONE);
    } else {
      assert YieldAny(s) == Switch(picked, queue[0], s.mask);
      SwitchPicks(picked, queue[0], s.mask);
    }
  }

  lemma YieldAnyMovesUp(s: Sys, t: Tid, k: nat)
    requires ReadyAt(s, t, k)
    ensures MovesUp(s, YieldAny(s), t, k)
  {
    assert s.ready <= Requeued(s);
    YieldAnyPicks(s);
    if k > 0 {
      assert ReadyAt(YieldAny(s), t, k - 1);
    }
  }

  lemma YieldToMovesUp(s: Sys, want: int, t: Tid, k: nat)
    requires ReadyAt(s, t, k) && want != THREAD_ANY
    ensures MovesUp(s, ThreadYield(s, want), t, k)
  {
    var r := ThreadYield(s, want);
    if Accepted(s, want) && Wanted(s, want) in Requeued(s) {
      var next: Tid := Wanted(s, want);
      if next != t {
        var j := RemoveFirstMovesUp(Requeued(s), next, t, k);
        assert ReadyAt(r, t, j);
      }
    } else {
      assert ReadyAt(r, t, k);
    }
  }

  lemma LocalMovesUp(s: Sys, m: Sys, t: Tid, k: nat)
    requires Local(s, m) && ReadyAt(s, t, k)
    ensures ReadyAt(m, t, k) && MovesUp(s, m, t, k)
  {
    assert ReadyAt(m, t, k);
  }

  lemma StepMovesUp(s: Sys, e: Event, t: Tid, k: nat)
    requires Inv(s) && Enabled(s, e) && ReadyAt(s, t, k)
    ensures MovesUp(s, Step(s, e), t, k)
  {
    if UntilYield(s, e).Some? {
      var m := UntilYield(s, e).value;
      StepEndsInYield(s, e);
      UntilYieldOwnSlot(s, e);
      YieldAnyMovesUp(m, t, k);
    } else if e.Yield? {
      YieldToMovesUp(s, e.want, t, k);
    } else if e.Continue? {
      ResumeLocal(s);
      LocalMovesUp(s, Step(s, e), t, k);
    } else if e.SetMask? {
      assert ReadyAt(Step(s, e), t, k);
    } else {
      CallLocal(s, e);
      LocalMovesUp(s, Step(s, e), t, k);
    }
  }

  ghost predicate NeverRuns(s: Sys, es: seq<Event>, t: Tid)
    requires Possible(s, es)
    decreases |es|
  {
    s.running != t && (es == [] || NeverRuns(Step(s, es[0]), es[1..], t))
  }

  lemma NextWaiting(s: Sys, e: Event, t: Tid, k: nat) returns (j: nat)
    requires Inv(s) && Enabled(s, e) && ReadyAt(s, t, k) && Step(s, e).running != t
    ensures ReadyAt(Step(s, e), t, j) && j + Step(s, e).picks <= k + s.picks
    ensures Step(s, e).status == Live ==> Inv(Step(s, e))
  {
    StepKeeps(s, e);
    StepMovesUp(s, e, t, k);
    j :| ReadyAt(Step(s, e), t, j) && j + Step(s, e).picks <= k + s.picks;
  }

  lemma {:induction false} WaitingMovesUp(s: Sys, es: seq<Event>, t: Tid, k: nat) returns (j: nat)
    requires (s.status == Live ==> Inv(s)) && ReadyAt(s, t, k) && Possible(s, es) && NeverRuns(s, es, t)
    ensures ReadyAt(Run(s, es), t, j) && j + Run(s, es).picks <= k + s.picks
    decreases |es|
  {
    if es == [] {
      j := k;
    } else {
      j := NextWaiting(s, es[0], t, k);
      j := WaitingMovesUp(Step(s, es[0]), es[1..], t, j);
    }
  }

  /**
   A thread with k others before it in the ready queue runs before the head of
   the queue has been picked more than k times, whatever happens meanwhile.
   */
  lemma BoundedWaiting(s: Sys, es: seq<Event>, t: Tid, k: nat)
    requires Reachable(s) && ReadyAt(s, t, k) && Possible(s, es)
    requires Run(s, es).picks > s.picks + k
    ensures !NeverRuns(s, es, t)
  {
    if NeverRuns(s, es, t) {
      ReachableInv(s);
      var j := WaitingMovesUp(s, es, t, k);
    }
  }

  // ---------- What one step does to another thread ----------

  /** What a context switch does to the slot of a thread other than the one that gives up the processor. */
  predicate Dispatched(s: Sys, r: Sys, t: Tid) {
    && r.gen[t] == s.gen[t] && r.stack[t] == s.stack[t] && r.userMask[t] == s.userMask[t] && r.held[t] == s.held[t]
    && if r.running == t then
         !r.mask && r.state[t] == Running && r.ctl[t] == if s.state[t] == Killed then [ExitEntry] else s.ctl[t]
       else
         r.state[t] == s.state[t] && r.ctl[t] == s.ctl[t]
  }

  lemma SwitchDispatches(s: Sys, next: Tid, prev: bool, t: Tid)
    requires t != s.running
    ensures Dispatched(s, Switch(s, next, prev), t)
  {
    if t == next {
    } else {
    }
  }

  lemma YieldAnyDispatches(s: Sys, t: Tid)
    requires t != s.running
    ensures Dispatched(s, YieldAny(s), t)
    ensures YieldAny(s).running == t ==> t in s.ready
  {
    if Requeued(s) == [] {
    } else if Requeued(s)[0] == s.running {
    } else {
      assert Requeued(s)[0] == s.ready[0];
      SwitchDispatches(Picked(s), Requeued(s)[0], s.mask, t);
    }
  }

  lemma YieldToDispatches(s: Sys, want: int, t: Tid)
    requires t != s.running && want != THREAD_ANY
    ensures Dispatched(s, ThreadYield(s, want), t)
    ensures ThreadYield(s, want).running == t ==> s.state[t] in {Ready, Killed}
  {
    if Accepted(s, want) {
      if Wanted(s, want) in Requeued(s) {
        var next: Tid := Wanted(s, want);
        SwitchDispatches(s.(ready := RemoveFirst<Tid>(Requeued(s), next)), next, s.mask, t);
      } else {
      }
    } else {
    }
  }

  /** The slot of another thread after any step: carried along, or dispatched from the ready queue. */
  predicate Moved(s: Sys, r: Sys, t: Tid) {
    Carried(s, r, t) || (Dispatched(s, r, t) && r.running == t && s.state[t] in {Ready, Killed})
  }

  lemma StepMoves(s: Sys, e: Event, t: Tid)
    requires Inv(s) && Enabled(s, e) && t != s.running
    ensures Moved(s, Step(s, e), t)
  {
    if UntilYield(s, e).Some? {
      var m := UntilYield(s, e).value;
      StepEndsInYield(s, e);
      UntilYieldOwnSlot(s, e);
      YieldAnyDispatches(m, t);
      if t in s.ready {
        var at := PlacesOf(s);
      }
    } else if e.Yield? {
      YieldToDispatches(s, e.want, t);
    } else if e.Continue? {
      ResumeLocal(s);
    } else if e.SetMask? {
    } else {
      CallLocal(s, e);
    }
  }

  /** What a step does to the slot of the thread that takes it. */
  predicate Acted(s: Sys, r: Sys) {
    var me := s.running;
    && r.gen[me] == s.gen[me] && r.stack[me] == s.stack[me] && Used(r.state[me])
    && (s.state[me] == Exited ==> r.state[me] == Exited)
  }

  lemma SwitchActs(s: Sys, next: Tid, prev: bool)
    requires next == s.running ==> s.state[s.running] != Exited
    ensures Acted(s, Switch(s, next, prev)) && Switch(s, next, prev).userMask == s.userMask
  {
    if next == s.running {
    } else {
    }
  }

  lemma YieldAnyActs(s: Sys)
    requires Used(s.state[s.running])
    ensures Acted(s, YieldAny(s)) && YieldAny(s).userMask == s.userMask
  {
    if Requeued(s) == [] {
    } else if Requeued(s)[0] == s.running {
    } else {
      SwitchActs(Picked(s), Requeued(s)[0], s.mask);
    }
  }

  lemma YieldToActs(s: Sys, want: int)
    requires s.state[s.running] == Running && want != THREAD_ANY
    ensures Acted(s, ThreadYield(s, want)) && ThreadYield(s, want).userMask == s.userMask
  {
    if Accepted(s, want) {
      if Wanted(s, want) in Requeued(s) {
        var next: Tid := Wanted(s, want);
        SwitchActs(s.(ready := RemoveFirst<Tid>(Requeued(s), next)), next, s.mask);
      } else {
      }
    } else {
    }
  }

  lemma StepActs(s: Sys, e: Event)
    requires Inv(s) && Enabled(s, e)
    ensures var r := Step(s, e);
            var me := s.running;
            && r.gen[me] == s.gen[me] && r.stack[me] == s.stack[me] && Used(r.state[me])
            && (!e.SetMask? ==> r.userMask[me] == s.userMask[me])
  {
    if UntilYield(s, e).Some? {
      var m := UntilYield(s, e).value;
      StepEndsInYield(s, e);
      UntilYieldOwnSlot(s, e);
      YieldAnyActs(m);
    } else if e.Yield? {
      YieldToActs(s, e.want);
    } else if e.Continue? {
      ResumeLocal(s);
    } else if e.SetMask? {
    } else {
      CallLocal(s, e);
    }
  }

  // ---------- Killed threads ----------

  /** A killed thread on the processor can do nothing but enter thread_exit. */
  predicate Redirected(s: Sys, t: Tid) {
    t == s.running && s.state[t] == Running && s.ctl[t] == [ExitEntry] && !s.mask
  }

  /** The thread that was number `g` in slot `t` is marked, on its way out, or gone. */
  predicate Doomed(s: Sys, t: Tid, g: nat) {
    s.gen[t] > g || (s.gen[t] == g && (Redirected(s, t) || s.state[t] in {Killed, Exited, NotInitialized}))
  }

  lemma ExitedStays(s: Sys, e: Event)
    requires Inv(s) && Enabled(s, e) && s.state[s.running] == Exited
    ensures Step(s, e).state[s.running] == Exited
  {
    if e.TimerInterrupt? {
      YieldAnyActs(Push(s, HandlerResume(s.ret[s.running])).(mask := false));
    } else {
      assert e.Continue? && Top(s) == ExitYield;
      YieldAnyActs(Push(Pop(s), ExitAssert));
    }
  }

  lemma RedirectedExits(s: Sys, e: Event)
    requires Inv(s) && Enabled(s, e) && Redirected(s, s.running)
    ensures e.Continue? && Step(s, e) == ThreadExit(Pop(s)) && Step(s, e).state[s.running] == Exited
  {
    assert Top(s) == ExitEntry;
    ExitLocal(Pop(s));
  }

  lemma RunnerRuns(s: Sys)
    requires Inv(s)
    ensures s.state[s.running] in {Running, Exited}
  {
  }

  lemma StepDoomed(s: Sys, e: Event, t: Tid, g: nat)
    requires Inv(s) && Enabled(s, e) && Doomed(s, t, g)
    ensures Doomed(Step(s, e), t, g)
  {
    hide Inv, Enabled, Step;
    if t == s.running {
      StepActs(s, e);
      if s.gen[t] > g {
      } else if Redirected(s, t) {
        RedirectedExits(s, e);
      } else {
        RunnerRuns(s);
        ExitedStays(s, e);
      }
    } else {
      StepMoves(s, e, t);
    }
  }

  lemma MovedKilled(s: Sys, r: Sys, t: Tid)
    requires Moved(s, r, t) && s.state[t] == Killed && (Carried(s, r, t) ==> r.running != t)
    ensures r.gen[t] == s.gen[t]
    ensures if r.running == t then Redirected(r, t) else r.state[t] == Killed && r.ctl[t] == s.ctl[t]
  {
    if Carried(s, r, t) {
    } else {
    }
  }

  lemma KilledElsewhere(s: Sys, t: Tid)
    requires Inv(s) && s.state[t] == Killed
    ensures t != s.running
  {
  }

  /** Until its next dispatch a killed thread and its continuation stay as they are; it leads into thread_exit. */
  lemma KilledUntilDispatch(s: Sys, e: Event, t: Tid)
    requires Reachable(s) && Enabled(s, e) && s.state[t] == Killed
    ensures var r := Step(s, e);
            r.gen[t] == s.gen[t] &&
            if r.running == t then Redirected(r, t) else r.state[t] == Killed && r.ctl[t] == s.ctl[t]
  {
    ReachableInv(s);
    KilledElsewhere(s, t);
    StepMoves(s, e, t);
    if Carried(s, Step(s, e), t) {
      KilledIsNotRunning(s, e, t);
    }
    MovedKilled(s, Step(s, e), t);
  }

  lemma KilledIsNotRunning(s: Sys, e: Event, t: Tid)
    requires Inv(s) && Enabled(s, e) && s.state[t] == Killed && Carried(s, Step(s, e), t)
    ensures Step(s, e).running != t
  {
    if UntilYield(s, e).Some? {
      StepEndsInYield(s, e);
      UntilYieldOwnSlot(s, e);
      YieldAnyDispatches(UntilYield(s, e).value, t);
    } else if e.Yield? {
      YieldToDispatches(s, e.want, t);
    } else if e.Continue? {
      ResumeLocal(s);
    } else if e.SetMask? {
    } else {
      CallLocal(s, e);
    }
  }

  lemma {:induction false} RunDoomed(s: Sys, es: seq<Event>, t: Tid, g: nat)
    requires (s.status == Live ==> Inv(s)) && Possible(s, es) && Doomed(s, t, g)
    ensures Doomed(Run(s, es), t, g)
    decreases |es|
  {
    if es != [] {
      StepDoomed(s, es[0], t, g);
      StepKeeps(s, es[0]);
      RunDoomed(Step(s, es[0]), es[1..], t, g);
    }
  }

  /** A successful thread_kill: the caller gets the victim's id back. */
  lemma KillDooms(s: Sys, victim: int)
    requires Reachable(s) && Enabled(s, Kill(victim)) && Step(s, Kill(victim)).ret[s.running] >= 0
    ensures IsTid(victim) && Doomed(Step(s, Kill(victim)), victim, s.gen[victim])
  {
    hide Reachable, FreeExited;
    assert Cleanup(s).gen == s.gen;
  }

  /**
   Once thread_kill has succeeded, the victim never gets back to user code or
   to a library call it was inside of: whenever its slot is on the processor
   again, it is to enter or leave thread_exit, until the slot has a new thread.
   */
  lemma KilledNeverResumes(s: Sys, victim: int, es: seq<Event>)
    requires Reachable(s) && Enabled(s, Kill(victim)) && Step(s, Kill(victim)).ret[s.running] >= 0
    requires Possible(Step(s, Kill(victim)), es)
    ensures var r := Run(Step(s, Kill(victim)), es);
            IsTid(victim) &&
            (r.gen[victim] == s.gen[victim] && r.running == victim && r.status == Live ==>
               r.ctl[victim] == [ExitEntry] || r.ctl[victim] == [ExitYield])
  {
    KillDooms(s, victim);
    ReachableInv(s);
    StepKeeps(s, Kill(victim));
    var k := Step(s, Kill(victim));
    RunDoomed(k, es, victim, s.gen[victim]);
    if Run(k, es).status == Live {
      KeepsThroughRun(k, es);
    }
  }

  lemma KeepsThroughRun(s: Sys, es: seq<Event>)
    requires (s.status == Live ==> Inv(s)) && Possible(s, es) && Run(s, es).status == Live
    ensures Inv(Run(s, es))
  {
    if es == [] {
    } else {
      RunKeeps(s, es);
    }
  }

  // ---------- Masks ----------

  /** Thread `t` does not itself change its mask during the run. */
  ghost predicate LeavesMask(s: Sys, es: seq<Event>, t: Tid)
    requires Possible(s, es)
    decreases |es|
  {
    es == [] || (!(es[0].SetMask? && s.running == t) && LeavesMask(Step(s, es[0]), es[1..], t))
  }

  lemma StepUserMask(s: Sys, e: Event, t: Tid)
    requires Inv(s) && Enabled(s, e) && !(e.SetMask? && s.running == t)
    ensures Step(s, e).gen[t] >= s.gen[t]
    ensures Step(s, e).gen[t] == s.gen[t] ==> Step(s, e).userMask[t] == s.userMask[t]
  {
    if t == s.running {
      StepActs(s, e);
    } else {
      StepMoves(s, e, t);
    }
  }

  lemma {:induction false} RunUserMask(s: Sys, es: seq<Event>, t: Tid)
    requires (s.status == Live ==> Inv(s)) && Possible(s, es) && LeavesMask(s, es, t)
    ensures Run(s, es).gen[t] >= s.gen[t]
    ensures Run(s, es).gen[t] == s.gen[t] ==> Run(s, es).userMask[t] == s.userMask[t]
    decreases |es|
  {
    if es != [] {
      StepUserMask(s, es[0], t);
      StepKeeps(s, es[0]);
      RunUserMask(Step(s, es[0]), es[1..], t);
    }
  }

  /**
   However many library calls, interrupts and context switches lie between two
   moments at which the same thread executes user code, it finds interrupts
   enabled or disabled just as it left them.
   */
  lemma MaskIsGivenBack(s: Sys, es: seq<Event>, t: Tid)
    requires Reachable(s) && s.running == t && s.ctl[t] == []
    requires Possible(s, es) && LeavesMask(s, es, t)
    requires var r := Run(s, es); r.status == Live && r.running == t && r.ctl[t] == [] && r.gen[t] == s.gen[t]
    ensures Run(s, es).mask == s.mask
  {
    ReachableInv(s);
    RunUserMask(s, es, t);
    KeepsThroughRun(s, es);
    UserCodeInUse(s);
    UserCodeInUse(Run(s, es));
  }

  // ---------- Stacks ----------

  lemma FreedBetween(s: Sys, r: Sys, a: Addr)
    requires Slots(s) && Slots(r) && a in s.heap.live && a !in r.heap.live
    requires r.stack[s.running] == s.stack[s.running] && Used(r.state[s.running])
    requires forall t: Tid :: t != s.running ==> Moved(s, r, t)
    ensures exists t: Tid :: t != s.running && s.state[t] == Exited && s.stack[t] == Some(a)
  {
    var t: Tid :| Used(s.state[t]) && s.stack[t] == Some(a);
    assert !(Used(r.state[t]) && r.stack[t] == Some(a));
    if t != s.running {
      assert Moved(s, r, t);
    }
  }

  /** A stack is only freed after its thread has exited and left the processor. */
  lemma FreedOnlyAfterExit(s: Sys, e: Event, a: Addr)
    requires Reachable(s) && Enabled(s, e)
    requires a in s.heap.live && a !in Step(s, e).heap.live
    ensures exists t: Tid :: t != s.running && s.state[t] == Exited && s.stack[t] == Some(a)
  {
    hide Reachable, Enabled, Step, Inv, Slots;
    ReachableInv(s);
    StepKeeps(s, e);
    if Step(s, e).status == Aborted {
    } else {
      assert Slots(s) by { InvSlots(s); }
      StepActs(s, e);
      forall t: Tid | t != s.running ensures Moved(s, Step(s, e), t) {
        StepMoves(s, e, t);
      }
      FreedBetween(s, Step(s, e), a);
    }
  }

  // ---------- Holding a lock ----------

  /** The running thread gives up `lock` in this step. */
  predicate Releases(s: Sys, e: Event, lock: nat)
    requires Enabled(s, e)
  {
    e == Release(lock) || (e == Continue && Top(s).CvRelease? && Top(s).lock == lock)
  }

  lemma UntilYieldHeld(s: Sys, e: Event)
    requires Enabled(s, e) && UntilYield(s, e).Some?
    ensures UntilYield(s, e).value.held == s.held
  {
    match e {
      case Yield(_) =>
      case Sleep(_) =>
      case Wait(_) =>
      case Acquire(_) =>
      case TimerInterrupt =>
      case Continue => ResumeUntilYieldHeld(s);
    }
  }

  lemma ResumeUntilYieldHeld(s: Sys)
    requires CanResume(s) && ResumeUntilYield(s).Some?
    ensures ResumeUntilYield(s).value.held == s.held
  {
    match Top(s) {
      case AcquireLoop(_, _) =>
      case CvAcquire(_) =>
      case CvSleep(_, _) =>
      case ExitYield =>
    }
  }

  lemma ReleaseHeld(s: Sys, lock: nat, other: nat)
    requires lock in s.locks && other in s.held[s.running] && other != lock
    ensures other in LockRelease(s, lock).held[s.running]
  {
    if Owns(s, lock) {
      assert other in Unlocked(s, lock).held[s.running];
    } else {
    }
  }

  lemma ExitHeld(s: Sys)
    ensures ThreadExit(s).held == s.held
  {
  }

  lemma TurnHeld(s: Sys, lock: nat, prev: bool, other: nat)
    requires lock in s.locks && !MustWait(s, lock) && other in s.held[s.running]
    ensures other in AcquireTurn(s, lock, prev).held[s.running]
  {
    if s.locks[lock].acquired {
    } else {
    }
  }

  lemma TakenHeld(s: Sys, other: nat)
    requires CanResume(s) && (Top(s).AcquireLoop? || Top(s).CvAcquire?) && !MustWait(s, Top(s).lock)
    requires other in s.held[s.running]
    ensures other in Resume(s).held[s.running]
  {
    if Top(s).AcquireLoop? {
      TurnHeld(Pop(s), Top(s).lock, Top(s).prev, other);
    } else {
      TurnHeld(Pop(s).(mask := false), Top(s).lock, s.mask, other);
    }
  }

  lemma CvReleaseHeld(s: Sys, other: nat)
    requires CanResume(s) && Top(s).CvRelease? && Top(s).lock != other && other in s.held[s.running]
    ensures other in Resume(s).held[s.running]
  {
    ReleaseHeld(Pop(s), Top(s).lock, other);
    if Owns(s, Top(s).lock) {
    } else {
    }
  }

  lemma RefusedSleepHeld(s: Sys)
    requires CanResume(s) && Top(s).CvSleep? && s.ready == []
    ensures Resume(s).held == s.held
  {
    assert Resume(s) == Return(Push(Pop(s), CvAcquire(Top(s).lock)), THREAD_NONE);
  }

  lemma ExitEntryHeld(s: Sys)
    requires CanResume(s) && Top(s).ExitEntry?
    ensures Resume(s).held == s.held
  {
    ExitHeld(Pop(s));
  }

  lemma CvWakeupHeld(s: Sys)
    requires CanResume(s) && Top(s).CvWakeup?
    ensures Resume(s).held == s.held
  {
  }

  lemma PlainReturnHeld(s: Sys)
    requires CanResume(s)
    requires CallsNothing(Top(s))
    ensures Resume(s).held == s.held
  {
    PlainReturns(s);
    hide Resume;
  }

  lemma ReturningHeld(s: Sys)
    requires CanResume(s) && ResumeUntilYield(s).None?
    requires !Top(s).AcquireLoop? && !Top(s).CvAcquire? && !Top(s).CvRelease?
    ensures Resume(s).held == s.held
  {
    hide Resume;
    if Top(s).CvSleep? {
      RefusedSleepHeld(s);
    } else if Top(s).ExitEntry? {
      ExitEntryHeld(s);
    } else if Top(s).CvWakeup? {
      CvWakeupHeld(s);
    } else {
      PlainReturnHeld(s);
    }
  }

  lemma ResumeHeld(s: Sys, lock: nat)
    requires CanResume(s) && ResumeUntilYield(s).None? && lock in s.held[s.running]
    requires !(Top(s).CvRelease? && Top(s).lock == lock)
    ensures lock in Resume(s).held[s.running]
  {
    if Top(s).AcquireLoop? || Top(s).CvAcquire? {
      TakenHeld(s, lock);
    } else if Top(s).CvRelease? {
      CvReleaseHeld(s, lock);
    } else {
      ReturningHeld(s);
    }
  }

  lemma CleanupSelf(s: Sys)
    requires s.state[s.running] == Running
    ensures Cleanup(s).held == s.held && Cleanup(s).running == s.running && Cleanup(s).state[s.running] == Running
  {
  }

  lemma CreateHeld(s: Sys, memory: Option<Addr>)
    requires s.state[s.running] == Running
    ensures ThreadCreate(s, memory).held[s.running] == s.held[s.running]
  {
    hide Cleanup;
    CleanupSelf(s);
    var c := Cleanup(s);
    FirstFreeBound(c.state, 0);
    var i := FirstFree(c.state, 0);
    if i == 1024 {
      assert ThreadCreate(s, memory) == Return(c, THREAD_NOMORE);
    } else if memory.None? {
      assert ThreadCreate(s, memory) == Return(c, THREAD_NOMEMORY);
    } else {
      assert ThreadCreate(s, memory).held == Created(c, i, memory.value).held;
    }
  }

  /** Calls other than the locking ones leave all locks held. */
  lemma CallHeld(s: Sys, e: Event)
    requires Enabled(s, e) && UntilYield(s, e).None?
    requires e.SetMask? || e.Kill? || e.Sleep? || e.Wakeup? || e.Wait? || e.CreateLock? || e.DestroyLock?
             || e.WaitOnCv? || e.SignalCv? || e.BroadcastCv? || e.DestroyCv?
    ensures Step(s, e).held == s.held
  {
    hide ThreadCreate, ThreadYield, ThreadExit, LockAcquire, LockRelease, Interrupt, Resume;
    match e {
      case SetMask(_) =>
      case Kill(_) =>
      case Sleep(_) => RefusedCallHeld(s, e);
      case Wait(_) => RefusedCallHeld(s, e);
      case Wakeup(_, _) =>
      case CreateLock(_) =>
      case DestroyLock(_) =>
      case _ => CvCallHeld(s, e);
    }
  }

  lemma CvCallHeld(s: Sys, e: Event)
    requires Enabled(s, e) && (e.WaitOnCv? || e.SignalCv? || e.BroadcastCv? || e.DestroyCv?)
    ensures Step(s, e).held == s.held
  {
    hide ThreadCreate, ThreadYield, ThreadExit, LockAcquire, LockRelease, Interrupt, Resume;
    match e {
      case WaitOnCv(_, _) =>
      case SignalCv(_, _) =>
      case BroadcastCv(_, _) =>
      case DestroyCv(_) =>
    }
  }

  lemma RefusedCallHeld(s: Sys, e: Event)
    requires Enabled(s, e) && UntilYield(s, e).None? && (e.Sleep? || e.Wait?)
    ensures Step(s, e).held == s.held
  {
    if e.Wait? {
      assert Step(s, e) == Return(s, THREAD_INVALID) || Step(s, e) == Return(s, e.target);
    } else {
      assert Step(s, e) == Return(s, THREAD_INVALID) || Step(s, e) == Return(s, THREAD_NONE);
    }
  }

  lemma OwnHeldKept(s: Sys, e: Event, lock: nat)
    requires Inv(s) && Enabled(s, e) && lock in s.held[s.running] && !Releases(s, e, lock)
    ensures lock in Step(s, e).held[s.running]
  {
    if UntilYield(s, e).Some? {
      StepEndsInYield(s, e);
      UntilYieldHeld(s, e);
      YieldAnyLeaves(UntilYield(s, e).value);
    } else if e.Yield? {
      YieldLeaves(s, e.want);
    } else if e.Continue? {
      ResumeHeld(s, lock);
    } else if e.Create? {
      CreateHeld(s, e.memory);
    } else if e.Exit? {
      ExitHeld(s);
    } else if e.Acquire? {
      TurnHeld(s.(mask := false), e.lock, s.mask, lock);
    } else if e.Release? {
      ReleaseHeld(s, e.lock, lock);
    } else {
      CallHeld(s, e);
    }
  }

  lemma MovedHeld(s: Sys, r: Sys, t: Tid)
    requires Moved(s, r, t)
    ensures r.held[t] == s.held[t] || r.gen[t] > s.gen[t]
  {
  }

  /** A thread holds a lock until its own lock_release, or until its slot has a new thread. */
  lemma HeldUntilOwnRelease(s: Sys, e: Event, t: Tid, lock: nat)
    requires Reachable(s) && Enabled(s, e) && lock in s.held[t] && (t == s.running ==> !Releases(s, e, lock))
    ensures lock in Step(s, e).held[t] || Step(s, e).gen[t] > s.gen[t]
  {
    ReachableInv(s);
    if t == s.running {
      OwnHeldKept(s, e, lock);
    } else {
      StepMoves(s, e, t);
      MovedHeld(s, Step(s, e), t);
    }
  }
}

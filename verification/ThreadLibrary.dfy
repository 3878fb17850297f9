/**
 The thread library in the form of the C code: global tables updated in place,
 loops over the slots and the wait queues, and explicit masking of interrupts.
 Every function is proved to make the step that ThreadSystem describes.
 */
module ThreadLibrary {
  import opened Sequences
  import opened ThreadSystem

  /** A failed assertion ends the program; otherwise the library is in exactly the state described. */
  ghost predicate Agrees(actual: Sys, described: Sys) {
    if described.status == Aborted then actual.status == Aborted else actual == described
  }

  // ---------- The loop of thread_wakeup, turn by turn ----------

  /** The first thread of a wait queue becomes ready. */
  function WokenOne(s: Sys, q: WaitQueue): Sys
    requires At(s.wait, q) != []
  {
    var t := At(s.wait, q)[0];
    s.(ready := s.ready + [t],
       wait := s.wait[q := At(s.wait, q)[1..]],
       woken := s.woken[q := At(s.woken, q) + [t]],
       state := if s.state[t] == Sleeping then s.state[t := Ready] else s.state)
  }

  /** The first k threads of a wait queue have become ready. */
  function WokenMany(s: Sys, q: WaitQueue, k: nat): Sys
    requires k <= |At(s.wait, q)|
  {
    if k == 0 then s
    else
      var block := At(s.wait, q)[..k];
      s.(ready := s.ready + block,
         wait := s.wait[q := At(s.wait, q)[k..]],
         woken := s.woken[q := At(s.woken, q) + block],
         state := Woken(s.state, block))
  }

  lemma WokenNone(s: Sys, q: WaitQueue)
    ensures WokenMany(s, q, 0) == s
  {
  }

  lemma WokenLeft(s: Sys, q: WaitQueue, k: nat)
    requires k <= |At(s.wait, q)|
    ensures At(WokenMany(s, q, k).wait, q) == At(s.wait, q)[k..]
  {
    assert At(s.wait, q)[0..] == At(s.wait, q);
  }

  lemma WokenState(state: States, w: seq<Tid>, k: nat)
    requires k < |w|
    ensures var m := Woken(state, w[..k]);
            Woken(state, w[..k + 1]) == if m[w[k]] == Sleeping then m[w[k] := Ready] else m
  {
    var m := Woken(state, w[..k]);
    var n := if m[w[k]] == Sleeping then m[w[k] := Ready] else m;
    assert w[..k + 1] == w[..k] + [w[k]];
    forall i: Tid ensures Woken(state, w[..k + 1])[i] == n[i] {
    }
  }

  lemma WokenNext(s: Sys, q: WaitQueue, k: nat)
    requires k < |At(s.wait, q)|
    ensures At(WokenMany(s, q, k).wait, q) != []
    ensures WokenOne(WokenMany(s, q, k), q) == WokenMany(s, q, k + 1)
  {
    var w := At(s.wait, q);
    WokenLeft(s, q, k);
    WokenState(s.state, w, k);
    assert w[k..][0] == w[k] && w[k..][1..] == w[k + 1..];
    assert w[..k + 1] == w[..k] + [w[k]];
    if k == 0 {
      assert Woken(s.state, w[..0]) == s.state;
      assert [w[0]] == w[..1];
    } else {
      var m := WokenMany(s, q, k);
      assert m.ready + [w[k]] == s.ready + w[..k + 1];
      assert At(m.woken, q) + [w[k]] == At(s.woken, q) + w[..k + 1];
      assert m.wait[q := w[k + 1..]] == s.wait[q := w[k + 1..]];
      assert m.woken[q := At(s.woken, q) + w[..k + 1]] == s.woken[q := At(s.woken, q) + w[..k + 1]];
    }
  }

  class Library {
    var status: Status
    var running: Tid
    var cleanup: bool
    var mask: bool
    const state: array<ThreadState>
    const stack: array<Option<Addr>>
    var heap: Heap
    var ready: seq<Tid>
    var wait: Queues
    var locks: map<nat, Lock>
    const ctl: array<seq<Frame>>
    const ret: array<int>
    ghost var picks: nat
    ghost var gen: Nats
    ghost var userMask: Flags
    ghost var held: LockSets
    ghost var slept: Queues
    ghost var woken: Queues

    ghost predicate Valid() {
      state.Length == 1024 && stack.Length == 1024 && ctl.Length == 1024 && ret.Length == 1024
    }

    ghost function Abs(): Sys
      requires Valid()
      reads this, state, stack, ctl, ret
    {
      Sys(status, running, cleanup, mask, state[..], stack[..], heap, ready, wait, locks, ctl[..], ret[..],
          picks, gen, userMask, held, slept, woken)
    }

    /** thread_init */
    constructor (interruptsOn: bool)
      ensures Valid() && fresh(state) && fresh(stack) && fresh(ctl) && fresh(ret)
      ensures Abs() == Init(interruptsOn)
    {
      status, running, cleanup, mask := Live, 0, false, interruptsOn;
      state := new ThreadState[1024](i => if i == 0 then Running else NotInitialized);
      stack := new Option<Addr>[1024](_ => None);
      heap, ready, wait, locks := Heap({}, false), [], map[], map[];
      ctl := new seq<Frame>[1024](_ => []);
      ret := new int[1024](_ => 0);
      picks, gen, userMask, held := 0, seq(1024, _ => 0), seq(1024, _ => interruptsOn), seq(1024, _ => {});
      slept, woken := map[], map[];
      new;
      var init := Init(interruptsOn);
      assert state[..] == init.state;
      assert stack[..] == init.stack;
      assert ctl[..] == init.ctl;
      assert ret[..] == init.ret;
    }

    method InterruptsSet(on: bool) returns (was: bool)
      modifies this`mask
      ensures mask == on && was == old(mask)
    {
      was, mask := mask, on;
    }

    /** Give the running thread its result. */
    method Result(value: int)
      requires Valid()
      modifies ret
      ensures Abs() == Return(old(Abs()), value)
    {
      ret[running] := value;
    }

    method PushFrame(f: Frame)
      requires Valid()
      modifies ctl
      ensures Abs() == Push(old(Abs()), f)
    {
      ctl[running] := ctl[running] + [f];
    }

    // The list operations insist that interrupts are off.

    method PushBackReady(t: Tid)
      requires !mask
      modifies this`ready
      ensures ready == old(ready) + [t]
    {
      ready := ready + [t];
    }

    method ReadyEmpty() returns (empty: bool)
      requires !mask
      ensures empty <==> ready == []
    {
      empty := ready == [];
    }

    method WaitEmpty(q: WaitQueue) returns (empty: bool)
      requires !mask
      ensures empty <==> At(wait, q) == []
    {
      empty := At(wait, q) == [];
    }

    method PopFrontReady() returns (ok: bool, t: Tid)
      requires !mask
      modifies this`ready
      ensures ok <==> old(ready) != []
      ensures if ok then [t] + ready == old(ready) else ready == old(ready)
    {
      if ready == [] {
        return false, 0;
      }
      t := ready[0];
      ready := ready[1..];
      ok := true;
    }

    method RemoveReady(t: Tid) returns (found: bool)
      requires !mask
      modifies this`ready
      ensures found <==> t in old(ready)
      ensures ready == if found then RemoveFirst<Tid>(old(ready), t) else old(ready)
    {
      found := t in ready;
      if found {
        ready := RemoveFirst<Tid>(ready, t);
      }
    }

    method PopFrontWait(q: WaitQueue) returns (ok: bool, t: Tid)
      requires !mask
      modifies this`wait
      ensures ok <==> At(old(wait), q) != []
      ensures ok ==> At(old(wait), q) == [t] + At(wait, q) && wait == old(wait)[q := At(wait, q)]
      ensures !ok ==> wait == old(wait)
    {
      if At(wait, q) == [] {
        return false, 0;
      }
      t := wait[q][0];
      wait := wait[q := wait[q][1..]];
      ok := true;
    }

    method PushBackWait(q: WaitQueue, t: Tid)
      requires !mask
      modifies this`wait
      ensures wait == old(wait)[q := At(old(wait), q) + [t]]
    {
      wait := wait[q := At(wait, q) + [t]];
    }

    /** thread_exit_cleanup */
    method ExitCleanup()
      requires Valid() && !mask
      modifies this`heap, this`cleanup, state
      ensures Abs() == Cleanup(old(Abs()))
    {
      ghost var s := Abs();
      if cleanup {
        for i := 0 to THREAD_MAX_THREADS
          invariant forall k :: 0 <= k < i ==> state[k] == Reclaimed(s.state[k])
          invariant forall k :: i <= k < 1024 ==> state[k] == s.state[k]
          invariant heap == FreeExited(s.state, s.stack, s.heap, i)
        {
          if state[i] == Exited {
            state[i] := NotInitialized;
            heap := Free(heap, stack[i]);
          }
        }
        cleanup := false;
        assert state[..] == Cleanup(s).state;
      }
    }

    /** The loop of thread_create that looks for an unused slot and takes it. */
    method TakeSlot() returns (found: int)
      requires Valid()
      modifies state
      ensures var s := old(Abs());
              var i := FirstFree(s.state, 0);
              if found == THREAD_NONE then i == 1024 && Abs() == s
              else 0 <= found == i < 1024 && Abs() == s.(state := s.state[i := Ready])
    {
      ghost var s := Abs();
      found := THREAD_NONE;
      for i := 0 to THREAD_MAX_THREADS
        invariant found == THREAD_NONE && Abs() == s
        invariant forall k :: 0 <= k < i ==> s.state[k] != NotInitialized
      {
        if state[i] == NotInitialized {
          FirstFreeIs(s.state, i);
          state[i] := Ready;
          found := i;
          return;
        }
      }
      FirstFreeIs(s.state, 1024);
    }

    /** The new thread's stack. */
    method SetStack(t: Tid, memory: Addr)
      requires Valid()
      modifies this`heap, stack
      ensures var s := old(Abs());
              Abs() == s.(stack := s.stack[t := Some(memory)], heap := s.heap.(live := s.heap.live + {memory}))
    {
      heap := heap.(live := heap.live + {memory});
      stack[t] := Some(memory);
    }

    /** The new thread's context. */
    method SetContext(t: Tid)
      requires Valid()
      modifies ctl
      ensures var s := old(Abs()); Abs() == s.(ctl := s.ctl[t := [Stub]])
    {
      ctl[t] := [Stub];
    }

    /** The rest of a successful thread_create. */
    method SetUpThread(t: Tid, memory: Addr)
      requires Valid() && !mask
      modifies this`heap, this`ready, this`gen, this`userMask, this`held, stack, ctl
      ensures Abs() == Created(old(Abs()), t, memory).(state := old(Abs()).state)
    {
      SetStack(t, memory);
      SetContext(t);
      PushBackReady(t);
      gen, userMask, held := gen[t := gen[t] + 1], userMask[t := true], held[t := {}];
    }

    /** thread_create with interrupts off. */
    method CreateMasked(memory: Option<Addr>)
      requires Valid() && !mask
      modifies this, state, stack, ctl, ret
      ensures Valid() && Abs() == ThreadCreate(old(Abs()), memory)
    {
      ExitCleanup();
      ghost var c := Abs();
      FirstFreeBound(c.state, 0);
      var found := TakeSlot();
      if found == THREAD_NONE {
        Result(THREAD_NOMORE);
      } else if memory == None {
        state[found] := NotInitialized;
        assert state[..] == c.state;
        Result(THREAD_NOMEMORY);
      } else {
        SetUpThread(found, memory.value);
        assert Abs() == Created(c, found, memory.value);
        Result(found);
      }
    }

    static lemma CreateUnmasked(s: Sys, memory: Option<Addr>)
      ensures ThreadCreate(s, memory) == ThreadCreate(s.(mask := false), memory).(mask := s.mask)
    {
      CleanupMasked(s);
      FirstFreeBound(Cleanup(s).state, 0);
      hide Cleanup, FirstFree;
    }

    /** thread_create */
    method Create(memory: Option<Addr>)
      requires Valid()
      modifies this, state, stack, ctl, ret
      ensures Valid() && Abs() == ThreadCreate(old(Abs()), memory)
    {
      ghost var s := Abs();
      var prev := InterruptsSet(false);
      CreateMasked(memory);
      CreateUnmasked(s, memory);
      var _ := InterruptsSet(prev);
    }

    static lemma FirstFreeIs(table: States, i: nat)
      requires i <= 1024 && (i < 1024 ==> table[i] == NotInitialized)
      requires forall k :: 0 <= k < i ==> table[k] != NotInitialized
      ensures FirstFree(table, 0) == i
    {
      FirstFreeBound(table, 0);
    }

    /** thread_kill */
    method Kill(tid: int)
      requires Valid()
      modifies this`heap, this`cleanup, this`mask, state, ret
      ensures Abs() == ThreadKill(old(Abs()), tid)
    {
      CleanupMasked(Abs());
      var prev := InterruptsSet(false);
      ExitCleanup();
      if tid < 0 || tid >= THREAD_MAX_THREADS || tid == running || state[tid] == NotInitialized {
        Result(THREAD_INVALID);
      } else {
        state[tid] := Killed;
        Result(tid);
      }
      var _ := InterruptsSet(prev);
    }

    /** The cleanup does not depend on the mask. */
    static lemma CleanupMasked(s: Sys)
      ensures Cleanup(s.(mask := false)) == Cleanup(s).(mask := false)
    {
    }

    /** The context switch: save this thread's context, redirect a killed successor, go over to it. */
    method SwitchTo(next: Tid, prev: bool)
      requires Valid() && !mask
      modifies this`running, state, ctl
      ensures Abs() == Switch(old(Abs()), next, prev)
    {
      var me := running;
      PushFrame(YieldResume(prev, next));
      running := next;
      if state[next] == Killed {
        ctl[next] := [ExitEntry];
      }
      if state[me] != Exited && state[me] != Sleeping {
        state[me] := Ready;
      }
      state[next] := Running;
    }

    /** Put the caller back into the ready queue unless it is exiting or asleep. */
    method Requeue()
      requires Valid() && !mask
      modifies this`ready
      ensures ready == Requeued(old(Abs()))
    {
      if state[running] != Exited && state[running] != Sleeping {
        PushBackReady(running);
      }
    }

    static lemma SwitchMasked(s: Sys, next: Tid, prev: bool)
      ensures Switch(s.(mask := false), next, prev) == Switch(s, next, prev)
      ensures Switch(s, next, prev).status == s.status
    {
    }

    static lemma NobodyYields(s: Sys)
      requires Requeued(s) == []
      ensures YieldAny(s).status == Aborted
    {
    }

    static lemma HeadYields(s: Sys)
      requires Requeued(s) != []
      ensures YieldAny(s) == if Requeued(s)[0] == s.running then Return(Picked(s), THREAD_NONE)
                             else Switch(Picked(s), Requeued(s)[0], s.mask)
    {
    }

    method YieldToHead(prev: bool)
      requires Valid() && !mask && status == Live
      modifies this`status, this`running, this`ready, this`mask, this`picks, state, ctl, ret
      ensures Agrees(Abs(), YieldAny(old(Abs()).(mask := prev)))
    {
      hide Switch, YieldAny;
      ghost var s := Abs().(mask := prev);
      Requeue();
      var ok, next := PopFrontReady();
      if !ok {
        NobodyYields(s);
        status := Aborted;
      } else {
        HeadYields(s);
        picks := picks + 1;
        ghost var picked := Abs();
        assert picked == Picked(s).(mask := false);
        if next == running {
          Result(THREAD_NONE);
          var _ := InterruptsSet(prev);
        } else {
          SwitchTo(next, prev);
          SwitchMasked(Picked(s), next, prev);
          assert Abs() == YieldAny(s);
        }
      }
    }

    method YieldToThread(want: int, prev: bool)
      requires Valid() && !mask && status == Live && want != THREAD_ANY && Accepted(Abs(), want)
      modifies this`status, this`running, this`ready, this`mask, state, ctl
      ensures Agrees(Abs(), ThreadYield(old(Abs()).(mask := prev), want))
    {
      hide Switch;
      ghost var s := Abs().(mask := prev);
      var next: Tid := if want == THREAD_SELF then running else want;
      Requeue();
      var ok := RemoveReady(next);
      if !ok {
        status := Aborted;
      } else {
        ghost var found := s.(ready := RemoveFirst<Tid>(Requeued(s), next));
        assert Abs() == found.(mask := false);
        SwitchTo(next, prev);
        SwitchMasked(found, next, prev);
      }
    }

    /** thread_yield, up to the context switch */
    method Yield(want: int)
      requires Valid() && status == Live
      modifies this`status, this`running, this`ready, this`mask, this`picks, state, ctl, ret
      ensures Agrees(Abs(), ThreadYield(old(Abs()), want))
    {
      ghost var s := Abs();
      var prev := InterruptsSet(false);
      assert Abs().(mask := prev) == s;
      var next := if want == THREAD_SELF then running else want;
      if want == THREAD_ANY {
        YieldToHead(prev);
      } else if next == running || (IsTid(want) && (state[next] == Ready || state[next] == Killed)) {
        YieldToThread(want, prev);
      } else {
        Result(THREAD_INVALID);
        var _ := InterruptsSet(prev);
      }
    }

    /** One turn of the loop in thread_wakeup. */
    method WakeOne(q: WaitQueue)
      requires Valid() && !mask && At(wait, q) != []
      modifies this`ready, this`wait, this`woken, state
      ensures Abs() == WokenOne(old(Abs()), q)
    {
      var ok, t := PopFrontWait(q);
      assert ok;
      woken := woken[q := At(woken, q) + [t]];
      PushBackReady(t);
      MakeReady(t);
    }

    /** A woken thread becomes ready, unless it was killed in its sleep. */
    method MakeReady(t: Tid)
      requires Valid()
      modifies state
      ensures var s := old(Abs()); Abs() == s.(state := if s.state[t] == Sleeping then s.state[t := Ready] else s.state)
    {
      if state[t] == Sleeping {
        state[t] := Ready;
      }
    }

    /** The loop of thread_wakeup. */
    method WakeLoop(q: WaitQueue, all: int) returns (num: nat)
      requires Valid() && !mask && At(wait, q) != [] && (all == 0 || all == 1)
      modifies this`ready, this`wait, this`woken, state
      ensures num == if all == 0 then 1 else |At(old(wait), q)|
      ensures Abs() == WokenMany(old(Abs()), q, num)
    {
      hide WokenMany, WokenOne;
      ghost var s := Abs();
      num := 0;
      WokenNone(s, q);
      var empty := false;
      while !empty
        invariant num <= |At(s.wait, q)| && (all == 0 ==> num == 0) && !mask
        invariant Abs() == WokenMany(s, q, num)
        invariant empty <==> num == |At(s.wait, q)|
        decreases |At(s.wait, q)| - num
      {
        WokenNext(s, q, num);
        WakeOne(q);
        num := num + 1;
        if all == 0 {
          break;
        }
        WokenLeft(s, q, num);
        empty := WaitEmpty(q);
      }
    }

    /** thread_wakeup on an existing queue, with interrupts off */
    method WakeMasked(q: WaitQueue, all: int) returns (num: nat)
      requires Valid() && !mask
      modifies this`ready, this`wait, this`woken, state
      ensures Abs() == Wake(old(Abs()), q, all) && num == WakeCount(old(Abs()), q, all)
    {
      ghost var s := Abs();
      num := 0;
      var empty := WaitEmpty(q);
      if !empty && (all == 0 || all == 1) {
        num := WakeLoop(q, all);
        assert Wake(s, q, all) == WokenMany(s, q, num);
      } else {
      }
    }

    /** Waking does not depend on the mask. */
    static lemma WakeUnmasked(s: Sys, q: WaitQueue, all: int)
      ensures Wake(s.(mask := false), q, all).(mask := s.mask) == Wake(s, q, all)
      ensures WakeCount(s.(mask := false), q, all) == WakeCount(s, q, all)
    {
      if WakeCount(s, q, all) == 0 {
      } else {
      }
    }

    /** thread_wakeup on an existing queue */
    method ThreadWakeup(q: WaitQueue, all: int) returns (num: nat)
      requires Valid()
      modifies this`mask, this`ready, this`wait, this`woken, state
      ensures Abs() == Wake(old(Abs()), q, all) && num == WakeCount(old(Abs()), q, all)
    {
      hide Wake, WakeCount;
      WakeUnmasked(Abs(), q, all);
      var prev := InterruptsSet(false);
      num := WakeMasked(q, all);
      var _ := InterruptsSet(prev);
    }

    /** thread_wakeup, called from user code */
    method Wakeup(queue: Option<WaitQueue>, all: int)
      requires Valid()
      modifies this`mask, this`ready, this`wait, this`woken, state, ret
      ensures Abs() == ThreadSystem.ThreadWakeup(old(Abs()), queue, all)
    {
      var num := 0;
      if queue != None {
        num := ThreadWakeup(queue.value, all);
      }
      Result(num);
    }

    /** The caller joins a wait queue. */
    method FallAsleep(q: WaitQueue, prev: bool)
      requires Valid() && !mask
      modifies this`wait, this`slept, state, ctl
      ensures Abs() == Asleep(old(Abs()).(mask := prev), q)
    {
      PushBackWait(q, running);
      slept := slept[q := At(slept, q) + [running]];
      state[running] := Sleeping;
      PushFrame(SleepResume(prev));
    }

    /** thread_sleep, up to the context switch if there is one */
    method Sleep(queue: Option<WaitQueue>) returns (blocked: bool)
      requires Valid() && status == Live
      modifies this`status, this`running, this`ready, this`mask, this`picks, this`wait, this`slept, state, ctl, ret
      ensures Agrees(Abs(), ThreadSleep(old(Abs()), queue))
      ensures blocked <==> queue.Some? && old(ready) != []
    {
      ghost var s := Abs();
      blocked := false;
      var prev := InterruptsSet(false);
      if queue == None {
        Result(THREAD_INVALID);
        var _ := InterruptsSet(prev);
      } else {
        var alone := ReadyEmpty();
        if alone {
          Result(THREAD_NONE);
          var _ := InterruptsSet(prev);
        } else {
          FallAsleep(queue.value, prev);
          assert Abs() == Asleep(s, queue.value);
          Yield(THREAD_ANY);
          blocked := true;
        }
      }
    }

    method PopFrame() returns (f: Frame)
      requires Valid() && ctl[running] != []
      modifies ctl
      ensures f == Top(old(Abs())) && Abs() == Pop(old(Abs()))
    {
      var depth := |ctl[running]| - 1;
      f := ctl[running][depth];
      ctl[running] := ctl[running][..depth];
    }

    static lemma PushedPops(s: Sys, f: Frame)
      ensures Push(s, f).ctl[s.running] != [] && Top(Push(s, f)) == f && Pop(Push(s, f)) == s
    {
      assert Push(s, f).ctl[s.running][..|s.ctl[s.running]|] == s.ctl[s.running];
      assert s.ctl[s.running := s.ctl[s.running]] == s.ctl;
      assert Pop(Push(s, f)).ctl == s.ctl;
    }

    /** What thread_wait makes of its call of thread_sleep. */
    static lemma WaitSleeps(s: Sys, tid: Tid)
      requires s.state[tid] != NotInitialized && tid != s.running
      ensures var inside := Push(s.(mask := false), WaitResume(s.mask, tid));
              var slept := ThreadSleep(inside, Some(ThreadQueue(tid)));
              if s.ready == [] then
                slept.ctl[slept.running] != [] && Return(Pop(slept), tid).(mask := s.mask) == ThreadWait(s, tid)
                && slept.status == s.status
              else
                slept == ThreadWait(s, tid)
    {
      if s.ready == [] {
        PushedPops(s.(mask := false), WaitResume(s.mask, tid));
        var inside := Push(s.(mask := false), WaitResume(s.mask, tid));
        assert Return(Pop(Return(inside, THREAD_NONE)), tid) == Return(Pop(inside), tid) by {
          assert s.ret[s.running := THREAD_NONE][s.running := tid] == s.ret[s.running := tid];
        }
      }
    }

    /** thread_wait for an existing thread, up to the context switch if there is one */
    method WaitFor(tid: Tid, prev: bool)
      requires Valid() && status == Live && !mask && state[tid] != NotInitialized && tid != running
      modifies this`status, this`running, this`ready, this`mask, this`picks, this`wait, this`slept, state, ctl, ret
      ensures Agrees(Abs(), ThreadWait(old(Abs()).(mask := prev), tid))
    {
      hide ThreadSleep, ThreadWait, Push, Pop, Return;
      WaitSleeps(Abs().(mask := prev), tid);
      assert Abs().(mask := prev).(mask := false) == Abs();
      PushFrame(WaitResume(prev, tid));
      var blocked := Sleep(Some(ThreadQueue(tid)));
      if !blocked {
        var _ := PopFrame();
        Result(tid);
        var _ := InterruptsSet(prev);
      }
    }

    /** thread_wait, up to the context switch if there is one */
    method Wait(tid: int)
      requires Valid() && status == Live
      modifies this`status, this`running, this`ready, this`mask, this`picks, this`wait, this`slept, state, ctl, ret
      ensures Agrees(Abs(), ThreadWait(old(Abs()), tid))
    {
      var prev := InterruptsSet(false);
      if tid < 0 || tid >= THREAD_MAX_THREADS || state[tid] == NotInitialized || tid == running {
        Result(THREAD_INVALID);
        var _ := InterruptsSet(prev);
      } else {
        WaitFor(tid, prev);
      }
    }

    /** thread_exit, up to its final thread_yield or the end of the program */
    method Exit()
      requires Valid() && status == Live
      modifies this, state, stack, ctl, ret
      ensures Valid() && Abs() == ThreadExit(old(Abs()))
    {
      CleanupMasked(Abs());
      var prev := InterruptsSet(false);
      ExitCleanup();
      state[running] := Exited;
      cleanup := true;
      var _ := ThreadWakeup(ThreadQueue(running), 1);
      var last := ReadyEmpty();
      if !last {
        var _ := InterruptsSet(prev);
        PushFrame(ExitYield);
      } else {
        status := Finished;
      }
    }

    /** One turn of the loop in lock_acquire */
    method AcquireTurn(lock: nat, prev: bool)
      requires Valid() && status == Live && lock in locks
      modifies this, state, ctl, ret
      ensures Valid() && Agrees(Abs(), ThreadSystem.AcquireTurn(old(Abs()), lock, prev))
    {
      if locks[lock].acquired {
        PushFrame(AcquireLoop(lock, prev));
        var _ := Sleep(Some(LockQueue(lock)));
      } else {
        locks := locks[lock := Lock(true, running)];
        held := held[running := held[running] + {lock}];
        var _ := InterruptsSet(prev);
      }
    }

    method Acquire(lock: nat)
      requires Valid() && status == Live && lock in locks
      modifies this, state, ctl, ret
      ensures Valid() && Agrees(Abs(), LockAcquire(old(Abs()), lock))
    {
      var prev := InterruptsSet(false);
      AcquireTurn(lock, prev);
    }

    /** The owner gives up the lock. */
    method Unlock(lock: nat)
      requires Valid() && lock in locks
      modifies this`locks, this`held
      ensures Abs() == Unlocked(old(Abs()), lock)
    {
      locks := locks[lock := locks[lock].(acquired := false)];
      held := held[running := held[running] - {lock}];
    }

    method Release(lock: nat)
      requires Valid() && status == Live && lock in locks
      modifies this`status, this`mask, this`ready, this`wait, this`woken, this`locks, this`held, state
      ensures Agrees(Abs(), LockRelease(old(Abs()), lock))
    {
      hide Wake;
      ghost var s := Abs();
      var prev := InterruptsSet(false);
      if locks[lock].acquiringThread != running {
        status := Aborted;
      } else {
        Unlock(lock);
        WakeUnmasked(Unlocked(s, lock), LockQueue(lock), 1);
        var _ := ThreadWakeup(LockQueue(lock), 1);
        var _ := InterruptsSet(prev);
      }
    }

    method DestroyLock(lock: nat)
      requires Valid() && status == Live && lock in locks
      modifies this`status, this`mask, this`locks
      ensures Agrees(Abs(), LockDestroy(old(Abs()), lock))
    {
      var prev := InterruptsSet(false);
      if locks[lock].acquired {
        status := Aborted;
        return;
      }
      var unused := WaitEmpty(LockQueue(lock));
      if !unused {
        status := Aborted;
      } else {
        locks := locks - {lock};
        var _ := InterruptsSet(prev);
      }
    }

    /** cv_wait, up to its call of lock_release */
    method WaitOnCv(cv: nat, lock: nat)
      requires Valid() && status == Live && lock in locks
      modifies this`status, this`mask, ctl
      ensures Agrees(Abs(), CvWait(old(Abs()), cv, lock))
    {
      var prev := InterruptsSet(false);
      if locks[lock].acquiringThread != running {
        status := Aborted;
      } else {
        var _ := InterruptsSet(prev);
        PushFrame(CvRelease(cv, lock));
      }
    }

    /** cv_signal and cv_broadcast, up to their call of thread_wakeup */
    method WakeCv(cv: nat, lock: nat, all: int)
      requires Valid() && status == Live && lock in locks
      modifies this`status, this`mask, ctl
      ensures Agrees(Abs(), CvWake(old(Abs()), cv, lock, all))
    {
      var prev := InterruptsSet(false);
      if locks[lock].acquiringThread != running {
        status := Aborted;
      } else {
        var _ := InterruptsSet(prev);
        PushFrame(CvWakeup(cv, all));
      }
    }

    method DestroyCv(cv: nat)
      requires Valid() && status == Live
      modifies this`status, this`mask
      ensures Agrees(Abs(), CvDestroy(old(Abs()), cv))
    {
      var prev := InterruptsSet(false);
      var unused := WaitEmpty(CvQueue(cv));
      if !unused {
        status := Aborted;
      } else {
        var _ := InterruptsSet(prev);
      }
    }

    /** The timer's signal handler */
    method TimerInterrupt()
      requires Valid() && status == Live && mask
      modifies this`status, this`running, this`ready, this`mask, this`picks, state, ctl, ret
      ensures Agrees(Abs(), Interrupt(old(Abs())))
    {
      PushFrame(HandlerResume(ret[running]));
      var _ := InterruptsSet(false);
      Yield(THREAD_ANY);
    }

    /** Go on behind a call made with interrupts off: restore the mask and hand the value on. */
    method ReturnTo(value: Option<int>, prev: bool)
      requires Valid()
      modifies this`mask, ret
      ensures var s := old(Abs());
              Abs() == (if value == None then s else Return(s, value.value)).(mask := prev)
    {
      if value != None {
        Result(value.value);
      }
      var _ := InterruptsSet(prev);
    }

    /** The last part of thread_exit */
    method LeaveForGood()
      requires Valid() && status == Live
      modifies this`status, this`running, this`ready, this`mask, this`picks, state, ctl, ret
      ensures Agrees(Abs(), YieldAny(Push(old(Abs()), ExitAssert)))
    {
      PushFrame(ExitAssert);
      Yield(THREAD_ANY);
    }

    /** cv_wait, its call of lock_release */
    method ReleaseInWait(cv: nat, lock: nat)
      requires Valid() && status == Live && lock in locks
      modifies this, state, ctl
      ensures Valid()
      ensures var s := old(Abs());
              if s.locks[lock].acquiringThread == s.running then Abs() == Push(LockRelease(s, lock), CvSleep(cv, lock))
              else status == Aborted
    {
      Release(lock);
      if status == Live {
        PushFrame(CvSleep(cv, lock));
      }
    }

    /** cv_wait, its call of thread_sleep */
    method SleepInWait(cv: nat, lock: nat)
      requires Valid() && status == Live
      modifies this`status, this`running, this`ready, this`mask, this`picks, this`wait, this`slept, state, ctl, ret
      ensures Agrees(Abs(), ThreadSleep(Push(old(Abs()), CvAcquire(lock)), Some(CvQueue(cv))))
    {
      PushFrame(CvAcquire(lock));
      var _ := Sleep(Some(CvQueue(cv)));
    }

    /** A thread that was dispatched, or preempted inside the library, goes on. */
    method Continue()
      requires Valid() && status == Live && CanResume(Abs())
      modifies this, state, stack, ctl, ret
      ensures Valid() && Agrees(Abs(), Resume(old(Abs())))
    {
      hide YieldAny, LockAcquire, ThreadExit, ThreadSleep;
      var frame := PopFrame();
      match frame {
        case Stub => ReturnTo(None, true);
        case YieldResume(prev, value) => ReturnTo(Some(value), prev);
        case SleepResume(prev) => ReturnTo(None, prev);
        case WaitResume(prev, tid) => ReturnTo(Some(tid), prev);
        case AcquireLoop(lock, prev) => AcquireTurn(lock, prev);
        case CvRelease(cv, lock) => ReleaseInWait(cv, lock);
        case CvSleep(cv, lock) => SleepInWait(cv, lock);
        case CvAcquire(lock) => Acquire(lock);
        case CvWakeup(cv, all) => var _ := ThreadWakeup(CvQueue(cv), all);
        case HandlerResume(saved) => ReturnTo(Some(saved), true);
        case ExitEntry => Exit();
        case ExitYield => LeaveForGood();
        case ExitAssert => status := Aborted;
      }
    }

    /** User code sets its own mask. */
    method UserMask(on: bool)
      requires Valid()
      modifies this`mask, this`userMask
      ensures Abs() == old(Abs()).(mask := on, userMask := old(Abs()).userMask[running := on])
    {
      var _ := InterruptsSet(on);
      userMask := userMask[running := on];
    }

    method CreateLock(lock: nat)
      requires Valid()
      modifies this`locks
      ensures Abs() == old(Abs()).(locks := old(Abs()).locks[lock := Lock(false, THREAD_NONE)])
    {
      locks := locks[lock := Lock(false, THREAD_NONE)];
    }

    /** One event of a schedule. */
    method Handle(e: Event)
      requires Valid() && Enabled(Abs(), e)
      modifies this, state, stack, ctl, ret
      ensures Valid() && Agrees(Abs(), Step(old(Abs()), e))
    {
      match e {
        case SetMask(on) => UserMask(on);
        case Create(memory) => Create(memory);
        case Yield(want) => Yield(want);
        case Exit => Exit();
        case Kill(victim) => Kill(victim);
        case Sleep(queue) => var _ := Sleep(queue);
        case Wakeup(queue, all) => Wakeup(queue, all);
        case Wait(target) => Wait(target);
        case CreateLock(lock) => CreateLock(lock);
        case DestroyLock(lock) => DestroyLock(lock);
        case Acquire(lock) => Acquire(lock);
        case Release(lock) => Release(lock);
        case WaitOnCv(cv, lock) => WaitOnCv(cv, lock);
        case SignalCv(cv, lock) => WakeCv(cv, lock, 0);
        case BroadcastCv(cv, lock) => WakeCv(cv, lock, 1);
        case DestroyCv(cv) => DestroyCv(cv);
        case TimerInterrupt => TimerInterrupt();
        case Continue => Continue();
      }
    }

    /** Any schedule, from any state: the tables end up as the transition system says. */
    method Play(schedule: seq<Event>)
      requires Valid() && status == Live && Possible(Abs(), schedule)
      modifies this, state, stack, ctl, ret
      ensures Valid() && Agrees(Abs(), Run(old(Abs()), schedule))
    {
      var i := 0;
      while i < |schedule|
        invariant 0 <= i <= |schedule| && Valid()
        invariant i < |schedule| ==>
                    Possible(Abs(), schedule[i..]) && Run(old(Abs()), schedule) == Run(Abs(), schedule[i..])
        invariant i == |schedule| ==> Agrees(Abs(), Run(old(Abs()), schedule))
      {
        ghost var rest := schedule[i..];
        assert rest[1..] == schedule[i + 1..];
        if i + 1 < |schedule| {
          assert Enabled(Step(Abs(), rest[0]), rest[1..][0]);
        }
        Handle(schedule[i]);
        i := i + 1;
      }
    }
  }
}

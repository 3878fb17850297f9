/**
 The user-level thread library as a transition system.

 A state holds the library's globals, the malloc heap as far as thread stacks
 are concerned, the signal mask, and for every thread slot the C call stack of
 library functions it is inside of. A step runs the current thread up to the
 next point where the interrupt mask may be on or where the processor goes to
 another thread. Each region that the C code brackets with interrupts off is
 one step.
 */
module ThreadSystem {
  import opened Sequences

  const THREAD_MAX_THREADS := 1024

  // The control and error codes of thread.h; valid thread ids are not negative.
  const THREAD_ANY := -1
  const THREAD_SELF := -2
  const THREAD_INVALID := -3
  const THREAD_NONE := -4
  const THREAD_NOMORE := -5
  const THREAD_NOMEMORY := -6

  type Tid = t: int | 0 <= t < 1024
  type Addr = nat

  datatype ThreadState = NotInitialized | Running | Ready | Exited | Killed | Sleeping

  /** A wait queue is named by the structure that embeds it. */
  datatype WaitQueue = ThreadQueue(tid: Tid) | UserQueue(id: nat) | LockQueue(id: nat) | CvQueue(id: nat)

  datatype Lock = Lock(acquired: bool, acquiringThread: int)

  /** Where a thread goes on when it next runs. The last frame of a call stack is the innermost one. */
  datatype Frame =
    | Stub                                   // a new thread, about to turn interrupts on
    | YieldResume(prev: bool, value: int)    // in thread_yield, behind the context switch
    | SleepResume(prev: bool)                // in thread_sleep, behind thread_yield
    | WaitResume(prev: bool, tid: Tid)       // in thread_wait, behind thread_sleep
    | AcquireLoop(lock: nat, prev: bool)     // in lock_acquire, at the loop head
    | CvRelease(cv: nat, lock: nat)          // in cv_wait, before lock_release
    | CvSleep(cv: nat, lock: nat)            // in cv_wait, before thread_sleep
    | CvAcquire(lock: nat)                   // in cv_wait, before lock_acquire
    | CvWakeup(cv: nat, all: int)            // in cv_signal or cv_broadcast, before thread_wakeup
    | HandlerResume(saved: int)              // in the interrupt handler, behind thread_yield
    | ExitEntry                              // a killed thread, redirected to thread_exit
    | ExitYield                              // in thread_exit, before the final thread_yield
    | ExitAssert                             // in thread_exit, behind it: assert(0)

  /** Behind this frame the thread calls nothing that touches a queue. */
  predicate CallsNothing(f: Frame) {
    f.Stub? || f.YieldResume? || f.SleepResume? || f.WaitResume? || f.HandlerResume? || f.ExitAssert?
  }

  datatype Status = Live | Aborted | Finished

  /** The malloc heap: which stacks are allocated, and whether free was ever called on anything else. */
  datatype Heap = Heap(live: set<Addr>, badFree: bool)

  type States = s: seq<ThreadState> | |s| == 1024 witness seq(1024, _ => NotInitialized)
  type Stacks = s: seq<Option<Addr>> | |s| == 1024 witness seq(1024, _ => None)
  type Frames = s: seq<seq<Frame>> | |s| == 1024 witness seq(1024, _ => [])
  type Ints = s: seq<int> | |s| == 1024 witness seq(1024, _ => 0)
  type Flags = s: seq<bool> | |s| == 1024 witness seq(1024, _ => false)
  type Nats = s: seq<nat> | |s| == 1024 witness seq(1024, _ => 0)
  type LockSets = s: seq<set<nat>> | |s| == 1024 witness seq(1024, _ => {})

  type Queues = map<WaitQueue, seq<Tid>>

  datatype Sys = Sys(
    status: Status,
    running: Tid,
    cleanup: bool,          // thread_exit_cleanup_needs_to_run
    mask: bool,             // whether interrupts are enabled
    state: States,
    stack: Stacks,          // orig_stack_begin
    heap: Heap,
    ready: seq<Tid>,
    wait: Queues,
    locks: map<nat, Lock>,
    ctl: Frames,            // the library calls each thread is inside of; [] is user code
    ret: Ints,              // what the last library call returned to each thread
    // History, never read by the library:
    picks: nat,             // how often thread_yield(THREAD_ANY) took the head of the ready queue
    gen: Nats,              // how often each slot was given to a new thread
    userMask: Flags,        // the mask user code itself last asked for
    held: LockSets,         // locks the thread has acquired and not yet released
    slept: Queues,          // every thread that ever went to sleep on a queue, in order
    woken: Queues           // every thread that was ever woken from a queue, in order
  )

  /** A queue that was never used is empty. */
  function At(queues: Queues, q: WaitQueue): seq<Tid> {
    if q in queues then queues[q] else []
  }

  // ---------- Stack reclamation ----------

  function Free(h: Heap, p: Option<Addr>): Heap {
    match p
    case None => h
    case Some(a) => if a in h.live then h.(live := h.live - {a}) else h.(badFree := true)
  }

  /** The heap after the cleanup loop has passed slots 0 to n-1. */
  function FreeExited(state: States, stack: Stacks, h: Heap, n: nat): Heap
    requires n <= 1024
  {
    if n == 0 then h
    else
      var h' := FreeExited(state, stack, h, n - 1);
      if state[n - 1] == Exited then Free(h', stack[n - 1]) else h'
  }

  function Reclaimed(x: ThreadState): ThreadState {
    if x == Exited then NotInitialized else x
  }

  /** thread_exit_cleanup */
  function Cleanup(s: Sys): Sys {
    if s.cleanup then
      s.(state := seq(1024, i requires 0 <= i < 1024 => Reclaimed(s.state[i])),
         heap := FreeExited(s.state, s.stack, s.heap, 1024),
         cleanup := false)
    else s
  }

  // ---------- Creation and killing ----------

  /** The lowest unused slot from `i` on, or 1024. */
  function FirstFree(state: States, i: nat): nat
    requires i <= 1024
    decreases 1024 - i
  {
    if i == 1024 || state[i] == NotInitialized then i else FirstFree(state, i + 1)
  }

  /** What the caller gets back. */
  function Return(s: Sys, value: int): Sys {
    s.(ret := s.ret[s.running := value])
  }

  /** A new thread in slot `t`, ready to run thread_stub. */
  function Created(s: Sys, t: Tid, memory: Addr): Sys {
    s.(state := s.state[t := Ready],
       stack := s.stack[t := Some(memory)],
       heap := s.heap.(live := s.heap.live + {memory}),
       ready := s.ready + [t],
       ctl := s.ctl[t := [Stub]],
       gen := s.gen[t := s.gen[t] + 1],
       userMask := s.userMask[t := true],
       held := s.held[t := {}])
  }

  /** thread_create; `memory` is malloc's answer should it be asked. */
  function ThreadCreate(s: Sys, memory: Option<Addr>): Sys {
    var clean := Cleanup(s);
    var t := FirstFree(clean.state, 0);
    FirstFreeBound(clean.state, 0);
    if t == 1024 then Return(clean, THREAD_NOMORE)
    else if memory.None? then Return(clean, THREAD_NOMEMORY)
    else Return(Created(clean, t, memory.value), t)
  }

  lemma FirstFreeBound(state: States, i: nat)
    requires i <= 1024
    ensures i <= FirstFree(state, i) <= 1024
    ensures FirstFree(state, i) < 1024 ==> state[FirstFree(state, i)] == NotInitialized
    ensures forall k :: i <= k < FirstFree(state, i) ==> state[k] != NotInitialized
    decreases 1024 - i
  {
  }

  predicate IsTid(t: int) {
    0 <= t < THREAD_MAX_THREADS
  }

  function Marked(s: Sys, t: Tid): Sys {
    s.(state := s.state[t := Killed])
  }

  /** thread_kill */
  function ThreadKill(s: Sys, tid: int): Sys {
    var clean := Cleanup(s);
    if !IsTid(tid) || tid == s.running || clean.state[tid] == NotInitialized then Return(clean, THREAD_INVALID)
    else Return(Marked(clean, tid), tid)
  }

  // ---------- Dispatch ----------

  function Abort(s: Sys): Sys {
    s.(status := Aborted)
  }

  /** The frame pushed on the running thread's call stack. */
  function Push(s: Sys, f: Frame): Sys {
    s.(ctl := s.ctl[s.running := s.ctl[s.running] + [f]])
  }

  /** The context switch of thread_yield: a killed thread resumes in thread_exit instead. */
  function Switch(s: Sys, next: Tid, prev: bool): Sys {
    var me := s.running;
    var parked := Push(s, YieldResume(prev, next)).ctl;
    var mine := if s.state[me] == Exited || s.state[me] == Sleeping then s.state[me] else Ready;
    s.(running := next,
       mask := false,
       state := s.state[me := mine][next := Running],
       ctl := if s.state[next] == Killed then parked[next := [ExitEntry]] else parked)
  }

  /** The ready queue once thread_yield has put the caller back, unless it is exiting or asleep. */
  function Requeued(s: Sys): seq<Tid> {
    if s.state[s.running] == Exited || s.state[s.running] == Sleeping then s.ready
    else s.ready + [s.running]
  }

  /** The head of the ready queue has been taken off. */
  function Picked(s: Sys): Sys
    requires Requeued(s) != []
  {
    s.(ready := Requeued(s)[1..], picks := s.picks + 1)
  }

  /** thread_yield(THREAD_ANY) */
  function YieldAny(s: Sys): Sys {
    if Requeued(s) == [] then Abort(s)
    else if Requeued(s)[0] == s.running then Return(Picked(s), THREAD_NONE)
    else Switch(Picked(s), Requeued(s)[0], s.mask)
  }

  /** The thread a directed thread_yield asks for. */
  function Wanted(s: Sys, want: int): int {
    if want == THREAD_SELF then s.running else want
  }

  /** Whether a directed thread_yield accepts its argument. */
  predicate Accepted(s: Sys, want: int) {
    Wanted(s, want) == s.running || (IsTid(want) && (s.state[want] == Ready || s.state[want] == Killed))
  }

  /** thread_yield */
  function ThreadYield(s: Sys, want: int): Sys {
    if want == THREAD_ANY then YieldAny(s)
    else if Accepted(s, want) then
      var next: Tid := Wanted(s, want);
      if next in Requeued(s) then Switch(s.(ready := RemoveFirst<Tid>(Requeued(s), next)), next, s.mask)
      else Abort(s)
    else Return(s, THREAD_INVALID)
  }

  // ---------- Sleeping and waking ----------

  /** thread_sleep just before its thread_yield: the caller is in the wait queue and still on the processor. */
  function Asleep(s: Sys, q: WaitQueue): Sys {
    Push(s, SleepResume(s.mask)).(
      mask := false,
      wait := s.wait[q := At(s.wait, q) + [s.running]],
      slept := s.slept[q := At(s.slept, q) + [s.running]],
      state := s.state[s.running := Sleeping])
  }

  /** thread_sleep once it is known that some other thread is ready. */
  function Block(s: Sys, q: WaitQueue): Sys {
    YieldAny(Asleep(s, q))
  }

  /** thread_sleep */
  function ThreadSleep(s: Sys, queue: Option<WaitQueue>): Sys {
    if queue.None? then Return(s, THREAD_INVALID)
    else if s.ready == [] then Return(s, THREAD_NONE)
    else Block(s, queue.value)
  }

  /** How many threads thread_wakeup takes off a queue. */
  function WakeCount(s: Sys, q: WaitQueue, all: int): nat {
    if At(s.wait, q) == [] then 0
    else if all == 1 then |At(s.wait, q)|
    else if all == 0 then 1
    else 0
  }

  function Woken(state: States, block: seq<Tid>): States {
    seq(1024, i requires 0 <= i < 1024 => if i in block && state[i] == Sleeping then Ready else state[i])
  }

  /** The state change of thread_wakeup. */
  function Wake(s: Sys, q: WaitQueue, all: int): Sys {
    var k := WakeCount(s, q, all);
    if k == 0 then s
    else
      var block := At(s.wait, q)[..k];
      s.(ready := s.ready + block,
         wait := s.wait[q := At(s.wait, q)[k..]],
         woken := s.woken[q := At(s.woken, q) + block],
         state := Woken(s.state, block))
  }

  /** thread_wakeup */
  function ThreadWakeup(s: Sys, queue: Option<WaitQueue>, all: int): Sys {
    if queue.None? then Return(s, 0)
    else Return(Wake(s, queue.value, all), WakeCount(s, queue.value, all))
  }

  /** thread_wait */
  function ThreadWait(s: Sys, tid: int): Sys {
    if !IsTid(tid) || s.state[tid] == NotInitialized || tid == s.running then Return(s, THREAD_INVALID)
    else if s.ready == [] then Return(s, tid)
    else Block(Push(s, WaitResume(s.mask, tid)).(mask := false), ThreadQueue(tid))
  }

  // ---------- Exit ----------

  /** thread_exit, up to its final thread_yield or the end of the program. */
  function ThreadExit(s: Sys): Sys {
    var clean := Cleanup(s);
    var dead := clean.(state := clean.state[s.running := Exited], cleanup := true);
    var done := Wake(dead, ThreadQueue(s.running), 1);
    if done.ready == [] then done.(mask := false, status := Finished) else Push(done, ExitYield)
  }

  // ---------- Locks and condition variables ----------

  function Taken(s: Sys, lock: nat): Sys {
    s.(locks := s.locks[lock := Lock(true, s.running)],
       held := s.held[s.running := s.held[s.running] + {lock}])
  }

  /** One turn of the loop in lock_acquire. Interrupts are off; `prev` is the caller's mask. */
  function AcquireTurn(s: Sys, lock: nat, prev: bool): Sys
    requires lock in s.locks
  {
    if s.locks[lock].acquired then
      var looping := Push(s, AcquireLoop(lock, prev));
      if s.ready == [] then Return(looping, THREAD_NONE) else Block(looping, LockQueue(lock))
    else Taken(s, lock).(mask := prev)
  }

  function LockAcquire(s: Sys, lock: nat): Sys
    requires lock in s.locks
  {
    AcquireTurn(s.(mask := false), lock, s.mask)
  }

  predicate Owns(s: Sys, lock: nat)
    requires lock in s.locks
  {
    s.locks[lock].acquiringThread == s.running
  }

  /** lock_release between giving up the lock and waking the threads that wait for it. */
  function Unlocked(s: Sys, lock: nat): Sys
    requires lock in s.locks
  {
    s.(locks := s.locks[lock := s.locks[lock].(acquired := false)],
       held := s.held[s.running := s.held[s.running] - {lock}])
  }

  function LockRelease(s: Sys, lock: nat): Sys
    requires lock in s.locks
  {
    if Owns(s, lock) then Wake(Unlocked(s, lock), LockQueue(lock), 1) else Abort(s)
  }

  function LockDestroy(s: Sys, lock: nat): Sys
    requires lock in s.locks
  {
    if s.locks[lock].acquired || At(s.wait, LockQueue(lock)) != [] then Abort(s)
    else s.(locks := s.locks - {lock})
  }

  /** cv_wait, up to its call of lock_release. */
  function CvWait(s: Sys, cv: nat, lock: nat): Sys
    requires lock in s.locks
  {
    if Owns(s, lock) then Push(s, CvRelease(cv, lock)) else Abort(s)
  }

  /** cv_signal (all == 0) and cv_broadcast (all == 1), up to their call of thread_wakeup. */
  function CvWake(s: Sys, cv: nat, lock: nat, all: int): Sys
    requires lock in s.locks
  {
    if Owns(s, lock) then Push(s, CvWakeup(cv, all)) else Abort(s)
  }

  /** cv_destroy; a condition variable is nothing but its wait queue, which must be empty. */
  function CvDestroy(s: Sys, cv: nat): Sys {
    if At(s.wait, CvQueue(cv)) != [] then Abort(s) else s
  }

  // ---------- Interrupts and resumption ----------

  /** The timer signal: its handler runs with the signal blocked and yields. */
  function Interrupt(s: Sys): Sys {
    YieldAny(Push(s, HandlerResume(s.ret[s.running])).(mask := false))
  }

  function Top(s: Sys): Frame
    requires s.ctl[s.running] != []
  {
    s.ctl[s.running][|s.ctl[s.running]| - 1]
  }

  function Pop(s: Sys): Sys
    requires s.ctl[s.running] != []
  {
    s.(ctl := s.ctl[s.running := s.ctl[s.running][..|s.ctl[s.running]| - 1]])
  }

  /** The lock the innermost frame is about to touch. */
  function NextLock(f: Frame): Option<nat> {
    match f
    case AcquireLoop(l, _) => Some(l)
    case CvRelease(_, l) => Some(l)
    case CvAcquire(l) => Some(l)
    case _ => None
  }

  predicate CanResume(s: Sys) {
    s.ctl[s.running] != [] && (NextLock(Top(s)).Some? ==> NextLock(Top(s)).value in s.locks)
  }

  /** The running thread goes on inside the library. */
  function Resume(s: Sys): Sys
    requires CanResume(s)
  {
    var below := Pop(s);
    match Top(s)
    case Stub => below.(mask := true)
    case YieldResume(prev, value) => Return(below, value).(mask := prev)
    case SleepResume(prev) => below.(mask := prev)
    case WaitResume(prev, tid) => Return(below, tid).(mask := prev)
    case AcquireLoop(lock, prev) => AcquireTurn(below, lock, prev)
    case CvRelease(cv, lock) =>
      if Owns(s, lock) then Push(LockRelease(below, lock), CvSleep(cv, lock)) else Abort(s)
    case CvSleep(cv, lock) => ThreadSleep(Push(below, CvAcquire(lock)), Some(CvQueue(cv)))
    case CvAcquire(lock) => LockAcquire(below, lock)
    case CvWakeup(cv, all) => Wake(below, CvQueue(cv), all)
    case HandlerResume(saved) => Return(below, saved).(mask := true)
    case ExitEntry => ThreadExit(below)
    case ExitYield => YieldAny(Push(below, ExitAssert))
    case ExitAssert => Abort(s)
  }

  // ---------- Events and runs ----------

  datatype Event =
    | SetMask(on: bool)
    | Create(memory: Option<Addr>)
    | Yield(want: int)
    | Exit
    | Kill(victim: int)
    | Sleep(queue: Option<WaitQueue>)
    | Wakeup(queue: Option<WaitQueue>, all: int)
    | Wait(target: int)
    | CreateLock(lock: nat)
    | DestroyLock(lock: nat)
    | Acquire(lock: nat)
    | Release(lock: nat)
    | WaitOnCv(cv: nat, lock: nat)
    | SignalCv(cv: nat, lock: nat)
    | BroadcastCv(cv: nat, lock: nat)
    | DestroyCv(cv: nat)
    | TimerInterrupt
    | Continue

  predicate IsUserQueue(queue: Option<WaitQueue>) {
    queue.Some? ==> queue.value.UserQueue?
  }

  /**
   What may happen next. User code calls the library only with locks that
   exist and with wait queues of its own; malloc returns unallocated memory;
   the timer fires only while interrupts are on.
   */
  predicate Enabled(s: Sys, e: Event) {
    s.status == Live &&
    match e
    case TimerInterrupt => s.mask
    case Continue => CanResume(s)
    case _ =>
      s.ctl[s.running] == [] &&
      match e
      case Create(memory) => memory.Some? ==> memory.value !in Cleanup(s).heap.live
      case Sleep(queue) => IsUserQueue(queue)
      case Wakeup(queue, _) => IsUserQueue(queue)
      case CreateLock(lock) => lock !in s.locks && At(s.wait, LockQueue(lock)) == []
      case DestroyLock(lock) => lock in s.locks
      case Acquire(lock) => lock in s.locks
      case Release(lock) => lock in s.locks
      case WaitOnCv(_, lock) => lock in s.locks
      case SignalCv(_, lock) => lock in s.locks
      case BroadcastCv(_, lock) => lock in s.locks
      case _ => true
  }

  function Step(s: Sys, e: Event): Sys
    requires Enabled(s, e)
  {
    match e
    case SetMask(on) => s.(mask := on, userMask := s.userMask[s.running := on])
    case Create(memory) => ThreadCreate(s, memory)
    case Yield(want) => ThreadYield(s, want)
    case Exit => ThreadExit(s)
    case Kill(tid) => ThreadKill(s, tid)
    case Sleep(queue) => ThreadSleep(s, queue)
    case Wakeup(queue, all) => ThreadWakeup(s, queue, all)
    case Wait(tid) => ThreadWait(s, tid)
    case CreateLock(lock) => s.(locks := s.locks[lock := Lock(false, THREAD_NONE)])
    case DestroyLock(lock) => LockDestroy(s, lock)
    case Acquire(lock) => LockAcquire(s, lock)
    case Release(lock) => LockRelease(s, lock)
    case WaitOnCv(cv, lock) => CvWait(s, cv, lock)
    case SignalCv(cv, lock) => CvWake(s, cv, lock, 0)
    case BroadcastCv(cv, lock) => CvWake(s, cv, lock, 1)
    case DestroyCv(cv) => CvDestroy(s, cv)
    case TimerInterrupt => Interrupt(s)
    case Continue => Resume(s)
  }

  /** thread_init: the main thread runs in slot 0 on a stack the library did not allocate. */
  function Init(interruptsOn: bool): Sys {
    Sys(Live, 0, false, interruptsOn,
        seq(1024, i => if i == 0 then Running else NotInitialized),
        seq(1024, _ => None), Heap({}, false), [], map[], map[],
        seq(1024, _ => []), seq(1024, _ => 0),
        0, seq(1024, _ => 0), seq(1024, _ => interruptsOn), seq(1024, _ => {}), map[], map[])
  }

  /** `es` is a schedule: each event is possible when its turn comes. */
  ghost predicate Possible(s: Sys, es: seq<Event>)
    decreases |es|
  {
    es == [] || (Enabled(s, es[0]) && Possible(Step(s, es[0]), es[1..]))
  }

  ghost function Run(s: Sys, es: seq<Event>): Sys
    requires Possible(s, es)
    decreases |es|
  {
    if es == [] then s else Run(Step(s, es[0]), es[1..])
  }
}

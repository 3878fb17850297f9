/** What every step of the web server keeps. */
module ServerInvariants {
  import opened Sequences
  import opened CacheModel
  import opened ServerSystem

  // ---------- Serving ----------

  /** A step of do_server_request touches only the thread itself, the cache and the answers. */
  lemma WorkerServing(cfg: Config, s: Server, i: nat) returns (w: Worker)
    requires i < |s.workers| && s.workers[i].Working?
    ensures w.Working? || w == AtLoop
    ensures var t := WorkerStep(cfg, s, i);
            && t.workers == s.workers[i := w] && t.producer == s.producer && t.owner == s.owner && t.buffer == s.buffer
            && t.size == s.size && t.exiting == s.exiting && t.pushed == s.pushed && t.popped == s.popped
            && t.accepted == s.accepted
            && (t.fault == s.fault || (w == s.workers[i] && t.fault in {EmptyCopy, NullCache}))
  {
    match Serve(cfg, s.cache, s.workers[i].conn, s.workers[i].task) {
      case Go(next, _) => w := Working(s.workers[i].conn, next);
      case Done(_) => w := AtLoop;
      case Crash(_) =>
        w := s.workers[i];
        assert s.workers[i := w] == s.workers;
    }
  }

  lemma ProducerServing(cfg: Config, s: Server) returns (p: Producer)
    requires s.producer.Serving?
    ensures p.Serving? || p == Idle
    ensures var t := ProducerStep(cfg, s);
            && t.producer == p && t.workers == s.workers && t.owner == s.owner && t.buffer == s.buffer
            && t.size == s.size && t.exiting == s.exiting && t.pushed == s.pushed && t.popped == s.popped
            && t.accepted == s.accepted
            && (t.fault == s.fault || t.fault in {EmptyCopy, NullCache})
  {
    match Serve(cfg, s.cache, s.producer.conn, s.producer.task) {
      case Go(next, _) => p := Serving(s.producer.conn, next);
      case Done(_) => p := Idle;
      case Crash(_) => p := s.producer;
    }
  }

  // ---------- The mutex ----------

  predicate ProducerHolds(p: Producer) {
    p.AtTest? || p.AtWait? || p.AtPush? || p.AtSignal? || p.AtUnlock?
  }

  predicate WorkerHolds(w: Worker) {
    w.Testing? || w.Waiting? || w.TestingExit? || w.Popping? || w.Signalling? || w.Unlocking?
  }

  /** The mutex has at most one owner, and that is the thread that is between lock and unlock. */
  ghost predicate LockOk(p: Producer, ws: seq<Worker>, owner: Owner) {
    && (owner == ByProducer <==> ProducerHolds(p))
    && (forall i :: 0 <= i < |ws| ==> (WorkerHolds(ws[i]) <==> owner == ByWorker(i)))
    && (owner.ByWorker? ==> owner.worker < |ws|)
  }

  lemma WorkerLock(cfg: Config, s: Server, i: nat)
    requires Enabled(s, WorkerMoves(i)) && LockOk(s.producer, s.workers, s.owner)
    ensures var t := Step(cfg, s, WorkerMoves(i)); LockOk(t.producer, t.workers, t.owner)
  {
    match s.workers[i] {
      case AtLoop =>
      case WantsLock =>
      case Testing =>
      case Waiting =>
      case TestingExit =>
      case Popping =>
      case Signalling(conn) =>
      case Unlocking(conn) =>
      case Working(conn, task) => var w := WorkerServing(cfg, s, i);
    }
  }

  lemma StepLock(cfg: Config, s: Server, e: Event)
    requires Enabled(s, e) && LockOk(s.producer, s.workers, s.owner)
    ensures var t := Step(cfg, s, e); LockOk(t.producer, t.workers, t.owner)
  {
    match e
    case ProducerMoves =>
      match s.producer {
        case Serving(conn, task) => var p := ProducerServing(cfg, s);
        case _ =>
      }
    case WorkerMoves(i) => WorkerLock(cfg, s, i);
    case _ =>
  }

  /** While a worker has the mutex nobody else does. */
  lemma OnlyWorker(p: Producer, ws: seq<Worker>, owner: Owner, i: nat)
    requires LockOk(p, ws, owner) && i < |ws| && WorkerHolds(ws[i])
    ensures owner == ByWorker(i) && !ProducerHolds(p)
    ensures forall k :: 0 <= k < |ws| && k != i ==> !WorkerHolds(ws[k])
  {
  }

  /** While the main thread has the mutex no worker does. */
  lemma OnlyProducer(p: Producer, ws: seq<Worker>, owner: Owner)
    requires LockOk(p, ws, owner) && ProducerHolds(p)
    ensures owner == ByProducer && forall k :: 0 <= k < |ws| ==> !WorkerHolds(ws[k])
  {
  }

  // ---------- The queue ----------

  /** What the tests before a push, a pop or a wait have established; only shutdown ends a worker. */
  ghost predicate Tested(p: Producer, ws: seq<Worker>, size: int, max: int, exiting: bool) {
    && (p.AtPush? ==> size != max)
    && (p.AtWait? ==> size == max)
    && (forall i :: 0 <= i < |ws| ==>
          && (ws[i].Waiting? ==> size == 0)
          && (ws[i].TestingExit? ==> size > 0 || exiting)
          && (ws[i].Popping? ==> size > 0)
          && (ws[i].Finished? ==> exiting))
  }

  /** The counter is the length, within the bound, and nothing is lost, duplicated or reordered. */
  ghost predicate QueueOk(buffer: seq<int>, size: int, max: int, pushed: seq<int>, popped: seq<int>) {
    && size == |buffer|
    && (size == 0 || size <= max)
    && pushed == popped + buffer
  }

  lemma StepQueue(cfg: Config, s: Server, e: Event)
    requires Enabled(s, e) && QueueOk(s.buffer, s.size, cfg.maxRequests, s.pushed, s.popped)
    ensures var t := Step(cfg, s, e); QueueOk(t.buffer, t.size, cfg.maxRequests, t.pushed, t.popped)
  {
    match e
    case ProducerMoves =>
      match s.producer {
        case AtPush(conn) => assert s.popped + (s.buffer + [conn]) == s.popped + s.buffer + [conn];
        case Serving(conn, task) => var p := ProducerServing(cfg, s);
        case _ =>
      }
    case WorkerMoves(i) =>
      match s.workers[i] {
        case Popping =>
          if s.buffer == [] {
          } else {
            assert s.popped + s.buffer == s.popped + [s.buffer[0]] + s.buffer[1..];
          }
        case Working(conn, task) => var w := WorkerServing(cfg, s, i);
        case _ =>
      }
    case _ =>
  }

  lemma ProducerTested(cfg: Config, s: Server)
    requires Enabled(s, ProducerMoves) && LockOk(s.producer, s.workers, s.owner)
    requires Tested(s.producer, s.workers, s.size, cfg.maxRequests, s.exiting)
    ensures var t := Step(cfg, s, ProducerMoves); Tested(t.producer, t.workers, t.size, cfg.maxRequests, t.exiting)
  {
    match s.producer {
      case AtPush(conn) => OnlyProducer(s.producer, s.workers, s.owner);
      case AtSignal =>
      case Exiting =>
      case Serving(conn, task) => var p := ProducerServing(cfg, s);
      case _ =>
    }
  }

  lemma WorkerTested(cfg: Config, s: Server, i: nat)
    requires Enabled(s, WorkerMoves(i)) && LockOk(s.producer, s.workers, s.owner) && s.size >= 0
    requires Tested(s.producer, s.workers, s.size, cfg.maxRequests, s.exiting)
    ensures var t := Step(cfg, s, WorkerMoves(i)); Tested(t.producer, t.workers, t.size, cfg.maxRequests, t.exiting)
  {
    match s.workers[i] {
      case AtLoop =>
      case WantsLock =>
      case Testing =>
      case Waiting =>
      case TestingExit =>
      case Popping => OnlyWorker(s.producer, s.workers, s.owner, i);
      case Signalling(conn) =>
      case Unlocking(conn) =>
      case Working(conn, task) => var w := WorkerServing(cfg, s, i);
    }
  }

  lemma StepTested(cfg: Config, s: Server, e: Event)
    requires Enabled(s, e) && LockOk(s.producer, s.workers, s.owner) && s.size >= 0
    requires Tested(s.producer, s.workers, s.size, cfg.maxRequests, s.exiting)
    ensures var t := Step(cfg, s, e); Tested(t.producer, t.workers, t.size, cfg.maxRequests, t.exiting)
  {
    match e
    case ProducerMoves => ProducerTested(cfg, s);
    case WorkerMoves(i) => WorkerTested(cfg, s, i);
    case _ =>
  }

  // ---------- Wakeups ----------

  /** A worker has popped and still has the mutex. */
  predicate JustPopped(ws: seq<Worker>, owner: Owner) {
    owner.ByWorker? && owner.worker < |ws| && (ws[owner.worker].Signalling? || ws[owner.worker].Unlocking?)
  }

  /** The broadcast that ends the waiting of the main thread is due. */
  predicate NonfullDue(ws: seq<Worker>, owner: Owner, size: int, max: int) {
    owner.ByWorker? && owner.worker < |ws| && ws[owner.worker].Signalling? && size == max - 1
  }

  /** Whoever is blocked waits for something that has not happened, or its broadcast is due. */
  ghost predicate Wakeups(p: Producer, ws: seq<Worker>, owner: Owner, size: int, max: int) {
    && (p.Blocked? ==> size == max || NonfullDue(ws, owner, size, max))
    && (forall i :: 0 <= i < |ws| && ws[i].Asleep? ==>
          (size == 0 && !JustPopped(ws, owner)) || (p.AtSignal? && size == 1))
  }

  lemma ProducerWakeups(cfg: Config, s: Server)
    requires Enabled(s, ProducerMoves) && LockOk(s.producer, s.workers, s.owner)
    requires Tested(s.producer, s.workers, s.size, cfg.maxRequests, s.exiting)
    requires Wakeups(s.producer, s.workers, s.owner, s.size, cfg.maxRequests)
    ensures var t := Step(cfg, s, ProducerMoves); Wakeups(t.producer, t.workers, t.owner, t.size, cfg.maxRequests)
  {
    match s.producer {
      case AtLock(conn) =>
      case AtTest(conn) =>
      case AtWait(conn) =>
      case AtPush(conn) =>
      case AtSignal =>
      case AtUnlock =>
      case Exiting =>
      case Joining =>
      case Deleting =>
      case Serving(conn, task) => var p := ProducerServing(cfg, s);
    }
  }

  lemma FreeWorkerWakeups(cfg: Config, s: Server, i: nat)
    requires Enabled(s, WorkerMoves(i)) && (s.workers[i] == AtLoop || s.workers[i] == WantsLock)
    requires LockOk(s.producer, s.workers, s.owner) && Wakeups(s.producer, s.workers, s.owner, s.size, cfg.maxRequests)
    ensures var t := WorkerStep(cfg, s, i); Wakeups(t.producer, t.workers, t.owner, t.size, cfg.maxRequests)
  {
    if s.workers[i] == AtLoop {
    } else {
    }
  }

  lemma TestingWakeups(cfg: Config, s: Server, i: nat)
    requires Enabled(s, WorkerMoves(i)) && (s.workers[i] == Testing || s.workers[i] == TestingExit)
    requires LockOk(s.producer, s.workers, s.owner) && Wakeups(s.producer, s.workers, s.owner, s.size, cfg.maxRequests)
    ensures var t := WorkerStep(cfg, s, i); Wakeups(t.producer, t.workers, t.owner, t.size, cfg.maxRequests)
  {
    OnlyWorker(s.producer, s.workers, s.owner, i);
  }

  /** The worker goes to sleep on an empty queue. */
  lemma WaitingWakeups(cfg: Config, s: Server, i: nat)
    requires Enabled(s, WorkerMoves(i)) && s.workers[i] == Waiting && s.size == 0
    requires LockOk(s.producer, s.workers, s.owner) && Wakeups(s.producer, s.workers, s.owner, s.size, cfg.maxRequests)
    ensures var t := WorkerStep(cfg, s, i); Wakeups(t.producer, t.workers, t.owner, t.size, cfg.maxRequests)
  {
    OnlyWorker(s.producer, s.workers, s.owner, i);
  }

  /** The queue is not empty, so nobody sleeps; if it was full the broadcast is due. */
  lemma PoppingWakeups(cfg: Config, s: Server, i: nat)
    requires Enabled(s, WorkerMoves(i)) && s.workers[i] == Popping && s.size > 0
    requires LockOk(s.producer, s.workers, s.owner) && Wakeups(s.producer, s.workers, s.owner, s.size, cfg.maxRequests)
    ensures var t := WorkerStep(cfg, s, i); Wakeups(t.producer, t.workers, t.owner, t.size, cfg.maxRequests)
  {
    OnlyWorker(s.producer, s.workers, s.owner, i);
    if s.buffer == [] {
    } else {
    }
  }

  lemma SignallingWakeups(cfg: Config, s: Server, i: nat)
    requires Enabled(s, WorkerMoves(i)) && (s.workers[i].Signalling? || s.workers[i].Unlocking?)
    requires LockOk(s.producer, s.workers, s.owner) && Wakeups(s.producer, s.workers, s.owner, s.size, cfg.maxRequests)
    ensures var t := WorkerStep(cfg, s, i); Wakeups(t.producer, t.workers, t.owner, t.size, cfg.maxRequests)
  {
    OnlyWorker(s.producer, s.workers, s.owner, i);
    if s.workers[i].Signalling? {
    } else {
    }
  }

  lemma WorkerWakeups(cfg: Config, s: Server, i: nat)
    requires Enabled(s, WorkerMoves(i)) && LockOk(s.producer, s.workers, s.owner)
    requires Tested(s.producer, s.workers, s.size, cfg.maxRequests, s.exiting)
    requires Wakeups(s.producer, s.workers, s.owner, s.size, cfg.maxRequests)
    ensures var t := Step(cfg, s, WorkerMoves(i)); Wakeups(t.producer, t.workers, t.owner, t.size, cfg.maxRequests)
  {
    hide WorkerStep;
    match s.workers[i] {
      case AtLoop => FreeWorkerWakeups(cfg, s, i);
      case WantsLock => FreeWorkerWakeups(cfg, s, i);
      case Testing => TestingWakeups(cfg, s, i);
      case Waiting => WaitingWakeups(cfg, s, i);
      case TestingExit => TestingWakeups(cfg, s, i);
      case Popping => PoppingWakeups(cfg, s, i);
      case Signalling(conn) => SignallingWakeups(cfg, s, i);
      case Unlocking(conn) => SignallingWakeups(cfg, s, i);
      case Working(conn, task) => var w := WorkerServing(cfg, s, i);
    }
  }

  lemma StepWakeups(cfg: Config, s: Server, e: Event)
    requires Enabled(s, e) && LockOk(s.producer, s.workers, s.owner)
    requires Tested(s.producer, s.workers, s.size, cfg.maxRequests, s.exiting)
    requires Wakeups(s.producer, s.workers, s.owner, s.size, cfg.maxRequests)
    ensures var t := Step(cfg, s, e); Wakeups(t.producer, t.workers, t.owner, t.size, cfg.maxRequests)
  {
    match e
    case ProducerMoves => ProducerWakeups(cfg, s);
    case WorkerMoves(i) => WorkerWakeups(cfg, s, i);
    case _ =>
  }

  // ---------- The cache ----------

  /** Every cached file is the file in the store, and not empty. */
  ghost predicate Mirrors(files: map<string, FileData>, store: map<string, string>) {
    forall name :: name in files ==> name in store && store[name] != "" && files[name] == FileOf(store, name)
  }

  ghost predicate CacheOk(cfg: Config, cache: Cache) {
    && cache.max == cfg.maxCache
    && (if cfg.maxCache < 0 then cache == Empty(cfg.maxCache) else Consistent(cache))
    && Mirrors(cache.files, cfg.store)
  }

  /** What a server without a cache sends. */
  function Uncached(cfg: Config, conn: int): Option<FileData> {
    if conn in cfg.asks && cfg.asks[conn] in cfg.store then Some(FileOf(cfg.store, cfg.asks[conn])) else None
  }

  ghost predicate TaskOk(cfg: Config, conn: int, task: Task) {
    match task
    case Parse => true
    case Look(name) => conn in cfg.asks && name == cfg.asks[conn]
    case Read(name) => conn in cfg.asks && name == cfg.asks[conn]
    case Store(data) => Uncached(cfg, conn) == Some(data)
    case Send(data) => Uncached(cfg, conn) == Some(data)
  }

  lemma EvictMirrors(c: Cache, demand: int, store: map<string, string>)
    requires Mirrors(c.files, store)
    ensures Mirrors(Evict(c, demand).files, store)
  {
    EvictRemovesPrefix(c, demand);
  }

  lemma AddMirrors(c: Cache, name: string, store: map<string, string>)
    requires Mirrors(c.files, store) && name in store && store[name] != ""
    ensures Mirrors(Add(c, name, FileOf(store, name)).files, store)
  {
    var size := |store[name]|;
    EvictMirrors(c, size - (c.max - c.curr), store);
    assert Mirrors(Room(c, size).files, store);
  }

  /**
   Each step of a request gets nearer to the right answer, or gives it, or
   crashes: it does so exactly where an empty file is to be added to a cache
   whose size is not negative. No request touches a missing cache.
   */
  lemma ServeFaithful(cfg: Config, cache: Cache, conn: int, task: Task)
    requires CacheOk(cfg, cache) && TaskOk(cfg, conn, task)
    ensures match Serve(cfg, cache, conn, task)
            case Go(next, cache') => CacheOk(cfg, cache') && TaskOk(cfg, conn, next)
            case Done(file) => file == Uncached(cfg, conn)
            case Crash(fault) => fault == EmptyCopy
    ensures Serve(cfg, cache, conn, task).Crash? <==> task.Store? && task.data.fileSize == 0 <= cfg.maxCache
  {
    match task
    case Store(data) =>
      if 0 < data.fileSize <= cfg.maxCache {
        AddConsistent(cache, data.fileName, data);
        AddMirrors(cache, data.fileName, cfg.store);
      }
    case _ =>
  }

  /** A cached file is not read again; any other one is. */
  lemma HitsAreNotRead(cfg: Config, cache: Cache, conn: int, name: string)
    requires CacheOk(cfg, cache) && TaskOk(cfg, conn, Look(name))
    ensures Serve(cfg, cache, conn, Look(name)) ==
              if cfg.maxCache != 0 && name in cache.files then Go(Store(FileOf(cfg.store, name)), cache)
              else Go(Read(name), cache)
  {
  }

  ghost predicate TasksOk(cfg: Config, p: Producer, ws: seq<Worker>) {
    && (p.Serving? ==> TaskOk(cfg, p.conn, p.task))
    && (forall i :: 0 <= i < |ws| && ws[i].Working? ==> TaskOk(cfg, ws[i].conn, ws[i].task))
  }

  ghost predicate AnswersOk(cfg: Config, answers: seq<Answer>) {
    forall i :: 0 <= i < |answers| ==> answers[i].file == Uncached(cfg, answers[i].conn)
  }

  lemma WorkerFaithful(cfg: Config, s: Server, i: nat)
    requires Enabled(s, WorkerMoves(i))
    requires CacheOk(cfg, s.cache) && TasksOk(cfg, s.producer, s.workers) && AnswersOk(cfg, s.answers)
    ensures var t := Step(cfg, s, WorkerMoves(i));
            CacheOk(cfg, t.cache) && TasksOk(cfg, t.producer, t.workers) && AnswersOk(cfg, t.answers)
  {
    match s.workers[i] {
      case AtLoop =>
      case WantsLock =>
      case Testing =>
      case Waiting =>
      case TestingExit =>
      case Popping =>
      case Signalling(conn) =>
      case Unlocking(conn) =>
      case Working(conn, task) =>
        ServeFaithful(cfg, s.cache, conn, task);
        match Serve(cfg, s.cache, conn, task) {
          case Go(_, _) =>
          case Done(_) =>
          case Crash(_) =>
        }
    }
  }

  lemma StepFaithful(cfg: Config, s: Server, e: Event)
    requires Enabled(s, e)
    requires CacheOk(cfg, s.cache) && TasksOk(cfg, s.producer, s.workers) && AnswersOk(cfg, s.answers)
    ensures var t := Step(cfg, s, e);
            CacheOk(cfg, t.cache) && TasksOk(cfg, t.producer, t.workers) && AnswersOk(cfg, t.answers)
  {
    match e
    case ProducerMoves =>
      match s.producer {
        case Serving(conn, task) =>
          ServeFaithful(cfg, s.cache, conn, task);
          match Serve(cfg, s.cache, conn, task) {
            case Go(_, _) =>
            case Done(_) =>
            case Crash(_) =>
          }
        case _ =>
      }
    case WorkerMoves(i) => WorkerFaithful(cfg, s, i);
    case _ =>
  }

  // ---------- A queue without room ----------

  /** With no room in the queue nothing is pushed, and no worker gets a connection. */
  ghost predicate Starved(max: int, ws: seq<Worker>, buffer: seq<int>) {
    max <= 0 ==>
      buffer == [] && forall i :: 0 <= i < |ws| ==> !ws[i].Signalling? && !ws[i].Unlocking? && !ws[i].Working?
  }

  lemma StepStarved(cfg: Config, s: Server, e: Event)
    requires Enabled(s, e) && Starved(cfg.maxRequests, s.workers, s.buffer) && s.size >= 0
    ensures var t := Step(cfg, s, e); Starved(cfg.maxRequests, t.workers, t.buffer)
  {
    match e
    case ProducerMoves =>
      match s.producer {
        case Serving(conn, task) => var p := ProducerServing(cfg, s);
        case _ =>
      }
    case WorkerMoves(i) =>
      match s.workers[i] {
        case Working(conn, task) => var w := WorkerServing(cfg, s, i);
        case _ =>
      }
    case _ =>
  }

  // ---------- Shutdown ----------

  /** The main thread is behind the broadcast of server_exit. */
  predicate BehindBroadcast(p: Producer) {
    p.Joining? || p.Deleting? || p.Returned?
  }

  /** server_exit sets `exiting` before it broadcasts, and deletes nothing before all workers have ended. */
  ghost predicate ExitOk(p: Producer, ws: seq<Worker>, exiting: bool, maxCache: int) {
    && (p.Exiting? || BehindBroadcast(p) ==> exiting)
    && (p.Deleting? || p.Returned? ==> AllFinished(ws))
    && (p.Returned? ==> maxCache != 0)
  }

  lemma StepExitOk(cfg: Config, s: Server, e: Event)
    requires Enabled(s, e) && ExitOk(s.producer, s.workers, s.exiting, cfg.maxCache)
    ensures var t := Step(cfg, s, e); ExitOk(t.producer, t.workers, t.exiting, cfg.maxCache)
  {
    match e
    case ProducerMoves =>
      match s.producer {
        case Serving(conn, task) => var p := ProducerServing(cfg, s);
        case _ =>
      }
    case WorkerMoves(i) =>
      match s.workers[i] {
        case Working(conn, task) => var w := WorkerServing(cfg, s, i);
        case _ =>
      }
    case _ =>
  }

  // ---------- Conservation ----------

  /** The connection that the main thread has in hand. */
  function ProducerHand(p: Producer): seq<int> {
    if p.AtLock? || p.AtTest? || p.AtWait? || p.Blocked? || p.AtPush? || p.Serving? then [p.conn] else []
  }

  /** Whether a worker has the connection in hand. */
  predicate HasInHand(w: Worker, conn: int) {
    (w.Signalling? || w.Unlocking? || w.Working?) && w.conn == conn
  }

  /** How many workers have the connection in hand. */
  function Hands(ws: seq<Worker>, conn: int): nat {
    if ws == [] then 0 else (if HasInHand(ws[0], conn) then 1 else 0) + Hands(ws[1..], conn)
  }

  function Count(s: seq<int>, conn: int): nat {
    if s == [] then 0 else (if s[0] == conn then 1 else 0) + Count(s[1..], conn)
  }

  function Answered(answers: seq<Answer>, conn: int): nat {
    if answers == [] then 0 else (if answers[0].conn == conn then 1 else 0) + Answered(answers[1..], conn)
  }

  lemma {:induction false} HandsUpdate(ws: seq<Worker>, i: nat, w: Worker, conn: int)
    requires i < |ws|
    ensures Hands(ws[i := w], conn) ==
              Hands(ws, conn) - (if HasInHand(ws[i], conn) then 1 else 0) + (if HasInHand(w, conn) then 1 else 0)
  {
    if i == 0 {
      assert ws[0 := w][1..] == ws[1..];
    } else {
      HandsUpdate(ws[1..], i - 1, w, conn);
      assert ws[i := w][1..] == ws[1..][i - 1 := w];
    }
  }

  lemma {:induction false} HandsWake(ws: seq<Worker>, conn: int)
    ensures Hands(WakeWorkers(ws), conn) == Hands(ws, conn)
  {
    if ws != [] {
      HandsWake(ws[1..], conn);
      assert WakeWorkers(ws)[1..] == WakeWorkers(ws[1..]);
    }
  }

  lemma {:induction false} CountMore(s: seq<int>, x: int, conn: int)
    ensures Count(s + [x], conn) == Count(s, conn) + if x == conn then 1 else 0
  {
    if s == [] {
      assert s + [x] == [x];
    } else {
      CountMore(s[1..], x, conn);
      assert (s + [x])[1..] == s[1..] + [x];
    }
  }

  lemma CountOne(x: int, conn: int)
    ensures Count([x], conn) == if x == conn then 1 else 0
  {
    assert [x][1..] == [];
  }

  lemma {:induction false} AnsweredMore(answers: seq<Answer>, a: Answer, conn: int)
    ensures Answered(answers + [a], conn) == Answered(answers, conn) + if a.conn == conn then 1 else 0
  {
    if answers == [] {
      assert answers + [a] == [a];
    } else {
      AnsweredMore(answers[1..], a, conn);
      assert (answers + [a])[1..] == answers[1..] + [a];
    }
  }

  /** Accepted connections are pushed in the order of their acceptance, except by a server without workers. */
  ghost predicate InOrder(cfg: Config, p: Producer, accepted: seq<int>, pushed: seq<int>) {
    if cfg.threads > 0 then !p.Serving? && accepted == pushed + ProducerHand(p)
    else pushed == [] && (p.Idle? || p.Serving? || p.Exiting? || BehindBroadcast(p))
  }

  /** Every accepted connection is in exactly one place: in hand, in the queue, or answered. */
  ghost predicate Conserved(p: Producer, ws: seq<Worker>, buffer: seq<int>, answers: seq<Answer>, accepted: seq<int>,
                            conn: int) {
    Count(accepted, conn) ==
      Count(ProducerHand(p), conn) + Count(buffer, conn) + Hands(ws, conn) + Answered(answers, conn)
  }

  lemma StepInOrder(cfg: Config, s: Server, e: Event)
    requires Enabled(s, e) && InOrder(cfg, s.producer, s.accepted, s.pushed)
    ensures var t := Step(cfg, s, e); InOrder(cfg, t.producer, t.accepted, t.pushed)
  {
    match e
    case ProducerMoves =>
      match s.producer {
        case Serving(conn, task) => var p := ProducerServing(cfg, s);
        case _ =>
      }
    case WorkerMoves(i) =>
      match s.workers[i] {
        case Working(conn, task) => var w := WorkerServing(cfg, s, i);
        case _ =>
      }
    case _ =>
  }

  lemma ServingConserves(cfg: Config, s: Server, conn: int)
    requires Enabled(s, ProducerMoves) && s.producer.Serving?
    requires Conserved(s.producer, s.workers, s.buffer, s.answers, s.accepted, conn)
    ensures var t := Step(cfg, s, ProducerMoves);
            Conserved(t.producer, t.workers, t.buffer, t.answers, t.accepted, conn)
  {
    var c := s.producer.conn;
    CountOne(c, conn);
    match Serve(cfg, s.cache, c, s.producer.task) {
      case Go(_, _) =>
      case Done(file) => AnsweredMore(s.answers, Answer(c, file), conn);
      case Crash(_) =>
    }
  }

  lemma ProducerConserves(cfg: Config, s: Server, conn: int)
    requires Enabled(s, ProducerMoves) && Conserved(s.producer, s.workers, s.buffer, s.answers, s.accepted, conn)
    ensures var t := Step(cfg, s, ProducerMoves);
            Conserved(t.producer, t.workers, t.buffer, t.answers, t.accepted, conn)
  {
    hide Hands, Answered, WakeWorkers, ProducerServes;
    match s.producer {
      case AtLock(c) =>
      case AtTest(c) =>
      case AtWait(c) =>
      case AtPush(c) =>
        CountMore(s.buffer, c, conn);
        CountOne(c, conn);
      case AtSignal => HandsWake(s.workers, conn);
      case AtUnlock =>
      case Serving(c, task) => ServingConserves(cfg, s, conn);
      case Exiting => HandsWake(s.workers, conn);
      case Joining =>
      case Deleting =>
    }
  }

  lemma WorkingConserves(cfg: Config, s: Server, i: nat, conn: int)
    requires Enabled(s, WorkerMoves(i)) && s.workers[i].Working?
    requires Conserved(s.producer, s.workers, s.buffer, s.answers, s.accepted, conn)
    ensures var t := Step(cfg, s, WorkerMoves(i));
            Conserved(t.producer, t.workers, t.buffer, t.answers, t.accepted, conn)
  {
    var c := s.workers[i].conn;
    match Serve(cfg, s.cache, c, s.workers[i].task) {
      case Go(next, _) => HandsUpdate(s.workers, i, Working(c, next), conn);
      case Done(file) =>
        HandsUpdate(s.workers, i, AtLoop, conn);
        AnsweredMore(s.answers, Answer(c, file), conn);
      case Crash(_) =>
    }
  }

  lemma PoppingConserves(cfg: Config, s: Server, i: nat, conn: int)
    requires Enabled(s, WorkerMoves(i)) && s.workers[i].Popping?
    requires Conserved(s.producer, s.workers, s.buffer, s.answers, s.accepted, conn)
    ensures var t := Step(cfg, s, WorkerMoves(i));
            Conserved(t.producer, t.workers, t.buffer, t.answers, t.accepted, conn)
  {
    if s.size > 0 && s.buffer != [] {
      HandsUpdate(s.workers, i, Signalling(s.buffer[0]), conn);
    }
  }

  lemma WorkerConserves(cfg: Config, s: Server, i: nat, conn: int)
    requires Enabled(s, WorkerMoves(i)) && Conserved(s.producer, s.workers, s.buffer, s.answers, s.accepted, conn)
    ensures var t := Step(cfg, s, WorkerMoves(i));
            Conserved(t.producer, t.workers, t.buffer, t.answers, t.accepted, conn)
  {
    hide Hands, Count, Answered, Serve, WorkerServes;
    match s.workers[i] {
      case AtLoop => HandsUpdate(s.workers, i, if s.exiting then Finished else WantsLock, conn);
      case WantsLock => HandsUpdate(s.workers, i, Testing, conn);
      case Testing => HandsUpdate(s.workers, i, if s.size == 0 && !s.exiting then Waiting else TestingExit, conn);
      case Waiting => HandsUpdate(s.workers, i, Asleep, conn);
      case TestingExit => HandsUpdate(s.workers, i, if s.exiting then Finished else Popping, conn);
      case Popping => PoppingConserves(cfg, s, i, conn);
      case Signalling(c) => HandsUpdate(s.workers, i, Unlocking(c), conn);
      case Unlocking(c) => HandsUpdate(s.workers, i, Working(c, Parse), conn);
      case Working(c, task) => WorkingConserves(cfg, s, i, conn);
    }
  }

  lemma StepConserves(cfg: Config, s: Server, e: Event, conn: int)
    requires Enabled(s, e) && Conserved(s.producer, s.workers, s.buffer, s.answers, s.accepted, conn)
    ensures var t := Step(cfg, s, e); Conserved(t.producer, t.workers, t.buffer, t.answers, t.accepted, conn)
  {
    match e
    case Accept(c) => CountMore(s.accepted, c, conn);
    case Exit =>
    case ProducerMoves => ProducerConserves(cfg, s, conn);
    case ProducerWakes =>
    case WorkerMoves(i) => WorkerConserves(cfg, s, i, conn);
    case WorkerWakes(i) => HandsUpdate(s.workers, i, WantsLock, conn);
  }

  // ---------- All of it ----------

  /** The mutex, the queue and the condition variables. */
  ghost predicate MonitorOk(cfg: Config, s: Server) {
    && |s.workers| == cfg.threads
    && LockOk(s.producer, s.workers, s.owner)
    && QueueOk(s.buffer, s.size, cfg.maxRequests, s.pushed, s.popped)
    && Tested(s.producer, s.workers, s.size, cfg.maxRequests, s.exiting)
    && Wakeups(s.producer, s.workers, s.owner, s.size, cfg.maxRequests)
    && Starved(cfg.maxRequests, s.workers, s.buffer)
    && ExitOk(s.producer, s.workers, s.exiting, cfg.maxCache)
  }

  /** The requests and the cache. */
  ghost predicate RequestsOk(cfg: Config, s: Server) {
    && CacheOk(cfg, s.cache) && TasksOk(cfg, s.producer, s.workers) && AnswersOk(cfg, s.answers)
    && InOrder(cfg, s.producer, s.accepted, s.pushed)
    && (forall conn :: Conserved(s.producer, s.workers, s.buffer, s.answers, s.accepted, conn))
  }

  ghost predicate Inv(cfg: Config, s: Server) {
    MonitorOk(cfg, s) && RequestsOk(cfg, s)
  }

  lemma SizeIsLength(cfg: Config, s: Server)
    requires QueueOk(s.buffer, s.size, cfg.maxRequests, s.pushed, s.popped)
    ensures s.size >= 0
  {
  }

  lemma WorkersStay(cfg: Config, s: Server, e: Event)
    requires Enabled(s, e)
    ensures |Step(cfg, s, e).workers| == |s.workers|
  {
    match e
    case ProducerMoves =>
      match s.producer {
        case Serving(conn, task) => var p := ProducerServing(cfg, s);
        case _ =>
      }
    case WorkerMoves(i) =>
      match s.workers[i] {
        case Working(conn, task) => var w := WorkerServing(cfg, s, i);
        case _ =>
      }
    case _ =>
  }

  lemma StepMonitor(cfg: Config, s: Server, e: Event)
    requires MonitorOk(cfg, s) && Enabled(s, e)
    ensures MonitorOk(cfg, Step(cfg, s, e))
  {
    hide LockOk, QueueOk, Tested, Wakeups, Starved, ExitOk;
    SizeIsLength(cfg, s);
    WorkersStay(cfg, s, e);
    StepLock(cfg, s, e);
    StepQueue(cfg, s, e);
    StepTested(cfg, s, e);
    StepWakeups(cfg, s, e);
    StepStarved(cfg, s, e);
    StepExitOk(cfg, s, e);
  }

  lemma StepRequests(cfg: Config, s: Server, e: Event)
    requires RequestsOk(cfg, s) && Enabled(s, e)
    ensures RequestsOk(cfg, Step(cfg, s, e))
  {
    StepFaithful(cfg, s, e);
    StepInOrder(cfg, s, e);
    var t := Step(cfg, s, e);
    forall conn ensures Conserved(t.producer, t.workers, t.buffer, t.answers, t.accepted, conn) {
      StepConserves(cfg, s, e, conn);
    }
  }
}

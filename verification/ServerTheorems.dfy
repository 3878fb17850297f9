/** What holds of the web server on every run, whatever the order of the threads' steps. */
module ServerTheorems {
  import opened Sequences
  import opened CacheModel
  import opened ServerSystem
  import opened ServerInvariants

  // ---------- Runs ----------

  lemma {:induction false} NothingInHand(n: nat, conn: int)
    ensures Hands(seq(n, _ => AtLoop), conn) == 0
  {
    if n > 0 {
      NothingInHand(n - 1, conn);
      assert seq(n, _ => AtLoop)[1..] == seq(n - 1, _ => AtLoop);
    }
  }

  lemma InitInv(cfg: Config)
    ensures Inv(cfg, Init(cfg))
  {
    forall conn ensures Hands(Init(cfg).workers, conn) == 0 {
      NothingInHand(cfg.threads, conn);
    }
  }

  lemma StepInv(cfg: Config, s: Server, e: Event)
    requires Inv(cfg, s) && Enabled(s, e)
    ensures Inv(cfg, Step(cfg, s, e))
  {
    StepMonitor(cfg, s, e);
    StepRequests(cfg, s, e);
  }

  lemma {:induction false} RunInv(cfg: Config, s: Server, run: seq<Event>)
    requires Inv(cfg, s) && Possible(cfg, s, run)
    ensures Inv(cfg, Run(cfg, s, run))
    decreases |run|
  {
    if run != [] {
      StepInv(cfg, s, run[0]);
      RunInv(cfg, Step(cfg, s, run[0]), run[1..]);
    }
  }

  lemma ReachableInv(cfg: Config, s: Server)
    requires Reachable(cfg, s)
    ensures Inv(cfg, s)
  {
    var run :| Possible(cfg, Init(cfg), run) && Run(cfg, Init(cfg), run) == s;
    InitInv(cfg);
    RunInv(cfg, Init(cfg), run);
  }

  lemma {:induction false} RunMore(cfg: Config, s: Server, run: seq<Event>, e: Event)
    requires Possible(cfg, s, run) && Enabled(Run(cfg, s, run), e)
    ensures Possible(cfg, s, run + [e]) && Run(cfg, s, run + [e]) == Step(cfg, Run(cfg, s, run), e)
    decreases |run|
  {
    if run == [] {
      assert run + [e] == [e];
      assert [e][1..] == [];
    } else {
      RunMore(cfg, Step(cfg, s, run[0]), run[1..], e);
      assert (run + [e])[1..] == run[1..] + [e];
    }
  }

  lemma Extend(cfg: Config, s: Server, e: Event) returns (t: Server)
    requires Reachable(cfg, s) && Enabled(s, e)
    ensures t == Step(cfg, s, e) && Reachable(cfg, t)
  {
    var run :| Possible(cfg, Init(cfg), run) && Run(cfg, Init(cfg), run) == s;
    RunMore(cfg, Init(cfg), run, e);
    t := Step(cfg, s, e);
  }

  lemma Start(cfg: Config) returns (s: Server)
    ensures s == Init(cfg) && Reachable(cfg, s)
  {
    s := Init(cfg);
    assert Possible(cfg, s, []) && Run(cfg, s, []) == s;
  }

  // ---------- The monitor ----------

  ghost predicate SomeAsleep(s: Server) {
    exists i :: 0 <= i < |s.workers| && s.workers[i] == Asleep
  }

  /**
   No wakeup is lost, although broadcasts happen only when the queue stops
   being empty or full: whenever the mutex is free, a sleeping worker means
   that the queue is empty and a blocked main thread that it is full.
   */
  lemma NoLostWakeup(cfg: Config, s: Server)
    requires Reachable(cfg, s) && s.owner == Free
    ensures SomeAsleep(s) ==> s.size == 0
    ensures s.producer.Blocked? ==> s.size == cfg.maxRequests
  {
    ReachableInv(cfg, s);
  }

  /** At any moment, with the mutex held or not, main thread and workers do not wait for each other. */
  lemma NeverBothBlocked(cfg: Config, s: Server)
    requires Reachable(cfg, s) && cfg.maxRequests != 0
    ensures !(s.producer.Blocked? && SomeAsleep(s))
  {
    ReachableInv(cfg, s);
  }

  /** A queue without room is the one case where they can. */
  lemma BothBlockWithoutRoom(cfg: Config) returns (s: Server)
    requires cfg.maxRequests == 0 && cfg.threads > 0
    ensures Reachable(cfg, s) && s.producer.Blocked? && SomeAsleep(s)
  {
    s := Start(cfg);
    s := Extend(cfg, s, Accept(0));
    s := Extend(cfg, s, ProducerMoves);
    s := Extend(cfg, s, ProducerMoves);
    s := Extend(cfg, s, ProducerMoves);
    s := Extend(cfg, s, WorkerMoves(0));
    s := Extend(cfg, s, WorkerMoves(0));
    s := Extend(cfg, s, WorkerMoves(0));
    s := Extend(cfg, s, WorkerMoves(0));
    assert s.workers[0] == Asleep;
  }

  /** Main thread and workers can block each other exactly if there are workers and the queue has no room. */
  lemma BlockEachOtherExactly(cfg: Config)
    ensures (exists s :: Reachable(cfg, s) && s.producer.Blocked? && SomeAsleep(s)) <==>
              cfg.maxRequests == 0 && cfg.threads > 0
  {
    if cfg.maxRequests == 0 && cfg.threads > 0 {
      var s := BothBlockWithoutRoom(cfg);
    } else {
      forall s | Reachable(cfg, s) ensures !(s.producer.Blocked? && SomeAsleep(s)) {
        if cfg.threads == 0 {
          ReachableInv(cfg, s);
        } else {
          NeverBothBlocked(cfg, s);
        }
      }
    }
  }

  /** While there is something to do and no shutdown, some thread can go on without a spurious wakeup. */
  lemma NoDeadlock(cfg: Config, s: Server)
    requires Reachable(cfg, s) && cfg.threads > 0 && cfg.maxRequests > 0 && !s.exiting
    requires s.buffer != [] || ProducerHand(s.producer) != []
    ensures ProducerCanMove(s) || exists i :: WorkerCanMove(s, i)
  {
    ReachableInv(cfg, s);
    match s.owner {
      case ByProducer =>
      case ByWorker(i) => assert WorkerHolds(s.workers[i]) && WorkerCanMove(s, i);
      case Free =>
        if ProducerCanMove(s) {
        } else {
          assert s.size > 0;
          assert s.workers[0] != Asleep;
          assert !WorkerHolds(s.workers[0]);
          assert WorkerCanMove(s, 0);
        }
    }
  }

  /** The assertion that a pop succeeds never fails, and that a push succeeds only with a negative bound. */
  lemma QueueAssertions(cfg: Config, s: Server, e: Event)
    requires Reachable(cfg, s) && Enabled(s, e)
    ensures Step(cfg, s, e).fault != PopFailed
    ensures Step(cfg, s, e).fault == PushFailed ==> cfg.maxRequests < 0 && cfg.threads > 0
  {
    ReachableInv(cfg, s);
    match e
    case ProducerMoves =>
      match s.producer {
        case Serving(conn, task) => var p := ProducerServing(cfg, s);
        case _ =>
      }
    case WorkerMoves(i) =>
      match s.workers[i] {
        case Working(conn, task) => var w := WorkerServing(cfg, s, i);
        case _ =>
      }
    case _ =>
  }

  ghost predicate CanFault(cfg: Config, fault: Fault) {
    exists s, e :: Reachable(cfg, s) && Enabled(s, e) && Step(cfg, s, e).fault == fault
  }

  lemma PushFailsExactly(cfg: Config)
    ensures CanFault(cfg, PushFailed) <==> cfg.maxRequests < 0 && cfg.threads > 0
  {
    if cfg.maxRequests < 0 && cfg.threads > 0 {
      var s := Start(cfg);
      s := Extend(cfg, s, Accept(0));
      s := Extend(cfg, s, ProducerMoves);
      s := Extend(cfg, s, ProducerMoves);
      assert Enabled(s, ProducerMoves) && Step(cfg, s, ProducerMoves).fault == PushFailed;
    } else {
      forall s, e | Reachable(cfg, s) && Enabled(s, e) ensures Step(cfg, s, e).fault != PushFailed {
        QueueAssertions(cfg, s, e);
      }
    }
  }

  // ---------- The requests ----------

  /**
   Requests are neither lost nor duplicated nor reordered on the way through
   the queue, and the counter is the length of the queue and within the bound.
   */
  lemma RequestsInOrder(cfg: Config, s: Server)
    requires Reachable(cfg, s)
    ensures s.pushed == s.popped + s.buffer
    ensures s.size == |s.buffer| && (cfg.maxRequests >= 0 ==> s.size <= cfg.maxRequests)
    ensures cfg.threads > 0 ==> s.accepted == s.popped + s.buffer + ProducerHand(s.producer)
  {
    ReachableInv(cfg, s);
  }

  /**
   Every accepted connection is answered at most once, and as long as it is
   not, it is in the hands of exactly one thread or in the queue.
   */
  lemma RequestsConserved(cfg: Config, s: Server, conn: int)
    requires Reachable(cfg, s)
    ensures Count(s.accepted, conn) ==
              Count(ProducerHand(s.producer), conn) + Count(s.buffer, conn)
              + Hands(s.workers, conn) + Answered(s.answers, conn)
  {
    ReachableInv(cfg, s);
    assert Conserved(s.producer, s.workers, s.buffer, s.answers, s.accepted, conn);
  }

  /**
   The main thread's push, under the mutex: the connection goes to the end of
   the queue, and the sleeping workers are woken exactly if the queue was empty.
   */
  lemma PushHandsOver(cfg: Config, s: Server)
    requires Reachable(cfg, s) && s.producer.AtPush? && Enabled(s, ProducerMoves)
    requires Step(cfg, s, ProducerMoves).fault == NoFault
    ensures var t := Step(cfg, s, ProducerMoves);
            && Enabled(t, ProducerMoves)
            && var u := Step(cfg, t, ProducerMoves);
               && u.buffer == s.buffer + [s.producer.conn] && |u.workers| == |s.workers|
               && forall i :: 0 <= i < |s.workers| ==>
                    u.workers[i] == if s.workers[i].Asleep? && s.buffer == [] then WantsLock else s.workers[i]
  {
    ReachableInv(cfg, s);
  }

  /**
   A worker's pop, under the mutex: it gets the first connection to serve, and a
   blocked main thread is woken exactly if the queue was full.
   */
  lemma PopTakesOver(cfg: Config, s: Server, i: nat)
    requires Reachable(cfg, s) && Enabled(s, WorkerMoves(i)) && s.workers[i] == Popping
    ensures s.buffer != []
    ensures var t := Step(cfg, s, WorkerMoves(i));
            && Enabled(t, WorkerMoves(i))
            && var u := Step(cfg, t, WorkerMoves(i));
               && u.buffer == s.buffer[1..]
               && u.producer == (if s.producer.Blocked? && |s.buffer| == cfg.maxRequests then AtLock(s.producer.conn)
                                 else s.producer)
               && Enabled(u, WorkerMoves(i))
               && var v := Step(cfg, u, WorkerMoves(i));
                  v.workers == s.workers[i := Working(s.buffer[0], Parse)] && v.owner == Free
  {
    ReachableInv(cfg, s);
  }

  // ---------- The cache ----------

  /** The cache does not show: every answer is the one that a server without a cache gives. */
  lemma CacheTransparent(cfg: Config, s: Server, a: Answer)
    requires Reachable(cfg, s) && a in s.answers
    ensures a.file == Uncached(cfg, a.conn)
  {
    ReachableInv(cfg, s);
  }

  /**
   What is sent: the very contents of the file that the client has asked for,
   with its length; an empty file without a buffer, and nothing if there is none.
   */
  lemma AnswersAreFiles(cfg: Config, s: Server, a: Answer)
    requires Reachable(cfg, s) && a in s.answers
    ensures if a.conn in cfg.asks && cfg.asks[a.conn] in cfg.store then
              var content := cfg.store[cfg.asks[a.conn]];
              && a.file.Some? && a.file.value.fileName == cfg.asks[a.conn] && a.file.value.fileSize == |content|
              && (content != "" ==> a.file.value.fileBuf == Some(content))
              && (content == "" ==> a.file.value.fileBuf == None)
            else a.file == None
  {
    CacheTransparent(cfg, s, a);
  }

  /** The file that a thread is about to add. */
  ghost predicate AboutToAdd(s: Server, data: FileData) {
    || (s.producer.Serving? && s.producer.task == Store(data))
    || exists i :: 0 <= i < |s.workers| && s.workers[i].Working? && s.workers[i].task == Store(data)
  }

  /**
   Whenever a thread calls add_to_hash_table on an existing cache, the parts
   of the cache agree and the file fits, so none of the assertions there fails;
   and the file is the one in the store.
   */
  lemma AddsAreSafe(cfg: Config, s: Server, data: FileData)
    requires Reachable(cfg, s) && AboutToAdd(s, data) && data.fileSize <= cfg.maxCache
    ensures Consistent(s.cache) && data.fileSize <= s.cache.max
    ensures data.fileName in cfg.store && data == FileOf(cfg.store, data.fileName)
  {
    ReachableInv(cfg, s);
  }

  /** The add is not lost: behind it the cache has the file, unless it is too big; an empty file crashes the server. */
  lemma ServedFilesAreCached(cfg: Config, s: Server, e: Event, data: FileData)
    requires Reachable(cfg, s) && Enabled(s, e)
    requires match e
             case ProducerMoves => s.producer.Serving? && s.producer.task == Store(data)
             case WorkerMoves(i) => s.workers[i].Working? && s.workers[i].task == Store(data)
             case _ => false
    ensures 0 < data.fileSize <= cfg.maxCache ==> Find(Step(cfg, s, e).cache, data.fileName) == Some(data)
    ensures data.fileSize > cfg.maxCache ==> Step(cfg, s, e).cache == s.cache
    ensures data.fileSize == 0 <= cfg.maxCache ==> Step(cfg, s, e).fault == EmptyCopy
  {
    ReachableInv(cfg, s);
    if 0 < data.fileSize <= cfg.maxCache {
      AddsAreSafe(cfg, s, data);
      AddConsistent(s.cache, data.fileName, data);
      AddMirrors(s.cache, data.fileName, cfg.store);
    }
  }

  ghost predicate EmptyFileAsked(cfg: Config) {
    exists conn :: conn in cfg.asks && cfg.asks[conn] in cfg.store && cfg.store[cfg.asks[conn]] == ""
  }

  /** A server without workers serves by itself; one with workers needs room in its queue. */
  predicate CanServe(cfg: Config) {
    cfg.threads == 0 || cfg.maxRequests > 0
  }

  lemma EmptyStoreAsked(cfg: Config, conn: int, task: Task)
    requires TaskOk(cfg, conn, task) && task.Store? && task.data.fileSize == 0
    ensures EmptyFileAsked(cfg)
  {
    assert conn in cfg.asks && cfg.asks[conn] in cfg.store && cfg.store[cfg.asks[conn]] == "";
  }

  lemma ServingCanServe(cfg: Config, s: Server)
    requires MonitorOk(cfg, s) && InOrder(cfg, s.producer, s.accepted, s.pushed)
    ensures s.producer.Serving? ==> CanServe(cfg)
    ensures forall i :: 0 <= i < |s.workers| && s.workers[i].Working? ==> CanServe(cfg)
  {
  }

  lemma OnlyEmptyFilesCrash(cfg: Config, s: Server, e: Event)
    requires Reachable(cfg, s) && Enabled(s, e) && Step(cfg, s, e).fault == EmptyCopy
    ensures cfg.maxCache >= 0 && EmptyFileAsked(cfg) && CanServe(cfg)
  {
    hide Reachable, MonitorOk, EmptyFileAsked, CanServe;
    ReachableInv(cfg, s);
    ServingCanServe(cfg, s);
    match e
    case ProducerMoves =>
      match s.producer {
        case Serving(conn, task) =>
          ServeFaithful(cfg, s.cache, conn, task);
          EmptyStoreAsked(cfg, conn, task);
        case _ =>
      }
    case WorkerMoves(i) =>
      match s.workers[i] {
        case Working(conn, task) =>
          ServeFaithful(cfg, s.cache, conn, task);
          EmptyStoreAsked(cfg, conn, task);
        case _ =>
      }
    case _ =>
  }

  lemma EmptyFileCrashesDirectly(cfg: Config, conn: int)
    requires cfg.threads == 0 && cfg.maxCache >= 0
    requires conn in cfg.asks && cfg.asks[conn] in cfg.store && cfg.store[cfg.asks[conn]] == ""
    ensures CanFault(cfg, EmptyCopy)
  {
    var s := Start(cfg);
    s := Extend(cfg, s, Accept(conn));
    s := Extend(cfg, s, ProducerMoves);
    s := Extend(cfg, s, ProducerMoves);
    s := Extend(cfg, s, ProducerMoves);
    assert Enabled(s, ProducerMoves) && Step(cfg, s, ProducerMoves).fault == EmptyCopy;
  }

  /** The main thread pushes its first connection. */
  lemma FirstPush(cfg: Config, conn: int) returns (s: Server)
    requires cfg.threads > 0 && cfg.maxRequests > 0
    ensures Reachable(cfg, s) && s.fault == NoFault && |s.workers| == cfg.threads && s.workers[0] == AtLoop
    ensures s.size == 1 && s.buffer == [conn] && s.owner == Free && !s.exiting && s.cache == Empty(cfg.maxCache)
  {
    s := Start(cfg);
    s := Extend(cfg, s, Accept(conn));
    s := Extend(cfg, s, ProducerMoves);
    s := Extend(cfg, s, ProducerMoves);
    s := Extend(cfg, s, ProducerMoves);
    s := Extend(cfg, s, ProducerMoves);
    s := Extend(cfg, s, ProducerMoves);
  }

  /** Worker 0 pops the first connection. */
  lemma FirstHandover(cfg: Config, conn: int) returns (s: Server)
    requires cfg.threads > 0 && cfg.maxRequests > 0
    ensures Reachable(cfg, s) && s.fault == NoFault
    ensures |s.workers| == cfg.threads && s.workers[0] == Working(conn, Parse)
    ensures s.cache == Empty(cfg.maxCache)
  {
    s := FirstPush(cfg, conn);
    s := Extend(cfg, s, WorkerMoves(0));
    s := Extend(cfg, s, WorkerMoves(0));
    s := Extend(cfg, s, WorkerMoves(0));
    s := Extend(cfg, s, WorkerMoves(0));
    s := Extend(cfg, s, WorkerMoves(0));
    s := Extend(cfg, s, WorkerMoves(0));
    s := Extend(cfg, s, WorkerMoves(0));
  }

  lemma EmptyFileCrashesWorker(cfg: Config, conn: int)
    requires cfg.threads > 0 && cfg.maxRequests > 0 && cfg.maxCache >= 0
    requires conn in cfg.asks && cfg.asks[conn] in cfg.store && cfg.store[cfg.asks[conn]] == ""
    ensures CanFault(cfg, EmptyCopy)
  {
    var s := FirstHandover(cfg, conn);
    s := Extend(cfg, s, WorkerMoves(0));
    s := Extend(cfg, s, WorkerMoves(0));
    s := Extend(cfg, s, WorkerMoves(0));
    assert Enabled(s, WorkerMoves(0)) && Step(cfg, s, WorkerMoves(0)).fault == EmptyCopy;
  }

  /**
   The server crashes on copying a file for its cache exactly if the size of
   the cache is not negative, an empty file is asked for, and requests are
   served at all.
   */
  lemma CrashesExactly(cfg: Config)
    ensures CanFault(cfg, EmptyCopy) <==> cfg.maxCache >= 0 && EmptyFileAsked(cfg) && CanServe(cfg)
  {
    forall s, e | Reachable(cfg, s) && Enabled(s, e) && Step(cfg, s, e).fault == EmptyCopy
      ensures cfg.maxCache >= 0 && EmptyFileAsked(cfg) && CanServe(cfg)
    {
      OnlyEmptyFilesCrash(cfg, s, e);
    }
    if cfg.maxCache >= 0 && EmptyFileAsked(cfg) && CanServe(cfg) {
      var conn :| conn in cfg.asks && cfg.asks[conn] in cfg.store && cfg.store[cfg.asks[conn]] == "";
      if cfg.threads == 0 {
        EmptyFileCrashesDirectly(cfg, conn);
      } else {
        EmptyFileCrashesWorker(cfg, conn);
      }
    }
  }

  /**
   No request uses the cache that a server with cache size zero does not have:
   only server_exit does, when all workers have ended and it deletes the cache.
   */
  lemma MissingCacheUsedExactly(cfg: Config, s: Server, e: Event)
    requires Reachable(cfg, s) && Enabled(s, e)
    ensures Step(cfg, s, e).fault == NullCache <==> e == ProducerMoves && s.producer == Deleting && cfg.maxCache == 0
  {
    hide Reachable, MonitorOk;
    ReachableInv(cfg, s);
    match e
    case ProducerMoves =>
      match s.producer {
        case Serving(conn, task) => ServeFaithful(cfg, s.cache, conn, task);
        case _ =>
      }
    case WorkerMoves(i) =>
      match s.workers[i] {
        case Working(conn, task) => ServeFaithful(cfg, s.cache, conn, task);
        case _ =>
      }
    case _ =>
  }
}

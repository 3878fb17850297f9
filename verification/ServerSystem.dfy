/**
 The web server as a transition system: the main thread accepts connections
 and pushes them on the bounded queue, worker threads pop and serve them
 through the shared file cache. One step is one action of one thread; a
 thread that wants the queue mutex can only proceed while nobody has it, and
 a blocked thread may also wake up for no reason. Each cache operation is one
 step, because it runs under the cache's own mutex.
 */
module ServerSystem {
  import opened Sequences
  import opened CacheModel

  /** What does not change: the arguments of server_init, what clients ask for, and the files. */
  datatype Config = Config(
    threads: nat,                 // nr_threads
    maxRequests: int,             // max_requests
    maxCache: int,                // max_cache_size
    asks: map<int, string>,       // the file a connection asks for; absent if its request is refused
    store: map<string, string>)   // the readable files

  /** Where a thread is in do_server_request. */
  datatype Task = Parse | Look(name: string) | Read(name: string) | Store(data: FileData) | Send(data: FileData)

  /** Where the main thread is: in server_request, in server_exit, or between calls. */
  datatype Producer =
    | Idle
    | AtLock(conn: int)     // wants the mutex
    | AtTest(conn: int)     // has the mutex, is about to compare the counter with the bound
    | AtWait(conn: int)     // has the mutex, has found the queue full
    | Blocked(conn: int)    // waits for queue_became_nonfull
    | AtPush(conn: int)
    | AtSignal
    | AtUnlock
    | Serving(conn: int, task: Task)   // without worker threads
    | Exiting               // has set `exiting`
    | Joining               // waits for the workers to end
    | Deleting              // has joined all of them, is about to delete the cache
    | Returned

  /** Where a worker is in helper_thread_do_server_request. */
  datatype Worker =
    | AtLoop
    | WantsLock
    | Testing               // has the mutex, is about to test the counter and `exiting`
    | Waiting               // has the mutex, has found the queue empty
    | Asleep                // waits for queue_became_nonempty
    | TestingExit
    | Popping
    | Signalling(conn: int)
    | Unlocking(conn: int)
    | Working(conn: int, task: Task)
    | Finished

  datatype Owner = Free | ByProducer | ByWorker(worker: nat)

  /** How a request ended: with the file that was sent, or with none. */
  datatype Answer = Answer(conn: int, file: Option<FileData>)

  /** A failed assertion, the copying of a file that has no buffer, or the use of a cache that does not exist. */
  datatype Fault = NoFault | PushFailed | PopFailed | EmptyCopy | NullCache

  datatype Server = Server(
    producer: Producer,
    workers: seq<Worker>,
    owner: Owner,              // queue_mutex
    buffer: seq<int>,          // request_queue's nodes
    size: int,                 // request_queue->curr_size
    exiting: bool,
    cache: Cache,
    accepted: seq<int>,        // history: connections passed to server_request
    pushed: seq<int>,          // history: connections pushed
    popped: seq<int>,          // history: connections popped
    answers: seq<Answer>,      // history: requests done
    fault: Fault)              // what has ended the program

  datatype Event =
    | Accept(conn: int)        // server_request is called
    | Exit                     // server_exit is called
    | ProducerMoves
    | ProducerWakes            // for no reason
    | WorkerMoves(worker: nat)
    | WorkerWakes(worker: nat) // for no reason

  /** request_readfile, where the file can be read: it allocates a buffer only for a file that is not empty. */
  function FileOf(store: map<string, string>, name: string): FileData
    requires name in store
  {
    FileData(name, if store[name] == "" then None else Some(store[name]), |store[name]|)
  }

  // ---------- do_server_request ----------

  datatype Progress = Go(task: Task, cache: Cache) | Done(file: Option<FileData>) | Crash(fault: Fault)

  /** One step of do_server_request. */
  function Serve(cfg: Config, cache: Cache, conn: int, task: Task): Progress {
    match task
    case Parse => if conn in cfg.asks then Go(Look(cfg.asks[conn]), cache) else Done(None)
    case Look(name) =>
      if cfg.maxCache != 0 && Find(cache, name).Some? then
        if Find(cache, name).value.fileBuf.None? then Crash(EmptyCopy) else Go(Store(Find(cache, name).value), cache)
      else Go(Read(name), cache)
    case Read(name) => if name in cfg.store then Go(Store(FileOf(cfg.store, name)), cache) else Done(None)
    case Store(data) =>
      if data.fileSize > cfg.maxCache then Go(Send(data), cache)
      else if data.fileBuf.None? then Crash(EmptyCopy)
      else if cfg.maxCache == 0 then Crash(NullCache)
      else Go(Send(data), Add(cache, data.fileName, data))
    case Send(data) => Done(Some(data))
  }

  // ---------- The threads ----------

  /** pthread_cond_broadcast on queue_became_nonempty */
  function WakeWorkers(workers: seq<Worker>): (w: seq<Worker>)
    ensures |w| == |workers|
    ensures forall i :: 0 <= i < |w| ==> w[i] == if workers[i].Asleep? then WantsLock else workers[i]
  {
    seq(|workers|, i requires 0 <= i < |workers| => if workers[i].Asleep? then WantsLock else workers[i])
  }

  /** pthread_cond_broadcast on queue_became_nonfull */
  function WakeProducer(producer: Producer): Producer {
    if producer.Blocked? then AtLock(producer.conn) else producer
  }

  function ProducerServes(cfg: Config, s: Server, conn: int, task: Task): Server {
    match Serve(cfg, s.cache, conn, task)
    case Go(next, cache) => s.(producer := Serving(conn, next), cache := cache)
    case Done(file) => s.(producer := Idle, answers := s.answers + [Answer(conn, file)])
    case Crash(fault) => s.(fault := fault)
  }

  /** The main thread's next action. */
  function ProducerStep(cfg: Config, s: Server): Server {
    match s.producer
    case AtLock(conn) => s.(producer := AtTest(conn), owner := ByProducer)
    case AtTest(conn) => s.(producer := if s.size == cfg.maxRequests then AtWait(conn) else AtPush(conn))
    case AtWait(conn) => s.(producer := Blocked(conn), owner := Free)
    case AtPush(conn) =>
      if s.size < cfg.maxRequests then
        s.(producer := AtSignal, buffer := s.buffer + [conn], size := s.size + 1, pushed := s.pushed + [conn])
      else s.(fault := PushFailed)
    case AtSignal =>
      s.(producer := AtUnlock, workers := if s.size == 1 then WakeWorkers(s.workers) else s.workers)
    case AtUnlock => s.(producer := Idle, owner := Free)
    case Serving(conn, task) => ProducerServes(cfg, s, conn, task)
    case Exiting => s.(producer := Joining, workers := WakeWorkers(s.workers))
    case Joining => s.(producer := Deleting)
    case Deleting => if cfg.maxCache == 0 then s.(fault := NullCache) else s.(producer := Returned)
    case _ => s
  }

  function WorkerServes(cfg: Config, s: Server, i: nat, conn: int, task: Task): Server
    requires i < |s.workers|
  {
    match Serve(cfg, s.cache, conn, task)
    case Go(next, cache) => s.(workers := s.workers[i := Working(conn, next)], cache := cache)
    case Done(file) => s.(workers := s.workers[i := AtLoop], answers := s.answers + [Answer(conn, file)])
    case Crash(fault) => s.(fault := fault)
  }

  /** The next action of worker `i`. */
  function WorkerStep(cfg: Config, s: Server, i: nat): Server
    requires i < |s.workers|
  {
    match s.workers[i]
    case AtLoop => s.(workers := s.workers[i := if s.exiting then Finished else WantsLock])
    case WantsLock => s.(workers := s.workers[i := Testing], owner := ByWorker(i))
    case Testing => s.(workers := s.workers[i := if s.size == 0 && !s.exiting then Waiting else TestingExit])
    case Waiting => s.(workers := s.workers[i := Asleep], owner := Free)
    case TestingExit =>
      if s.exiting then s.(workers := s.workers[i := Finished], owner := Free)
      else s.(workers := s.workers[i := Popping])
    case Popping =>
      if s.size > 0 && s.buffer != [] then
        s.(workers := s.workers[i := Signalling(s.buffer[0])], buffer := s.buffer[1..], size := s.size - 1,
           popped := s.popped + [s.buffer[0]])
      else s.(fault := PopFailed)
    case Signalling(conn) =>
      s.(workers := s.workers[i := Unlocking(conn)],
         producer := if s.size == cfg.maxRequests - 1 then WakeProducer(s.producer) else s.producer)
    case Unlocking(conn) => s.(workers := s.workers[i := Working(conn, Parse)], owner := Free)
    case Working(conn, task) => WorkerServes(cfg, s, i, conn, task)
    case _ => s
  }

  predicate AllFinished(workers: seq<Worker>) {
    forall i :: 0 <= i < |workers| ==> workers[i] == Finished
  }

  predicate ProducerCanMove(s: Server) {
    match s.producer
    case Idle | Blocked(_) | Returned => false
    case Joining => AllFinished(s.workers)
    case AtLock(_) => s.owner == Free
    case _ => true
  }

  predicate WorkerCanMove(s: Server, i: nat) {
    && i < |s.workers|
    && match s.workers[i]
       case Asleep | Finished => false
       case WantsLock => s.owner == Free
       case _ => true
  }

  predicate Enabled(s: Server, e: Event) {
    && s.fault == NoFault
    && match e
       case Accept(_) => s.producer == Idle
       case Exit => s.producer == Idle
       case ProducerMoves => ProducerCanMove(s)
       case ProducerWakes => s.producer.Blocked?
       case WorkerMoves(i) => WorkerCanMove(s, i)
       case WorkerWakes(i) => i < |s.workers| && s.workers[i] == Asleep
  }

  function Step(cfg: Config, s: Server, e: Event): Server
    requires Enabled(s, e)
  {
    match e
    case Accept(conn) =>
      s.(producer := if cfg.threads == 0 then Serving(conn, Parse) else AtLock(conn), accepted := s.accepted + [conn])
    case Exit => s.(producer := Exiting, exiting := true)
    case ProducerMoves => ProducerStep(cfg, s)
    case ProducerWakes => s.(producer := AtLock(s.producer.conn))
    case WorkerMoves(i) => WorkerStep(cfg, s, i)
    case WorkerWakes(i) => s.(workers := s.workers[i := WantsLock])
  }

  /** server_init */
  function Init(cfg: Config): Server {
    Server(Idle, seq(cfg.threads, _ => AtLoop), Free, [], 0, false, Empty(cfg.maxCache), [], [], [], [], NoFault)
  }

  predicate Possible(cfg: Config, s: Server, run: seq<Event>)
    decreases |run|
  {
    run == [] || (Enabled(s, run[0]) && Possible(cfg, Step(cfg, s, run[0]), run[1..]))
  }

  function Run(cfg: Config, s: Server, run: seq<Event>): Server
    requires Possible(cfg, s, run)
    decreases |run|
  {
    if run == [] then s else Run(cfg, Step(cfg, s, run[0]), run[1..])
  }

  ghost predicate Reachable(cfg: Config, s: Server) {
    exists run :: Possible(cfg, Init(cfg), run) && Run(cfg, Init(cfg), run) == s
  }
}

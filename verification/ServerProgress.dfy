/** The web server gets its work done: without new requests its threads stop, and then every request is answered. */
module ServerProgress {
  import opened Sequences
  import opened CacheModel
  import opened ServerSystem
  import opened ServerInvariants
  import opened ServerTheorems

  // ---------- How much is left to do ----------

  function TaskRank(task: Task): nat {
    match task
    case Parse => 5
    case Look(_) => 4
    case Read(_) => 3
    case Store(_) => 2
    case Send(_) => 1
  }

  /** Bounds a worker's own actions up to its next sleep, and what its broadcast makes the main thread repeat. */
  function WorkerRank(w: Worker): nat {
    match w
    case Asleep => 0
    case Finished => 0
    case Waiting => 1
    case Popping => 2
    case TestingExit => 3
    case Testing => 4
    case WantsLock => 5
    case AtLoop => 6
    case Working(_, task) => 6 + TaskRank(task)
    case Unlocking(_) => 12
    case Signalling(_) => 16
  }

  /** What a queued connection stands for. */
  const CONNECTION := 15

  /** Bounds the main thread's actions up to the end of its call, and what its push makes the workers do. */
  function ProducerRank(p: Producer, workers: nat): nat {
    match p
    case Idle => 0
    case Returned => 0
    case Deleting => 1
    case Joining => 2
    case AtUnlock => 1
    case AtSignal => 2 + 5 * workers
    case AtPush(_) => 3 + 5 * workers + CONNECTION
    case Blocked(_) => 5 + 5 * workers + CONNECTION
    case AtWait(_) => 6 + 5 * workers + CONNECTION
    case AtTest(_) => 7 + 5 * workers + CONNECTION
    case AtLock(_) => 8 + 5 * workers + CONNECTION
    case Serving(_, task) => TaskRank(task)
    case Exiting => 3 + 5 * workers
  }

  function WorkersRank(ws: seq<Worker>): nat {
    if ws == [] then 0 else WorkerRank(ws[0]) + WorkersRank(ws[1..])
  }

  function Measure(s: Server): nat {
    ProducerRank(s.producer, |s.workers|) + WorkersRank(s.workers) + CONNECTION * |s.buffer|
    + if s.fault == NoFault then 1 else 0
  }

  lemma {:induction false} RankUpdate(ws: seq<Worker>, i: nat, w: Worker)
    requires i < |ws|
    ensures WorkersRank(ws[i := w]) + WorkerRank(ws[i]) == WorkersRank(ws) + WorkerRank(w)
  {
    if i == 0 {
      assert ws[0 := w][1..] == ws[1..];
    } else {
      RankUpdate(ws[1..], i - 1, w);
      assert ws[i := w][1..] == ws[1..][i - 1 := w];
    }
  }

  lemma {:induction false} RankWake(ws: seq<Worker>)
    ensures WorkersRank(WakeWorkers(ws)) <= WorkersRank(ws) + 5 * |ws|
  {
    if ws == [] {
    } else {
      RankWake(ws[1..]);
      assert WakeWorkers(ws)[1..] == WakeWorkers(ws[1..]);
    }
  }

  // ---------- Every action reduces it ----------

  /** An action of a thread, other than a new call of the main thread and a wakeup for no reason. */
  predicate Quiet(e: Event) {
    e.ProducerMoves? || e.WorkerMoves?
  }

  lemma ProducerReduces(cfg: Config, s: Server)
    requires Enabled(s, ProducerMoves)
    ensures Measure(Step(cfg, s, ProducerMoves)) < Measure(s)
  {
    hide ProducerServes, WorkersRank, WakeWorkers;
    match s.producer {
      case AtLock(_) =>
      case AtTest(_) =>
      case AtWait(_) =>
      case AtPush(conn) =>
      case AtSignal => RankWake(s.workers);
      case AtUnlock =>
      case Serving(_, _) => ServingReduces(cfg, s);
      case Exiting => RankWake(s.workers);
      case Joining =>
      case Deleting =>
    }
  }

  lemma ServingReduces(cfg: Config, s: Server)
    requires Enabled(s, ProducerMoves) && s.producer.Serving?
    ensures Measure(Step(cfg, s, ProducerMoves)) < Measure(s)
  {
    var conn, task := s.producer.conn, s.producer.task;
    match Serve(cfg, s.cache, conn, task) {
      case Go(_, _) =>
      case Done(_) =>
      case Crash(_) => ServeFaults(cfg, s.cache, conn, task);
    }
  }

  lemma ServeFaults(cfg: Config, cache: Cache, conn: int, task: Task)
    requires Serve(cfg, cache, conn, task).Crash?
    ensures Serve(cfg, cache, conn, task).fault != NoFault
  {
  }

  lemma WorkingReduces(cfg: Config, s: Server, i: nat)
    requires Enabled(s, WorkerMoves(i)) && s.workers[i].Working?
    ensures Measure(Step(cfg, s, WorkerMoves(i))) < Measure(s)
  {
    var conn, task := s.workers[i].conn, s.workers[i].task;
    match Serve(cfg, s.cache, conn, task) {
      case Go(next, _) => RankUpdate(s.workers, i, Working(conn, next));
      case Done(_) => RankUpdate(s.workers, i, AtLoop);
      case Crash(_) => ServeFaults(cfg, s.cache, conn, task);
    }
  }

  lemma WorkerReduces(cfg: Config, s: Server, i: nat)
    requires Enabled(s, WorkerMoves(i))
    ensures Measure(Step(cfg, s, WorkerMoves(i))) < Measure(s)
  {
    hide Serve, WorkersRank;
    match s.workers[i] {
      case AtLoop => RankUpdate(s.workers, i, if s.exiting then Finished else WantsLock);
      case WantsLock => RankUpdate(s.workers, i, Testing);
      case Testing => RankUpdate(s.workers, i, if s.size == 0 && !s.exiting then Waiting else TestingExit);
      case Waiting => RankUpdate(s.workers, i, Asleep);
      case TestingExit => RankUpdate(s.workers, i, if s.exiting then Finished else Popping);
      case Popping =>
        if s.size > 0 && s.buffer != [] {
          RankUpdate(s.workers, i, Signalling(s.buffer[0]));
        } else {
        }
      case Signalling(conn) => RankUpdate(s.workers, i, Unlocking(conn));
      case Unlocking(conn) => RankUpdate(s.workers, i, Working(conn, Parse));
      case Working(_, _) => WorkingReduces(cfg, s, i);
    }
  }

  lemma {:induction false} QuietRunsEnd(cfg: Config, s: Server, run: seq<Event>)
    requires Possible(cfg, s, run) && forall e :: e in run ==> Quiet(e)
    ensures |run| + Measure(Run(cfg, s, run)) <= Measure(s)
    decreases |run|
  {
    if run == [] {
    } else {
      var e := run[0];
      assert e in run;
      if e.ProducerMoves? {
        ProducerReduces(cfg, s);
      } else {
        WorkerReduces(cfg, s, e.worker);
      }
      QuietRunsEnd(cfg, Step(cfg, s, e), run[1..]);
    }
  }

  // ---------- What is there in the end ----------

  /** No thread can go on by itself. */
  ghost predicate Settled(s: Server) {
    !ProducerCanMove(s) && forall i :: !WorkerCanMove(s, i)
  }

  lemma {:induction false} EmptyHands(ws: seq<Worker>, conn: int)
    requires forall i :: 0 <= i < |ws| ==> !ws[i].Signalling? && !ws[i].Unlocking? && !ws[i].Working?
    ensures Hands(ws, conn) == 0
  {
    if ws != [] {
      EmptyHands(ws[1..], conn);
    }
  }

  lemma SettledIsEmpty(cfg: Config, s: Server)
    requires Reachable(cfg, s) && CanServe(cfg) && !s.exiting && Settled(s)
    ensures s.buffer == [] && ProducerHand(s.producer) == []
    ensures forall i :: 0 <= i < |s.workers| ==>
              !s.workers[i].Signalling? && !s.workers[i].Unlocking? && !s.workers[i].Working?
  {
    if cfg.threads > 0 {
      if s.buffer != [] || ProducerHand(s.producer) != [] {
        NoDeadlock(cfg, s);
      }
    } else {
      ReachableInv(cfg, s);
    }
    forall i | 0 <= i < |s.workers|
      ensures !s.workers[i].Signalling? && !s.workers[i].Unlocking? && !s.workers[i].Working?
    {
      assert !WorkerCanMove(s, i);
    }
  }

  lemma SettledIsAnswered(cfg: Config, s: Server, conn: int)
    requires Reachable(cfg, s) && CanServe(cfg) && !s.exiting && Settled(s)
    ensures Answered(s.answers, conn) == Count(s.accepted, conn)
  {
    SettledIsEmpty(cfg, s);
    EmptyHands(s.workers, conn);
    RequestsConserved(cfg, s, conn);
  }

  lemma {:induction false} RunReachable(cfg: Config, s: Server, run: seq<Event>)
    requires Reachable(cfg, s) && Possible(cfg, s, run)
    ensures Reachable(cfg, Run(cfg, s, run))
    decreases |run|
  {
    if run == [] {
    } else {
      var t := Extend(cfg, s, run[0]);
      RunReachable(cfg, t, run[1..]);
    }
  }

  lemma {:induction false} QuietKeepsExiting(cfg: Config, s: Server, run: seq<Event>)
    requires Possible(cfg, s, run) && forall e :: e in run ==> Quiet(e)
    ensures Run(cfg, s, run).exiting == s.exiting && Run(cfg, s, run).accepted == s.accepted
    decreases |run|
  {
    if run == [] {
    } else {
      assert run[0] in run;
      QuietStep(cfg, s, run[0]);
      QuietKeepsExiting(cfg, Step(cfg, s, run[0]), run[1..]);
    }
  }

  lemma QuietStep(cfg: Config, s: Server, e: Event)
    requires Enabled(s, e) && Quiet(e)
    ensures Step(cfg, s, e).exiting == s.exiting && Step(cfg, s, e).accepted == s.accepted
  {
    match e
    case ProducerMoves =>
      match s.producer {
        case Serving(_, _) => var p := ProducerServing(cfg, s);
        case _ =>
      }
    case WorkerMoves(i) =>
      match s.workers[i] {
        case Working(_, _) => var w := WorkerServing(cfg, s, i);
        case _ =>
      }
  }

  // ---------- What can have ended the program ----------

  /** A push failed, an empty file was copied, or server_exit deleted a cache that does not exist. */
  ghost predicate MayEnd(cfg: Config, s: Server) {
    || (s.fault == PushFailed && s.producer.AtPush? && cfg.maxRequests < 0 && cfg.threads > 0)
    || (s.fault == EmptyCopy && cfg.maxCache >= 0 && EmptyFileAsked(cfg) && CanServe(cfg))
    || (s.fault == NullCache && s.producer == Deleting && cfg.maxCache == 0)
  }

  lemma StepMayEnd(cfg: Config, s: Server, e: Event)
    requires Reachable(cfg, s) && Enabled(s, e) && Step(cfg, s, e).fault != NoFault
    ensures MayEnd(cfg, Step(cfg, s, e))
  {
    hide Reachable, Enabled, Step, EmptyFileAsked, CanServe;
    QueueAssertions(cfg, s, e);
    MissingCacheUsedExactly(cfg, s, e);
    FaultsInPlace(cfg, s, e);
    if Step(cfg, s, e).fault == EmptyCopy {
      OnlyEmptyFilesCrash(cfg, s, e);
    }
  }

  /** A fault leaves the main thread where it is. */
  lemma FaultsInPlace(cfg: Config, s: Server, e: Event)
    requires Enabled(s, e) && Step(cfg, s, e).fault != NoFault
    ensures Step(cfg, s, e).producer == s.producer && (Step(cfg, s, e).fault == PushFailed ==> s.producer.AtPush?)
  {
    match e
    case ProducerMoves =>
      match s.producer {
        case Serving(_, _) => var p := ProducerServing(cfg, s);
        case _ =>
      }
    case WorkerMoves(i) =>
      match s.workers[i] {
        case Working(_, _) => var w := WorkerServing(cfg, s, i);
        case _ =>
      }
    case _ =>
  }

  lemma {:induction false} RunMayEnd(cfg: Config, s: Server, run: seq<Event>)
    requires Reachable(cfg, s) && Possible(cfg, s, run) && s.fault == NoFault
    ensures Run(cfg, s, run).fault != NoFault ==> MayEnd(cfg, Run(cfg, s, run))
    decreases |run|
  {
    hide Reachable, Step, MayEnd;
    if run == [] {
    } else {
      var t := Extend(cfg, s, run[0]);
      if t.fault == NoFault {
        RunMayEnd(cfg, t, run[1..]);
      } else {
        StepMayEnd(cfg, s, run[0]);
        assert run[1..] == [];
      }
    }
  }

  lemma EndedForAReason(cfg: Config, s: Server)
    requires Reachable(cfg, s) && s.fault != NoFault
    ensures MayEnd(cfg, s)
  {
    var start := Start(cfg);
    var run :| Possible(cfg, start, run) && Run(cfg, start, run) == s;
    RunMayEnd(cfg, start, run);
  }

  /** No thread takes another action by itself. */
  ghost predicate Over(s: Server) {
    forall e :: Quiet(e) ==> !Enabled(s, e)
  }

  lemma OverIsSettled(s: Server)
    requires Over(s) && s.fault == NoFault
    ensures Settled(s)
  {
    assert !Enabled(s, ProducerMoves);
    forall i ensures !WorkerCanMove(s, i) {
      assert !Enabled(s, WorkerMoves(i));
    }
  }

  /**
   Once requests stop coming, and before shutdown, every accepted request gets
   its answer, whatever the order of the threads and without any spurious
   wakeup: the threads can take only so many actions, and when there are no
   more, each connection is answered as often as it was accepted. Only an
   empty file that is to be cached can prevent that.
   */
  lemma EveryRequestIsAnswered(cfg: Config, s: Server, run: seq<Event>)
    requires Reachable(cfg, s) && CanServe(cfg) && !s.exiting
    requires Possible(cfg, s, run) && forall e :: e in run ==> Quiet(e)
    ensures |run| <= Measure(s)
    ensures var r := Run(cfg, s, run);
            Over(r) ==>
              || (r.fault == EmptyCopy && cfg.maxCache >= 0 && EmptyFileAsked(cfg))
              || (r.fault == NoFault && forall conn :: Answered(r.answers, conn) == Count(s.accepted, conn))
  {
    QuietRunsEnd(cfg, s, run);
    QuietKeepsExiting(cfg, s, run);
    RunReachable(cfg, s, run);
    var r := Run(cfg, s, run);
    if r.fault != NoFault {
      EndedForAReason(cfg, r);
      ReachableInv(cfg, r);
    } else if Over(r) {
      OverIsSettled(r);
      forall conn ensures Answered(r.answers, conn) == Count(s.accepted, conn) {
        SettledIsAnswered(cfg, r, conn);
      }
    }
  }
}

/** server_exit: what its broadcast reaches, how it ends, and when it waits for a worker that sleeps. */
module ServerShutdown {
  import opened Sequences
  import opened CacheModel
  import opened ServerSystem
  import opened ServerInvariants
  import opened ServerTheorems
  import opened ServerProgress

  // ---------- A worker that is missed ----------

  /**
   server_exit does not take the mutex, so its broadcast can fall between a
   worker's test and its wait: that worker sleeps although the server is
   exiting, and the main thread waits for it.
   */
  lemma ShutdownCanMissAWorker(cfg: Config) returns (s: Server)
    requires cfg.threads > 0
    ensures Reachable(cfg, s) && s.exiting && s.producer == Joining && SomeAsleep(s)
  {
    s := Start(cfg);
    s := Extend(cfg, s, WorkerMoves(0));
    s := Extend(cfg, s, WorkerMoves(0));
    s := Extend(cfg, s, WorkerMoves(0));
    s := Extend(cfg, s, Exit);
    s := Extend(cfg, s, ProducerMoves);
    s := Extend(cfg, s, WorkerMoves(0));
    assert s.workers[0] == Asleep;
  }

  /** A server can be left waiting for a sleeping worker at shutdown exactly if it has workers. */
  lemma ShutdownHangsExactly(cfg: Config)
    ensures (exists s :: Reachable(cfg, s) && s.producer == Joining && SomeAsleep(s)) <==> cfg.threads > 0
  {
    if cfg.threads > 0 {
      var s := ShutdownCanMissAWorker(cfg);
    } else {
      forall s | Reachable(cfg, s) ensures !SomeAsleep(s) {
        ReachableInv(cfg, s);
      }
    }
  }

  lemma MissedSleepsStep(cfg: Config, s: Server, i: nat, e: Event)
    requires i < |s.workers| && s.producer == Joining && s.workers[i] == Asleep
    requires Enabled(s, e) && e != WorkerWakes(i)
    ensures var r := Step(cfg, s, e); i < |r.workers| && r.workers[i] == Asleep && r.producer == Joining
  {
    assert !AllFinished(s.workers);
    match e
    case WorkerMoves(k) =>
      match s.workers[k] {
        case Working(conn, task) => var w := WorkerServing(cfg, s, k);
        case _ =>
      }
    case _ =>
  }

  /**
   A worker that was missed sleeps on until it wakes up for no reason, and so
   long the main thread never gets past its join, whatever the others do.
   */
  lemma {:induction false} MissedSleepsOn(cfg: Config, s: Server, i: nat, run: seq<Event>)
    requires i < |s.workers| && s.producer == Joining && s.workers[i] == Asleep
    requires Possible(cfg, s, run) && WorkerWakes(i) !in run
    ensures var r := Run(cfg, s, run); i < |r.workers| && r.workers[i] == Asleep && r.producer == Joining
    decreases |run|
  {
    if run != [] {
      MissedSleepsStep(cfg, s, i, run[0]);
      assert run[0] in run;
      MissedSleepsOn(cfg, Step(cfg, s, run[0]), i, run[1..]);
    }
  }

  // ---------- Nobody is missed ----------

  /** The broadcast of server_exit is over, and nobody is on the way into its sleep or in it. */
  ghost predicate AllUp(s: Server) {
    && BehindBroadcast(s.producer) && s.exiting
    && forall i :: 0 <= i < |s.workers| ==> s.workers[i] != Waiting && s.workers[i] != Asleep
  }

  lemma StepAllUp(cfg: Config, s: Server, e: Event)
    requires Enabled(s, e) && AllUp(s)
    ensures AllUp(Step(cfg, s, e))
  {
    match e
    case WorkerMoves(i) =>
      match s.workers[i] {
        case Working(conn, task) => var w := WorkerServing(cfg, s, i);
        case _ =>
      }
    case _ =>
  }

  lemma {:induction false} RunAllUp(cfg: Config, s: Server, run: seq<Event>)
    requires Possible(cfg, s, run) && AllUp(s)
    ensures AllUp(Run(cfg, s, run))
    decreases |run|
  {
    if run != [] {
      StepAllUp(cfg, s, run[0]);
      RunAllUp(cfg, Step(cfg, s, run[0]), run[1..]);
    }
  }

  /** When nobody sleeps and nobody can go on, all workers have ended and the join is past. */
  lemma SettledHasReturned(cfg: Config, s: Server)
    requires MonitorOk(cfg, s) && AllUp(s) && Settled(s)
    ensures AllFinished(s.workers) && s.producer == Returned
  {
    match s.owner {
      case ByProducer =>
      case ByWorker(k) => assert WorkerHolds(s.workers[k]) && WorkerCanMove(s, k);
      case Free =>
        forall i | 0 <= i < |s.workers| ensures s.workers[i] == Finished {
          assert !WorkerCanMove(s, i);
        }
    }
  }

  /**
   If no worker is between its test and its wait at the broadcast, server_exit
   ends: the threads can take only so many actions, and when there are no
   more, all workers have ended and the main thread has deleted the cache, or
   crashed on deleting the one that it does not have. Only an empty file that
   is to be cached can come before that.
   */
  lemma ShutdownEnds(cfg: Config, s: Server, run: seq<Event>)
    requires Reachable(cfg, s) && s.producer == Exiting && Enabled(s, ProducerMoves)
    requires forall i :: 0 <= i < |s.workers| ==> s.workers[i] != Waiting
    requires Possible(cfg, Step(cfg, s, ProducerMoves), run) && forall e :: e in run ==> Quiet(e)
    ensures |run| <= Measure(Step(cfg, s, ProducerMoves))
    ensures var r := Run(cfg, Step(cfg, s, ProducerMoves), run);
            Over(r) ==>
              || (r.fault == EmptyCopy && cfg.maxCache >= 0 && EmptyFileAsked(cfg))
              || (&& AllFinished(r.workers)
                  && if cfg.maxCache == 0 then r.fault == NullCache else r.fault == NoFault && r.producer == Returned)
  {
    ReachableInv(cfg, s);
    var t := Extend(cfg, s, ProducerMoves);
    assert AllUp(t);
    QuietRunsEnd(cfg, t, run);
    RunAllUp(cfg, t, run);
    RunReachable(cfg, t, run);
    var r := Run(cfg, t, run);
    ReachableInv(cfg, r);
    if r.fault != NoFault {
      EndedForAReason(cfg, r);
    } else if Over(r) {
      OverIsSettled(r);
      SettledHasReturned(cfg, r);
    }
  }

  // ---------- Exactly when a worker is missed ----------

  /** The threads can be left to themselves until none of them can go on. */
  lemma RunToEnd(cfg: Config, s: Server) returns (run: seq<Event>)
    ensures Possible(cfg, s, run) && (forall e :: e in run ==> Quiet(e)) && Over(Run(cfg, s, run))
    decreases Measure(s)
  {
    if e :| Quiet(e) && Enabled(s, e) {
      if e.ProducerMoves? {
        ProducerReduces(cfg, s);
      } else {
        WorkerReduces(cfg, s, e.worker);
      }
      var rest := RunToEnd(cfg, Step(cfg, s, e));
      run := [e] + rest;
      assert run[1..] == rest;
    } else {
      run := [];
    }
  }

  ghost predicate CanMiss(cfg: Config, s: Server) {
    exists run :: Possible(cfg, s, run) && SomeAsleep(Run(cfg, s, run))
  }

  /** Without any wakeup for no reason the threads come to their end while a worker sleeps. */
  ghost predicate CanHang(cfg: Config, s: Server) {
    exists run ::
      && Possible(cfg, s, run) && (forall e :: e in run ==> Quiet(e))
      && Over(Run(cfg, s, run)) && SomeAsleep(Run(cfg, s, run))
  }

  lemma WaitingCanHang(cfg: Config, t: Server, i: nat)
    requires t.fault == NoFault && t.producer == Joining && i < |t.workers| && t.workers[i] == Waiting
    ensures CanHang(cfg, t)
  {
    var e := WorkerMoves(i);
    var u := Step(cfg, t, e);
    var rest := RunToEnd(cfg, u);
    MissedSleepsOn(cfg, u, i, rest);
    var run := [e] + rest;
    assert run[1..] == rest;
    assert Possible(cfg, t, run) && Run(cfg, t, run) == Run(cfg, u, rest);
  }

  /**
   The broadcast of server_exit misses a worker, on some run, exactly if at
   that moment a worker has found the queue empty and not yet gone to sleep;
   and then some run ends with that worker asleep.
   */
  lemma BroadcastMissesExactly(cfg: Config, s: Server)
    requires Reachable(cfg, s) && s.producer == Exiting && Enabled(s, ProducerMoves)
    ensures var t := Step(cfg, s, ProducerMoves);
            && (CanMiss(cfg, t) <==> exists i :: 0 <= i < |s.workers| && s.workers[i] == Waiting)
            && (CanHang(cfg, t) <==> CanMiss(cfg, t))
  {
    ReachableInv(cfg, s);
    var t := Step(cfg, s, ProducerMoves);
    if i :| 0 <= i < |s.workers| && s.workers[i] == Waiting {
      WaitingCanHang(cfg, t, i);
    } else {
      assert AllUp(t);
      forall run | Possible(cfg, t, run) ensures !SomeAsleep(Run(cfg, t, run)) {
        RunAllUp(cfg, t, run);
      }
    }
  }

  // ---------- What is dropped ----------

  /** server_exit has begun, and no worker is behind its test of `exiting`. */
  ghost predicate Closing(s: Server) {
    && (s.producer.Exiting? || BehindBroadcast(s.producer)) && s.exiting
    && forall i :: 0 <= i < |s.workers| ==> s.workers[i] != Popping
  }

  lemma StepClosing(cfg: Config, s: Server, e: Event)
    requires Enabled(s, e) && Closing(s)
    ensures var t := Step(cfg, s, e);
            Closing(t) && t.buffer == s.buffer && t.popped == s.popped && t.accepted == s.accepted
  {
    match e
    case WorkerMoves(i) =>
      match s.workers[i] {
        case Working(conn, task) => var w := WorkerServing(cfg, s, i);
        case _ =>
      }
    case _ =>
  }

  /**
   Once server_exit is called, what is in the queue stays there: no worker takes
   another connection, except one that is already about to pop.
   */
  lemma {:induction false} NothingTakenAfterExit(cfg: Config, s: Server, run: seq<Event>)
    requires Closing(s) && Possible(cfg, s, run)
    ensures var r := Run(cfg, s, run); r.buffer == s.buffer && r.popped == s.popped && r.accepted == s.accepted
    decreases |run|
  {
    if run != [] {
      StepClosing(cfg, s, run[0]);
      NothingTakenAfterExit(cfg, Step(cfg, s, run[0]), run[1..]);
    }
  }

  // ---------- The cache that does not exist ----------

  /** Workers that have not begun to wait end one after the other. */
  lemma FinishAll(cfg: Config, s: Server, k: nat) returns (t: Server)
    requires Reachable(cfg, s) && s.fault == NoFault && s.producer == Joining && s.exiting && k <= |s.workers|
    requires forall i :: 0 <= i < |s.workers| ==> s.workers[i] == if i < k then Finished else AtLoop
    ensures Reachable(cfg, t) && t.fault == NoFault && t.producer == Joining && AllFinished(t.workers)
    decreases |s.workers| - k
  {
    if k == |s.workers| {
      t := s;
    } else {
      t := Extend(cfg, s, WorkerMoves(k));
      t := FinishAll(cfg, t, k + 1);
    }
  }

  /** Every server can come to the deletion of its cache. */
  lemma CanComeToDeletion(cfg: Config) returns (s: Server)
    ensures Reachable(cfg, s) && s.fault == NoFault && s.producer == Deleting
  {
    s := Start(cfg);
    s := Extend(cfg, s, Exit);
    s := Extend(cfg, s, ProducerMoves);
    s := FinishAll(cfg, s, 0);
    s := Extend(cfg, s, ProducerMoves);
  }

  /** A cache that does not exist is used, by server_exit, exactly if the size of the cache is zero. */
  lemma NullCacheExactly(cfg: Config)
    ensures CanFault(cfg, NullCache) <==> cfg.maxCache == 0
  {
    var s := CanComeToDeletion(cfg);
    assert Enabled(s, ProducerMoves);
    if cfg.maxCache == 0 {
      assert Step(cfg, s, ProducerMoves).fault == NullCache;
    } else {
      forall s, e | Reachable(cfg, s) && Enabled(s, e) ensures Step(cfg, s, e).fault != NullCache {
        MissingCacheUsedExactly(cfg, s, e);
      }
    }
  }
}

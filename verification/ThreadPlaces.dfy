/**
 Every thread is in exactly one place: on the processor, once in the ready
 queue, once in one wait queue, or in no queue at all.
 */
module ThreadPlaces {
  import opened Sequences
  import opened ThreadSystem

  datatype Place = Nowhere | OnCpu | InReady | Waiting(queue: WaitQueue)

  type Places = s: seq<Place> | |s| == 1024 witness seq(1024, _ => Nowhere)

  /** The queues hold exactly what `at` says, nothing twice. */
  ghost predicate Linked(ready: seq<Tid>, wait: Queues, at: Places) {
    && Distinct(ready)
    && (forall q :: Distinct(At(wait, q)))
    && (forall t: Tid :: t in ready <==> at[t] == InReady)
    && (forall q, t: Tid :: t in At(wait, q) <==> at[t] == Waiting(q))
  }

  /** Where a thread in a given state may be. */
  predicate Fits(x: ThreadState, p: Place) {
    match x
    case NotInitialized => p == Nowhere
    case Exited => p == Nowhere
    case Running => p == OnCpu
    case Ready => p == InReady
    case Sleeping => p.Waiting?
    case Killed => p == InReady || p.Waiting?
  }

  ghost predicate Settled(state: States, running: Tid, at: Places) {
    forall t: Tid :: Fits(state[t], at[t]) && (state[t] == Running ==> t == running)
  }

  ghost predicate ArrangedAt(ready: seq<Tid>, wait: Queues, state: States, running: Tid, at: Places) {
    Linked(ready, wait, at) && Settled(state, running, at)
  }

  ghost predicate Arranged(ready: seq<Tid>, wait: Queues, state: States, running: Tid) {
    exists at: Places :: ArrangedAt(ready, wait, state, running, at)
  }

  ghost predicate PlacedAt(s: Sys, at: Places) {
    ArrangedAt(s.ready, s.wait, s.state, s.running, at)
  }

  ghost predicate Placed(s: Sys) {
    Arranged(s.ready, s.wait, s.state, s.running)
  }

  lemma PlacesOf(s: Sys) returns (at: Places)
    requires Placed(s)
    ensures PlacedAt(s, at)
  {
    at :| ArrangedAt(s.ready, s.wait, s.state, s.running, at);
  }

  // ---------- The queue operations move one thread each ----------

  lemma PushLinked(ready: seq<Tid>, wait: Queues, at: Places, t: Tid)
    requires Linked(ready, wait, at) && at[t] != InReady && !at[t].Waiting?
    ensures Linked(ready + [t], wait, at[t := InReady])
  {
    forall x: Tid ensures x in ready + [t] <==> at[t := InReady][x] == InReady {
      assert x in ready + [t] <==> x in ready || x == t;
    }
  }

  lemma PopLinked(ready: seq<Tid>, wait: Queues, at: Places, p: Place)
    requires Linked(ready, wait, at) && ready != [] && p != InReady && !p.Waiting?
    ensures Linked(ready[1..], wait, at[ready[0] := p])
  {
    forall x: Tid ensures x in ready[1..] <==> at[ready[0] := p][x] == InReady {
      assert ready == [ready[0]] + ready[1..];
    }
  }

  lemma RemoveLinked(ready: seq<Tid>, wait: Queues, at: Places, t: Tid, p: Place)
    requires Linked(ready, wait, at) && t in ready && p != InReady && !p.Waiting?
    ensures Linked(RemoveFirst<Tid>(ready, t), wait, at[t := p])
  {
    var i :| 0 <= i < |ready| && ready[i] == t;
    RemoveFirstCuts<Tid>(ready, t, i);
    CutOnly(ready, i);
  }

  /** Cutting a position out of a queue without repetitions removes just the thread there. */
  lemma CutOnly(s: seq<Tid>, i: nat)
    requires Distinct(s) && i < |s|
    ensures var r := s[..i] + s[i + 1..]; Distinct(r) && forall x: Tid :: x in r <==> x in s && x != s[i]
  {
    var r := s[..i] + s[i + 1..];
    assert forall k :: 0 <= k < |r| ==> r[k] == s[if k < i then k else k + 1];
    forall x: Tid | x in s && x != s[i] ensures x in r {
      var j :| 0 <= j < |s| && s[j] == x;
      assert x == r[if j < i then j else j - 1];
    }
  }

  lemma EnqueueLinked(ready: seq<Tid>, wait: Queues, at: Places, t: Tid, q: WaitQueue)
    requires Linked(ready, wait, at) && at[t] != InReady && !at[t].Waiting?
    ensures Linked(ready, wait[q := At(wait, q) + [t]], at[t := Waiting(q)])
  {
    var wait' := wait[q := At(wait, q) + [t]];
    forall p
      ensures Distinct(At(wait', p))
      ensures forall x: Tid :: x in At(wait', p) <==> at[t := Waiting(q)][x] == Waiting(p)
    {
      assert p != q ==> At(wait', p) == At(wait, p);
      assert t !in At(wait, p);
    }
  }

  ghost function MovedToReady(at: Places, block: seq<Tid>): Places {
    seq(1024, i requires 0 <= i < 1024 => if i in block then InReady else at[i])
  }

  lemma WakeLinked(ready: seq<Tid>, wait: Queues, at: Places, q: WaitQueue, k: nat)
    requires Linked(ready, wait, at) && k <= |At(wait, q)|
    ensures Linked(ready + At(wait, q)[..k], wait[q := At(wait, q)[k..]], MovedToReady(at, At(wait, q)[..k]))
  {
    var w := At(wait, q);
    var block := w[..k];
    var wait' := wait[q := w[k..]];
    assert w == block + w[k..];
    assert forall t: Tid :: t in block ==> at[t] == Waiting(q);
    forall p
      ensures Distinct(At(wait', p))
      ensures forall t: Tid :: t in At(wait', p) <==> MovedToReady(at, block)[t] == Waiting(p)
    {
      if p == q {
        assert forall t: Tid :: t in w <==> t in block || t in w[k..];
      } else {
        assert At(wait', p) == At(wait, p);
      }
    }
    forall i, j | 0 <= i < j < |ready + block| ensures (ready + block)[i] != (ready + block)[j] {
      if i < |ready| <= j {
        assert at[(ready + block)[i]] == InReady;
        assert block[j - |ready|] in block;
      }
    }
  }

  // ---------- The library's operations keep every thread placed ----------

  lemma WakePlaced(s: Sys, at: Places, q: WaitQueue, all: int) returns (at': Places)
    requires PlacedAt(s, at)
    ensures PlacedAt(Wake(s, q, all), at')
  {
    var k := WakeCount(s, q, all);
    if k == 0 {
      at' := at;
    } else {
      var block := At(s.wait, q)[..k];
      at' := MovedToReady(at, block);
      WakeLinked(s.ready, s.wait, at, q, k);
      forall t: Tid | t in block ensures at[t] == Waiting(q) {
        assert t in At(s.wait, q);
      }
    }
  }

  /** The place of the running thread once thread_yield has put it back. */
  function PlaceAfter(x: ThreadState, p: Place): Place {
    if x == Exited || x == Sleeping then p else InReady
  }

  lemma RequeuedLinked(s: Sys, at: Places)
    requires PlacedAt(s, at) && s.state[s.running] in {Running, Exited, Sleeping}
    ensures Linked(Requeued(s), s.wait, at[s.running := PlaceAfter(s.state[s.running], at[s.running])])
  {
    if s.state[s.running] != Exited && s.state[s.running] != Sleeping {
      assert at[s.running] == OnCpu;
      PushLinked(s.ready, s.wait, at, s.running);
    } else {
      assert at[s.running := at[s.running]] == at;
    }
  }

  lemma SwitchSettled(s: Sys, at: Places, next: Tid, prev: bool)
    requires Settled(s.state, s.running, at) && s.state[s.running] in {Running, Exited, Sleeping}
    requires next == s.running ==> s.state[next] == Running
    ensures var r := Switch(s, next, prev);
            Settled(r.state, next, at[s.running := PlaceAfter(s.state[s.running], at[s.running])][next := OnCpu])
  {
  }

  /**
   thread_yield(THREAD_ANY), called by a thread that runs, is exiting or is
   already in a wait queue, hands the processor to the head of the queue.
   */
  lemma YieldAnyPlaced(s: Sys, at: Places) returns (at': Places)
    requires PlacedAt(s, at) && Requeued(s) != [] && s.state[s.running] in {Running, Exited, Sleeping}
    ensures PlacedAt(YieldAny(s), at') && YieldAny(s).status == s.status
    ensures YieldAny(s).state[YieldAny(s).running] == Running
  {
    var me := s.running;
    var queue := Requeued(s);
    var next := queue[0];
    var mid := at[me := PlaceAfter(s.state[me], at[me])];
    RequeuedLinked(s, at);
    PopLinked(queue, s.wait, mid, OnCpu);
    assert mid[next] == InReady;
    at' := mid[next := OnCpu];
    if next == me {
      assert at' == at;
    } else {
      SwitchSettled(Picked(s), at, next, s.mask);
    }
  }

  /** A directed thread_yield leaves everything placed, whoever it names. */
  lemma YieldToPlaced(s: Sys, at: Places, want: int) returns (at': Places)
    requires PlacedAt(s, at) && s.state[s.running] == Running && want != THREAD_ANY
    ensures PlacedAt(ThreadYield(s, want), at')
    ensures ThreadYield(s, want).state[ThreadYield(s, want).running] == Running
  {
    var me := s.running;
    at' := at;
    if Accepted(s, want) && Wanted(s, want) in Requeued(s) {
      var next: Tid := Wanted(s, want);
      RequeuedLinked(s, at);
      RemoveLinked(Requeued(s), s.wait, at[me := InReady], next, OnCpu);
      SwitchSettled(s.(ready := RemoveFirst<Tid>(Requeued(s), next)), at, next, s.mask);
      at' := at[me := InReady][next := OnCpu];
    }
  }
}

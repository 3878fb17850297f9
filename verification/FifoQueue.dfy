/** The linked ready and wait queues: a head and a tail pointer over heap nodes. */
module FifoQueues {
  import opened Sequences
  import opened ThreadSystem

  class FifoNode {
    const threadId: Tid
    var next: FifoNode?

    constructor (threadId: Tid)
      ensures this.threadId == threadId && next == null
    {
      this.threadId := threadId;
      next := null;
    }
  }

  // ---------- Rearrangements, on sequences ----------

  /** The front goes to the back. */
  function Rotated(s: seq<Tid>): seq<Tid> {
    if s == [] then [] else s[1..] + [s[0]]
  }

  /** move_selected_thread_to_front: the old front to the back, then the selected thread to the front. */
  function SelectedFirst(s: seq<Tid>, t: Tid): seq<Tid> {
    [t] + RemoveFirst<Tid>(Rotated(s), t)
  }

  lemma {:induction false} RemoveFirstMultiset(s: seq<Tid>, t: Tid)
    requires t in s
    ensures multiset(s) == multiset{t} + multiset(RemoveFirst<Tid>(s, t))
  {
    assert s == [s[0]] + s[1..];
    if s[0] != t {
      RemoveFirstMultiset(s[1..], t);
    }
  }

  lemma RotatedHas(s: seq<Tid>, t: Tid)
    ensures t in Rotated(s) <==> t in s
  {
    if s != [] {
      assert s == [s[0]] + s[1..];
    }
  }

  /**
   The selected thread comes first and the old front last, everybody else in
   the old order; selecting the front itself leaves the order as it was.
   */
  lemma SelectedFirstOrder(s: seq<Tid>, t: Tid)
    requires t in s
    ensures t in s[1..] ==> SelectedFirst(s, t) == [t] + RemoveFirst<Tid>(s[1..], t) + [s[0]]
    ensures t !in s[1..] ==> t == s[0] && SelectedFirst(s, t) == s
  {
    assert s == [s[0]] + s[1..];
    if t in s[1..] {
      RemoveFirstAppend<Tid>(s[1..], t, [s[0]]);
      assert SelectedFirst(s, t) == [t] + (RemoveFirst<Tid>(s[1..], t) + [s[0]]);
    } else {
      var r := Rotated(s);
      assert r[..|s| - 1] == s[1..];
      RemoveFirstCuts<Tid>(r, t, |s| - 1);
      assert r[|s|..] == [];
      assert SelectedFirst(s, t) == [t] + (s[1..] + []);
    }
  }

  /** Nobody is lost and nobody is doubled. */
  lemma SelectedFirstPermutes(s: seq<Tid>, t: Tid)
    requires t in s
    ensures multiset(SelectedFirst(s, t)) == multiset(s)
  {
    assert s == [s[0]] + s[1..];
    assert multiset(Rotated(s)) == multiset(s);
    RemoveFirstMultiset(Rotated(s), t);
  }

  ghost function Ids(nodes: seq<FifoNode>): (s: seq<Tid>)
    ensures |s| == |nodes| && forall i :: 0 <= i < |s| ==> s[i] == nodes[i].threadId
  {
    seq(|nodes|, i requires 0 <= i < |nodes| => nodes[i].threadId)
  }

  /** Unlinking the first node with thread `t` removes the first occurrence of `t`. */
  lemma IdsWithout(nodes: seq<FifoNode>, t: Tid, at: nat)
    requires at < |nodes| && nodes[at].threadId == t && t !in Ids(nodes)[..at]
    ensures Ids(nodes[..at] + nodes[at + 1..]) == RemoveFirst<Tid>(Ids(nodes), t)
  {
    RemoveFirstCuts<Tid>(Ids(nodes), t, at);
  }

  lemma SearchEnds(nodes: seq<FifoNode>, t: Tid, at: nat)
    requires at <= |nodes| && t in Ids(nodes) && t !in Ids(nodes)[..at]
    ensures at < |nodes|
  {
    assert Ids(nodes)[..|nodes|] == Ids(nodes);
  }

  lemma IdsSelected(nodes: seq<FifoNode>, t: Tid, at: nat)
    requires at < |nodes| && nodes[at].threadId == t && t !in Ids(nodes)[..at]
    ensures Ids([nodes[at]] + nodes[..at] + nodes[at + 1..]) == [t] + RemoveFirst<Tid>(Ids(nodes), t)
  {
    IdsWithout(nodes, t, at);
    var rest := nodes[..at] + nodes[at + 1..];
    assert [nodes[at]] + nodes[..at] + nodes[at + 1..] == [nodes[at]] + rest;
  }

  class FifoQueue {
    var head: FifoNode?
    var tail: FifoNode?
    ghost var nodes: seq<FifoNode>

    /** The list from the head runs through `nodes`, ends behind the tail, and is acyclic. */
    ghost predicate Valid()
      reads this, nodes
    {
      && Distinct(nodes)
      && (if nodes == [] then head == null && tail == null else head == nodes[0] && tail == nodes[|nodes| - 1])
      && forall i {:trigger nodes[i].next} :: 0 <= i < |nodes| ==> nodes[i].next == NodeAt(i + 1)
    }

    /** The node at position `i`, or null behind the last one. */
    ghost function NodeAt(i: nat): FifoNode?
      reads this
    {
      if i < |nodes| then nodes[i] else null
    }

    ghost function Contents(): (s: seq<Tid>)
      reads this
    {
      Ids(nodes)
    }

    /** initialize_queue */
    constructor ()
      ensures Valid() && Contents() == [] && nodes == []
    {
      head, tail, nodes := null, null, [];
    }

    /** queue_empty */
    method Empty() returns (empty: bool)
      requires Valid()
      ensures empty <==> Contents() == []
    {
      empty := head == null && tail == null;
    }

    /** one_element_in_queue: also true of an empty queue */
    method AtMostOne() returns (short: bool)
      requires Valid()
      ensures short <==> |Contents()| <= 1
    {
      short := head == tail;
      if |nodes| > 1 {
        assert nodes[0] != nodes[|nodes| - 1];
      }
    }

    /** push_back */
    method PushBack(t: Tid)
      requires Valid()
      modifies this, nodes
      ensures Valid() && Contents() == old(Contents()) + [t]
      ensures |nodes| == |old(nodes)| + 1 && nodes[..|old(nodes)|] == old(nodes) && fresh(nodes[|old(nodes)|])
    {
      var node := new FifoNode(t);
      if head == null && tail == null {
        head := node;
        tail := node;
      } else {
        tail.next := node;
        tail := node;
      }
      nodes := nodes + [node];
    }

    /** pop_front */
    method PopFront() returns (ok: bool, t: Tid)
      requires Valid()
      modifies this
      ensures Valid() && ok == (old(Contents()) != [])
      ensures ok ==> old(Contents()) == [t] + Contents() && nodes == old(nodes)[1..]
      ensures !ok ==> Contents() == [] && nodes == old(nodes)
    {
      if head == null && tail == null {
        return false, 0;
      }
      var newFront := head.next;
      t := head.threadId;
      if newFront == null {
        tail := null;
      }
      head := newFront;
      nodes := nodes[1..];
      ok := true;
    }

    /** The search loop of remove_node and move_selected_thread_to_front. */
    method Search(t: Tid) returns (prev: FifoNode?, curr: FifoNode?, ghost at: nat)
      requires Valid()
      ensures at <= |nodes| && t !in Contents()[..at]
      ensures (at == 0 ==> prev == null) && (at > 0 ==> prev == NodeAt(at - 1))
      ensures curr == NodeAt(at)
      ensures curr != null ==> curr.threadId == t
    {
      prev, curr, at := null, head, 0;
      while curr != null && curr.threadId != t
        invariant at <= |nodes| && t !in Contents()[..at]
        invariant (at == 0 ==> prev == null) && (at > 0 ==> prev == NodeAt(at - 1))
        invariant curr == NodeAt(at)
        decreases |nodes| - at
      {
        prev := curr;
        curr := curr.next;
        at := at + 1;
      }
    }

    /** Unlink the node at position `at`, which is not the first one. */
    method Unlink(prev: FifoNode, curr: FifoNode, ghost at: nat)
      requires Valid() && 0 < at < |nodes| && prev == nodes[at - 1] && curr == nodes[at]
      modifies this`tail, this`nodes, nodes
      ensures Valid() && nodes == old(nodes)[..at] + old(nodes)[at + 1..]
    {
      if curr.next == null {
        tail := prev;
      }
      prev.next := curr.next;
      nodes := nodes[..at] + nodes[at + 1..];
    }

    /** remove_node */
    method RemoveNode(t: Tid) returns (found: bool)
      requires Valid()
      modifies this, nodes
      ensures Valid() && found == (t in old(Contents()))
      ensures Contents() == RemoveFirst<Tid>(old(Contents()), t)
    {
      var prev, curr, at := Search(t);
      if curr == null {
        assert Contents()[..at] == Contents();
        RemoveFirstAbsent<Tid>(Contents(), t);
        return false;
      }
      assert Contents()[at] == t;
      IdsWithout(nodes, t, at);
      if prev == null {
        assert nodes[..0] + nodes[1..] == nodes[1..];
        var ok, front := PopFront();
      } else {
        Unlink(prev, curr, at);
      }
      return true;
    }

    /** delete_queue */
    method Delete()
      requires Valid()
      modifies this
      ensures Valid() && Contents() == []
    {
      var more := true;
      while more
        invariant Valid() && (!more ==> Contents() == [])
        decreases |nodes|, more
      {
        var t;
        more, t := PopFront();
      }
    }

    /** The relinking of move_front_to_back, for at least two nodes. */
    method RotateNodes()
      requires Valid() && |nodes| > 1
      modifies this, nodes
      ensures Valid() && nodes == old(nodes)[1..] + [old(nodes)[0]]
    {
      var newFront := head.next;
      tail.next := head;
      tail := head;
      head := newFront;
      tail.next := null;
      nodes := nodes[1..] + [nodes[0]];
    }

    /** move_front_to_back */
    method MoveFrontToBack() returns (ok: bool, t: Tid)
      requires Valid()
      modifies this, nodes
      ensures Valid() && ok == (old(Contents()) != [])
      ensures Contents() == Rotated(old(Contents())) && (ok ==> t == Contents()[0])
      ensures nodes == old(nodes) || (|old(nodes)| > 1 && nodes == old(nodes)[1..] + [old(nodes)[0]])
    {
      var short := AtMostOne();
      if head == null && tail == null {
        return false, 0;
      } else if short {
        t := head.threadId;
        ok := true;
      } else {
        RotateNodes();
        t := head.threadId;
        ok := true;
      }
    }

    /** The relinking of move_selected_thread_to_front: the node at position `at` goes before the head. */
    method MoveToFront(prev: FifoNode, curr: FifoNode, ghost at: nat)
      requires Valid() && 0 < at < |nodes| && prev == nodes[at - 1] && curr == nodes[at]
      modifies this, nodes
      ensures Valid() && nodes == [curr] + old(nodes)[..at] + old(nodes)[at + 1..]
    {
      Unlink(prev, curr, at);
      curr.next := head;
      head := curr;
      nodes := [curr] + nodes;
    }

    /** The search and relinking of move_selected_thread_to_front. */
    method BringToFront(t: Tid)
      requires Valid() && t in Contents()
      modifies this, nodes
      ensures Valid() && Contents() == [t] + RemoveFirst<Tid>(old(Contents()), t)
    {
      var prev, curr, at := Search(t);
      SearchEnds(nodes, t, at);
      IdsSelected(nodes, t, at);
      hide Ids, RemoveFirst;
      if prev != null {
        MoveToFront(prev, curr, at);
      } else {
        assert [nodes[0]] + nodes[..0] + nodes[1..] == nodes;
      }
    }

    /** move_selected_thread_to_front; the thread must be in the queue */
    method MoveSelectedToFront(t: Tid) returns (ok: bool)
      requires Valid() && (Contents() != [] ==> t in Contents())
      modifies this, nodes
      ensures Valid() && ok == (old(Contents()) != [])
      ensures ok ==> Contents() == SelectedFirst(old(Contents()), t)
      ensures !ok ==> Contents() == []
    {
      RotatedHas(Contents(), t);
      var front;
      ok, front := MoveFrontToBack();
      if ok {
        BringToFront(t);
      }
    }
  }
}

/** The list of cached files in descending order of size: linked nodes under a head and a tail pointer. */
module FilesizeQueues {
  import opened Sequences
  import opened CacheModel

  class FilesizeNode {
    const entry: SizeEntry
    var next: FilesizeNode?

    constructor (entry: SizeEntry)
      ensures this.entry == entry && next == null
    {
      this.entry := entry;
      next := null;
    }
  }

  ghost function Entries(nodes: seq<FilesizeNode>): (s: seq<SizeEntry>)
    ensures |s| == |nodes| && forall i :: 0 <= i < |s| ==> s[i] == nodes[i].entry
  {
    seq(|nodes|, i requires 0 <= i < |nodes| => nodes[i].entry)
  }

  /** Behind entries that are at least as big, before the first one that is smaller. */
  lemma {:induction false} InsertPosition(q: seq<SizeEntry>, e: SizeEntry, at: nat)
    requires at <= |q| && (forall i :: 0 <= i < at ==> e.size <= q[i].size)
    requires at < |q| ==> e.size > q[at].size
    ensures InsertDescending(q, e) == q[..at] + [e] + q[at..]
  {
    if at == 0 {
      assert q[..0] + [e] + q[0..] == [e] + q;
    } else {
      InsertPosition(q[1..], e, at - 1);
      assert q[..at] + [e] + q[at..] == [q[0]] + (q[1..][..at - 1] + [e] + q[1..][at - 1..]);
    }
  }

  lemma EntriesInserted(nodes: seq<FilesizeNode>, node: FilesizeNode, at: nat)
    requires at <= |nodes|
    ensures Entries(nodes[..at] + [node] + nodes[at..]) ==
              Entries(nodes)[..at] + [node.entry] + Entries(nodes)[at..]
  {
  }

  class FilesizeQueue {
    var head: FilesizeNode?
    var tail: FilesizeNode?
    ghost var nodes: seq<FilesizeNode>
    ghost var owned: set<FilesizeNode>

    ghost predicate Valid()
      reads this, owned
    {
      && (forall i :: 0 <= i < |nodes| ==> nodes[i] in owned)
      && (if nodes == [] then head == null && tail == null else head == nodes[0] && tail == nodes[|nodes| - 1])
      && forall i {:trigger nodes[i].next} :: 0 <= i < |nodes| ==> nodes[i].next == NodeAt(i + 1)
    }

    ghost function NodeAt(i: nat): FilesizeNode?
      reads this
    {
      if i < |nodes| then nodes[i] else null
    }

    lemma OnceIn(at: nat)
      requires Valid() && at < |nodes|
      ensures forall i :: 0 <= i < |nodes| && i != at ==> nodes[i] != nodes[at]
    {
      var next := seq(|nodes|, k requires 0 <= k < |nodes| reads this, nodes => nodes[k].next);
      ChainOnce(nodes, next, at);
    }

    ghost function Contents(): seq<SizeEntry>
      reads this
    {
      Entries(nodes)
    }

    /** create_filesize_queue */
    constructor ()
      ensures Valid() && owned == {} && Contents() == []
    {
      head, tail, nodes, owned := null, null, [], {};
    }

    /** The search loop of insert_into_filesize_queue. */
    method FindPlace(size: nat) returns (prev: FilesizeNode?, curr: FilesizeNode?, ghost at: nat)
      requires Valid()
      ensures at <= |nodes| && curr == NodeAt(at)
      ensures (at == 0 ==> prev == null) && (at > 0 ==> prev == NodeAt(at - 1))
      ensures forall i :: 0 <= i < at ==> size <= nodes[i].entry.size
      ensures at < |nodes| ==> size > nodes[at].entry.size
    {
      prev, curr, at := null, head, 0;
      while curr != null
        invariant at <= |nodes| && curr == NodeAt(at)
        invariant (at == 0 ==> prev == null) && (at > 0 ==> prev == NodeAt(at - 1))
        invariant forall i :: 0 <= i < at ==> size <= nodes[i].entry.size
        decreases |nodes| - at
      {
        if size > curr.entry.size {
          break;
        }
        prev := curr;
        curr := curr.next;
        at := at + 1;
      }
    }

    /** The relinking of insert_into_filesize_queue. */
    method Link(node: FilesizeNode, prev: FilesizeNode?, curr: FilesizeNode?, ghost at: nat)
      requires Valid() && at <= |nodes| && curr == NodeAt(at) && node !in owned && node.next == null
      requires (at == 0 ==> prev == null) && (at > 0 ==> prev == NodeAt(at - 1))
      modifies this, owned, node
      ensures Valid() && nodes == old(nodes)[..at] + [node] + old(nodes)[at..] && owned == old(owned) + {node}
    {
      if at > 0 {
        OnceIn(at - 1);
      }
      if head == null && tail == null {
        head := node;
        tail := node;
      } else if curr == null {
        prev.next := node;
        tail := node;
      } else if prev == null {
        node.next := head;
        head := node;
      } else {
        prev.next := node;
        node.next := curr;
      }
      nodes := nodes[..at] + [node] + nodes[at..];
      owned := owned + {node};
    }

    /** insert_into_filesize_queue */
    method Insert(size: nat, name: string)
      requires Valid()
      modifies this, owned
      ensures Valid() && Contents() == InsertDescending(old(Contents()), SizeEntry(size, name))
      ensures fresh(owned - old(owned))
    {
      var node := new FilesizeNode(SizeEntry(size, name));
      var prev, curr, at := FindPlace(size);
      InsertPosition(Contents(), SizeEntry(size, name), at);
      EntriesInserted(nodes, node, at);
      Link(node, prev, curr, at);
    }

    /** pop_front_fq */
    method PopFront() returns (ok: bool, e: SizeEntry)
      requires Valid()
      modifies this`head, this`tail, this`nodes
      ensures Valid() && ok == (old(Contents()) != [])
      ensures ok ==> old(Contents()) == [e] + Contents()
      ensures !ok ==> Contents() == []
    {
      if head != null && tail != null {
        var newHead := head.next;
        e := head.entry;
        if newHead == null {
          tail := null;
        }
        head := newHead;
        nodes := nodes[1..];
        ok := true;
      } else {
        ok, e := false, SizeEntry(0, "");
      }
    }
  }
}

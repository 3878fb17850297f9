/** The web server's bounded queue of connections: linked nodes, a counter and a bound. */
module RequestQueues {

  class RequestNode {
    const connfd: int
    var next: RequestNode?

    constructor (connfd: int)
      ensures this.connfd == connfd && next == null
    {
      this.connfd := connfd;
      next := null;
    }
  }

  ghost function Conns(nodes: seq<RequestNode>): (s: seq<int>)
    ensures |s| == |nodes| && forall i :: 0 <= i < |s| ==> s[i] == nodes[i].connfd
  {
    seq(|nodes|, i requires 0 <= i < |nodes| => nodes[i].connfd)
  }

  class RequestQueue {
    var head: RequestNode?
    var tail: RequestNode?
    const maxSize: int
    var currSize: int
    ghost var nodes: seq<RequestNode>
    ghost var owned: set<RequestNode>

    /** The list runs through `nodes` and the counter is its length. */
    ghost predicate Valid()
      reads this, owned
    {
      && (forall i :: 0 <= i < |nodes| ==> nodes[i] in owned)
      && (if nodes == [] then head == null && tail == null else head == nodes[0] && tail == nodes[|nodes| - 1])
      && (forall i {:trigger nodes[i].next} :: 0 <= i < |nodes| ==> nodes[i].next == NodeAt(i + 1))
      && currSize == |nodes|
    }

    ghost function NodeAt(i: nat): RequestNode?
      reads this
    {
      if i < |nodes| then nodes[i] else null
    }

    ghost function Contents(): seq<int>
      reads this
    {
      Conns(nodes)
    }

    /** create_request_queue */
    constructor (size: int)
      ensures Valid() && owned == {} && Contents() == [] && maxSize == size
    {
      head, tail, nodes, owned := null, null, [], {};
      maxSize, currSize := size, 0;
    }

    /** push_back: refused exactly when the queue has reached its bound */
    method PushBack(connfd: int) returns (ok: bool)
      requires Valid()
      modifies this, owned
      ensures Valid() && ok == (|old(Contents())| < maxSize)
      ensures Contents() == if ok then old(Contents()) + [connfd] else old(Contents())
      ensures fresh(owned - old(owned))
    {
      if currSize < maxSize {
        var node := new RequestNode(connfd);
        if head == null && tail == null {
          head := node;
          tail := node;
        } else {
          LastIsNoOther();
          tail.next := node;
          tail := node;
        }
        currSize := currSize + 1;
        nodes, owned := nodes + [node], owned + {node};
        return true;
      }
      return false;
    }

    /** Only the last node ends the list. */
    lemma LastIsNoOther()
      requires Valid() && nodes != []
      ensures forall i :: 0 <= i < |nodes| - 1 ==> nodes[i] != nodes[|nodes| - 1]
    {
      assert nodes[|nodes| - 1].next == null;
      forall i | 0 <= i < |nodes| - 1 ensures nodes[i] != nodes[|nodes| - 1] {
        assert nodes[i].next == nodes[i + 1];
      }
    }

    /** pop_front: refused exactly when the queue is empty */
    method PopFront() returns (ok: bool, connfd: int)
      requires Valid()
      modifies this`head, this`tail, this`currSize, this`nodes
      ensures Valid() && ok == (old(Contents()) != [])
      ensures ok ==> old(Contents()) == [connfd] + Contents()
      ensures !ok ==> Contents() == []
    {
      if currSize > 0 {
        var newFront := head.next;
        connfd := head.connfd;
        if newFront == null {
          tail := null;
        }
        head := newFront;
        currSize := currSize - 1;
        nodes := nodes[1..];
        return true, connfd;
      }
      return false, 0;
    }

    /** delete_queue */
    method Delete()
      requires Valid()
      modifies this`head, this`tail, this`currSize, this`nodes
      ensures Valid() && Contents() == [] && head == null
    {
      var more := true;
      while more
        invariant Valid() && (!more ==> Contents() == [])
        decreases |nodes|, more
      {
        var connfd;
        more, connfd := PopFront();
      }
    }
  }
}

/** One bucket of the file cache: a singly linked list of entries with distinct file names. */
module EntryLists {
  import opened Sequences
  import opened CacheModel

  class Entry {
    const filename: string
    const data: FileData
    ghost const list: EntryList
    var next: Entry?

    constructor (filename: string, data: FileData, ghost list: EntryList)
      ensures this.filename == filename && this.data == data && this.list == list && next == null
    {
      this.filename := filename;
      this.data := data;
      this.list := list;
      next := null;
    }
  }

  /** The files that a list stands for; an earlier entry hides a later one. */
  ghost function FilesOf(nodes: seq<Entry>): map<string, FileData> {
    if nodes == [] then map[] else FilesOf(nodes[1..])[nodes[0].filename := nodes[0].data]
  }

  ghost predicate Unique(nodes: seq<Entry>) {
    nodes == [] || (nodes[0].filename !in FilesOf(nodes[1..]) && Unique(nodes[1..]))
  }

  lemma {:induction false} FilesAppend(nodes: seq<Entry>, entry: Entry)
    requires Unique(nodes) && entry.filename !in FilesOf(nodes)
    ensures FilesOf(nodes + [entry]) == FilesOf(nodes)[entry.filename := entry.data]
    ensures Unique(nodes + [entry])
  {
    if nodes == [] {
      assert nodes + [entry] == [entry];
    } else {
      FilesAppend(nodes[1..], entry);
      assert (nodes + [entry])[1..] == nodes[1..] + [entry];
    }
  }

  lemma {:induction false} FilesCut(nodes: seq<Entry>, at: nat)
    requires Unique(nodes) && at < |nodes|
    ensures FilesOf(nodes[..at] + nodes[at + 1..]) == FilesOf(nodes) - {nodes[at].filename}
    ensures Unique(nodes[..at] + nodes[at + 1..])
  {
    var cut := nodes[..at] + nodes[at + 1..];
    if at == 0 {
      assert cut == nodes[1..];
    } else {
      FilesCut(nodes[1..], at - 1);
      assert cut[0] == nodes[0] && cut[1..] == nodes[1..][..at - 1] + nodes[1..][at..];
      assert nodes[at] == nodes[1..][at - 1];
      NamedInFiles(nodes[1..], at - 1);
    }
  }

  lemma {:induction false} NamedInFiles(nodes: seq<Entry>, at: nat)
    requires at < |nodes|
    ensures nodes[at].filename in FilesOf(nodes)
  {
    if at > 0 {
      NamedInFiles(nodes[1..], at - 1);
    }
  }

  class EntryList {
    var head: Entry?
    ghost const bucket: nat
    ghost var nodes: seq<Entry>

    ghost predicate Valid()
      reads this, nodes
    {
      && head == NodeAt(0)
      && (forall i {:trigger nodes[i].next} :: 0 <= i < |nodes| ==> nodes[i].next == NodeAt(i + 1))
      && (forall i :: 0 <= i < |nodes| ==> nodes[i].list == this)
      && Unique(nodes)
    }

    ghost function NodeAt(i: nat): Entry?
      reads this
    {
      if i < |nodes| then nodes[i] else null
    }

    ghost function Files(): map<string, FileData>
      reads this
    {
      FilesOf(nodes)
    }

    constructor (ghost bucket: nat)
      ensures Valid() && nodes == [] && this.bucket == bucket && Files() == map[]
    {
      this.bucket := bucket;
      head, nodes := null, [];
    }

    lemma OnceIn(at: nat)
      requires Valid() && at < |nodes|
      ensures forall i :: 0 <= i < |nodes| && i != at ==> nodes[i] != nodes[at]
    {
      var next := seq(|nodes|, k requires 0 <= k < |nodes| reads this, nodes => nodes[k].next);
      ChainOnce(nodes, next, at);
    }

    /** The search loop common to add_to_list, delete_node_from_list and find_in_hash_table. */
    method Search(name: string) returns (prev: Entry?, curr: Entry?, ghost at: nat)
      requires Valid()
      ensures at <= |nodes| && curr == NodeAt(at)
      ensures (at == 0 ==> prev == null) && (at > 0 ==> prev == NodeAt(at - 1))
      ensures curr != null ==> curr.filename == name && name in Files() && Files()[name] == curr.data
      ensures curr == null ==> name !in Files()
    {
      prev, curr, at := null, head, 0;
      while curr != null
        invariant at <= |nodes| && curr == NodeAt(at)
        invariant (at == 0 ==> prev == null) && (at > 0 ==> prev == NodeAt(at - 1))
        invariant name in Files() <==> name in FilesOf(nodes[at..])
        invariant name in Files() ==> Files()[name] == FilesOf(nodes[at..])[name]
        decreases |nodes| - at
      {
        assert nodes[at..][1..] == nodes[at + 1..];
        if curr.filename == name {
          return;
        }
        prev := curr;
        curr := curr.next;
        at := at + 1;
      }
    }

    /** add_to_list */
    method Add(name: string, data: FileData) returns (added: bool)
      requires Valid()
      modifies this, nodes
      ensures Valid() && added == (name !in old(Files()))
      ensures Files() == if added then old(Files())[name := data] else old(Files())
      ensures forall n :: n in nodes ==> n in old(nodes) || fresh(n)
    {
      var last, curr, at := Search(name);
      if curr != null {
        return false;
      }
      var entry := new Entry(name, data, this);
      FilesAppend(nodes, entry);
      if last == null {
        head := entry;
      } else {
        OnceIn(at - 1);
        last.next := entry;
      }
      nodes := nodes + [entry];
      return true;
    }

    /** The relinking of delete_node_from_list. */
    method Unlink(prev: Entry?, curr: Entry, ghost at: nat)
      requires Valid() && at < |nodes| && curr == nodes[at] && Unique(nodes[..at] + nodes[at + 1..])
      requires prev == if at == 0 then null else nodes[at - 1]
      modifies this, prev
      ensures Valid() && nodes == old(nodes)[..at] + old(nodes)[at + 1..]
    {
      assert nodes[at].next == NodeAt(at + 1);
      ghost var cut := nodes[..at] + nodes[at + 1..];
      assert forall i :: 0 <= i < |cut| ==> cut[i] == nodes[if i < at then i else i + 1];
      if prev == null {
        head := curr.next;
      } else {
        OnceIn(at - 1);
        prev.next := curr.next;
      }
      assert forall i {:trigger cut[i].next} :: 0 <= i < |cut| ==>
               cut[i].next == if i + 1 < |cut| then cut[i + 1] else null;
      nodes := cut;
    }

    /** delete_node_from_list */
    method Delete(name: string) returns (data: Option<FileData>)
      requires Valid()
      modifies this, nodes
      ensures Valid() && Files() == old(Files()) - {name}
      ensures data == if name in old(Files()) then Some(old(Files())[name]) else None
      ensures forall n :: n in nodes ==> n in old(nodes)
    {
      var prev, curr, at := Search(name);
      if curr == null {
        return None;
      }
      FilesCut(nodes, at);
      Unlink(prev, curr, at);
      return Some(curr.data);
    }
  }
}

/** The file cache as the C code has it: bucket lists, the list of sizes and the byte counter, updated in place. */
module FileCaches {
  import opened Sequences
  import opened CacheModel
  import opened EntryLists
  import opened FilesizeQueues

  const NUM_BUCKETS := 80000

  /** The file called `name` is in neither map, or in both with the same data. */
  ghost predicate Same(name: string, m: map<string, FileData>, n: map<string, FileData>) {
    (name in m <==> name in n) && (name in m ==> m[name] == n[name])
  }

  /** Every file is in the bucket of its name, and the buckets hold no other files. */
  ghost predicate Filed(hash: string -> nat, buckets: seq<map<string, FileData>>, files: map<string, FileData>) {
    && |buckets| == NUM_BUCKETS
    && (forall name :: hash(name) < NUM_BUCKETS && Same(name, files, buckets[hash(name)]))
    && (forall b, name :: 0 <= b < |buckets| && name in buckets[b] ==> hash(name) == b)
  }

  lemma FiledAdd(hash: string -> nat, buckets: seq<map<string, FileData>>, files: map<string, FileData>,
                 name: string, data: FileData)
    requires Filed(hash, buckets, files)
    ensures Same(name, files, buckets[hash(name)])
    ensures var b := hash(name); Filed(hash, buckets[b := buckets[b][name := data]], files[name := data])
  {
    var b := hash(name);
    var files', buckets' := files[name := data], buckets[b := buckets[b][name := data]];
    forall other ensures Same(other, files', buckets'[hash(other)]) {
      assert Same(other, files, buckets[hash(other)]);
    }
  }

  lemma FiledDelete(hash: string -> nat, buckets: seq<map<string, FileData>>, files: map<string, FileData>,
                    name: string)
    requires Filed(hash, buckets, files)
    ensures Same(name, files, buckets[hash(name)])
    ensures var b := hash(name); Filed(hash, buckets[b := buckets[b] - {name}], files - {name})
  {
    var b := hash(name);
    var files': map<string, FileData> := files - {name};
    var buckets': seq<map<string, FileData>> := buckets[b := buckets[b] - {name}];
    forall other ensures Same(other, files', buckets'[hash(other)]) {
      assert Same(other, files, buckets[hash(other)]);
    }
  }

  /** Every file has a buffer to copy. */
  ghost predicate Copyable(files: map<string, FileData>) {
    forall name :: name in files ==> files[name].fileBuf.Some?
  }

  /** file_data_copy: it reads the buffer, so there must be one */
  method FileDataCopy(data: FileData) returns (copy: FileData)
    requires data.fileBuf.Some?
    ensures copy == data
  {
    copy := FileData(data.fileName, Some(data.fileBuf.value), data.fileSize);
  }

  class FileCache {
    const hash: string -> nat
    const lists: seq<EntryList>
    const queue: FilesizeQueue
    var maxSize: int
    var currSize: int
    ghost var entries: set<Entry>
    ghost var buckets: seq<map<string, FileData>>
    ghost var files: map<string, FileData>

    /** The buckets are well-formed lists of entries, with the files that `buckets` says. */
    ghost predicate Linked()
      reads this`entries, this`buckets, lists, entries
    {
      && |lists| == |buckets| == NUM_BUCKETS
      && (forall b :: 0 <= b < |lists| ==> lists[b].bucket == b)
      && (forall b, n :: 0 <= b < |lists| && n in lists[b].nodes ==> n in entries)
      && (forall b :: 0 <= b < |lists| ==> lists[b].Valid() && lists[b].Files() == buckets[b])
    }

    ghost predicate ValidTable()
      reads this`entries, this`buckets, this`files, lists, entries
    {
      Linked() && Filed(hash, buckets, files) && Copyable(files)
    }

    ghost predicate Valid()
      reads this`entries, this`buckets, this`files, lists, entries, queue, queue.owned
    {
      ValidTable() && queue.Valid()
    }

    ghost function Abs(): Cache
      reads this`files, this`currSize, this`maxSize, queue
    {
      Cache(files, queue.Contents(), currSize, maxSize)
    }

    /** hash_table_init; `hash` stands for hash_fn */
    constructor (hash: string -> nat, maxSize: int)
      requires forall name :: hash(name) < NUM_BUCKETS
      ensures Valid() && this.hash == hash && fresh(lists) && fresh(queue) && entries == {} && queue.owned == {}
      ensures Abs() == Empty(maxSize)
    {
      var empty: seq<EntryList> := [];
      for b := 0 to NUM_BUCKETS
        invariant |empty| == b && fresh(empty)
        invariant forall k :: 0 <= k < b ==> empty[k].bucket == k && empty[k].nodes == [] && empty[k].Valid()
      {
        var list := new EntryList(b);
        empty := empty + [list];
      }
      this.hash, lists := hash, empty;
      this.maxSize, currSize := maxSize, 0;
      queue := new FilesizeQueue();
      entries, buckets, files := {}, seq(NUM_BUCKETS, _ => map[]), map[];
    }

    /** find_in_hash_table */
    method FindInTable(name: string) returns (result: Option<FileData>)
      requires Valid()
      ensures result == Find(Abs(), name)
    {
      assert Same(name, files, buckets[hash(name)]);
      var prev, curr, at := lists[hash(name)].Search(name);
      if curr != null {
        var copy := FileDataCopy(curr.data);
        return Some(copy);
      }
      return None;
    }

    /** add_to_list in one of the buckets */
    method AddToBucket(b: nat, name: string, data: FileData) returns (added: bool)
      requires Linked() && b < NUM_BUCKETS
      modifies this`entries, this`buckets, lists, entries
      ensures Linked() && added == (name !in old(buckets[b]))
      ensures buckets == if added then old(buckets)[b := old(buckets[b])[name := data]] else old(buckets)
      ensures fresh(entries - old(entries))
    {
      var list := lists[b];
      added := list.Add(name, data);
      entries := entries + set n | n in list.nodes;
      buckets := buckets[b := list.Files()];
    }

    /** The table's part of add_to_hash_table. */
    method InsertIntoTable(name: string, data: FileData) returns (added: bool)
      requires ValidTable() && data.fileBuf.Some?
      modifies this`entries, this`buckets, this`files, lists, entries
      ensures ValidTable() && added == (name !in old(files))
      ensures files == if added then old(files)[name := data] else old(files)
      ensures fresh(entries - old(entries))
    {
      FiledAdd(hash, buckets, files, name, data);
      added := AddToBucket(hash(name), name, data);
      if added {
        files := files[name := data];
      }
    }

    /** delete_from_hash_table; the file must be there */
    method DeleteFromTable(name: string)
      requires ValidTable() && name in files
      modifies this`buckets, this`files, this`currSize, lists, entries
      ensures ValidTable() && files == old(files) - {name}
      ensures currSize == old(currSize) - old(files)[name].fileSize
    {
      var list := lists[hash(name)];
      FiledDelete(hash, buckets, files, name);
      var data := list.Delete(name);
      files := files - {name};
      buckets := buckets[hash(name) := buckets[hash(name)] - {name}];
      currSize := currSize - data.value.fileSize;
    }

    /** One round of evict_cache. */
    method EvictFront() returns (size: nat)
      requires Valid() && queue.Contents() != []
      requires var e := queue.Contents()[0]; e.name in files && files[e.name].fileSize == e.size
      modifies this`buckets, this`files, this`currSize, lists, entries, queue`head, queue`tail, queue`nodes
      ensures Valid() && Abs() == DropFront(old(Abs())) && size == old(queue.Contents())[0].size
    {
      hide FileCache.ValidTable, FilesizeQueue.Valid;
      var ok, e := queue.PopFront();
      assert ok;
      DeleteFromTable(e.name);
      size := e.size;
    }

    /** evict_cache; its assertion that there is always a file left to evict holds */
    method EvictCache(demand: int)
      requires Valid() && Agree(files, queue.Contents()) && demand <= Sum(queue.Contents())
      modifies this`buckets, this`files, this`currSize, lists, entries, queue`head, queue`tail, queue`nodes
      ensures Valid() && Abs() == Evict(old(Abs()), demand)
    {
      hide FileCache.ValidTable, FilesizeQueue.Valid;
      var evicted := 0;
      while evicted < demand
        invariant Valid() && Agree(files, queue.Contents()) && demand - evicted <= Sum(queue.Contents())
        invariant Evict(Abs(), demand - evicted) == Evict(old(Abs()), demand)
        decreases |queue.Contents()|
      {
        var size := EvictFront();
        evicted := evicted + size;
      }
    }

    /** The last steps of add_to_hash_table, once there is room. */
    method Enter(name: string, data: FileData) returns (added: bool)
      requires Valid() && data.fileBuf.Some?
      modifies this`entries, this`buckets, this`files, this`currSize, lists, entries, queue, queue.owned
      ensures Valid() && added == (name !in old(files)) && Abs() == Entered(old(Abs()), name, data)
      ensures fresh(entries - old(entries))
      ensures fresh(queue.owned - old(queue.owned))
    {
      hide FileCache.ValidTable, FilesizeQueue.Valid;
      added := InsertIntoTable(name, data);
      if added {
        currSize := currSize + data.fileSize;
        queue.Insert(data.fileSize, name);
      }
    }

    /** The first part of add_to_hash_table; its assertion that there is room behind the eviction holds */
    method MakeRoom(size: nat)
      requires Valid() && Consistent(Abs()) && size <= maxSize
      modifies this`buckets, this`files, this`currSize, lists, entries, queue`head, queue`tail, queue`nodes
      ensures Valid() && Abs() == Room(old(Abs()), size) && size <= maxSize - currSize
    {
      hide FileCache.ValidTable, FilesizeQueue.Valid;
      RoomSuffices(Abs(), size);
      var remaining := maxSize - currSize;
      if size > remaining {
        EvictCache(size - remaining);
        assert size <= maxSize - currSize;
      }
    }

    /**
     add_to_hash_table; an empty file crashes in file_data_copy, and one that
     is larger than the whole cache fails the first assertion
     */
    method AddToTable(name: string, data: FileData) returns (added: bool)
      requires Valid() && Consistent(Abs()) && data.fileBuf.Some? && data.fileSize <= maxSize
      modifies this`entries, this`buckets, this`files, this`currSize, lists, entries, queue, queue.owned
      ensures Valid() && Consistent(Abs()) && Abs() == Add(old(Abs()), name, data)
      ensures added == (name !in Room(old(Abs()), data.fileSize).files)
      ensures name in files && currSize <= maxSize
      ensures fresh(entries - old(entries))
      ensures fresh(queue.owned - old(queue.owned))
    {
      hide FileCache.Valid, Room, Agree, Descending;
      AddConsistent(Abs(), name, data);
      var newData := FileDataCopy(data);
      MakeRoom(newData.fileSize);
      added := Enter(name, newData);
    }
  }
}

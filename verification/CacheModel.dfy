/**
 The file cache as a value: which files are cached, the list of their sizes in
 descending order, and the byte counter.
 */
module CacheModel {
  import opened Sequences

  /** A file in memory; an empty file has no buffer. */
  datatype FileData = FileData(fileName: string, fileBuf: Option<string>, fileSize: nat)

  datatype SizeEntry = SizeEntry(size: nat, name: string)

  datatype Cache = Cache(files: map<string, FileData>, order: seq<SizeEntry>, curr: int, max: int)

  // ---------- The list of sizes ----------

  /** insert_into_filesize_queue: before the first smaller entry. */
  function InsertDescending(q: seq<SizeEntry>, e: SizeEntry): seq<SizeEntry> {
    if q == [] then [e]
    else if e.size > q[0].size then [e] + q
    else [q[0]] + InsertDescending(q[1..], e)
  }

  ghost predicate Descending(q: seq<SizeEntry>) {
    forall i, j :: 0 <= i < j < |q| ==> q[i].size >= q[j].size
  }

  function Sum(q: seq<SizeEntry>): nat {
    if q == [] then 0 else q[0].size + Sum(q[1..])
  }

  ghost predicate DistinctNames(q: seq<SizeEntry>) {
    forall i, j :: 0 <= i < j < |q| ==> q[i].name != q[j].name
  }

  lemma {:induction false} InsertAdds(q: seq<SizeEntry>, e: SizeEntry)
    ensures Sum(InsertDescending(q, e)) == Sum(q) + e.size
    ensures multiset(InsertDescending(q, e)) == multiset(q) + multiset{e}
  {
    var r := InsertDescending(q, e);
    if q == [] {
    } else if e.size > q[0].size {
      assert r[1..] == q;
    } else {
      InsertAdds(q[1..], e);
      assert r[1..] == InsertDescending(q[1..], e);
      assert q == [q[0]] + q[1..];
    }
  }

  lemma {:induction false} InsertDescends(q: seq<SizeEntry>, e: SizeEntry, bound: nat)
    requires Descending(q) && e.size <= bound && (q != [] ==> q[0].size <= bound)
    ensures Descending(InsertDescending(q, e))
    ensures InsertDescending(q, e) != [] && InsertDescending(q, e)[0].size <= bound
  {
    var r := InsertDescending(q, e);
    if q == [] {
    } else if e.size > q[0].size {
      assert r[1..] == q;
    } else {
      InsertDescends(q[1..], e, q[0].size);
      var s := InsertDescending(q[1..], e);
      assert r == [q[0]] + s;
      assert forall i :: 0 < i < |r| ==> r[i] == s[i - 1];
      assert forall i :: 0 <= i < |s| ==> s[0].size >= s[i].size;
    }
  }

  /** Insertion keeps the list descending, and adds exactly the new entry and its size. */
  lemma InsertKeepsOrder(q: seq<SizeEntry>, e: SizeEntry)
    requires Descending(q)
    ensures Descending(InsertDescending(q, e))
    ensures Sum(InsertDescending(q, e)) == Sum(q) + e.size
    ensures multiset(InsertDescending(q, e)) == multiset(q) + multiset{e}
  {
    InsertAdds(q, e);
    InsertDescends(q, e, if q == [] || e.size > q[0].size then e.size else q[0].size);
  }

  /** A new entry goes behind all entries that are at least as big, and before the others. */
  lemma {:induction false} InsertPlace(q: seq<SizeEntry>, e: SizeEntry) returns (k: nat)
    requires Descending(q)
    ensures k <= |q| && InsertDescending(q, e) == q[..k] + [e] + q[k..]
    ensures forall i :: 0 <= i < |q| ==> (i < k <==> q[i].size >= e.size)
  {
    if q == [] || e.size > q[0].size {
      k := 0;
      assert InsertDescending(q, e) == [e] + q;
    } else {
      k := InsertPlace(q[1..], e);
      assert forall i :: 0 < i < |q| ==> q[i] == q[1..][i - 1];
      k := k + 1;
      assert [q[0]] + (q[1..][..k - 1] + [e] + q[1..][k - 1..]) == q[..k] + [e] + q[k..];
    }
  }

  lemma {:induction false} SumSplit(q: seq<SizeEntry>, k: nat)
    requires k <= |q|
    ensures Sum(q) == Sum(q[..k]) + Sum(q[k..])
  {
    if k == 0 {
      assert q[0..] == q;
    } else {
      SumSplit(q[1..], k - 1);
      assert q[..k][1..] == q[1..][..k - 1];
      assert q[k..] == q[1..][k - 1..];
    }
  }

  // ---------- Eviction ----------

  /** How many entries evict_cache takes off the front. */
  function EvictCount(q: seq<SizeEntry>, demand: int): nat {
    if demand <= 0 || q == [] then 0 else 1 + EvictCount(q[1..], demand - q[0].size)
  }

  /** The evicted prefix is the shortest whose bytes meet the demand. */
  lemma {:induction false} EvictCountShortest(q: seq<SizeEntry>, demand: int)
    requires demand <= Sum(q)
    ensures var k := EvictCount(q, demand);
            && k <= |q| && Sum(q[..k]) >= demand
            && (forall j :: 0 <= j < k ==> Sum(q[..j]) < demand)
  {
    var k := EvictCount(q, demand);
    if demand > 0 {
      EvictCountShortest(q[1..], demand - q[0].size);
      assert q[..k][1..] == q[1..][..k - 1];
      forall j | 0 <= j < k ensures Sum(q[..j]) < demand {
        if j > 0 {
          assert q[..j][1..] == q[1..][..j - 1];
        }
      }
    }
  }

  /** The bytes of the cached files named in `names`. */
  function SizeOf(q: seq<SizeEntry>, names: set<string>): nat {
    if q == [] then 0
    else (if q[|q| - 1].name in names then q[|q| - 1].size else 0) + SizeOf(q[..|q| - 1], names)
  }

  function CountOf(q: seq<SizeEntry>, names: set<string>): nat {
    if q == [] then 0
    else (if q[|q| - 1].name in names then 1 else 0) + CountOf(q[..|q| - 1], names)
  }

  lemma {:induction false} SumSnoc(q: seq<SizeEntry>, e: SizeEntry)
    ensures Sum(q + [e]) == Sum(q) + e.size
  {
    if q == [] {
      assert q + [e] == [e];
    } else {
      SumSnoc(q[1..], e);
      assert (q + [e])[1..] == q[1..] + [e];
    }
  }

  /** No selection of n files is bigger than the n first ones of the descending list. */
  lemma {:induction false} FirstAreBiggest(q: seq<SizeEntry>, names: set<string>)
    requires Descending(q)
    ensures CountOf(q, names) <= |q| && SizeOf(q, names) <= Sum(q[..CountOf(q, names)])
  {
    if q != [] {
      var front := q[..|q| - 1];
      var last := q[|q| - 1];
      FirstAreBiggest(front, names);
      var n := CountOf(front, names);
      assert front[..n] == q[..n];
      if last.name in names {
        assert q[..n + 1] == q[..n] + [q[n]];
        SumSnoc(q[..n], q[n]);
        assert q[n].size >= last.size;
      }
    }
  }

  lemma {:induction false} SumMonotone(q: seq<SizeEntry>, i: nat, j: nat)
    requires i <= j <= |q|
    ensures Sum(q[..i]) <= Sum(q[..j])
  {
    SumSplit(q[..j], i);
    assert q[..j][..i] == q[..i];
  }

  /** With distinct names a selection has at most as many files as names. */
  lemma {:induction false} CountAtMost(q: seq<SizeEntry>, names: set<string>)
    requires DistinctNames(q)
    ensures CountOf(q, names) <= |names|
  {
    if q != [] {
      var last := q[|q| - 1];
      var front := q[..|q| - 1];
      if last.name in names {
        CountAtMost(front, names - {last.name});
        CountIgnores(front, names, last.name);
      } else {
        CountAtMost(front, names);
      }
    }
  }

  lemma {:induction false} CountIgnores(q: seq<SizeEntry>, names: set<string>, name: string)
    requires forall i :: 0 <= i < |q| ==> q[i].name != name
    ensures CountOf(q, names - {name}) == CountOf(q, names)
  {
    if q != [] {
      CountIgnores(q[..|q| - 1], names, name);
    }
  }

  function NamesOf(q: seq<SizeEntry>): set<string> {
    set e | e in q :: e.name
  }

  /** The first file of the list leaves all three parts of the cache. */
  function DropFront(c: Cache): Cache
    requires c.order != []
  {
    Cache(c.files - {c.order[0].name}, c.order[1..], c.curr - c.order[0].size, c.max)
  }

  /** evict_cache with `demand` bytes to free */
  function Evict(c: Cache, demand: int): Cache
    decreases |c.order|
  {
    if demand <= 0 || c.order == [] then c else Evict(DropFront(c), demand - c.order[0].size)
  }

  /** What is left after evicting: all three parts lose the same first entries of the list. */
  lemma {:induction false} EvictRemovesPrefix(c: Cache, demand: int)
    ensures var k := EvictCount(c.order, demand);
            && k <= |c.order|
            && Evict(c, demand) ==
                 Cache(c.files - NamesOf(c.order[..k]), c.order[k..], c.curr - Sum(c.order[..k]), c.max)
    decreases |c.order|
  {
    var k := EvictCount(c.order, demand);
    if k == 0 {
      assert NamesOf(c.order[..0]) == {};
      assert c.files - {} == c.files;
    } else {
      var q := c.order;
      EvictRemovesPrefix(DropFront(c), demand - q[0].size);
      assert q[..k] == [q[0]] + q[1..][..k - 1];
      assert q[..k][1..] == q[1..][..k - 1];
      assert NamesOf(q[..k]) == {q[0].name} + NamesOf(q[1..][..k - 1]);
      assert c.files - NamesOf(q[..k]) == c.files - {q[0].name} - NamesOf(q[1..][..k - 1]);
    }
  }

  // ---------- The operations ----------

  /** find_in_hash_table */
  function Find(c: Cache, name: string): Option<FileData> {
    if name in c.files then Some(c.files[name]) else None
  }

  /** add_to_hash_table after making room */
  function Room(c: Cache, size: nat): Cache {
    if size > c.max - c.curr then Evict(c, size - (c.max - c.curr)) else c
  }

  /** add_to_hash_table once there is room; a duplicate is not inserted */
  function Entered(c: Cache, name: string, data: FileData): Cache {
    if name in c.files then c
    else
      c.(files := c.files[name := data],
         order := InsertDescending(c.order, SizeEntry(data.fileSize, name)),
         curr := c.curr + data.fileSize)
  }

  /** add_to_hash_table */
  function Add(c: Cache, name: string, data: FileData): Cache {
    Entered(Room(c, data.fileSize), name, data)
  }

  /** hash_table_init */
  function Empty(max: int): Cache {
    Cache(map[], [], 0, max)
  }

  // ---------- Agreement ----------

  /** The size list has one entry for each cached file, with its size, and nothing else. */
  ghost predicate Agree(files: map<string, FileData>, order: seq<SizeEntry>) {
    if order == [] then files == map[]
    else
      && order[0].name in files && files[order[0].name].fileSize == order[0].size
      && Agree(files - {order[0].name}, order[1..])
  }

  /** All three parts agree: sizes in descending order, one entry per cached file, and the sum within bounds. */
  ghost predicate Consistent(c: Cache) {
    && Descending(c.order)
    && Agree(c.files, c.order)
    && c.curr == Sum(c.order) <= c.max
  }

  /** Names are unique, and list and table hold exactly the same (name, size) pairs. */
  ghost predicate SamePairs(files: map<string, FileData>, order: seq<SizeEntry>) {
    && DistinctNames(order)
    && (forall i :: 0 <= i < |order| ==> order[i].name in files && files[order[i].name].fileSize == order[i].size)
    && (forall name :: name in files ==> Lists(order, name))
  }

  ghost predicate Lists(order: seq<SizeEntry>, name: string) {
    exists i :: 0 <= i < |order| && order[i].name == name
  }

  lemma {:induction false} AgreeListsAll(files: map<string, FileData>, order: seq<SizeEntry>)
    requires Agree(files, order)
    ensures |files| == |order| && forall name :: name in files ==> Lists(order, name)
  {
    if order == [] {
    } else {
      var rest := files - {order[0].name};
      AgreeListsAll(rest, order[1..]);
      forall name | name in files ensures Lists(order, name) {
        if name == order[0].name {
        } else {
          assert name in rest;
          var i :| 0 <= i < |order[1..]| && order[1..][i].name == name;
          assert order[i + 1].name == name;
        }
      }
      assert rest.Keys == files.Keys - {order[0].name};
    }
  }

  lemma {:induction false} AgreeEntry(files: map<string, FileData>, order: seq<SizeEntry>, i: nat)
    requires Agree(files, order) && i < |order|
    ensures order[i].name in files && files[order[i].name].fileSize == order[i].size
    ensures forall j :: 0 <= j < i ==> order[j].name != order[i].name
  {
    if i > 0 {
      AgreeEntry(files - {order[0].name}, order[1..], i - 1);
      assert forall j :: 0 < j < i ==> order[j] == order[1..][j - 1];
    }
  }

  lemma AgreeGivesPairs(files: map<string, FileData>, order: seq<SizeEntry>)
    requires Agree(files, order)
    ensures SamePairs(files, order) && |files| == |order|
  {
    AgreeListsAll(files, order);
    forall i | 0 <= i < |order|
      ensures order[i].name in files && files[order[i].name].fileSize == order[i].size
      ensures forall j :: 0 <= j < i ==> order[j].name != order[i].name
    {
      AgreeEntry(files, order, i);
    }
  }

  lemma {:induction false} PairsGiveAgree(files: map<string, FileData>, order: seq<SizeEntry>)
    requires SamePairs(files, order)
    ensures Agree(files, order)
  {
    if order == [] {
      assert forall name :: name in files ==> Lists(order, name);
    } else {
      var rest := files - {order[0].name};
      forall name | name in rest ensures Lists(order[1..], name) {
        var i :| 0 <= i < |order| && order[i].name == name;
        assert order[1..][i - 1].name == name;
      }
      PairsGiveAgree(rest, order[1..]);
    }
  }

  /** Agreement read off element by element, in both directions. */
  lemma AgreeExactly(files: map<string, FileData>, order: seq<SizeEntry>)
    ensures Agree(files, order) <==> SamePairs(files, order)
  {
    if Agree(files, order) {
      AgreeGivesPairs(files, order);
    } else if SamePairs(files, order) {
      PairsGiveAgree(files, order);
    }
  }

  lemma {:induction false} AgreeInsert(files: map<string, FileData>, q: seq<SizeEntry>, name: string, data: FileData)
    requires Agree(files, q) && name !in files
    ensures Agree(files[name := data], InsertDescending(q, SizeEntry(data.fileSize, name)))
  {
    var e := SizeEntry(data.fileSize, name);
    var r := InsertDescending(q, e);
    if q == [] || e.size > q[0].size {
      assert r == [e] + q;
      assert r[1..] == q;
      assert files[name := data] - {name} == files;
    } else {
      AgreeInsert(files - {q[0].name}, q[1..], name, data);
      assert r[1..] == InsertDescending(q[1..], e);
      assert files[name := data] - {q[0].name} == (files - {q[0].name})[name := data];
    }
  }

  lemma {:induction false} EvictConsistent(c: Cache, demand: int)
    requires Consistent(c)
    ensures Consistent(Evict(c, demand)) && Evict(c, demand).max == c.max
    decreases |c.order|
  {
    if demand <= 0 || c.order == [] {
    } else {
      EvictConsistent(DropFront(c), demand - c.order[0].size);
    }
  }

  /** Making room succeeds: the files that are evicted suffice, and evict_cache never runs out of them. */
  lemma RoomSuffices(c: Cache, size: nat)
    requires Consistent(c) && size <= c.max
    ensures var r := Room(c, size); Consistent(r) && r.max == c.max && size <= r.max - r.curr
    ensures size > c.max - c.curr ==> size - (c.max - c.curr) <= Sum(c.order)
  {
    if size > c.max - c.curr {
      var demand := size - (c.max - c.curr);
      EvictConsistent(c, demand);
      EvictRemovesPrefix(c, demand);
      EvictCountShortest(c.order, demand);
    }
  }

  /** add_to_hash_table evicts the fewest files off the front of the list that make room for the new one. */
  lemma RoomEvictsFewest(c: Cache, size: nat)
    requires Consistent(c) && size <= c.max
    ensures var r := Room(c, size);
            var k := |c.order| - |r.order|;
            && 0 <= k && r.order == c.order[k..] && r.files == c.files - NamesOf(c.order[..k])
            && r.curr == c.curr - Sum(c.order[..k]) && size <= r.max - r.curr
            && forall j :: 0 <= j < k ==> size > c.max - (c.curr - Sum(c.order[..j]))
  {
    RoomSuffices(c, size);
    var demand := size - (c.max - c.curr);
    if demand > 0 {
      EvictRemovesPrefix(c, demand);
      EvictCountShortest(c.order, demand);
    } else {
      assert NamesOf(c.order[..0]) == {} && c.files - {} == c.files;
    }
  }

  lemma EnteredConsistent(c: Cache, name: string, data: FileData)
    requires Consistent(c) && data.fileSize <= c.max - c.curr
    ensures Consistent(Entered(c, name, data))
  {
    if name in c.files {
    } else {
      AgreeInsert(c.files, c.order, name, data);
      InsertKeepsOrder(c.order, SizeEntry(data.fileSize, name));
    }
  }

  /**
   add_to_hash_table keeps the parts of the cache in agreement, and a file
   that is not larger than the whole cache is cached afterwards. The other
   files are those that were not evicted, with their old contents.
   */
  lemma AddConsistent(c: Cache, name: string, data: FileData)
    requires Consistent(c) && data.fileSize <= c.max
    ensures var r := Add(c, name, data);
            var room := Room(c, data.fileSize);
            && Consistent(r) && r.max == c.max && name in r.files
            && (forall other :: other != name ==> Find(r, other) == Find(room, other))
            && r.files[name] == (if name in room.files then room.files[name] else data)
  {
    RoomSuffices(c, data.fileSize);
    EnteredConsistent(Room(c, data.fileSize), name, data);
  }

  /**
   A file that is new behind the eviction is entered once, behind all files that
   are at least as big; one that is still there leaves the cache as it is.
   */
  lemma AddPlaces(c: Cache, name: string, data: FileData) returns (k: nat)
    requires Consistent(c) && data.fileSize <= c.max
    ensures var room := Room(c, data.fileSize);
            var r := Add(c, name, data);
            if name in room.files then r == room
            else
              && k <= |room.order| && r.order == room.order[..k] + [SizeEntry(data.fileSize, name)] + room.order[k..]
              && (forall i :: 0 <= i < |room.order| ==> (i < k <==> room.order[i].size >= data.fileSize))
              && r.files == room.files[name := data] && r.curr == room.curr + data.fileSize && r.max == c.max
  {
    RoomSuffices(c, data.fileSize);
    k := InsertPlace(Room(c, data.fileSize).order, SizeEntry(data.fileSize, name));
  }

  // ---------- What an add costs the other files ----------

  /** Adding the file drops another one. */
  ghost predicate CostsAnother(c: Cache, name: string, data: FileData) {
    exists other :: other in c.files && other != name && other !in Add(c, name, data).files
  }

  /**
   An add drops another file exactly if the room is short and the first file
   of the list is another one, or is the old copy of this one but too small.
   */
  lemma AddCostsAnotherExactly(c: Cache, name: string, data: FileData)
    requires Consistent(c) && data.fileSize <= c.max
    ensures var short := data.fileSize - (c.max - c.curr);
            CostsAnother(c, name, data)
            <==> short > 0 && (c.order[0].name != name || c.order[0].size < short)
  {
    var short := data.fileSize - (c.max - c.curr);
    if short > 0 {
      var q, k := c.order, EvictCount(c.order, short);
      RoomSuffices(c, data.fileSize);
      EvictRemovesPrefix(c, short);
      AgreeGivesPairs(c.files, q);
      if q[0].name != name {
        assert q[0] in q[..k];
        assert q[0].name !in Add(c, name, data).files;
      } else if q[0].size < short {
        assert EvictCount(q[1..], short - q[0].size) > 0;
        assert q[1] in q[..k];
        assert q[1].name !in Add(c, name, data).files;
      } else {
        assert q[..k] == [q[0]];
        assert NamesOf([q[0]]) == {name};
      }
    }
  }

  /**
   A file that is cached already is added again behind every hit. This drops
   another file exactly if the cache has less room than the file needs and the
   file is not the first of the list; with enough room nothing changes.
   */
  lemma AddAgainCostsAnotherExactly(c: Cache, name: string, data: FileData)
    requires Consistent(c) && name in c.files && c.files[name].fileSize == data.fileSize
    ensures CostsAnother(c, name, data) <==> data.fileSize > c.max - c.curr && c.order[0].name != name
    ensures data.fileSize <= c.max - c.curr ==> Add(c, name, data) == c
  {
    AgreeGivesPairs(c.files, c.order);
    var i :| 0 <= i < |c.order| && c.order[i].name == name;
    SumSplit(c.order, i);
    AddCostsAnotherExactly(c, name, data);
  }

  /** Two files fill a cache of 10 bytes up to 1; a hit on the smaller one drops the bigger one. */
  lemma HitDropsAnother(small: FileData, big: FileData)
    requires small == FileData("s", Some("abc"), 3) && big == FileData("b", Some("abcdef"), 6)
    ensures var c := Add(Add(Empty(10), "b", big), "s", small);
            && Find(c, "s") == Some(small) && Find(c, "b") == Some(big)
            && Find(Add(c, "s", small), "b") == None
  {
    var one := Add(Empty(10), "b", big);
    var c := Add(one, "s", small);
    assert one.order == [SizeEntry(6, "b")];
    assert one.order[1..] == [];
    assert InsertDescending([], SizeEntry(3, "s")) == [SizeEntry(3, "s")];
    assert c.order == [SizeEntry(6, "b"), SizeEntry(3, "s")];
    assert Evict(c, 2) == DropFront(c);
  }

  /** Room that is too small need not show: the first file of the list makes room for itself. */
  lemma FirstFileComesBack(data: FileData)
    requires data == FileData("f", Some("abcdef"), 6)
    ensures var c := Add(Empty(10), "f", data);
            data.fileSize > c.max - c.curr && Add(c, "f", data) == c
  {
    var c := Add(Empty(10), "f", data);
    assert c.order == [SizeEntry(6, "f")];
    assert Evict(c, 2) == DropFront(c);
    assert DropFront(c).files == map[];
  }

  // ---------- Optimality ----------

  /**
   Eviction is optimal: it removes the fewest files that free the demanded
   bytes. The bytes freed beyond the demand are fewer than the last evicted
   file has, and any selection of fewer cached files frees too little.
   */
  lemma EvictionOptimal(c: Cache, demand: int, names: set<string>)
    requires Consistent(c) && 0 < demand <= c.curr
    ensures var k := EvictCount(c.order, demand);
            && 0 < k <= |c.order|
            && |c.files| - |Evict(c, demand).files| == k
            && c.curr - Evict(c, demand).curr >= demand
            && c.curr - Evict(c, demand).curr - demand < c.order[k - 1].size
            && (|names| < k ==> SizeOf(c.order, names) < demand)
  {
    var k := EvictCount(c.order, demand);
    EvictCountShortest(c.order, demand);
    EvictRemovesPrefix(c, demand);
    assert c.order[..k] == c.order[..k - 1] + [c.order[k - 1]];
    SumSnoc(c.order[..k - 1], c.order[k - 1]);
    AgreeGivesPairs(c.files, c.order);
    EvictConsistent(c, demand);
    AgreeGivesPairs(Evict(c, demand).files, Evict(c, demand).order);
    if |names| < k {
      FirstAreBiggest(c.order, names);
      CountAtMost(c.order, names);
      SumMonotone(c.order, CountOf(c.order, names), |names|);
    }
  }
}

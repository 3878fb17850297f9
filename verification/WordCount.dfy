/** The word counter: the scanning loop over the text, and the hash table of linked entries that it fills. */
module WordCounts {
  import opened Sequences
  import opened Words

  const NUM_BUCKETS := 200000

  // ---------- The table as a value ----------

  /** An entry: a word and how often it occurred. */
  datatype Tally = Tally(word: string, occurrence: nat)

  /** add_to_list: count one more occurrence, in a new entry at the end if there is none yet. */
  function Bump(list: seq<Tally>, word: string): seq<Tally> {
    if list == [] then [Tally(word, 1)]
    else if list[0].word == word then [Tally(word, list[0].occurrence + 1)] + list[1..]
    else [list[0]] + Bump(list[1..], word)
  }

  type Table = seq<seq<Tally>>

  /** The table after `words` were added in order, given the bucket of each word. */
  ghost function TableOf(hash: string -> nat, words: seq<string>): (t: Table)
    requires forall w :: hash(w) < NUM_BUCKETS
    ensures |t| == NUM_BUCKETS
  {
    if words == [] then seq(NUM_BUCKETS, _ => [])
    else
      var t, w := TableOf(hash, words[..|words| - 1]), words[|words| - 1];
      t[hash(w) := Bump(t[hash(w)], w)]
  }

  lemma TableOfMore(hash: string -> nat, words: seq<string>, w: string)
    requires forall x :: hash(x) < NUM_BUCKETS
    ensures var t := TableOf(hash, words); TableOf(hash, words + [w]) == t[hash(w) := Bump(t[hash(w)], w)]
  {
    assert (words + [w])[..|words|] == words;
  }

  /** Where an entry is found or appended. */
  lemma {:induction false} BumpAt(list: seq<Tally>, word: string, at: nat)
    requires at <= |list| && (forall i :: 0 <= i < at ==> list[i].word != word)
    requires at < |list| ==> list[at].word == word
    ensures Bump(list, word) ==
              if at < |list| then list[at := Tally(word, list[at].occurrence + 1)] else list + [Tally(word, 1)]
  {
    if list == [] {
    } else if at == 0 {
      assert list[0 := Tally(word, list[0].occurrence + 1)] == [Tally(word, list[0].occurrence + 1)] + list[1..];
    } else {
      var rest := list[1..];
      BumpAt(rest, word, at - 1);
      if at < |list| {
        assert list[at := Tally(word, list[at].occurrence + 1)] ==
          [list[0]] + rest[at - 1 := Tally(word, list[at].occurrence + 1)];
      } else {
        assert list + [Tally(word, 1)] == [list[0]] + (rest + [Tally(word, 1)]);
      }
    }
  }

  predicate Lists(list: seq<Tally>, word: string) {
    exists i :: 0 <= i < |list| && list[i].word == word
  }

  predicate UniqueWords(list: seq<Tally>) {
    forall i, j :: 0 <= i < j < |list| ==> list[i].word != list[j].word
  }

  function Occurrences(words: seq<string>, word: string): nat {
    if words == [] then 0
    else (if words[|words| - 1] == word then 1 else 0) + Occurrences(words[..|words| - 1], word)
  }

  /** Bucket `b` has one entry for each of the words that hash to it, with the number of its occurrences. */
  ghost predicate Tallied(hash: string -> nat, b: nat, list: seq<Tally>, words: seq<string>) {
    && UniqueWords(list)
    && (forall i :: 0 <= i < |list| ==>
          hash(list[i].word) == b && list[i].occurrence == Occurrences(words, list[i].word) > 0)
    && (forall w :: hash(w) == b && Occurrences(words, w) > 0 ==> Lists(list, w))
  }

  lemma OccurrencesMore(words: seq<string>, w: string)
    ensures forall x :: Occurrences(words + [w], x) == Occurrences(words, x) + if x == w then 1 else 0
  {
    assert (words + [w])[..|words|] == words;
  }

  lemma OtherBucketTallied(hash: string -> nat, b: nat, list: seq<Tally>, words: seq<string>, w: string)
    requires Tallied(hash, b, list, words) && hash(w) != b
    ensures Tallied(hash, b, list, words + [w])
  {
    OccurrencesMore(words, w);
  }

  lemma FoundTallied(hash: string -> nat, b: nat, list: seq<Tally>, words: seq<string>, w: string, at: nat)
    requires Tallied(hash, b, list, words) && at < |list| && list[at].word == w
    ensures Tallied(hash, b, list[at := Tally(w, list[at].occurrence + 1)], words + [w])
  {
    var list' := list[at := Tally(w, list[at].occurrence + 1)];
    OccurrencesMore(words, w);
    forall x | hash(x) == b && Occurrences(words + [w], x) > 0 ensures Lists(list', x) {
      assert Lists(list, x);
      var i :| 0 <= i < |list| && list[i].word == x;
      assert list'[i].word == x;
    }
  }

  lemma AppendedTallied(hash: string -> nat, b: nat, list: seq<Tally>, words: seq<string>, w: string)
    requires Tallied(hash, b, list, words) && !Lists(list, w) && hash(w) == b
    ensures Tallied(hash, b, list + [Tally(w, 1)], words + [w])
  {
    var list' := list + [Tally(w, 1)];
    OccurrencesMore(words, w);
    assert list'[|list|].word == w;
    forall x | hash(x) == b && Occurrences(words + [w], x) > 0 ensures Lists(list', x) {
      if x != w {
        assert Lists(list, x);
        var i :| 0 <= i < |list| && list[i].word == x;
        assert list'[i].word == x;
      }
    }
  }

  lemma BumpTallied(hash: string -> nat, b: nat, list: seq<Tally>, words: seq<string>, w: string)
    requires Tallied(hash, b, list, words) && hash(w) == b
    ensures Tallied(hash, b, Bump(list, w), words + [w])
  {
    if Lists(list, w) {
      var at :| 0 <= at < |list| && list[at].word == w;
      BumpAt(list, w, at);
      FoundTallied(hash, b, list, words, w, at);
    } else {
      BumpAt(list, w, |list|);
      AppendedTallied(hash, b, list, words, w);
    }
  }

  /** The table counts: every bucket of it does. */
  lemma {:induction false} TableCounts(hash: string -> nat, words: seq<string>, b: nat)
    requires (forall w :: hash(w) < NUM_BUCKETS) && b < NUM_BUCKETS
    ensures Tallied(hash, b, TableOf(hash, words)[b], words)
  {
    if words != [] {
      var front, w := words[..|words| - 1], words[|words| - 1];
      assert words == front + [w];
      TableCounts(hash, front, b);
      var list := TableOf(hash, front)[b];
      if hash(w) == b {
        BumpTallied(hash, b, list, front, w);
      } else {
        OtherBucketTallied(hash, b, list, front, w);
      }
    }
  }

  // ---------- The table on the heap ----------

  class WordEntry {
    const word: string
    ghost const list: WordList
    var occurrence: nat
    var next: WordEntry?

    constructor (word: string, ghost list: WordList)
      ensures this.word == word && this.list == list && occurrence == 0 && next == null
    {
      this.word, this.list := word, list;
      occurrence, next := 0, null;
    }
  }

  /** One bucket: a linked list. */
  class WordList {
    var head: WordEntry?
    ghost const bucket: nat
    ghost var nodes: seq<WordEntry>
    ghost var tallies: seq<Tally>

    ghost predicate Valid()
      reads this, nodes
    {
      && |nodes| == |tallies|
      && head == NodeAt(0)
      && (forall i {:trigger nodes[i].next} :: 0 <= i < |nodes| ==> nodes[i].next == NodeAt(i + 1))
      && (forall i :: 0 <= i < |nodes| ==> nodes[i].list == this)
      && (forall i :: 0 <= i < |nodes| ==> tallies[i] == Tally(nodes[i].word, nodes[i].occurrence))
    }

    ghost function NodeAt(i: nat): WordEntry?
      reads this
    {
      if i < |nodes| then nodes[i] else null
    }

    constructor (ghost bucket: nat)
      ensures Valid() && nodes == [] && this.bucket == bucket && tallies == []
    {
      this.bucket := bucket;
      head, nodes, tallies := null, [], [];
    }

    lemma OnceIn(at: nat)
      requires Valid() && at < |nodes|
      ensures forall i :: 0 <= i < |nodes| && i != at ==> nodes[i] != nodes[at]
    {
      var next := seq(|nodes|, k requires 0 <= k < |nodes| reads this, nodes => nodes[k].next);
      ChainOnce(nodes, next, at);
    }

    /** The search loop of add_to_list. */
    method Search(word: string) returns (last: WordEntry?, curr: WordEntry?, ghost at: nat)
      requires Valid()
      ensures at <= |nodes| && curr == NodeAt(at) && (curr != null ==> curr.word == word)
      ensures (at == 0 ==> last == null) && (at > 0 ==> last == NodeAt(at - 1))
      ensures forall i :: 0 <= i < at ==> tallies[i].word != word
    {
      last, curr, at := null, head, 0;
      while curr != null
        invariant at <= |nodes| && curr == NodeAt(at)
        invariant (at == 0 ==> last == null) && (at > 0 ==> last == NodeAt(at - 1))
        invariant forall i :: 0 <= i < at ==> tallies[i].word != word
        decreases |nodes| - at
      {
        if curr.word == word {
          return;
        }
        last := curr;
        curr := curr.next;
        at := at + 1;
      }
    }

    /** The end of add_to_list: a new entry behind the last one. */
    method LinkLast(last: WordEntry?, entry: WordEntry)
      requires Valid() && entry !in nodes && entry.next == null && entry.list == this
      requires last == if nodes == [] then null else nodes[|nodes| - 1]
      modifies this, last, entry
      ensures Valid() && nodes == old(nodes) + [entry]
      ensures tallies == old(tallies) + [Tally(entry.word, old(entry.occurrence))]
    {
      if last == null {
        head := entry;
      } else {
        OnceIn(|nodes| - 1);
        last.next := entry;
      }
      nodes, tallies := nodes + [entry], tallies + [Tally(entry.word, entry.occurrence)];
    }

    /** add_to_list; a new entry's counter is taken to be zero before it is incremented */
    method Add(word: string)
      requires Valid()
      modifies this, nodes
      ensures Valid() && tallies == Bump(old(tallies), word)
      ensures forall n :: n in nodes ==> n in old(nodes) || fresh(n)
    {
      var last, curr, at := Search(word);
      BumpAt(tallies, word, at);
      if curr != null {
        OnceIn(at);
        curr.occurrence := curr.occurrence + 1;
        tallies := tallies[at := Tally(word, curr.occurrence)];
      } else {
        var entry := new WordEntry(word, this);
        entry.occurrence := entry.occurrence + 1;
        LinkLast(last, entry);
      }
    }
  }

  class WordCount {
    const hash: string -> nat
    const lists: seq<WordList>
    ghost var entries: set<WordEntry>
    ghost var table: Table

    ghost predicate Valid()
      reads this, lists, entries
    {
      && |lists| == |table| == NUM_BUCKETS
      && (forall b :: 0 <= b < |lists| ==> lists[b].bucket == b)
      && (forall b, n :: 0 <= b < |lists| && n in lists[b].nodes ==> n in entries)
      && (forall b :: 0 <= b < |lists| ==> lists[b].Valid() && lists[b].tallies == table[b])
    }

    /** The empty table of wc_init; `hash` stands for hash_fn. */
    constructor (hash: string -> nat)
      requires forall w :: hash(w) < NUM_BUCKETS
      ensures Valid() && this.hash == hash && table == TableOf(hash, []) && entries == {} && fresh(lists)
    {
      var empty: seq<WordList> := [];
      for b := 0 to NUM_BUCKETS
        invariant |empty| == b && fresh(empty)
        invariant forall k :: 0 <= k < b ==>
                    empty[k].bucket == k && empty[k].nodes == [] && empty[k].tallies == [] && empty[k].Valid()
      {
        var list := new WordList(b);
        empty := empty + [list];
      }
      this.hash, lists, entries, table := hash, empty, {}, TableOf(hash, []);
    }

    /** add_to_hash_table */
    method AddToTable(word: string)
      requires Valid() && hash(word) < NUM_BUCKETS
      modifies this`entries, this`table, lists, entries
      ensures Valid() && table == old(table)[hash(word) := Bump(old(table)[hash(word)], word)]
      ensures fresh(entries - old(entries))
    {
      var list := lists[hash(word)];
      list.Add(word);
      entries := entries + set n | n in list.nodes;
      table := table[hash(word) := list.tallies];
    }
  }

  // ---------- The scanning loop ----------

  /**
   The state of the loop before position `i`: the words so far, where the next
   one starts, and whether the last position counted as a space.
   */
  ghost predicate Scanned(text: string, i: nat, start: int, lastIsSpace: bool, raw: seq<string>) {
    && i <= |text|
    && if i == 0 then start == 0 && !lastIsSpace && raw == []
       else if i == |text| then raw == Leading(text) + Runs(text[..i - 1])
       else if lastIsSpace then start == i - 1 && IsSpace(text[i - 1]) && raw == Leading(text) + Runs(text[..i])
       else
         && 0 <= start < i && NoSpace(text[start..i]) && (start == 0 || IsSpace(text[start - 1]))
         && raw == Leading(text) + Runs(text[..start])
  }

  /** At a space, or at the last position, a pending word is complete. */
  lemma ScanWord(text: string, i: nat, start: int, raw: seq<string>)
    requires i < |text| && Scanned(text, i, start, false, raw) && (IsSpace(text[i]) || i == |text| - 1)
    ensures 0 <= start <= i && Scanned(text, i + 1, i, true, raw + [text[start..i]])
  {
    var word := text[start..i];
    if i == 0 {
      assert text[..0] == [] && Runs([]) == [];
    } else {
      RunsBehind(text[..start], word);
      assert text[..i] == text[..start] + word;
      assert raw + [word] == Leading(text) + Runs(text[..i]);
    }
    RunsSpaceAt(text, i);
  }

  lemma RunsSpaceAt(text: string, i: nat)
    requires i < |text|
    ensures IsSpace(text[i]) ==> Runs(text[..i + 1]) == Runs(text[..i])
  {
    if IsSpace(text[i]) {
      RunsSpace(text[..i], text[i]);
      assert text[..i + 1] == text[..i] + [text[i]];
    }
  }

  /** Behind a space, a further space or the last position completes nothing. */
  lemma ScanSpace(text: string, i: nat, start: int, raw: seq<string>)
    requires i < |text| && Scanned(text, i, start, true, raw) && (IsSpace(text[i]) || i == |text| - 1)
    ensures Scanned(text, i + 1, start + 1, true, raw)
  {
    RunsSpaceAt(text, i);
  }

  lemma ScanOther(text: string, i: nat, start: int, lastIsSpace: bool, raw: seq<string>)
    requires i < |text| - 1 && Scanned(text, i, start, lastIsSpace, raw) && !IsSpace(text[i])
    ensures Scanned(text, i + 1, if lastIsSpace then start + 1 else start, false, raw)
  {
    if i == 0 {
      assert Leading(text) + Runs(text[..0]) == [];
    } else if lastIsSpace {
    } else {
      assert forall k :: start <= k < i ==> text[k] == text[start..i][k - start];
    }
  }

  lemma ScanStart(text: string)
    ensures Scanned(text, 0, 0, false, []) && CStrings([]) == []
  {
  }

  lemma ScanEnd(text: string, start: int, lastIsSpace: bool, raw: seq<string>)
    requires Scanned(text, |text|, start, lastIsSpace, raw)
    ensures CStrings(raw) == Passed(text)
  {
  }

  /** wc_init: the table counts how often each word was passed on. */
  method CountWords(hash: string -> nat, text: string) returns (wc: WordCount)
    requires forall w :: hash(w) < NUM_BUCKETS
    ensures fresh(wc) && wc.Valid() && wc.table == TableOf(hash, Passed(text))
  {
    hide *;
    wc := new WordCount(hash);
    ScanStart(text);
    var start, lastIsSpace := 0, false;
    ghost var raw: seq<string> := [];
    for i := 0 to |text|
      invariant fresh(wc) && fresh(wc.lists) && fresh(wc.entries) && wc.Valid() && wc.hash == hash
      invariant Scanned(text, i, start, lastIsSpace, raw)
      invariant wc.table == TableOf(hash, CStrings(raw))
    {
      if IsSpace(text[i]) || i == |text| - 1 {
        if !lastIsSpace {
          ScanWord(text, i, start, raw);
          lastIsSpace := true;
          CStringsMore(raw, text[start..i]);
          TableOfMore(hash, CStrings(raw), CString(text[start..i]));
          raw := raw + [text[start..i]];
          wc.AddToTable(CString(text[start..i]));
          start := i;
        } else {
          ScanSpace(text, i, start, raw);
          start := start + 1;
        }
      } else {
        ScanOther(text, i, start, lastIsSpace, raw);
        if lastIsSpace {
          start := start + 1;
          lastIsSpace := false;
        }
      }
    }
    ScanEnd(text, start, lastIsSpace, raw);
  }

  /**
   For a text with proper ends the table that is built has exactly one entry
   for each word of the text, in the bucket of the word, with the number of
   the word's occurrences.
   */
  lemma CountsOccurrences(hash: string -> nat, text: string, b: nat)
    requires (forall w :: hash(w) < NUM_BUCKETS) && b < NUM_BUCKETS && WellEnded(text)
    ensures Tallied(hash, b, TableOf(hash, Passed(text))[b], Runs(text))
  {
    PassedExactly(text);
    TableCounts(hash, Runs(text), b);
  }
}

/** Vocabulary shared by the modules: options and a few facts about finite sequences. */
module Sequences {

  datatype Option<+T> = None | Some(value: T)

  ghost predicate Distinct<T>(s: seq<T>) {
    forall i, j :: 0 <= i < j < |s| ==> s[i] != s[j]
  }

  /** `s` without the first occurrence of `x`. */
  function RemoveFirst<T(==)>(s: seq<T>, x: T): seq<T> {
    if s == [] then []
    else if s[0] == x then s[1..]
    else [s[0]] + RemoveFirst(s[1..], x)
  }

  /** Removing the first occurrence cuts out exactly one position. */
  lemma {:induction false} RemoveFirstCuts<T>(s: seq<T>, x: T, i: nat)
    requires i < |s| && s[i] == x && x !in s[..i]
    ensures RemoveFirst(s, x) == s[..i] + s[i + 1..]
  {
    if i == 0 {
      assert s[..0] + s[1..] == s[1..];
    } else {
      assert s[0] == s[..i][0];
      assert s[1..][..i - 1] == s[..i][1..];
      RemoveFirstCuts(s[1..], x, i - 1);
      assert s[..i] + s[i + 1..] == [s[0]] + (s[1..][..i - 1] + s[1..][i..]);
    }
  }

  /** Removing something that is not there changes nothing. */
  lemma {:induction false} RemoveFirstAbsent<T>(s: seq<T>, x: T)
    requires x !in s
    ensures RemoveFirst(s, x) == s
  {
    if s != [] {
      assert s[0] in s;
      RemoveFirstAbsent(s[1..], x);
      assert s == [s[0]] + s[1..];
    }
  }

  /** What stands behind an occurrence stays. */
  lemma {:induction false} RemoveFirstAppend<T>(s: seq<T>, x: T, last: seq<T>)
    requires x in s
    ensures RemoveFirst(s + last, x) == RemoveFirst(s, x) + last
  {
    if s[0] == x {
      assert (s + last)[1..] == s[1..] + last;
    } else {
      RemoveFirstAppend(s[1..], x, last);
      assert (s + last)[1..] == s[1..] + last;
    }
  }

  /** A chain of links that ends never visits a node twice. */
  lemma {:induction false} ChainApart(nodes: seq<object>, next: seq<object?>, i: nat, j: nat)
    requires |next| == |nodes| && i < j < |nodes|
    requires forall k :: 0 <= k < |nodes| ==> next[k] == if k + 1 < |nodes| then nodes[k + 1] else null
    requires forall k, l :: 0 <= k < |nodes| && 0 <= l < |nodes| && nodes[k] == nodes[l] ==> next[k] == next[l]
    ensures nodes[i] != nodes[j]
    decreases |nodes| - j
  {
    assert next[i] == nodes[i + 1];
    if j + 1 < |nodes| {
      ChainApart(nodes, next, i + 1, j + 1);
    } else {
      assert next[j] == null;
    }
  }

  lemma ChainOnce(nodes: seq<object>, next: seq<object?>, at: nat)
    requires |next| == |nodes| && at < |nodes|
    requires forall k :: 0 <= k < |nodes| ==> next[k] == if k + 1 < |nodes| then nodes[k + 1] else null
    requires forall k, l :: 0 <= k < |nodes| && 0 <= l < |nodes| && nodes[k] == nodes[l] ==> next[k] == next[l]
    ensures forall i :: 0 <= i < |nodes| && i != at ==> nodes[i] != nodes[at]
  {
    forall i | 0 <= i < |nodes| && i != at ensures nodes[i] != nodes[at] {
      if i < at {
        ChainApart(nodes, next, i, at);
      } else {
        ChainApart(nodes, next, at, i);
      }
    }
  }
}

/** Which words the word counter takes from a text, and which it should take. */
module Words {

  /** isspace in the C locale */
  predicate IsSpace(c: char) {
    c in {' ', '\t', '\n', '\r', 0x0B as char, 0x0C as char}
  }

  // ---------- The words of a text ----------

  /** How many characters before the first space. */
  function RunLength(s: string): (n: nat)
    ensures n <= |s| && (n < |s| ==> IsSpace(s[n])) && forall i :: 0 <= i < n ==> !IsSpace(s[i])
  {
    if s == [] || IsSpace(s[0]) then 0 else 1 + RunLength(s[1..])
  }

  /** The maximal runs of characters that are not spaces, in order. */
  function Runs(s: string): seq<string> {
    if s == [] then []
    else if IsSpace(s[0]) then Runs(s[1..])
    else [s[..RunLength(s)]] + Runs(s[RunLength(s)..])
  }

  predicate NoSpace(s: string) {
    forall i :: 0 <= i < |s| ==> !IsSpace(s[i])
  }

  lemma RunLengthIs(s: string, n: nat)
    requires n <= |s| && (n < |s| ==> IsSpace(s[n])) && NoSpace(s[..n])
    ensures RunLength(s) == n
  {
    assert forall i :: 0 <= i < n ==> s[i] == s[..n][i];
  }

  lemma RunsOfRun(s: string)
    requires NoSpace(s) && s != []
    ensures Runs(s) == [s]
  {
    RunLengthIs(s, |s|);
    assert s[..|s|] == s && s[|s|..] == [];
  }

  /** A run behind a space, or at the start, is a word of its own. */
  lemma {:induction false} RunsBehind(s: string, run: string)
    requires s == [] || IsSpace(s[|s| - 1])
    requires NoSpace(run) && run != []
    ensures Runs(s + run) == Runs(s) + [run]
    decreases |s|
  {
    if s == [] {
      assert s + run == run;
      RunsOfRun(run);
    } else if IsSpace(s[0]) {
      assert (s + run)[1..] == s[1..] + run;
      RunsBehind(s[1..], run);
    } else {
      var n := RunLength(s);
      assert n < |s|;
      assert (s + run)[..n] == s[..n];
      RunLengthIs(s + run, n);
      assert (s + run)[n..] == s[n..] + run;
      RunsBehind(s[n..], run);
    }
  }

  /** A space at the end makes no word. */
  lemma {:induction false} RunsSpace(s: string, c: char)
    requires IsSpace(c)
    ensures Runs(s + [c]) == Runs(s)
    decreases |s|
  {
    if s == [] {
      assert s + [c] == [c] && [c][1..] == [];
    } else if IsSpace(s[0]) {
      assert (s + [c])[1..] == s[1..] + [c];
      RunsSpace(s[1..], c);
    } else {
      var n := RunLength(s);
      assert (s + [c])[..n] == s[..n];
      RunLengthIs(s + [c], n);
      assert (s + [c])[n..] == s[n..] + [c];
      RunsSpace(s[n..], c);
    }
  }

  // ---------- The words that wc_init passes on ----------

  /** A C string ends before its first NUL. */
  function CString(s: string): string {
    if s == [] || s[0] == '\0' then [] else [s[0]] + CString(s[1..])
  }

  function CStrings(words: seq<string>): (r: seq<string>)
    ensures |r| == |words| && forall i :: 0 <= i < |r| ==> r[i] == CString(words[i])
  {
    if words == [] then [] else [CString(words[0])] + CStrings(words[1..])
  }

  /** Before the first word: an empty one, if the text starts with a space or is a single character. */
  function Leading(text: string): seq<string> {
    if text != [] && (|text| == 1 || IsSpace(text[0])) then [""] else []
  }

  /** The loop takes the last character for a space and never looks at it. */
  function Passed(text: string): seq<string> {
    if text == [] then [] else CStrings(Leading(text) + Runs(text[..|text| - 1]))
  }

  lemma {:induction false} CStringsMore(words: seq<string>, word: string)
    ensures CStrings(words + [word]) == CStrings(words) + [CString(word)]
  {
    if words == [] {
      assert words + [word] == [word];
    } else {
      CStringsMore(words[1..], word);
      assert (words + [word])[1..] == words[1..] + [word];
    }
  }

  // ---------- When they are the words of the text ----------

  function Total(words: seq<string>): nat {
    if words == [] then 0 else |words[0]| + Total(words[1..])
  }

  function NonSpaces(s: string): nat {
    if s == [] then 0 else (if IsSpace(s[0]) then 0 else 1) + NonSpaces(s[1..])
  }

  lemma {:induction false} NonSpacesSplit(s: string, n: nat)
    requires n <= |s|
    ensures NonSpaces(s) == NonSpaces(s[..n]) + NonSpaces(s[n..])
  {
    if n > 0 {
      NonSpacesSplit(s[1..], n - 1);
      assert s[..n][1..] == s[1..][..n - 1] && s[1..][n - 1..] == s[n..];
    } else {
      assert s[n..] == s;
    }
  }

  lemma {:induction false} NonSpacesOfRun(s: string)
    requires NoSpace(s)
    ensures NonSpaces(s) == |s|
  {
    if s != [] {
      NonSpacesOfRun(s[1..]);
    }
  }

  /** The runs have all characters that are not spaces, and no run is empty. */
  lemma {:induction false} RunsHaveAll(s: string)
    ensures Total(Runs(s)) == NonSpaces(s) && "" !in Runs(s)
    decreases |s|
  {
    if s == [] {
    } else if IsSpace(s[0]) {
      RunsHaveAll(s[1..]);
    } else {
      var n := RunLength(s);
      RunsHaveAll(s[n..]);
      NonSpacesSplit(s, n);
      NonSpacesOfRun(s[..n]);
      assert Runs(s)[1..] == Runs(s[n..]);
    }
  }

  lemma {:induction false} CStringShort(s: string)
    ensures |CString(s)| <= |s| && '\0' !in CString(s)
    ensures CString(s) == s <==> '\0' !in s
  {
    if s == [] {
    } else if s[0] == '\0' {
      assert '\0' in s;
    } else {
      CStringShort(s[1..]);
      assert s == [s[0]] + s[1..];
    }
  }

  lemma {:induction false} CStringsShort(words: seq<string>)
    ensures Total(CStrings(words)) <= Total(words)
    ensures forall w :: w in CStrings(words) ==> '\0' !in w
    ensures (forall w :: w in words ==> '\0' !in w) ==> CStrings(words) == words
  {
    if words != [] {
      CStringShort(words[0]);
      CStringsShort(words[1..]);
      assert words == [words[0]] + words[1..];
    }
  }

  /** The characters of the runs are those of the text. */
  lemma {:induction false} RunsFrom(s: string, c: char)
    ensures c in s && !IsSpace(c) <==> exists w :: w in Runs(s) && c in w
    decreases |s|
  {
    if s == [] {
    } else if IsSpace(s[0]) {
      RunsFrom(s[1..], c);
      assert s == [s[0]] + s[1..];
    } else {
      var n := RunLength(s);
      RunsFrom(s[n..], c);
      assert s == s[..n] + s[n..];
      assert Runs(s) == [s[..n]] + Runs(s[n..]);
      if c in s[..n] {
        assert s[..n] in Runs(s);
      }
      if exists w :: w in Runs(s[n..]) && c in w {
        var w :| w in Runs(s[n..]) && c in w;
        assert w in Runs(s);
      }
    }
  }

  predicate WellEnded(text: string) {
    text == [] || (!IsSpace(text[0]) && IsSpace(text[|text| - 1]) && '\0' !in text)
  }

  lemma WellEndedPasses(text: string)
    requires WellEnded(text)
    ensures Passed(text) == Runs(text)
  {
    if text != [] {
      var body := text[..|text| - 1];
      assert text == body + [text[|text| - 1]];
      RunsSpace(body, text[|text| - 1]);
      CStringsShort(Runs(text));
      RunsFrom(text, '\0');
      assert [] + Runs(body) == Runs(body);
    }
  }

  lemma EmptyWordShows(text: string)
    requires Leading(text) != []
    ensures "" in Passed(text)
  {
    assert (Leading(text) + Runs(text[..|text| - 1]))[0] == "";
    assert Passed(text)[0] == "";
  }

  lemma PassedHasNoNul(text: string)
    ensures forall w :: w in Passed(text) ==> '\0' !in w
  {
    if text != [] {
      CStringsShort(Leading(text) + Runs(text[..|text| - 1]));
    }
  }

  /** The last character is missing, if it is not a space. */
  lemma PassedTotal(text: string)
    requires text != [] && Leading(text) == []
    ensures Total(Passed(text)) <= NonSpaces(text) - if IsSpace(text[|text| - 1]) then 0 else 1
  {
    var body := text[..|text| - 1];
    assert [] + Runs(body) == Runs(body);
    CStringsShort(Runs(body));
    RunsHaveAll(body);
    NonSpacesSplit(text, |text| - 1);
    assert text[|text| - 1..] == [text[|text| - 1]];
  }

  lemma PassesWellEnded(text: string)
    requires text != [] && Passed(text) == Runs(text)
    ensures WellEnded(text)
  {
    RunsHaveAll(text);
    RunsFrom(text, '\0');
    PassedHasNoNul(text);
    assert Leading(text) == [] by {
      if Leading(text) != [] {
        EmptyWordShows(text);
      }
    }
    PassedTotal(text);
  }

  /**
   The word counter counts the words of the text exactly if the text is empty,
   or starts with a word, ends with a space and has no NUL.
   */
  lemma PassedExactly(text: string)
    ensures Passed(text) == Runs(text) <==> WellEnded(text)
  {
    if WellEnded(text) {
      WellEndedPasses(text);
    } else if Passed(text) == Runs(text) {
      PassesWellEnded(text);
    }
  }
}

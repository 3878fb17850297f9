/**
 The buffered line reader: over a descriptor that hands out its bytes in
 arbitrary pieces, lines come out as if read from the plain stream.
 */
module RioReaders {

  const RIO_BUFSIZE := 8192

  // ---------- Lines of a plain stream ----------

  /** What rio_readlineb is to deliver: up to a newline, to `maxlen` bytes or to the end. */
  function NextLine(s: string, maxlen: nat): (line: string)
    ensures |line| <= |s| && |line| <= maxlen
  {
    if s == [] || maxlen == 0 then []
    else if s[0] == '\n' then "\n"
    else [s[0]] + NextLine(s[1..], maxlen - 1)
  }

  /** The first `n` bytes are a line: there is no newline before the last one, and a reason to stop behind it. */
  ghost predicate IsLine(s: string, maxlen: nat, n: nat) {
    && n <= |s| && n <= maxlen
    && (forall i :: 0 <= i < n - 1 ==> s[i] != '\n')
    && (n == maxlen || n == |s| || (n > 0 && s[n - 1] == '\n'))
  }

  lemma {:induction false} NextLineExactly(s: string, maxlen: nat, n: nat)
    ensures IsLine(s, maxlen, |NextLine(s, maxlen)|) && NextLine(s, maxlen) == s[..|NextLine(s, maxlen)|]
    ensures IsLine(s, maxlen, n) && (n > 0 || s == [] || maxlen == 0) ==> n == |NextLine(s, maxlen)|
  {
    if s == [] || maxlen == 0 || s[0] == '\n' {
    } else {
      var rest := NextLine(s[1..], maxlen - 1);
      NextLineExactly(s[1..], maxlen - 1, if n > 0 then n - 1 else 0);
      assert s[..|rest| + 1] == [s[0]] + s[1..][..|rest|];
      assert forall i :: 0 < i < |s| ==> s[i] == s[1..][i - 1];
    }
  }

  /** The stream cut into lines of at most `maxlen` bytes. */
  function SplitLines(s: string, maxlen: nat): (lines: seq<string>)
    requires maxlen > 0
  {
    if s == [] then []
    else
      var line := NextLine(s, maxlen);
      [line] + SplitLines(s[|line|..], maxlen)
  }

  function Concat(lines: seq<string>): string {
    if lines == [] then [] else lines[0] + Concat(lines[1..])
  }

  /** The lines make up the stream, and none is empty, too long, or has a newline before its end. */
  lemma {:induction false} LinesMakeUpStream(s: string, maxlen: nat)
    requires maxlen > 0
    ensures Concat(SplitLines(s, maxlen)) == s
    ensures forall i :: 0 <= i < |SplitLines(s, maxlen)| ==>
              var line := SplitLines(s, maxlen)[i];
              0 < |line| <= maxlen && forall k :: 0 <= k < |line| - 1 ==> line[k] != '\n'
  {
    if s == [] {
    } else {
      var line := NextLine(s, maxlen);
      NextLineExactly(s, maxlen, 0);
      LinesMakeUpStream(s[|line|..], maxlen);
      assert s == line + s[|line|..];
      var lines, rest := SplitLines(s, maxlen), SplitLines(s[|line|..], maxlen);
      assert lines == [line] + rest;
      assert forall i :: 0 < i < |lines| ==> lines[i] == rest[i - 1];
    }
  }

  lemma TakeByte(all: string, n: nat, c: char, rest: string)
    requires n <= |all| && all[n..] == [c] + rest
    ensures n < |all| && all[n] == c && rest == all[n + 1..] && all[..n + 1] == all[..n] + [c]
  {
    assert all[n..][0] == c && all[n..][1..] == rest;
  }

  lemma DropTaken(unread: string, rest: string, n: nat)
    requires n <= |unread|
    ensures (unread + rest)[..n] == unread[..n] && (unread + rest)[n..] == unread[n..] + rest
  {
  }

  ghost predicate SomeAsLong(lines: seq<string>, n: nat) {
    exists i :: 0 <= i < |lines| && |lines[i]| == n
  }

  lemma NoneAsLong(n: nat)
    ensures !SomeAsLong([], n)
  {
  }

  lemma OneMore(lines: seq<string>, line: string, n: nat)
    ensures SomeAsLong(lines + [line], n) <==> SomeAsLong(lines, n) || |line| == n
  {
    var more := lines + [line];
    if SomeAsLong(lines, n) {
      var i :| 0 <= i < |lines| && |lines[i]| == n;
      assert |more[i]| == n;
    } else if |line| == n {
      assert |more[|lines|]| == n;
    }
  }

  // ---------- The descriptor ----------

  /** How one call of read goes: some bytes, at least one if there are any; EINTR; or another error. */
  datatype Outcome = Give(atMost: nat) | Interrupted | Failed

  datatype ReadResult = Bytes(count: nat) | Eintr | Error

  function Min(a: int, b: int): int {
    if a <= b then a else b
  }

  class Descriptor {
    var rest: string            // the bytes that read has not handed out
    var script: seq<Outcome>    // how the next calls go; afterwards every call gives all it can

    constructor (stream: string, script: seq<Outcome>)
      ensures rest == stream && this.script == script
    {
      this.rest, this.script := stream, script;
    }

    /** read */
    method Read(buf: array<char>) returns (r: ReadResult)
      requires buf.Length > 0
      modifies this, buf
      ensures r.Bytes? ==> r.count <= buf.Length && r.count <= |old(rest)| && (r.count == 0 <==> old(rest) == [])
      ensures r.Bytes? ==> buf[..r.count] == old(rest)[..r.count] && rest == old(rest)[r.count..]
      ensures !r.Bytes? ==> rest == old(rest) && script != old(script)
      ensures r.Eintr? ==> old(script) != [] && old(script)[0] == Interrupted
      ensures r.Error? ==> old(script) != [] && old(script)[0] == Failed
      ensures script == if old(script) == [] then [] else old(script)[1..]
    {
      var outcome := Give(buf.Length);
      if script != [] {
        outcome := script[0];
        script := script[1..];
      }
      match outcome {
        case Interrupted => return Eintr;
        case Failed => return Error;
        case Give(atMost) =>
          var count := Min(if atMost == 0 then 1 else atMost, Min(buf.Length, |rest|));
          forall i | 0 <= i < count {
            buf[i] := rest[i];
          }
          assert buf[..count] == rest[..count];
          rest := rest[count..];
          return Bytes(count);
      }
    }
  }

  // ---------- The reader ----------

  class Rio {
    const fd: Descriptor
    const buf: array<char>
    var cnt: int
    var ptr: nat

    ghost predicate Valid()
      reads this
    {
      buf.Length == RIO_BUFSIZE && (cnt > 0 ==> ptr + cnt <= buf.Length)
    }

    /** The bytes that are still to come: the unread part of the buffer, then the rest of the stream. */
    ghost function Pending(): string
      reads this, fd, buf
      requires Valid()
    {
      (if cnt > 0 then buf[ptr..ptr + cnt] else []) + fd.rest
    }

    /** rio_init */
    constructor (fd: Descriptor)
      ensures Valid() && this.fd == fd && fresh(buf) && Pending() == fd.rest
    {
      this.fd := fd;
      buf := new char[RIO_BUFSIZE];
      cnt, ptr := 0, 0;
    }

    /** The refill loop of rio_readb: afterwards the buffer is not empty, unless the stream is at its end or fails. */
    method Refill() returns (status: int)
      requires Valid()
      modifies this, fd, buf
      ensures Valid() && Pending() == old(Pending()) && status in {-1, 0, 1}
      ensures status == 1 <==> cnt > 0
      ensures status == 0 ==> Pending() == []
      ensures status == -1 ==> Failed in old(fd.script)
      ensures Failed in fd.script ==> Failed in old(fd.script)
    {
      while cnt <= 0
        invariant Valid() && Pending() == old(Pending())
        invariant Failed in fd.script ==> Failed in old(fd.script)
        decreases |fd.script|, if cnt <= 0 then 1 else 0
      {
        var r := fd.Read(buf);
        match r {
          case Eintr => cnt := -1;
          case Error =>
            cnt := -1;
            return -1;
          case Bytes(count) =>
            cnt := count;
            if cnt == 0 {
              return 0;
            }
            ptr := 0;
        }
      }
      return 1;
    }

    /** rio_readb: the next at most `n` bytes, 0 at the end of the stream and -1 on an error */
    method ReadB(usrbuf: array<char>, n: nat) returns (count: int)
      requires Valid() && n <= usrbuf.Length && usrbuf != buf
      modifies this, fd, buf, usrbuf
      ensures Valid() && -1 <= count <= n
      ensures count >= 0 ==> count <= |old(Pending())| && Pending() == old(Pending())[count..]
      ensures count >= 0 ==> usrbuf[..count] == old(Pending())[..count]
      ensures 0 <= count < n ==> cnt <= 0
      ensures count == 0 && n > 0 ==> old(Pending()) == []
      ensures count == -1 ==> Pending() == old(Pending()) && Failed in old(fd.script)
      ensures Failed in fd.script ==> Failed in old(fd.script)
    {
      var status := Refill();
      if status <= 0 {
        return status;
      }
      ghost var before := Pending();
      count := Min(n, cnt);
      forall i | 0 <= i < count {
        usrbuf[i] := buf[ptr + i];
      }
      ghost var unread := buf[ptr..ptr + cnt];
      assert before == unread + fd.rest;
      DropTaken(unread, fd.rest, count);
      assert forall i :: 0 <= i < count ==> usrbuf[i] == unread[i];
      assert usrbuf[..count] == unread[..count] == before[..count];
      assert unread[count..] == buf[ptr + count..ptr + cnt];
      assert before[count..] == unread[count..] + fd.rest;
      ptr := ptr + count;
      cnt := cnt - count;
    }

    /** One byte, through rio_readb with a one-byte buffer. */
    method NextByte() returns (rc: int, c: char)
      requires Valid()
      modifies this, fd, buf
      ensures Valid() && rc in {-1, 0, 1}
      ensures rc == 1 ==> old(Pending()) == [c] + Pending()
      ensures rc == 0 ==> old(Pending()) == [] == Pending()
      ensures rc == -1 ==> Failed in old(fd.script)
      ensures Failed in fd.script ==> Failed in old(fd.script)
    {
      var one := new char[1];
      rc := ReadB(one, 1);
      c := one[0];
      assert rc == 1 ==> one[..1] == [c];
    }

    /** The loop of rio_readlineb: bytes until a newline, `maxlen` bytes or the end of the stream. */
    method FillLine(usrbuf: array<char>, maxlen: nat) returns (n: int)
      requires Valid() && maxlen <= usrbuf.Length && usrbuf != buf
      modifies this, fd, buf, usrbuf
      ensures Valid() && n >= -1
      ensures n >= 0 ==> IsLine(old(Pending()), maxlen, n) && (n == 0 ==> maxlen == 0 || old(Pending()) == [])
      ensures n >= 0 ==> usrbuf[..n] == old(Pending())[..n] && Pending() == old(Pending())[n..]
      ensures n == -1 ==> Failed in old(fd.script)
      ensures Failed in fd.script ==> Failed in old(fd.script)
    {
      hide Pending;
      n := 0;
      ghost var all := Pending();
      while n < maxlen
        invariant Valid() && 0 <= n <= maxlen && n <= |all| && Pending() == all[n..]
        invariant usrbuf[..n] == all[..n]
        invariant forall i :: 0 <= i < n ==> all[i] != '\n'
        invariant Failed in fd.script ==> Failed in old(fd.script)
      {
        var rc, c := NextByte();
        if rc == 1 {
          TakeByte(all, n, c, Pending());
          usrbuf[n] := c;
          n := n + 1;
          if c == '\n' {
            return;
          }
        } else if rc == 0 {
          return;
        } else {
          return -1;
        }
      }
    }

    /**
     rio_readlineb: the next line of the stream, wherever the reads happen to
     cut it, and a terminator behind it. The terminator falls behind the
     caller's buffer, `overrun`, exactly if the line fills all of it. At the
     end of the stream nothing is written.
     */
    method ReadLineB(usrbuf: array<char>, maxlen: nat) returns (n: int, overrun: bool)
      requires Valid() && maxlen <= usrbuf.Length && usrbuf != buf
      modifies this, fd, buf, usrbuf
      ensures Valid() && (n == -1 || n == |NextLine(old(Pending()), maxlen)|)
      ensures n >= 0 ==> Pending() == old(Pending())[n..]
      ensures n >= 0 ==> usrbuf[..n] == NextLine(old(Pending()), maxlen)
      ensures n >= 0 ==> (overrun <==> |NextLine(old(Pending()), maxlen)| == usrbuf.Length)
      ensures n > 0 && !overrun ==> usrbuf[n] == '\0'
      ensures n == 0 && maxlen > 0 ==> old(Pending()) == []
      ensures n == -1 ==> Failed in old(fd.script) && !overrun
      ensures Failed in fd.script ==> Failed in old(fd.script)
    {
      ghost var all := Pending();
      n := FillLine(usrbuf, maxlen);
      overrun := false;
      if n < 0 || (n == 0 && maxlen > 0) {
        return;
      }
      NextLineExactly(all, maxlen, n);
      if n < usrbuf.Length {
        usrbuf[n] := '\0';
      } else {
        overrun := true;
      }
    }

    /**
     Repeated calls of rio_readlineb up to the end of the stream, with a
     buffer of exactly `maxlen` bytes as the callers have it, deliver exactly
     its lines. A terminator overruns the buffer exactly if some line is as
     long as that.
     */
    method ReadLines(maxlen: nat) returns (lines: seq<string>, ok: bool, overran: bool)
      requires Valid() && maxlen > 0
      modifies this, fd, buf
      ensures Valid()
      ensures ok ==> lines == SplitLines(old(Pending()), maxlen) && Pending() == []
      ensures !ok ==> Failed in old(fd.script)
      ensures overran <==> SomeAsLong(lines, maxlen)
    {
      hide Pending, SomeAsLong;
      var usrbuf := new char[maxlen];
      NoneAsLong(maxlen);
      lines, ok, overran := [], true, false;
      ghost var all := Pending();
      while true
        invariant Valid() && SplitLines(all, maxlen) == lines + SplitLines(Pending(), maxlen)
        invariant Failed in fd.script ==> Failed in old(fd.script)
        invariant overran <==> SomeAsLong(lines, maxlen)
        decreases |Pending()|
      {
        var n, overrun := ReadLineB(usrbuf, maxlen);
        if n < 0 {
          return lines, false, overran;
        }
        if n == 0 {
          return;
        }
        OneMore(lines, usrbuf[..n], maxlen);
        lines := lines + [usrbuf[..n]];
        overran := overran || overrun;
      }
    }
  }
}

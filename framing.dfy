/** The byte accumulator of `reader_thread` (mailer.py:168, 174-178): each
    chunk is appended to `buf`, and while `buf` holds a newline it is split at
    the first one into a complete line and the remainder. */
module Framing {
  import opened Text

  /** The bytes of one received line, without its newline. */
  type Line = seq<byte>

  /** The index of the first newline, where `buf.split(b"\n", 1)` cuts. */
  function FirstNewline(s: seq<byte>): (i: nat)
    requires NEWLINE in s
    ensures i < |s| && s[i] == NEWLINE
    ensures forall k :: 0 <= k < i ==> s[k] != NEWLINE
  {
    if s[0] == NEWLINE then 0 else 1 + FirstNewline(s[1..])
  }

  /** The complete lines of a byte string and the fragment after its last newline. */
  datatype Framed = Framed(lines: seq<Line>, rest: seq<byte>)

  /** What repeated splitting at the first newline makes of `s`. */
  function Frame(s: seq<byte>): Framed
    decreases |s|
  {
    if NEWLINE !in s then Framed([], s)
    else
      var i := FirstNewline(s);
      var f := Frame(s[i + 1..]);
      Framed([s[..i]] + f.lines, f.rest)
  }

  /** The bytes before the first newline hold none. */
  lemma BeforeFirstNewline(s: seq<byte>)
    requires NEWLINE in s
    ensures NEWLINE !in s[..FirstNewline(s)]
  {
    var i := FirstNewline(s);
    forall j | 0 <= j < i ensures s[..i][j] != NEWLINE { assert s[..i][j] == s[j]; }
  }

  /** No extracted line and no retained fragment holds a newline. */
  lemma {:induction false} FrameNewlineFree(s: seq<byte>)
    ensures NEWLINE !in Frame(s).rest
    ensures forall line :: line in Frame(s).lines ==> NEWLINE !in line
    decreases |s|
  {
    if NEWLINE in s {
      var i := FirstNewline(s);
      FrameNewlineFree(s[i + 1..]);
      BeforeFirstNewline(s);
      var g := Frame(s[i + 1..]);
      assert Frame(s) == Framed([s[..i]] + g.lines, g.rest);
    }
  }

  /** The byte string that the given lines and trailing fragment came from:
      each line followed by a newline, then the fragment. */
  function Unframe(lines: seq<Line>, rest: seq<byte>): seq<byte>
  {
    if lines == [] then rest else lines[0] + [NEWLINE] + Unframe(lines[1..], rest)
  }

  /** Framing loses nothing: the lines, each with its newline put back, and the
      fragment are the input again. */
  lemma {:induction false} UnframeFrame(s: seq<byte>)
    ensures Unframe(Frame(s).lines, Frame(s).rest) == s
    decreases |s|
  {
    if NEWLINE in s {
      var i := FirstNewline(s);
      var g := Frame(s[i + 1..]);
      UnframeFrame(s[i + 1..]);
      var lines := [s[..i]] + g.lines;
      assert Frame(s) == Framed(lines, g.rest);
      assert lines[0] == s[..i] && lines[1..] == g.lines;
      assert Unframe(lines, g.rest) == s[..i] + [NEWLINE] + s[i + 1..];
      SplitAtNewline(s, i);
    }
  }

  /** A byte string is the part before a newline, the newline and the part after. */
  lemma SplitAtNewline(s: seq<byte>, i: nat)
    requires i < |s| && s[i] == NEWLINE
    ensures s[..i] + [NEWLINE] + s[i + 1..] == s
  {
    assert s == s[..i] + s[i..];
    assert s[i..] == [NEWLINE] + s[i + 1..];
  }

  /** A newline-free line followed by a newline is cut off exactly there. */
  lemma SplitAfterLine(line: Line, tail: seq<byte>)
    requires NEWLINE !in line
    ensures NEWLINE in line + [NEWLINE] + tail
    ensures FirstNewline(line + [NEWLINE] + tail) == |line|
    ensures (line + [NEWLINE] + tail)[..|line|] == line
    ensures (line + [NEWLINE] + tail)[|line| + 1..] == tail
  {
    var s := line + [NEWLINE] + tail;
    assert s[|line|] == NEWLINE;
    forall k | 0 <= k < |line| ensures s[k] != NEWLINE { assert s[k] == line[k]; }
  }

  /** Conversely, newline-free lines and fragment are exactly what framing
      their concatenation finds. */
  lemma {:induction false} FrameUnframe(lines: seq<Line>, rest: seq<byte>)
    requires forall k :: 0 <= k < |lines| ==> NEWLINE !in lines[k]
    requires NEWLINE !in rest
    ensures Frame(Unframe(lines, rest)) == Framed(lines, rest)
  {
    if lines != [] {
      var tail := Unframe(lines[1..], rest);
      SplitAfterLine(lines[0], tail);
      FrameUnframe(lines[1..], rest);
      assert Frame(lines[0] + [NEWLINE] + tail) == Framed([lines[0]] + lines[1..], rest);
      assert [lines[0]] + lines[1..] == lines;
    }
  }

  /** Where `a` has a newline, the first newline of `a + b` is that of `a`. */
  lemma FirstNewlineOfAppend(a: seq<byte>, b: seq<byte>)
    requires NEWLINE in a
    ensures FirstNewline(a + b) == FirstNewline(a)
    ensures (a + b)[FirstNewline(a) + 1..] == a[FirstNewline(a) + 1..] + b
  {
    var i := FirstNewline(a);
    var j := FirstNewline(a + b);
    assert (a + b)[i] == a[i];
    forall k | 0 <= k < i ensures (a + b)[k] != NEWLINE { assert (a + b)[k] == a[k]; }
  }

  /** Framing an extended stream continues where framing the prefix stopped:
      the prefix's lines, then the lines of its fragment joined to the rest. */
  lemma {:induction false} FrameAppend(a: seq<byte>, b: seq<byte>)
    ensures Frame(a + b).lines == Frame(a).lines + Frame(Frame(a).rest + b).lines
    ensures Frame(a + b).rest == Frame(Frame(a).rest + b).rest
    decreases |a|
  {
    if NEWLINE in a {
      var i := FirstNewline(a);
      var tail := a[i + 1..];
      FirstNewlineOfAppend(a, b);
      assert NEWLINE in a + b by { assert (a + b)[i] == NEWLINE; }
      assert (a + b)[..i] == a[..i];
      assert (a + b)[i + 1..] == tail + b;
      FrameAppend(tail, b);
      var ft, fj := Frame(tail), Frame(Frame(tail).rest + b);
      assert Frame(a) == Framed([a[..i]] + ft.lines, ft.rest);
      assert Frame(a + b) == Framed([a[..i]] + Frame(tail + b).lines, Frame(tail + b).rest);
      assert [a[..i]] + (ft.lines + fj.lines) == ([a[..i]] + ft.lines) + fj.lines;
    } else {
      assert a + b == Frame(a).rest + b;
    }
  }

  /** All bytes of a list of chunks, in order. */
  function Concat(chunks: seq<seq<byte>>): seq<byte>
  {
    if chunks == [] then [] else chunks[0] + Concat(chunks[1..])
  }

  /** The lines obtained by feeding the chunks one after another to a framer
      whose buffer starts as `buf`, and the buffer left at the end. */
  function FeedAll(buf: seq<byte>, chunks: seq<seq<byte>>): Framed
    decreases |chunks|
  {
    if chunks == [] then Framed([], buf)
    else
      var f := Frame(buf + chunks[0]);
      var g := FeedAll(f.rest, chunks[1..]);
      Framed(f.lines + g.lines, g.rest)
  }

  lemma AppendAssoc<T>(a: seq<T>, b: seq<T>, c: seq<T>)
    ensures a + (b + c) == (a + b) + c
  {
  }

  /** How the stream is cut into chunks does not matter: feeding the chunks one
      by one yields the same lines and the same final buffer as framing all of
      the bytes at once. */
  lemma {:induction false} ChunkingIrrelevant(buf: seq<byte>, chunks: seq<seq<byte>>)
    requires NEWLINE !in buf
    ensures FeedAll(buf, chunks) == Frame(buf + Concat(chunks))
    decreases |chunks|
  {
    if chunks == [] {
      assert buf + Concat(chunks) == buf;
    } else {
      var f := Frame(buf + chunks[0]);
      var more := Concat(chunks[1..]);
      FrameNewlineFree(buf + chunks[0]);
      ChunkingIrrelevant(f.rest, chunks[1..]);
      var g := FeedAll(f.rest, chunks[1..]);
      assert FeedAll(buf, chunks) == Framed(f.lines + g.lines, g.rest);
      FrameAppend(buf + chunks[0], more);
      AppendAssoc(buf, chunks[0], more);
    }
  }

  /** The accumulator `buf` of the reader loop. */
  class LineFramer {
    var buf: seq<byte>

    /** `buf = b""` */
    constructor ()
      ensures buf == []
    {
      buf := [];
    }

    /** `b"\n" in buf` */
    predicate HasLine()
      reads this
    {
      NEWLINE in buf
    }

    /** `buf += chunk` */
    method Append(chunk: seq<byte>)
      modifies this
      ensures buf == old(buf) + chunk
    {
      buf := buf + chunk;
    }

    /** `raw, buf = buf.split(b"\n", 1)`: the bytes before the first newline
        are taken off, with the newline. */
    method PopLine() returns (raw: Line)
      requires HasLine()
      modifies this
      ensures NEWLINE !in raw && old(buf) == raw + [NEWLINE] + buf
      ensures Frame(old(buf)) == Framed([raw] + Frame(buf).lines, Frame(buf).rest)
    {
      var i := FirstNewline(buf);
      raw, buf := buf[..i], buf[i + 1..];
      assert old(buf) == raw + [NEWLINE] + buf;
    }

    /** Append a chunk and take off every complete line: the lines are those
        of the accumulated bytes in stream order, and what stays buffered is
        the fragment after the last newline. */
    method Feed(chunk: seq<byte>) returns (lines: seq<Line>)
      modifies this
      ensures lines == Frame(old(buf) + chunk).lines
      ensures buf == Frame(old(buf) + chunk).rest
      ensures NEWLINE !in buf && forall line :: line in lines ==> NEWLINE !in line
      ensures old(buf) + chunk == Unframe(lines, buf)
    {
      Append(chunk);
      ghost var all := buf;
      lines := [];
      while HasLine()
        invariant Frame(all) == Framed(lines + Frame(buf).lines, Frame(buf).rest)
        decreases |buf|
      {
        var raw := PopLine();
        lines := lines + [raw];
      }
      UnframeFrame(all);
      FrameNewlineFree(all);
    }
  }
}

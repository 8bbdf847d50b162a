/** Bytes and text: the whitespace trimming of Python's `str.strip()`, the
    `nan` -> `null` rewrite applied before JSON decoding, and substring search. */
module Text {

  newtype byte = x: int | 0 <= x < 256

  /** The line delimiter of the serial stream, `b"\n"`. */
  const NEWLINE: byte := 10

  /** The characters Python's `str.isspace()` accepts, which is what `strip()` removes. */
  predicate IsSpace(c: char)
  {
    ('\U{9}' <= c <= '\U{D}') || ('\U{1C}' <= c <= '\U{20}') ||
    c == '\U{85}' || c == '\U{A0}' || c == '\U{1680}' ||
    ('\U{2000}' <= c <= '\U{200A}') || c == '\U{2028}' || c == '\U{2029}' ||
    c == '\U{202F}' || c == '\U{205F}' || c == '\U{3000}'
  }

  /** Removes the leading whitespace: the result is the longest suffix that
      does not start with a space. */
  function TrimStart(s: string): (r: string)
    ensures |r| <= |s| && r == s[|s| - |r|..]
    ensures forall k :: 0 <= k < |s| - |r| ==> IsSpace(s[k])
    ensures r == [] || !IsSpace(r[0])
  {
    if s != [] && IsSpace(s[0]) then TrimStart(s[1..]) else s
  }

  /** Removes the trailing whitespace: the result is the longest prefix that
      does not end with a space. */
  function TrimEnd(s: string): (r: string)
    ensures |r| <= |s| && r == s[..|r|]
    ensures forall k :: |r| <= k < |s| ==> IsSpace(s[k])
    ensures r == [] || !IsSpace(r[|r| - 1])
  {
    if s != [] && IsSpace(s[|s| - 1]) then TrimEnd(s[..|s| - 1]) else s
  }

  /** Python's `s.strip()` with no argument. */
  function Strip(s: string): string
  {
    TrimEnd(TrimStart(s))
  }

  /** How many leading characters `strip()` removes. */
  function StripOffset(s: string): (i: nat)
    ensures i <= |s|
  {
    |s| - |TrimStart(s)|
  }

  /** A prefix of a suffix is a slice. */
  lemma SliceOfSuffix<T>(s: seq<T>, i: nat, n: nat)
    requires i + n <= |s|
    ensures s[i..][..n] == s[i..i + n]
  {
  }

  /** The stripped text is the piece of `s` at `StripOffset(s)` with only
      whitespace cut off either side. */
  lemma StripSpec(s: string)
    ensures StripOffset(s) + |Strip(s)| <= |s|
    ensures Strip(s) == s[StripOffset(s)..StripOffset(s) + |Strip(s)|]
    ensures forall k :: 0 <= k < StripOffset(s) ==> IsSpace(s[k])
    ensures forall k :: StripOffset(s) + |Strip(s)| <= k < |s| ==> IsSpace(s[k])
  {
    var t := TrimStart(s);
    var i := |s| - |t|;
    var r := TrimEnd(t);
    SliceOfSuffix(s, i, |r|);
    forall k | i + |r| <= k < |s| ensures IsSpace(s[k]) {
      assert s[k] == t[k - i];
    }
  }

  /** The stripped text neither starts nor ends with whitespace. */
  lemma StripEdges(s: string)
    ensures Strip(s) != [] ==> !IsSpace(Strip(s)[0]) && !IsSpace(Strip(s)[|Strip(s)| - 1])
  {
    var t := TrimStart(s);
    var r := TrimEnd(t);
    if r != [] {
      assert r[0] == t[0];
    }
  }

  /** The stripped text is empty exactly when `s` is all whitespace. */
  lemma StripBlank(s: string)
    ensures Strip(s) == [] <==> forall k :: 0 <= k < |s| ==> IsSpace(s[k])
  {
    var t := TrimStart(s);
    var i := |s| - |t|;
    if t != [] {
      assert s[i] == t[0];
    }
  }

  /** Stripping twice is stripping once: the second `strip()` in the parser
      sees exactly the text the framing loop produced. */
  lemma StripIdempotent(s: string)
    ensures Strip(Strip(s)) == Strip(s)
  {
    var r := Strip(s);
    var t := TrimStart(s);
    if r != [] {
      assert r[0] == t[0];
    }
    assert TrimStart(r) == r;
  }

  /** `t` occurs in `s` starting at index `i`. */
  predicate OccursAt(s: string, t: string, i: nat)
  {
    i + |t| <= |s| && s[i..i + |t|] == t
  }

  /** Python's `t in s` for strings. */
  predicate Contains(s: string, t: string)
  {
    exists i: nat :: i <= |s| && OccursAt(s, t, i)
  }

  /** A text cannot contain a word that has a character the text lacks. */
  lemma MissingChar(s: string, t: string, c: char)
    requires c in t && c !in s
    ensures !Contains(s, t)
  {
  }

  /** `nan` occurs in `s` somewhere. */
  predicate HasNan(s: string)
  {
    exists i :: 0 <= i < |s| - 2 && s[i] == 'n' && s[i + 1] == 'a' && s[i + 2] == 'n'
  }

  /** Python's `s.replace("nan", "null")`: left to right, non-overlapping. */
  function ReplaceNan(s: string): (r: string)
    ensures s != [] ==> r != [] && r[0] == s[0]
  {
    if |s| >= 3 && s[0] == 'n' && s[1] == 'a' && s[2] == 'n' then "null" + ReplaceNan(s[3..])
    else if s == [] then []
    else [s[0]] + ReplaceNan(s[1..])
  }

  /** After the rewrite no `nan` is left: the decoder never sees the placeholder. */
  lemma {:induction false} ReplaceNanRemovesAll(s: string)
    ensures !HasNan(ReplaceNan(s))
  {
    if |s| >= 3 && s[0] == 'n' && s[1] == 'a' && s[2] == 'n' {
      var t := ReplaceNan(s[3..]);
      ReplaceNanRemovesAll(s[3..]);
      var r := "null" + t;
      forall i | 0 <= i < |r| - 2 ensures !(r[i] == 'n' && r[i + 1] == 'a' && r[i + 2] == 'n') {
        if i >= 4 {
          assert r[i] == t[i - 4] && r[i + 1] == t[i - 3] && r[i + 2] == t[i - 2];
        }
      }
    } else if s != [] {
      var t := ReplaceNan(s[1..]);
      ReplaceNanRemovesAll(s[1..]);
      var r := [s[0]] + t;
      forall i | 0 <= i < |r| - 2 ensures !(r[i] == 'n' && r[i + 1] == 'a' && r[i + 2] == 'n') {
        if i >= 1 {
          assert r[i] == t[i - 1] && r[i + 1] == t[i] && r[i + 2] == t[i + 1];
        }
      }
    }
  }

  /** Putting one piece in front of three joined ones. */
  lemma PrependAssoc<T>(a: seq<T>, b: seq<T>, c: seq<T>, d: seq<T>)
    ensures a + (b + c + d) == a + b + c + d
  {
  }

  /** `nan` starts at index `j` of `s`. */
  predicate NanAt(s: string, j: nat)
  {
    j + 3 <= |s| && s[j] == 'n' && s[j + 1] == 'a' && s[j + 2] == 'n'
  }

  /** The rewrite at the first `nan`: everything before it is kept, that
      `nan` becomes `null`, and the rewrite goes on after it. */
  lemma {:induction false} ReplaceNanFirst(s: string, i: nat)
    requires NanAt(s, i)
    requires forall j :: 0 <= j < i ==> !NanAt(s, j)
    ensures ReplaceNan(s) == s[..i] + "null" + ReplaceNan(s[i + 3..])
  {
    if i == 0 {
      assert s[..0] + "null" == "null";
    } else {
      var t := s[1..];
      assert !NanAt(s, 0);
      assert NanAt(t, i - 1) by {
        assert t[i - 1] == s[i] && t[i] == s[i + 1] && t[i + 1] == s[i + 2];
      }
      forall j | 0 <= j < i - 1 ensures !NanAt(t, j) {
        assert !NanAt(s, j + 1);
        assert t[j] == s[j + 1] && t[j + 1] == s[j + 2] && t[j + 2] == s[j + 3];
      }
      ReplaceNanFirst(t, i - 1);
      var rest := ReplaceNan(s[i + 3..]);
      assert t[i + 2..] == s[i + 3..];
      assert ReplaceNan(t) == t[..i - 1] + "null" + rest;
      assert ReplaceNan(s) == [s[0]] + ReplaceNan(t);
      assert [s[0]] + t[..i - 1] == s[..i];
      PrependAssoc([s[0]], t[..i - 1], "null", rest);
    }
  }

  /** A text with no `nan` passes through the rewrite unchanged. */
  lemma {:induction false} ReplaceNanIdentity(s: string)
    requires !HasNan(s)
    ensures ReplaceNan(s) == s
  {
    if s != [] {
      assert !(|s| >= 3 && s[0] == 'n' && s[1] == 'a' && s[2] == 'n');
      assert !HasNan(s[1..]) by {
        forall i | 0 <= i < |s| - 3 ensures !(s[1..][i] == 'n' && s[1..][i + 1] == 'a' && s[1..][i + 2] == 'n') {
          assert s[1..][i] == s[i + 1] && s[1..][i + 1] == s[i + 2] && s[1..][i + 2] == s[i + 3];
        }
      }
      ReplaceNanIdentity(s[1..]);
    }
  }
}

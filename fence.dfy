/**
 * Removal of a Markdown code fence around a model's answer: Python's
 * `str.split('\n')`, `'\n'.join`, `str.startswith` and `str.strip` on
 * `seq<char>`, and the cleaning step of `transform_agent`.
 */
module Fence {

  const Fence: string := "```"

  predicate StartsWith(s: string, prefix: string)
  {
    |prefix| <= |s| && s[..|prefix|] == prefix
  }

  /** The characters Python's `str.strip()` removes (`str.isspace`). */
  predicate IsSpace(c: char)
  {
    c == ' ' || c == '\t' || c == '\n' || c == '\r' || c == '\U{0B}' || c == '\U{0C}' ||
    ('\U{1C}' <= c <= '\U{1F}') || c == '\U{85}' || c == '\U{A0}' || c == '\U{1680}' ||
    ('\U{2000}' <= c <= '\U{200A}') || c == '\U{2028}' || c == '\U{2029}' ||
    c == '\U{202F}' || c == '\U{205F}' || c == '\U{3000}'
  }

  function TrimLeft(s: string): (r: string)
    ensures |r| <= |s| && r == s[|s| - |r|..]
    ensures |r| > 0 ==> !IsSpace(r[0])
    ensures forall k :: 0 <= k < |s| - |r| ==> IsSpace(s[k])
  {
    if |s| > 0 && IsSpace(s[0]) then TrimLeft(s[1..]) else s
  }

  function TrimRight(s: string): (r: string)
    ensures |r| <= |s| && r == s[..|r|]
    ensures |r| > 0 ==> !IsSpace(r[|r| - 1])
    ensures forall k :: |r| <= k < |s| ==> IsSpace(s[k])
  {
    if |s| > 0 && IsSpace(s[|s| - 1]) then TrimRight(s[..|s| - 1]) else s
  }

  /** `s.strip()`: the contiguous part of `s` left once white space is removed from both ends. */
  function Strip(s: string): (r: string)
    ensures |r| <= |s|
    ensures |r| > 0 ==> !IsSpace(r[0]) && !IsSpace(r[|r| - 1])
    ensures exists a, b :: StrippedAt(s, r, a, b)
  {
    var left := TrimLeft(s);
    var r := TrimRight(left);
    StripWitness(s, left, r);
    r
  }

  /** `r` is `s[a..b]` and everything of `s` outside `[a, b)` is white space. */
  predicate StrippedAt(s: string, r: string, a: int, b: int)
  {
    0 <= a <= b <= |s| && r == s[a..b] &&
    (forall k :: 0 <= k < a ==> IsSpace(s[k])) && (forall k :: b <= k < |s| ==> IsSpace(s[k]))
  }

  lemma StripWitness(s: string, left: string, r: string)
    requires |left| <= |s| && left == s[|s| - |left|..]
    requires forall k :: 0 <= k < |s| - |left| ==> IsSpace(s[k])
    requires |r| <= |left| && r == left[..|r|]
    requires forall k :: |r| <= k < |left| ==> IsSpace(left[k])
    ensures StrippedAt(s, r, |s| - |left|, |s| - |left| + |r|)
  {
    var a := |s| - |left|;
    var b := a + |r|;
    assert r == s[a..b];
    forall k | b <= k < |s|
      ensures IsSpace(s[k])
    {
      assert s[k] == left[k - a];
    }
  }

  /** `s.split('\n')`: the pieces between newlines; there is always at least one. */
  function Split(s: string): (lines: seq<string>)
    ensures |lines| >= 1
    decreases |s|
  {
    if |s| == 0 then [""]
    else
      var rest := Split(s[1..]);
      if s[0] == '\n' then [""] + rest
      else [[s[0]] + rest[0]] + rest[1..]
  }

  /** `'\n'.join(lines)`: the first line, then a newline before each further line. */
  function Join(lines: seq<string>): (r: string)
    ensures |lines| > 0 ==> |lines[0]| <= |r| && r[..|lines[0]|] == lines[0]
    ensures |lines| > 1 ==> |r| > |lines[0]| && r[|lines[0]|] == '\n'
  {
    if |lines| == 0 then ""
    else if |lines| == 1 then lines[0]
    else lines[0] + "\n" + Join(lines[1..])
  }

  predicate NoNewline(line: string)
  {
    forall k :: 0 <= k < |line| ==> line[k] != '\n'
  }

  predicate AllLines(lines: seq<string>)
  {
    forall i :: 0 <= i < |lines| ==> NoNewline(lines[i])
  }

  /** Joining the pieces of a split gives the text back. */
  lemma {:induction false} JoinSplit(s: string)
    ensures Join(Split(s)) == s
    decreases |s|
  {
    if |s| > 0 {
      var rest := Split(s[1..]);
      JoinSplit(s[1..]);
      if s[0] == '\n' {
        assert Split(s) == [""] + rest;
        assert ([""] + rest)[1..] == rest;
        assert s == "\n" + s[1..];
      } else {
        var lines := [[s[0]] + rest[0]] + rest[1..];
        assert Split(s) == lines;
        if |rest| == 1 {
          assert s == [s[0]] + s[1..];
        } else {
          assert lines[1..] == rest[1..];
          assert Join(rest) == rest[0] + "\n" + Join(rest[1..]);
          assert s == [s[0]] + s[1..];
        }
      }
    }
  }

  /** Every piece of a split is free of newlines. */
  lemma {:induction false} SplitLines(s: string)
    ensures AllLines(Split(s))
    decreases |s|
  {
    if |s| > 0 {
      SplitLines(s[1..]);
      var rest := Split(s[1..]);
      if s[0] != '\n' {
        var lines := [[s[0]] + rest[0]] + rest[1..];
        forall i | 0 <= i < |lines| ensures NoNewline(lines[i]) {
          if i == 0 {
            assert NoNewline(rest[0]);
          } else {
            assert lines[i] == rest[i];
          }
        }
      } else {
        var lines := [""] + rest;
        forall i | 0 <= i < |lines| ensures NoNewline(lines[i]) {
          if i > 0 { assert lines[i] == rest[i - 1]; }
        }
      }
    }
  }

  /** A text without newlines splits into itself. */
  lemma {:induction false} SplitSingle(a: string)
    requires NoNewline(a)
    ensures Split(a) == [a]
    decreases |a|
  {
    if |a| > 0 {
      assert NoNewline(a[1..]) by {
        forall k | 0 <= k < |a[1..]| ensures a[1..][k] != '\n' { assert a[1..][k] == a[k + 1]; }
      }
      SplitSingle(a[1..]);
      assert [a[0]] + a[1..] == a;
    }
  }

  /** Splitting at the first newline. */
  lemma {:induction false} SplitAtNewline(a: string, b: string)
    requires NoNewline(a)
    ensures Split(a + "\n" + b) == [a] + Split(b)
    decreases |a|
  {
    var s := a + "\n" + b;
    if |a| == 0 {
      assert s[0] == '\n' && s[1..] == b;
    } else {
      assert NoNewline(a[1..]) by {
        forall k | 0 <= k < |a[1..]| ensures a[1..][k] != '\n' { assert a[1..][k] == a[k + 1]; }
      }
      SplitAtNewline(a[1..], b);
      assert s[1..] == a[1..] + "\n" + b;
      assert s[0] == a[0];
      assert [a[0]] + a[1..] == a;
    }
  }

  /** Splitting a join of newline-free lines gives the lines back. */
  lemma {:induction false} SplitJoin(lines: seq<string>)
    requires |lines| >= 1 && AllLines(lines)
    ensures Split(Join(lines)) == lines
    decreases |lines|
  {
    if |lines| == 1 {
      SplitSingle(lines[0]);
    } else {
      assert AllLines(lines[1..]) by {
        forall i | 0 <= i < |lines[1..]| ensures NoNewline(lines[1..][i]) { assert lines[1..][i] == lines[i + 1]; }
      }
      SplitJoin(lines[1..]);
      assert NoNewline(lines[0]);
      SplitAtNewline(lines[0], Join(lines[1..]));
      assert [lines[0]] + lines[1..] == lines;
    }
  }

  /** The first piece of a split is the text up to its first newline. */
  lemma {:induction false} SplitHead(s: string)
    ensures var h := Split(s)[0];
      |h| <= |s| && h == s[..|h|] && (|h| == |s| || s[|h|] == '\n')
    decreases |s|
  {
    if |s| > 0 {
      SplitHead(s[1..]);
    }
  }

  /** The first line of fenced text is itself fenced, so the redundant inner test always holds. */
  lemma FirstLineFenced(s: string)
    requires StartsWith(s, Fence)
    ensures StartsWith(Split(s)[0], Fence)
  {
    SplitHead(s);
    var h := Split(s)[0];
    assert s[0] == '`' && s[1] == '`' && s[2] == '`';
    assert |h| >= 3;
    assert h[..3] == s[..3];
  }

  /** Drops the last line when it is a fence once white space is stripped. */
  function DropClosing(lines: seq<string>): (r: seq<string>)
    ensures r == lines || (|lines| > 0 && r == lines[..|lines| - 1] && Strip(lines[|lines| - 1]) == Fence)
  {
    if |lines| > 0 && Strip(lines[|lines| - 1]) == Fence then lines[..|lines| - 1] else lines
  }

  /** The cleaning step of `transform_agent`. */
  function StripFence(content: string): (r: string)
    ensures !StartsWith(content, Fence) ==> r == content
  {
    if !StartsWith(content, Fence) then content
    else
      var lines := Split(content);
      Join(DropClosing(if StartsWith(lines[0], Fence) then lines[1..] else lines))
  }

  /** Whether the closing line of a fenced answer is dropped. */
  predicate ClosesFence(lines: seq<string>)
  {
    |lines| >= 2 && Strip(lines[|lines| - 1]) == Fence
  }

  /** Unfenced text passes through unchanged. */
  lemma StripFenceUnfenced(content: string)
    requires !StartsWith(content, Fence)
    ensures StripFence(content) == content
  {
  }

  /** Splitting a joined slice of a split gives the slice back. */
  lemma SplitJoinSlice(s: string, lo: nat, hi: nat)
    requires lo < hi <= |Split(s)|
    ensures Split(Join(Split(s)[lo..hi])) == Split(s)[lo..hi]
  {
    var lines := Split(s);
    SplitLines(s);
    assert AllLines(lines[lo..hi]) by {
      forall i | 0 <= i < hi - lo ensures NoNewline(lines[lo..hi][i]) { assert lines[lo..hi][i] == lines[lo + i]; }
    }
    SplitJoin(lines[lo..hi]);
  }

  /** Dropping the closing line of the lines after the first one. */
  lemma DropClosingSlice(lines: seq<string>)
    requires |lines| >= 1
    ensures DropClosing(lines[1..]) == lines[1..if ClosesFence(lines) then |lines| - 1 else |lines|]
  {
    var afterFirst := lines[1..];
    if |afterFirst| > 0 {
      assert afterFirst[|afterFirst| - 1] == lines[|lines| - 1];
    }
  }

  /**
   * Fenced text loses its first line, and its last line exactly when that line is
   * a fence once white space is stripped: the result joins a contiguous slice of the
   * original lines that is one or two lines shorter, and it splits back into that slice.
   */
  lemma StripFenceLines(content: string)
    requires StartsWith(content, Fence)
    ensures var lines := Split(content);
      var e := if ClosesFence(lines) then |lines| - 1 else |lines|;
      1 <= e <= |lines| &&
      StripFence(content) == Join(lines[1..e]) &&
      (e > 1 ==> Split(StripFence(content)) == lines[1..e])
  {
    var lines := Split(content);
    FirstLineFenced(content);
    var e := if ClosesFence(lines) then |lines| - 1 else |lines|;
    DropClosingSlice(lines);
    assert StripFence(content) == Join(lines[1..e]);
    if e > 1 {
      SplitJoinSlice(content, 1, e);
    }
  }
}

/** The Python `str` operations the program applies to ARNs and instance-id lists. */
module Text {

  /** The index of the last `c` in `s`, or -1 when `s` has none. */
  function LastIndex(s: string, c: char): (i: int)
    ensures -1 <= i < |s|
    ensures i >= 0 ==> s[i] == c
    ensures forall j :: i < j < |s| ==> s[j] != c
  {
    if s == [] then -1
    else if s[|s| - 1] == c then |s| - 1
    else LastIndex(s[..|s| - 1], c)
  }

  /** `s.split(c)[-1]`: the longest suffix of `s` free of `c`, which is all of `s`
      when `s` has no `c`, and otherwise the text after the last `c`. */
  function LastSegment(s: string, c: char): (r: string)
    ensures c !in r
    ensures |r| <= |s| && r == s[|s| - |r|..]
    ensures |r| < |s| ==> s[|s| - |r| - 1] == c
  {
    s[LastIndex(s, c) + 1..]
  }

  /** Without `c` the last segment is the whole string. */
  lemma LastSegmentWhole(s: string, c: char)
    requires c !in s
    ensures LastSegment(s, c) == s
  {
  }

  /** The last segment of `p + [c] + r` is `r` when `r` has no `c`: the name of
      an ARN `.../cluster/<name>`. */
  lemma LastSegmentAfter(p: string, c: char, r: string)
    requires c !in r
    ensures LastSegment(p + [c] + r, c) == r
  {
    var s := p + [c] + r;
    var i := LastIndex(s, c);
    assert s[|p|] == c;
    assert forall j :: |p| < j < |s| ==> s[j] == r[j - |p| - 1];
    assert i == |p|;
    assert s[|p| + 1..] == r;
  }

  /** `s.split(c)`: the pieces between the occurrences of `c`; always at least one. */
  function Split(s: string, c: char): (parts: seq<string>)
    ensures |parts| >= 1
    ensures forall k :: 0 <= k < |parts| ==> c !in parts[k]
  {
    if s == [] then [[]]
    else
      var rest := Split(s[1..], c);
      if s[0] == c then [[]] + rest
      else [[s[0]] + rest[0]] + rest[1..]
  }

  /** `sep.join(parts)`. */
  function Join(parts: seq<string>, sep: string): string
  {
    if parts == [] then []
    else if |parts| == 1 then parts[0]
    else parts[0] + sep + Join(parts[1..], sep)
  }

  /** Splitting on `c` and joining with `c` gives back the string. */
  lemma {:induction false} JoinSplit(s: string, c: char)
    ensures Join(Split(s, c), [c]) == s
  {
    if s != [] {
      JoinSplit(s[1..], c);
      var rest := Split(s[1..], c);
      if |rest| > 1 {
        assert Join(rest, [c]) == rest[0] + [c] + Join(rest[1..], [c]);
      }
      if s[0] != c {
        assert s == [s[0]] + s[1..];
      }
    }
  }

  /** A string without `c` splits into itself. */
  lemma {:induction false} SplitWithout(s: string, c: char)
    requires c !in s
    ensures Split(s, c) == [s]
  {
    if s != [] {
      SplitWithout(s[1..], c);
      assert s == [s[0]] + s[1..];
    }
  }

  /** A prefix without `c` glues onto the first piece. */
  lemma {:induction false} SplitGlue(p: string, s: string, c: char)
    requires c !in p
    ensures var parts := Split(s, c);
      Split(p + s, c) == [p + parts[0]] + parts[1..]
  {
    if p != [] {
      var parts := Split(s, c);
      assert (p + s)[0] == p[0] != c;
      assert (p + s)[1..] == p[1..] + s;
      var rest := Split(p[1..] + s, c);
      SplitGlue(p[1..], s, c);
      assert rest == [p[1..] + parts[0]] + parts[1..];
      assert Split(p + s, c) == [[p[0]] + rest[0]] + rest[1..];
      assert [p[0]] + (p[1..] + parts[0]) == p + parts[0];
    } else {
      var parts := Split(s, c);
      assert p + s == s && p + parts[0] == parts[0];
      assert parts == [parts[0]] + parts[1..];
    }
  }

  /** Splitting `parts` joined with `c` followed by `pad` gives the parts back, each
      after the first carrying `pad` in front. */
  lemma {:induction false} SplitJoinPadded(parts: seq<string>, c: char, pad: string)
    requires |parts| >= 1
    requires forall k :: 0 <= k < |parts| ==> c !in parts[k]
    requires c !in pad
    ensures Split(Join(parts, [c] + pad), c)
         == [parts[0]] + seq(|parts| - 1, k requires 0 <= k < |parts| - 1 => pad + parts[k + 1])
  {
    var sep := [c] + pad;
    var want := seq(|parts| - 1, k requires 0 <= k < |parts| - 1 => pad + parts[k + 1]);
    if |parts| == 1 {
      SplitWithout(parts[0], c);
    } else {
      var tail := parts[1..];
      SplitJoinPadded(tail, c, pad);
      var joined := Join(tail, sep);
      var j := Split(joined, c);
      assert j == [tail[0]] + seq(|tail| - 1, k requires 0 <= k < |tail| - 1 => pad + tail[k + 1]);
      var x := [c] + (pad + joined);
      assert Join(parts, sep) == parts[0] + x;
      assert x[0] == c && x[1..] == pad + joined;
      SplitGlue(pad, joined, c);
      assert Split(x, c) == [[]] + Split(pad + joined, c);
      SplitGlue(parts[0], x, c);
      var sx := Split(x, c);
      assert sx[0] == [] && sx[1..] == Split(pad + joined, c);
      assert parts[0] + sx[0] == parts[0];
      assert Split(parts[0] + x, c) == [parts[0]] + Split(pad + joined, c);
      assert Split(pad + joined, c) == [pad + j[0]] + j[1..];
      assert [pad + j[0]] + j[1..] == want;
    }
  }

  /** Python's `str.isspace()` characters. */
  predicate IsSpace(ch: char)
  {
    || ch == ' ' || '\t' <= ch <= '\r' || '\U{1C}' <= ch <= '\U{1F}'
    || ch == '\U{85}' || ch == '\U{A0}' || ch == '\U{1680}'
    || '\U{2000}' <= ch <= '\U{200A}' || ch == '\U{2028}' || ch == '\U{2029}'
    || ch == '\U{202F}' || ch == '\U{205F}' || ch == '\U{3000}'
  }

  /** The number of white-space characters `s` starts with. */
  function LeadingSpace(s: string): (n: nat)
    ensures n <= |s|
    ensures n < |s| ==> !IsSpace(s[n])
  {
    if s != [] && IsSpace(s[0]) then 1 + LeadingSpace(s[1..]) else 0
  }

  /** Where the white space `s` ends with begins. */
  function TrailingSpace(s: string): (n: nat)
    ensures n <= |s|
    ensures n > 0 ==> !IsSpace(s[n - 1])
  {
    if s != [] && IsSpace(s[|s| - 1]) then TrailingSpace(s[..|s| - 1]) else |s|
  }

  /** The leading run counted by `LeadingSpace` is all white space. */
  lemma {:induction false} LeadingSpaceIsSpace(s: string)
    ensures forall k :: 0 <= k < LeadingSpace(s) ==> IsSpace(s[k])
  {
    if s != [] && IsSpace(s[0]) {
      LeadingSpaceIsSpace(s[1..]);
      forall k | 1 <= k < LeadingSpace(s)
        ensures IsSpace(s[k])
      {
        assert s[k] == s[1..][k - 1];
      }
    }
  }

  /** The trailing run found by `TrailingSpace` is all white space. */
  lemma {:induction false} TrailingSpaceIsSpace(s: string)
    ensures forall k :: TrailingSpace(s) <= k < |s| ==> IsSpace(s[k])
  {
    if s != [] && IsSpace(s[|s| - 1]) {
      TrailingSpaceIsSpace(s[..|s| - 1]);
    }
  }

  /** `s.lstrip()`: `s` without its leading white space. */
  function StripLeft(s: string): string
  {
    s[LeadingSpace(s)..]
  }

  /** `s.rstrip()`: `s` without its trailing white space. */
  function StripRight(s: string): string
  {
    s[..TrailingSpace(s)]
  }

  /** `s.strip()`. */
  function Strip(s: string): string
  {
    StripRight(StripLeft(s))
  }

  /** `[part.strip() for part in parts]`. */
  function StripAll(parts: seq<string>): (r: seq<string>)
    ensures |r| == |parts|
    ensures forall k :: 0 <= k < |parts| ==> r[k] == Strip(parts[k])
  {
    if parts == [] then [] else [Strip(parts[0])] + StripAll(parts[1..])
  }

  /** A space in front does not change what `strip` returns. */
  lemma StripAfterSpace(s: string)
    ensures Strip(" " + s) == Strip(s)
  {
    LeadingSpacePadded(" ", s);
    assert (" " + s)[1 + LeadingSpace(s)..] == s[LeadingSpace(s)..];
  }

  /** Leading white space adds to the count of leading white space. */
  lemma {:induction false} LeadingSpacePadded(pad: string, s: string)
    requires forall k :: 0 <= k < |pad| ==> IsSpace(pad[k])
    ensures LeadingSpace(pad + s) == |pad| + LeadingSpace(s)
  {
    if pad != [] {
      LeadingSpacePadded(pad[1..], s);
      var padded := pad + s;
      assert padded[0] == pad[0];
      assert padded[1..] == pad[1..] + s;
    } else {
      assert pad + s == s;
    }
  }
}

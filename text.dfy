/** Plain-text helpers used by the location records and their renderers:
    prefixes, left-justified padding, and newline-terminated lines. */
module Text {

  predicate HasPrefix(s: string, p: string)
  {
    |p| <= |s| && s[..|p|] == p
  }

  /** The part of `s` before the first `c`, or all of `s` when `c` does not
      occur: what Python's `s.split(c)[0]` yields. */
  function PrefixBefore(s: string, c: char): (r: string)
    ensures HasPrefix(s, r)
    ensures c !in r
    ensures |r| < |s| ==> s[|r|] == c
    ensures c !in s ==> r == s
  {
    if s == [] || s[0] == c then [] else [s[0]] + PrefixBefore(s[1..], c)
  }

  /** Splitting at a separator that does not occur earlier gives back the
      part before it, whatever follows. */
  lemma PrefixBeforeSeparator(a: string, c: char, b: string)
    requires c !in a
    ensures PrefixBefore(a + [c] + b, c) == a
  {
    var s := a + [c] + b;
    var r := PrefixBefore(s, c);
    assert s[..|a|] == a && s[|a|] == c;
    assert forall i :: 0 <= i < |a| ==> s[i] == a[i];
  }

  /** Python's `"{:<w}".format(s)`: left-justified, padded with spaces to at
      least `w` characters, never truncated. */
  function PadRight(s: string, w: nat): (r: string)
    ensures |r| == if |s| < w then w else |s|
    ensures HasPrefix(r, s)
    ensures forall i :: |s| <= i < |r| ==> r[i] == ' '
  {
    if |s| < w then s + seq(w - |s|, _ => ' ') else s
  }

  /** Every line followed by a newline, in order. */
  function JoinLines(lines: seq<string>): string
  {
    if lines == [] then "" else lines[0] + "\n" + JoinLines(lines[1..])
  }

  /** Cuts text into lines at each newline; a trailing piece without a
      newline is a last line of its own. */
  function SplitLines(s: string): seq<string>
    decreases |s|
  {
    if s == [] then []
    else
      var line := PrefixBefore(s, '\n');
      if |line| == |s| then [line] else [line] + SplitLines(s[|line| + 1..])
  }

  predicate NoNewline(s: string)
  {
    '\n' !in s
  }

  /** Appending one line to the list appends exactly that line and a newline
      to the text. */
  lemma {:induction false} JoinLinesSnoc(lines: seq<string>, line: string)
    ensures JoinLines(lines + [line]) == JoinLines(lines) + line + "\n"
  {
    if lines == [] {
      assert [] + [line] == [line];
    } else {
      assert (lines + [line])[1..] == lines[1..] + [line];
      JoinLinesSnoc(lines[1..], line);
    }
  }

  /** Joining two runs of lines is joining each and concatenating. */
  lemma {:induction false} JoinLinesAppend(a: seq<string>, b: seq<string>)
    ensures JoinLines(a + b) == JoinLines(a) + JoinLines(b)
  {
    if a == [] {
      assert [] + b == b;
    } else {
      assert (a + b)[1..] == a[1..] + b;
      JoinLinesAppend(a[1..], b);
    }
  }

  /** Joining then splitting gives back the lines, as long as none of them
      holds a newline of its own. */
  lemma {:induction false} SplitJoinLines(lines: seq<string>)
    requires forall i :: 0 <= i < |lines| ==> NoNewline(lines[i])
    ensures SplitLines(JoinLines(lines)) == lines
  {
    if lines != [] {
      var rest := JoinLines(lines[1..]);
      var s := lines[0] + "\n" + rest;
      assert JoinLines(lines) == s;
      assert PrefixBefore(s, '\n') == lines[0] by {
        PrefixBeforeSeparator(lines[0], '\n', rest);
      }
      assert s[|lines[0]| + 1..] == rest;
      SplitJoinLines(lines[1..]);
      assert SplitLines(s) == [lines[0]] + SplitLines(rest);
      assert [lines[0]] + lines[1..] == lines;
    }
  }
}

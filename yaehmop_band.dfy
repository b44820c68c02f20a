/**
 * The `Band` section that `Yaehmop::calculateBandStructure` appends to the
 * input: the number of k points on each segment of the band path, the
 * number of special k points, then the user's special-k-point text as it
 * was typed.  The number of special k points is the number of non-empty
 * pieces left after splitting that text at every carriage return and line
 * feed.
 */
module YaehmopBand {
  import opened YaehmopInput

  /** The separators the special-k-point text is split at. */
  predicate IsBreak(c: char)
  {
    c == '\r' || c == '\n'
  }

  predicate NoBreaks(s: string)
  {
    forall k :: 0 <= k < |s| ==> !IsBreak(s[k])
  }

  /** Length of the longest prefix of `s` without a separator. */
  function RunLength(s: string): (n: nat)
    ensures n <= |s|
    ensures NoBreaks(s[..n])
    ensures n == |s| || IsBreak(s[n])
  {
    if s == [] || IsBreak(s[0]) then 0 else 1 + RunLength(s[1..])
  }

  /** The pieces of `s` between separators, empty pieces skipped (where they break: `SplitAtBreak`). */
  function SplitSkipEmpty(s: string): (pieces: seq<string>)
    ensures forall k :: 0 <= k < |pieces| ==> pieces[k] != [] && NoBreaks(pieces[k])
    decreases |s|
  {
    if s == [] then []
    else if IsBreak(s[0]) then SplitSkipEmpty(s[1..])
    else
      var n := RunLength(s);
      [s[..n]] + SplitSkipEmpty(s[n..])
  }

  /** `s` with every separator removed. */
  function WithoutBreaks(s: string): string
  {
    if s == [] then []
    else (if IsBreak(s[0]) then [] else [s[0]]) + WithoutBreaks(s[1..])
  }

  function Concat(pieces: seq<string>): string
  {
    if pieces == [] then [] else pieces[0] + Concat(pieces[1..])
  }

  /**
   * The number of lines of `s` that hold something: positions where a
   * character other than a separator follows the start or a separator.
   */
  function LineStarts(s: string, afterBreak: bool): nat
  {
    if s == [] then 0
    else (if afterBreak && !IsBreak(s[0]) then 1 else 0) + LineStarts(s[1..], IsBreak(s[0]))
  }

  lemma {:induction false} WithoutBreaksOfRun(s: string, n: nat)
    requires n <= |s| && NoBreaks(s[..n])
    ensures WithoutBreaks(s) == s[..n] + WithoutBreaks(s[n..])
  {
    if n > 0 {
      assert !IsBreak(s[..n][0]);
      assert s[1..][..n - 1] == s[1..n];
      WithoutBreaksOfRun(s[1..], n - 1);
      assert s[1..][n - 1..] == s[n..];
      assert s[..n] == [s[0]] + s[1..n];
    }
  }

  lemma {:induction false} LineStartsOfRun(s: string, n: nat, afterBreak: bool)
    requires 0 < n <= |s| && NoBreaks(s[..n])
    ensures LineStarts(s, afterBreak) == (if afterBreak then 1 else 0) + LineStarts(s[n..], false)
  {
    assert !IsBreak(s[..n][0]);
    if n > 1 {
      assert s[1..][..n - 1] == s[1..n];
      LineStartsOfRun(s[1..], n - 1, false);
      assert s[1..][n - 1..] == s[n..];
    }
  }

  /** Splitting loses only the separators: the pieces put back together are the text without them. */
  lemma {:induction false} SplitKeepsText(s: string)
    ensures Concat(SplitSkipEmpty(s)) == WithoutBreaks(s)
    decreases |s|
  {
    if s == [] {
    } else if IsBreak(s[0]) {
      SplitKeepsText(s[1..]);
    } else {
      var n := RunLength(s);
      var rest := SplitSkipEmpty(s[n..]);
      SplitKeepsText(s[n..]);
      WithoutBreaksOfRun(s, n);
      assert SplitSkipEmpty(s) == [s[..n]] + rest;
      assert ([s[..n]] + rest)[1..] == rest;
    }
  }

  /** The count written for the special k points is the number of non-blank lines of the text. */
  lemma {:induction false} SplitCountsLines(s: string)
    ensures |SplitSkipEmpty(s)| == LineStarts(s, true)
    decreases |s|
  {
    if s == [] {
    } else if IsBreak(s[0]) {
      SplitCountsLines(s[1..]);
    } else {
      var n := RunLength(s);
      SplitCountsLines(s[n..]);
      LineStartsOfRun(s, n, true);
      // right after the run comes a separator or the end, and neither starts a line
      assert LineStarts(s[n..], false) == LineStarts(s[n..], true);
    }
  }

  /** A run is no longer when a separator follows it. */
  lemma {:induction false} RunLengthBeforeBreak(a: string, t: string)
    requires t != [] && IsBreak(t[0])
    ensures RunLength(a + t) == RunLength(a)
    decreases |a|
  {
    if a != [] && !IsBreak(a[0]) {
      assert (a + t)[1..] == a[1..] + t;
      RunLengthBeforeBreak(a[1..], t);
    }
  }

  /**
   * The pieces break exactly at the separators: the pieces of text with a
   * separator in it are the pieces before it followed by the pieces after it.
   */
  lemma {:induction false} SplitAtBreak(a: string, c: char, b: string)
    requires IsBreak(c)
    ensures SplitSkipEmpty(a + [c] + b) == SplitSkipEmpty(a) + SplitSkipEmpty(b)
    decreases |a|
  {
    var s := a + [c] + b;
    if a == [] {
      assert s[1..] == b;
    } else if IsBreak(a[0]) {
      assert s[1..] == a[1..] + [c] + b;
      SplitAtBreak(a[1..], c, b);
    } else {
      RunLengthBeforeBreak(a, [c] + b);
      assert s == a + ([c] + b);
      var n := RunLength(a);
      assert s[..n] == a[..n];
      assert s[n..] == a[n..] + [c] + b;
      SplitAtBreak(a[n..], c, b);
    }
  }

  /** Text with no separator at all is one special k point, or none when it is empty. */
  lemma SplitSingleLine(s: string)
    requires NoBreaks(s)
    ensures SplitSkipEmpty(s) == if s == [] then [] else [s]
  {
    if s != [] {
      assert RunLength(s) == |s|;
      assert s[..|s|] == s;
    }
  }

  /** The Band section, in order: k points per segment, the number of special k points, the text verbatim. */
  function BandSection(numBandKPoints: nat, specialKPoints: string): (lines: seq<Line>)
    ensures |lines| == 4 && lines[0] == [Word("Band")]
    ensures lines[1] == [Count(numBandKPoints)]
    ensures lines[2] == [Count(LineStarts(specialKPoints, true))]
    ensures lines[3] == [Raw(specialKPoints)]
  {
    SplitCountsLines(specialKPoints);
    [[Word("Band")],
     [Count(numBandKPoints)],
     [Count(|SplitSkipEmpty(specialKPoints)|)],
     [Raw(specialKPoints)]]
  }
}

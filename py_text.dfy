/** The few Python `str` operations the handler relies on: `startswith`,
    `strip()` with no argument, and slicing `s[start:stop]` with Python's
    treatment of negative and out-of-range indices. */
module PyText {

  /** `c.isspace()` in Python 3: the characters that `str.strip()` with no
      argument removes. */
  predicate IsSpace(c: char) {
    || c == ' '
    || '\t' <= c <= '\r'
    || '\U{1C}' <= c <= '\U{1F}'
    || c == '\U{85}'
    || c == '\U{A0}'
    || c == '\U{1680}'
    || '\U{2000}' <= c <= '\U{200A}'
    || c == '\U{2028}'
    || c == '\U{2029}'
    || c == '\U{202F}'
    || c == '\U{205F}'
    || c == '\U{3000}'
  }

  /** Boundary cases of Python 3's `isspace`: the ASCII separators 0x1C-0x1F
      and the no-break and ideographic spaces count, while the zero-width
      space, the byte-order mark and the Mongolian vowel separator do not. */
  lemma IsSpaceBoundaries()
    ensures IsSpace('\U{1C}') && IsSpace('\U{A0}') && IsSpace('\U{202F}') && IsSpace('\U{3000}')
    ensures !IsSpace('\U{0}') && !IsSpace('\U{200B}') && !IsSpace('\U{FEFF}') && !IsSpace('\U{180E}')
  {
  }

  predicate AllSpace(s: string) {
    forall i :: 0 <= i < |s| ==> IsSpace(s[i])
  }

  /** `s.startswith(p)`: `s` holds `p` character for character at its front. */
  predicate StartsWith(s: string, p: string): (b: bool)
    ensures b <==> |p| <= |s| && forall i :: 0 <= i < |p| ==> s[i] == p[i]
  {
    |p| <= |s| && s[..|p|] == p
  }

  /** Leading whitespace removed: what is dropped is whitespace, and what is
      left does not start with whitespace. */
  function LStrip(s: string): (r: string)
    ensures |r| <= |s| && forall i :: 0 <= i < |r| ==> r[i] == s[|s| - |r| + i]
    ensures AllSpace(s[..|s| - |r|])
    ensures r == [] || !IsSpace(r[0])
  {
    if |s| > 0 && IsSpace(s[0]) then LStrip(s[1..]) else s
  }

  /** Trailing whitespace removed: what is dropped is whitespace, and what is
      left does not end with whitespace. */
  function RStrip(s: string): (r: string)
    ensures |r| <= |s| && forall i :: 0 <= i < |r| ==> r[i] == s[i]
    ensures AllSpace(s[|r|..])
    ensures r == [] || !IsSpace(r[|r| - 1])
  {
    if |s| > 0 && IsSpace(s[|s| - 1]) then RStrip(s[..|s| - 1]) else s
  }

  /** `s.strip()`: whitespace removed from both ends (`RStrip` of `LStrip`).
      The result has no whitespace at either end, and it is empty exactly
      when `s` is all whitespace; `StripSurrounded` shows which infix it is. */
  function Strip(s: string): (r: string)
    ensures |r| <= |s|
    ensures r == [] || (!IsSpace(r[0]) && !IsSpace(r[|r| - 1]))
    ensures r == [] <==> AllSpace(s)
  {
    var l := LStrip(s);
    var r := RStrip(l);
    var i := |s| - |l|;
    assert r == [] ==> AllSpace(s) by {
      if r == [] {
        forall k | 0 <= k < |s| ensures IsSpace(s[k]) {
          assert s[..i][k] == s[k];
        }
      }
    }
    r
  }

  /** Python's normalisation of one slice bound against a length `n`:
      a negative bound counts from the end, and the result is clamped
      into `0..n`. */
  function SliceBound(k: int, n: nat): (b: nat)
    ensures b <= n
    ensures 0 <= k <= n ==> b == k
    ensures -(n as int) <= k < 0 ==> b == n + k
    ensures k > n ==> b == n
    ensures k < -(n as int) ==> b == 0
  {
    if k < 0 then (if k + n < 0 then 0 else k + n)
    else if k > n then n
    else k
  }

  /** `s[start:stop]`: the characters from the normalised start up to the
      normalised stop, none when the stop does not lie after the start. */
  function PySlice(s: string, start: int, stop: int): (r: string)
    ensures var lo, hi := SliceBound(start, |s|), SliceBound(stop, |s|);
      && |r| == (if lo < hi then hi - lo else 0)
      && forall i :: 0 <= i < |r| ==> r[i] == s[lo + i]
  {
    var lo, hi := SliceBound(start, |s|), SliceBound(stop, |s|);
    if lo < hi then s[lo..hi] else []
  }

  /** `s[a:-b]` for positive `b` drops the first `a` and the last `b`
      characters, and is empty when fewer than `a + b` characters are there. */
  lemma DropEnds(s: string, a: int, b: int)
    requires 0 <= a
    requires 0 < b
    ensures |s| < a + b ==> PySlice(s, a, -b) == []
    ensures a + b <= |s| ==> PySlice(s, a, -b) == s[a..|s| - b]
  {
  }

  /** Leading whitespace in front of a text that starts with a non-space
      character is exactly what `LStrip` removes. */
  lemma {:induction false} LStripSpacePrefix(ws: string, x: string)
    requires AllSpace(ws)
    requires x == [] || !IsSpace(x[0])
    ensures LStrip(ws + x) == x
  {
    if ws == [] {
      assert ws + x == x;
    } else {
      assert (ws + x)[0] == ws[0];
      assert (ws + x)[1..] == ws[1..] + x;
      LStripSpacePrefix(ws[1..], x);
    }
  }

  /** Trailing whitespace after a text that ends with a non-space character
      is exactly what `RStrip` removes. */
  lemma {:induction false} RStripSpaceSuffix(x: string, ws: string)
    requires AllSpace(ws)
    requires x == [] || !IsSpace(x[|x| - 1])
    ensures RStrip(x + ws) == x
  {
    if ws == [] {
      assert x + ws == x;
    } else {
      var s := x + ws;
      assert s[|s| - 1] == ws[|ws| - 1];
      assert s[..|s| - 1] == x + ws[..|ws| - 1];
      RStripSpaceSuffix(x, ws[..|ws| - 1]);
    }
  }

  /** `strip()` recovers a text with non-space ends from any surrounding
      whitespace. */
  lemma StripSurrounded(ws1: string, x: string, ws2: string)
    requires AllSpace(ws1) && AllSpace(ws2)
    requires x != [] && !IsSpace(x[0]) && !IsSpace(x[|x| - 1])
    ensures Strip(ws1 + x + ws2) == x
  {
    assert ws1 + x + ws2 == ws1 + (x + ws2);
    LStripSpacePrefix(ws1, x + ws2);
    RStripSpaceSuffix(x, ws2);
  }
}

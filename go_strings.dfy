/**
 * The three functions of Go's `strings` package that the RLS audit uses,
 * restricted to the one-character cutset and separator it passes them.
 */
module GoStrings {

  /** strings.TrimLeft with a one-character cutset: drop every leading `c`. */
  function TrimLeft(s: string, c: char): string
  {
    if |s| > 0 && s[0] == c then TrimLeft(s[1..], c) else s
  }

  /** strings.TrimRight with a one-character cutset: drop every trailing `c`. */
  function TrimRight(s: string, c: char): string
  {
    if |s| > 0 && s[|s| - 1] == c then TrimRight(s[..|s| - 1], c) else s
  }

  /**
   * strings.Trim(s, string(c)): never longer than `s`, and a string that
   * neither starts nor ends with `c` is left as it is.
   */
  function Trim(s: string, c: char): (r: string)
    ensures |r| <= |s|
    ensures |s| == 0 || (s[0] != c && s[|s| - 1] != c) ==> r == s
  {
    TrimLeftIsSuffix(s, c);
    TrimRightIsPrefix(TrimLeft(s, c), c);
    TrimRight(TrimLeft(s, c), c)
  }

  /** The index of the first `c` in `s`. */
  function IndexOf(s: string, c: char): (i: nat)
    requires c in s
    ensures i < |s| && s[i] == c && c !in s[..i]
  {
    if s[0] == c then 0 else 1 + IndexOf(s[1..], c)
  }

  /**
   * strings.Split(s, string(sep)): the pieces of `s` between occurrences of
   * `sep`. There is always at least one piece; Split("", sep) is [""].
   */
  function Split(s: string, sep: char): (parts: seq<string>)
    ensures |parts| >= 1
    decreases |s|
  {
    if sep in s then
      var i := IndexOf(s, sep);
      [s[..i]] + Split(s[i + 1..], sep)
    else
      [s]
  }

  /** strings.Join(parts, sep): empty for no parts, else it starts with the first part. */
  function Join(parts: seq<string>, sep: string): (r: string)
    ensures |parts| == 0 ==> r == ""
    ensures |parts| > 0 ==> |parts[0]| <= |r| && r[..|parts[0]|] == parts[0]
  {
    if |parts| == 0 then ""
    else if |parts| == 1 then parts[0]
    else parts[0] + sep + Join(parts[1..], sep)
  }

  lemma {:induction false} TrimLeftIsSuffix(s: string, c: char)
    ensures |TrimLeft(s, c)| <= |s|
    ensures TrimLeft(s, c) == s[|s| - |TrimLeft(s, c)|..]
    ensures forall k :: 0 <= k < |s| - |TrimLeft(s, c)| ==> s[k] == c
    ensures |TrimLeft(s, c)| == 0 || TrimLeft(s, c)[0] != c
  {
    if |s| > 0 && s[0] == c {
      TrimLeftIsSuffix(s[1..], c);
    }
  }

  lemma {:induction false} TrimRightIsPrefix(s: string, c: char)
    ensures |TrimRight(s, c)| <= |s|
    ensures TrimRight(s, c) == s[..|TrimRight(s, c)|]
    ensures forall k :: |TrimRight(s, c)| <= k < |s| ==> s[k] == c
    ensures |TrimRight(s, c)| == 0 || TrimRight(s, c)[|TrimRight(s, c)| - 1] != c
  {
    if |s| > 0 && s[|s| - 1] == c {
      TrimRightIsPrefix(s[..|s| - 1], c);
    }
  }

  /**
   * Trim removes `c` from the two ends of the whole string and nothing else:
   * the result is a slice s[a..b] with only `c` outside it, and it neither
   * starts nor ends with `c`.
   */
  lemma TrimRemovesOnlyTheEnds(s: string, c: char)
    ensures var r := Trim(s, c);
      exists a, b :: 0 <= a <= b <= |s| && s[a..b] == r
        && (forall k :: 0 <= k < a ==> s[k] == c)
        && (forall k :: b <= k < |s| ==> s[k] == c)
    ensures var r := Trim(s, c); |r| == 0 || (r[0] != c && r[|r| - 1] != c)
  {
    var l := TrimLeft(s, c);
    TrimLeftIsSuffix(s, c);
    TrimRightIsPrefix(l, c);
    var r := TrimRight(l, c);
    var a := |s| - |l|;
    var b := a + |r|;
    assert s[a..b] == r;
    forall k | b <= k < |s|
      ensures s[k] == c
    {
      assert s[k] == l[k - a];
    }
    if |r| > 0 {
      assert r[0] == l[0];
    }
  }

  /** Joining the pieces of a split with the separator gives back the string. */
  lemma {:induction false} JoinSplit(s: string, sep: char)
    ensures Join(Split(s, sep), [sep]) == s
    decreases |s|
  {
    if sep in s {
      var i := IndexOf(s, sep);
      var rest := s[i + 1..];
      JoinSplit(rest, sep);
      var parts := Split(s, sep);
      assert parts[1..] == Split(rest, sep);
      assert Join(parts, [sep]) == s[..i] + [sep] + rest;
      assert s == s[..i] + [sep] + rest;
    }
  }

  /** No piece of a split contains the separator. */
  lemma {:induction false} SplitPiecesLackSeparator(s: string, sep: char)
    ensures forall p :: p in Split(s, sep) ==> sep !in p
    decreases |s|
  {
    if sep in s {
      var i := IndexOf(s, sep);
      SplitPiecesLackSeparator(s[i + 1..], sep);
    }
  }
}

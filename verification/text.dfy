/** The two string operations the server actions apply to form fields:
    `slice(0, n)` (truncating observations) and `split(sep)` (separating the
    nationality from the country flag). Strings are sequences of characters. */
module Text {

  /** JavaScript's `s.slice(0, n)` for a non-negative `n`: the first `n`
      characters of `s`, or all of `s` when it is shorter. */
  function Slice(s: string, n: nat): (r: string)
    ensures r <= s
    ensures |r| == if |s| <= n then |s| else n
    ensures |s| <= n ==> r == s
  {
    if |s| <= n then s else s[..n]
  }

  /** Index of the first occurrence of `c` in `s`. */
  function FirstIndex(s: string, c: char): (i: nat)
    requires c in s
    ensures i < |s| && s[i] == c
    ensures c !in s[..i]
  {
    if s[0] == c then 0
    else
      var j := FirstIndex(s[1..], c);
      assert s[..j + 1] == [s[0]] + s[1..][..j];
      j + 1
  }

  /** JavaScript's `s.split(sep)` for a one-character separator: the pieces
      between consecutive separators, at least one piece (`"".split("%")` is
      `[""]`). The first piece is the text before the first separator. */
  function Split(s: string, sep: char): (pieces: seq<string>)
    ensures |pieces| >= 1
    ensures forall k :: 0 <= k < |pieces| ==> sep !in pieces[k]
    ensures pieces[0] <= s
    ensures |pieces[0]| < |s| ==> s[|pieces[0]|] == sep
    ensures |pieces| >= 2 <==> sep in s
    decreases |s|
  {
    if sep !in s then [s]
    else
      var i := FirstIndex(s, sep);
      [s[..i]] + Split(s[i + 1..], sep)
  }

  /** `pieces.join(sep)`: the pieces with one separator between neighbours. */
  function Join(pieces: seq<string>, sep: char): string
  {
    if |pieces| == 0 then ""
    else if |pieces| == 1 then pieces[0]
    else pieces[0] + [sep] + Join(pieces[1..], sep)
  }

  /** Splitting loses nothing: joining the pieces back gives the original text. */
  lemma {:induction false} JoinSplit(s: string, sep: char)
    ensures Join(Split(s, sep), sep) == s
    decreases |s|
  {
    if sep in s {
      var i := FirstIndex(s, sep);
      var rest := Split(s[i + 1..], sep);
      JoinSplit(s[i + 1..], sep);
      assert Split(s, sep) == [s[..i]] + rest;
      assert ([s[..i]] + rest)[1..] == rest;
      assert s == s[..i] + [sep] + s[i + 1..];
    }
  }

  /** In `a + sep + b` with no separator in `a`, the first separator sits right after `a`. */
  lemma FirstIndexAfterFreePrefix(a: string, sep: char, b: string)
    requires sep !in a
    ensures sep in a + [sep] + b
    ensures FirstIndex(a + [sep] + b, sep) == |a|
  {
    var s := a + [sep] + b;
    assert s[|a|] == sep;
    assert s[..|a|] == a;
  }

  /** Conversely, separator-free pieces joined and split again come back as they were. */
  lemma {:induction false} SplitJoin(pieces: seq<string>, sep: char)
    requires |pieces| >= 1
    requires forall k :: 0 <= k < |pieces| ==> sep !in pieces[k]
    ensures Split(Join(pieces, sep), sep) == pieces
  {
    if |pieces| > 1 {
      var a := pieces[0];
      var b := Join(pieces[1..], sep);
      var s := Join(pieces, sep);
      assert s == a + [sep] + b;
      FirstIndexAfterFreePrefix(a, sep, b);
      assert s[..|a|] == a;
      assert s[|a| + 1..] == b;
      SplitJoin(pieces[1..], sep);
      assert pieces == [a] + pieces[1..];
    }
  }
}

/**
 * The JavaScript string primitives the headline core relies on:
 * `toLowerCase`, `indexOf(needle, from)`, `join`, `replace` with a string
 * pattern, `trim`, `split` on a one-character separator and `slice(0, n)`.
 */
module Strings {

  // ---------------------------------------------------------------------
  // toLowerCase, restricted to the ASCII letters (a length-preserving map)
  // ---------------------------------------------------------------------

  function LowerChar(c: char): (d: char)
    ensures 'A' <= c <= 'Z' ==> d as int == c as int + 32
    ensures !('A' <= c <= 'Z') ==> d == c
  {
    if 'A' <= c <= 'Z' then (c as int + 32) as char else c
  }

  function Lower(s: string): (r: string)
    ensures |r| == |s|
    ensures forall i :: 0 <= i < |s| ==> r[i] == LowerChar(s[i])
  {
    if s == [] then [] else [LowerChar(s[0])] + Lower(s[1..])
  }

  // ---------------------------------------------------------------------
  // indexOf(needle, from)
  // ---------------------------------------------------------------------

  /** needle occurs in hay starting at position k. */
  predicate MatchesAt(hay: string, needle: string, k: nat) {
    k + |needle| <= |hay| && hay[k..k + |needle|] == needle
  }

  function Min(a: nat, b: nat): nat {
    if a <= b then a else b
  }

  /**
   * `hay.indexOf(needle, from)`: the search starts at `from` clamped to the
   * length of `hay`; the result is -1 or a position where the needle fits.
   */
  function IndexOf(hay: string, needle: string, from: nat): (r: int)
    ensures r == -1 || (Min(from, |hay|) <= r && r + |needle| <= |hay|)
    decreases |hay| - Min(from, |hay|)
  {
    var start := Min(from, |hay|);
    if start + |needle| > |hay| then -1
    else if hay[start..start + |needle|] == needle then start
    else IndexOf(hay, needle, start + 1)
  }

  /**
   * The result is the first position at or after the clamped start where
   * the needle occurs, and -1 exactly when it occurs at no such position.
   */
  lemma {:induction false} IndexOfLeftmost(hay: string, needle: string, from: nat)
    ensures IndexOf(hay, needle, from) != -1 ==> MatchesAt(hay, needle, IndexOf(hay, needle, from))
    ensures forall k: nat :: Min(from, |hay|) <= k && (IndexOf(hay, needle, from) == -1 || k < IndexOf(hay, needle, from))
              ==> !MatchesAt(hay, needle, k)
    decreases |hay| - Min(from, |hay|)
  {
    var start := Min(from, |hay|);
    if start + |needle| <= |hay| && hay[start..start + |needle|] != needle {
      IndexOfLeftmost(hay, needle, start + 1);
    }
  }

  /** Conversely, the first occurrence at or after the clamped start is the result. */
  lemma IndexOfFinds(hay: string, needle: string, from: nat, p: nat)
    requires Min(from, |hay|) <= p && MatchesAt(hay, needle, p)
    requires forall k: nat :: Min(from, |hay|) <= k < p ==> !MatchesAt(hay, needle, k)
    ensures IndexOf(hay, needle, from) == p
  {
    IndexOfLeftmost(hay, needle, from);
  }

  /** The empty needle is found at the (clamped) start position. */
  lemma IndexOfEmpty(hay: string, from: nat)
    ensures IndexOf(hay, "", from) == Min(from, |hay|)
  {
    assert hay[Min(from, |hay|)..Min(from, |hay|)] == "";
  }

  // ---------------------------------------------------------------------
  // join(sep)
  // ---------------------------------------------------------------------

  function Join(xs: seq<string>, sep: string): string
    decreases |xs|
  {
    if |xs| == 0 then ""
    else if |xs| == 1 then xs[0]
    else xs[0] + sep + Join(xs[1..], sep)
  }

  // ---------------------------------------------------------------------
  // replace(pattern, replacement) with a string pattern: first occurrence only
  // ---------------------------------------------------------------------

  function ReplaceFirst(s: string, pattern: string, replacement: string): (r: string)
    ensures (forall k: nat :: !MatchesAt(s, pattern, k)) ==> r == s
    ensures forall i: nat :: MatchesAt(s, pattern, i) && (forall k: nat :: k < i ==> !MatchesAt(s, pattern, k))
              ==> r == s[..i] + replacement + s[i + |pattern|..]
  {
    IndexOfLeftmost(s, pattern, 0);
    var i := IndexOf(s, pattern, 0);
    if i == -1 then s else s[..i] + replacement + s[i + |pattern|..]
  }

  // ---------------------------------------------------------------------
  // trim(): the ECMAScript WhiteSpace and LineTerminator characters
  // ---------------------------------------------------------------------

  predicate IsJsSpace(c: char) {
    var k := c as int;
    (9 <= k <= 13) || k == 32 || k == 0xA0 || k == 0x1680 || (0x2000 <= k <= 0x200A)
    || k == 0x2028 || k == 0x2029 || k == 0x202F || k == 0x205F || k == 0x3000 || k == 0xFEFF
  }

  predicate AllSpace(s: string) {
    forall i :: 0 <= i < |s| ==> IsJsSpace(s[i])
  }

  function TrimStart(s: string): (r: string)
    ensures |r| <= |s| && r == s[|s| - |r|..]
    ensures r == [] || !IsJsSpace(r[0])
    ensures AllSpace(s[..|s| - |r|])
  {
    if s != [] && IsJsSpace(s[0]) then TrimStart(s[1..]) else s
  }

  function TrimEnd(s: string): (r: string)
    ensures |r| <= |s| && r == s[..|r|]
    ensures r == [] || !IsJsSpace(r[|r| - 1])
    ensures AllSpace(s[|r|..])
  {
    if s != [] && IsJsSpace(s[|s| - 1]) then TrimEnd(s[..|s| - 1]) else s
  }

  /** r occurs in s starting at position i. */
  predicate SliceAt(s: string, r: string, i: nat) {
    i + |r| <= |s| && s[i..i + |r|] == r
  }

  /** `s.trim()`: s without its leading and trailing white space. */
  function Trim(s: string): (r: string)
    ensures r == [] || (!IsJsSpace(r[0]) && !IsJsSpace(r[|r| - 1]))
    ensures r == [] <==> AllSpace(s)
    ensures exists i: nat :: SliceAt(s, r, i) && AllSpace(s[..i]) && AllSpace(s[i + |r|..])
  {
    var t := TrimStart(s);
    var r := TrimEnd(t);
    TrimFacts(s, t, r);
    r
  }

  lemma TrimFacts(s: string, t: string, r: string)
    requires t == TrimStart(s) && r == TrimEnd(t)
    ensures r == [] || !IsJsSpace(r[0])
    ensures r == [] <==> AllSpace(s)
    ensures exists i: nat :: SliceAt(s, r, i) && AllSpace(s[..i]) && AllSpace(s[i + |r|..])
  {
    TrimEmptyIffSpace(s, t, r);
    TrimIsSlice(s, t, r);
  }

  lemma TrimIsSlice(s: string, t: string, r: string)
    requires t == TrimStart(s) && r == TrimEnd(t)
    ensures exists i: nat :: SliceAt(s, r, i) && AllSpace(s[..i]) && AllSpace(s[i + |r|..])
  {
    var i := |s| - |t|;
    assert t == s[i..];
    assert r == t[..|r|];
    assert s[i + |r|..] == t[|r|..];
    assert SliceAt(s, r, i) && AllSpace(s[..i]) && AllSpace(s[i + |r|..]);
  }

  lemma TrimEmptyIffSpace(s: string, t: string, r: string)
    requires t == TrimStart(s) && r == TrimEnd(t)
    ensures r == [] <==> AllSpace(s)
  {
    var i := |s| - |t|;
    if r == [] {
      assert s == s[..i] + t;
    } else {
      assert r[0] == t[0] == s[i];
    }
  }

  // ---------------------------------------------------------------------
  // split(" "): split on a one-character separator
  // ---------------------------------------------------------------------

  function Count(s: string, c: char): nat {
    if s == [] then 0 else (if s[0] == c then 1 else 0) + Count(s[1..], c)
  }

  function Split(s: string, sep: char): (pieces: seq<string>)
    ensures |pieces| >= 1
  {
    if s == [] then [""]
    else
      var rest := Split(s[1..], sep);
      if s[0] == sep then [""] + rest else [[s[0]] + rest[0]] + rest[1..]
  }

  /**
   * Splitting yields one more piece than there are separators, no piece
   * contains the separator, and joining the pieces with it gives s back.
   */
  lemma {:induction false} SplitFacts(s: string, sep: char)
    ensures |Split(s, sep)| == Count(s, sep) + 1
    ensures forall j, k :: 0 <= j < |Split(s, sep)| && 0 <= k < |Split(s, sep)[j]| ==> Split(s, sep)[j][k] != sep
    ensures Join(Split(s, sep), [sep]) == s
  {
    if s != [] {
      var rest := Split(s[1..], sep);
      SplitFacts(s[1..], sep);
      var pieces := Split(s, sep);
      if s[0] == sep {
        assert pieces == [""] + rest;
        assert pieces[1..] == rest;
      } else {
        assert pieces == [[s[0]] + rest[0]] + rest[1..];
        if |rest| == 1 {
          assert Join(pieces, [sep]) == [s[0]] + rest[0];
          assert Join(rest, [sep]) == rest[0];
        } else {
          assert pieces[1..] == rest[1..];
          assert Join(rest, [sep]) == rest[0] + [sep] + Join(rest[1..], [sep]);
        }
      }
    }
  }

  /** Splitting a separator-free prefix followed by t glues the prefix onto the first piece of t. */
  lemma {:induction false} SplitPrefix(a: string, t: string, sep: char)
    requires sep !in a
    ensures Split(a + t, sep) == [a + Split(t, sep)[0]] + Split(t, sep)[1..]
    decreases |a|
  {
    if a != [] {
      var a' := a[1..];
      assert a + t == [a[0]] + (a' + t);
      assert (a + t)[1..] == a' + t;
      assert sep !in a' by {
        forall c | c in a' ensures c != sep {
          var k :| 0 <= k < |a'| && a'[k] == c;
          assert a[k + 1] == c;
        }
      }
      SplitPrefix(a', t, sep);
      assert (a + t)[0] == a[0] != sep;
      assert [a[0]] + (a' + Split(t, sep)[0]) == a + Split(t, sep)[0];
    } else {
      var x := Split(t, sep);
      assert a + t == t;
      assert a + x[0] == x[0];
      assert [x[0]] + x[1..] == x;
    }
  }

  /**
   * Splitting the lines joined with the separator gives the lines back,
   * when no line contains the separator.
   */
  lemma {:induction false} SplitJoin(lines: seq<string>, sep: char)
    requires |lines| >= 1
    requires forall i :: 0 <= i < |lines| ==> sep !in lines[i]
    ensures Split(Join(lines, [sep]), sep) == lines
    decreases |lines|
  {
    if |lines| == 1 {
      SplitPrefix(lines[0], [], sep);
      assert lines[0] + [] == lines[0];
    } else {
      var rest := Join(lines[1..], [sep]);
      SplitJoin(lines[1..], sep);
      assert Join(lines, [sep]) == lines[0] + ([sep] + rest);
      SplitPrefix(lines[0], [sep] + rest, sep);
      assert ([sep] + rest)[1..] == rest;
      assert Split([sep] + rest, sep) == [""] + lines[1..];
      assert lines[0] + "" == lines[0];
      assert lines == [lines[0]] + lines[1..];
    }
  }

  // ---------------------------------------------------------------------
  // slice(0, n)
  // ---------------------------------------------------------------------

  function Take(s: string, n: nat): (r: string)
    ensures |r| == Min(n, |s|)
    ensures r == s[..|r|]
  {
    if n <= |s| then s[..n] else s
  }
}

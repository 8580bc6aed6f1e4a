/**
 * The few operations on Python strings that the segmenter and the scorer use:
 * `str.strip()`, `str.split(sep)`, `str.split()`, `sep.join(...)`, `str.lower()`
 * and the `in` test for substrings. Characters are Dafny `char`s; whitespace and
 * case are those of ASCII, the only part of Unicode this model covers.
 */
module Strings {

  /** Python's `str.isspace()` on ASCII: space, tab, line feed, vertical tab,
      form feed, carriage return and the four separators 0x1C-0x1F. */
  predicate IsSpace(c: char) {
    var n := c as int;
    n == 32 || 9 <= n <= 13 || 28 <= n <= 31
  }

  predicate NoSpace(s: string) {
    forall i :: 0 <= i < |s| ==> !IsSpace(s[i])
  }

  predicate AllSpace(s: string) {
    forall i :: 0 <= i < |s| ==> IsSpace(s[i])
  }

  /** The length of the whitespace run at the front of `s`. */
  function LeadingSpace(s: string): (n: nat)
    ensures n <= |s| && AllSpace(s[..n])
    ensures n < |s| ==> !IsSpace(s[n])
  {
    if s != [] && IsSpace(s[0]) then
      var n := LeadingSpace(s[1..]);
      assert s[..n + 1] == [s[0]] + s[1..][..n];
      n + 1
    else 0
  }

  /** Where the whitespace run at the back of `s` begins. */
  function TrailingSpaceStart(s: string): (n: nat)
    ensures n <= |s| && AllSpace(s[n..])
    ensures n > 0 ==> !IsSpace(s[n - 1])
  {
    if s != [] && IsSpace(s[|s| - 1]) then
      var n := TrailingSpaceStart(s[..|s| - 1]);
      assert s[n..] == s[..|s| - 1][n..] + [s[|s| - 1]];
      n
    else |s|
  }

  /** `r` is what is left of `s` once the whitespace run `s[..i]` in front
      and the whitespace run after `i + |r|` are removed. */
  predicate StrippedAt(s: string, r: string, i: nat) {
    i + |r| <= |s| && s[i..i + |r|] == r && AllSpace(s[..i]) && AllSpace(s[i + |r|..])
  }

  /** `s.strip()`: the infix of `s` left after removing whitespace at both ends. */
  function Strip(s: string): (r: string)
    ensures r == [] || (!IsSpace(r[0]) && !IsSpace(r[|r| - 1]))
    ensures exists i: nat :: StrippedAt(s, r, i)
  {
    var i := LeadingSpace(s);
    var t := s[i..];
    var n := TrailingSpaceStart(t);
    var r := t[..n];
    assert s[i..i + |r|] == r;
    assert s[i + |r|..] == t[n..];
    assert StrippedAt(s, r, i);
    r
  }

  /** `sep.join(ws)` for a one-character separator. */
  function Join(ws: seq<string>, sep: char): (s: string)
    decreases |ws|
  {
    if ws == [] then []
    else if |ws| == 1 then ws[0]
    else Join(ws[..|ws| - 1], sep) + [sep] + ws[|ws| - 1]
  }

  /** `s.split(sep)` for a one-character separator: the pieces between the
      occurrences of `sep`, always at least one. */
  function Split(s: string, sep: char): (ws: seq<string>)
    ensures |ws| >= 1
    decreases |s|
  {
    if s == [] then [[]]
    else
      var r := Split(s[..|s| - 1], sep);
      var c := s[|s| - 1];
      if c == sep then r + [[]]
      else r[..|r| - 1] + [r[|r| - 1] + [c]]
  }

  /** No piece of a split contains the separator. */
  lemma {:induction false} SplitPiecesOmitSeparator(s: string, sep: char)
    ensures forall i :: 0 <= i < |Split(s, sep)| ==> sep !in Split(s, sep)[i]
    decreases |s|
  {
    if s != [] {
      var r := Split(s[..|s| - 1], sep);
      SplitPiecesOmitSeparator(s[..|s| - 1], sep);
      var c := s[|s| - 1];
      var ws := Split(s, sep);
      forall i | 0 <= i < |ws| ensures sep !in ws[i] {
        if i < |r| - 1 {
          assert ws[i] == r[i];
        } else if c == sep {
          if i == |r| - 1 {
            assert ws[i] == r[i];
          }
        } else {
          assert sep !in r[|r| - 1];
          assert ws[i] == r[|r| - 1] + [c];
        }
      }
    }
  }

  /** Joining the pieces of a split with the separator gives the string back. */
  lemma {:induction false} JoinSplit(s: string, sep: char)
    ensures Join(Split(s, sep), sep) == s
    decreases |s|
  {
    if s != [] {
      var s' := s[..|s| - 1];
      var c := s[|s| - 1];
      var r := Split(s', sep);
      JoinSplit(s', sep);
      assert s == s' + [c];
      if c == sep {
        assert (r + [[]])[..|r|] == r;
      } else {
        var r' := r[..|r| - 1] + [r[|r| - 1] + [c]];
        assert r'[..|r| - 1] == r[..|r| - 1];
        if |r| > 1 {
          assert Join(r, sep) == Join(r[..|r| - 1], sep) + [sep] + r[|r| - 1];
        }
      }
    }
  }

  /** A whitespace-separated token of `s` starts at index `i`. */
  predicate TokenStartsAt(s: string, i: nat)
    requires i < |s|
  {
    !IsSpace(s[i]) && (i == 0 || IsSpace(s[i - 1]))
  }

  /** `len(s.split())`: the number of maximal runs of non-whitespace in `s`,
      counted by where each run starts. */
  function TokenCount(s: string): nat
    decreases |s|
  {
    if s == [] then 0
    else TokenCount(s[..|s| - 1]) + (if TokenStartsAt(s, |s| - 1) then 1 else 0)
  }

  /** Token counts add up across a cut that falls on whitespace. */
  lemma {:induction false} TokenCountAppend(a: string, b: string)
    requires a == [] || b == [] || IsSpace(a[|a| - 1]) || IsSpace(b[0])
    ensures TokenCount(a + b) == TokenCount(a) + TokenCount(b)
    decreases |b|
  {
    if b == [] {
      assert a + b == a;
    } else {
      var b' := b[..|b| - 1];
      assert (a + b)[..|a + b| - 1] == a + b';
      if b' == [] {
        assert a + b' == a;
      } else {
        TokenCountAppend(a, b');
        assert (a + b)[|a + b| - 2] == b[|b| - 2];
      }
    }
  }

  /** A non-empty string without whitespace is one token. */
  lemma {:induction false} TokenCountWord(w: string)
    requires w != [] && NoSpace(w)
    ensures TokenCount(w) == 1
    decreases |w|
  {
    if |w| > 1 {
      TokenCountWord(w[..|w| - 1]);
    }
  }

  /** Non-empty, whitespace-free words joined with single spaces are that many tokens. */
  lemma {:induction false} TokenCountJoin(ws: seq<string>)
    requires forall i :: 0 <= i < |ws| ==> ws[i] != [] && NoSpace(ws[i])
    ensures TokenCount(Join(ws, ' ')) == |ws|
    decreases |ws|
  {
    if |ws| == 1 {
      TokenCountWord(ws[0]);
    } else if |ws| > 1 {
      var init := ws[..|ws| - 1];
      var w := ws[|ws| - 1];
      TokenCountJoin(init);
      TokenCountAppend(Join(init, ' '), [' ']);
      TokenCountAppend(Join(init, ' ') + [' '], w);
      TokenCountWord(w);
    }
  }

  /** ASCII `str.lower()` of one character. */
  function LowerChar(c: char): char {
    if 'A' <= c <= 'Z' then (c as int + 32) as char else c
  }

  /** `s.lower()`, character by character. */
  function Lower(s: string): (r: string)
    ensures |r| == |s|
    ensures forall i :: 0 <= i < |s| ==> r[i] == LowerChar(s[i])
  {
    if s == [] then [] else Lower(s[..|s| - 1]) + [LowerChar(s[|s| - 1])]
  }

  /** Lowering distributes over concatenation. */
  lemma LowerConcat(a: string, b: string)
    ensures Lower(a + b) == Lower(a) + Lower(b)
  {
  }

  /** `needle` occurs in `hay` starting at index `i`. */
  predicate OccursAt(hay: string, needle: string, i: nat) {
    i + |needle| <= |hay| && hay[i..i + |needle|] == needle
  }

  /** `needle in hay`: `needle` occurs as a contiguous infix of `hay`. */
  function Contains(hay: string, needle: string): (b: bool)
    ensures b <==> exists i: nat :: OccursAt(hay, needle, i)
    decreases |hay|
  {
    if |needle| > |hay| then false
    else if hay[..|needle|] == needle then
      assert OccursAt(hay, needle, 0);
      true
    else
      var b := Contains(hay[1..], needle);
      assert b ==> exists i: nat :: OccursAt(hay, needle, i) by {
        if b {
          var j: nat :| OccursAt(hay[1..], needle, j);
          assert hay[j + 1..j + 1 + |needle|] == hay[1..][j..j + |needle|];
          assert OccursAt(hay, needle, j + 1);
        }
      }
      assert (exists i: nat :: OccursAt(hay, needle, i)) ==> b by {
        if exists i: nat :: OccursAt(hay, needle, i) {
          var i: nat :| OccursAt(hay, needle, i);
          assert i != 0;
          assert hay[1..][i - 1..i - 1 + |needle|] == hay[i..i + |needle|];
          assert OccursAt(hay[1..], needle, i - 1);
        }
      }
      b
  }

  /** An infix of `b` is an infix of anything `b` is an infix of. */
  lemma ContainsWithin(a: string, b: string, c: string, needle: string)
    requires Contains(b, needle)
    ensures Contains(a + b + c, needle)
  {
    var i: nat :| OccursAt(b, needle, i);
    assert (a + b + c)[|a| + i..|a| + i + |needle|] == b[i..i + |needle|];
    assert OccursAt(a + b + c, needle, |a| + i);
  }
}

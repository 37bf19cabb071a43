/**
  The JavaScript string operations the pages rely on, over `seq<char>`:
  `toLowerCase` (ASCII letters only), `includes`, `trim`,
  `replace(pattern, replacement)` with a string pattern (first occurrence
  only) and `split(sep)` with a one-character separator. `Join` is the
  inverse of `split`, used to state what `split` returns.
 */
module Text {

  /** `c.toLowerCase()` for one character: upper-case ASCII letters map to
      their lower-case form, everything else is unchanged. */
  function LowerChar(c: char): (r: char)
    ensures 'A' <= c <= 'Z' ==> r as int == c as int + 32
    ensures !('A' <= c <= 'Z') ==> r == c
  {
    if 'A' <= c <= 'Z' then (c as int + 32) as char else c
  }

  /** `s.toLowerCase()`, character by character. */
  function Lower(s: string): (r: string)
    ensures |r| == |s|
    ensures forall i :: 0 <= i < |s| ==> r[i] == LowerChar(s[i])
  {
    seq(|s|, i requires 0 <= i < |s| => LowerChar(s[i]))
  }

  /** `t` occurs in `s` starting at index `i`. */
  predicate OccursAt(s: string, t: string, i: int) {
    0 <= i <= |s| - |t| && s[i..i + |t|] == t
  }

  /** `s.includes(t)`: `t` occurs in `s` as a contiguous block. Only a
      string no longer than `s` can occur in it, and every prefix does. */
  predicate Contains(s: string, t: string)
    ensures Contains(s, t) ==> |t| <= |s|
    ensures t <= s ==> Contains(s, t)
  {
    assert t <= s ==> OccursAt(s, t, 0);
    exists i | 0 <= i <= |s| :: OccursAt(s, t, i)
  }

  /** The empty string occurs in every string. */
  lemma ContainsEmpty(s: string)
    ensures Contains(s, "")
  {
    assert OccursAt(s, "", 0);
  }

  /** `includes` is transitive. */
  lemma ContainsTransitive(a: string, b: string, c: string)
    requires Contains(a, b) && Contains(b, c)
    ensures Contains(a, c)
  {
    var i :| 0 <= i <= |a| && OccursAt(a, b, i);
    var j :| 0 <= j <= |b| && OccursAt(b, c, j);
    forall k | 0 <= k < |c| ensures a[i + j + k] == c[k] {
      assert c[k] == b[j..j + |c|][k] == b[j + k];
      assert b[j + k] == a[i..i + |b|][j + k];
    }
    assert a[i + j..i + j + |c|] == c;
    assert OccursAt(a, c, i + j);
  }

  /** Lower-casing both strings keeps an occurrence an occurrence. */
  lemma LowerKeepsContains(s: string, t: string)
    requires Contains(s, t)
    ensures Contains(Lower(s), Lower(t))
  {
    var i :| 0 <= i <= |s| && OccursAt(s, t, i);
    forall k | 0 <= k < |t| ensures Lower(s)[i + k] == Lower(t)[k] {
      assert t[k] == s[i..i + |t|][k] == s[i + k];
    }
    assert Lower(s)[i..i + |t|] == Lower(t);
    assert OccursAt(Lower(s), Lower(t), i);
  }

  /** The characters `String.prototype.trim` removes: ECMAScript's
      WhiteSpace and LineTerminator code points. No ASCII letter or digit is
      one of them. */
  predicate IsWhitespace(c: char)
    ensures ('a' <= c <= 'z' || 'A' <= c <= 'Z' || '0' <= c <= '9') ==> !IsWhitespace(c)
  {
    c == '\t' || c == '\n' || c == '\U{0B}' || c == '\U{0C}' || c == '\r' ||
    c == ' ' || c == '\U{A0}' || c == '\U{1680}' || ('\U{2000}' <= c <= '\U{200A}') ||
    c == '\U{2028}' || c == '\U{2029}' || c == '\U{202F}' || c == '\U{205F}' ||
    c == '\U{3000}' || c == '\U{FEFF}'
  }

  function TrimStart(s: string): (r: string)
    ensures |r| <= |s| && r == s[|s| - |r|..]
    ensures r != [] ==> !IsWhitespace(r[0])
    ensures forall i :: 0 <= i < |s| - |r| ==> IsWhitespace(s[i])
  {
    if s != [] && IsWhitespace(s[0]) then TrimStart(s[1..]) else s
  }

  function TrimEnd(s: string): (r: string)
    ensures |r| <= |s| && r == s[..|r|]
    ensures r != [] ==> !IsWhitespace(r[|r| - 1])
    ensures forall i :: |r| <= i < |s| ==> IsWhitespace(s[i])
  {
    if s != [] && IsWhitespace(s[|s| - 1]) then TrimEnd(s[..|s| - 1]) else s
  }

  /** `s.trim()`: `s` without its leading and trailing whitespace. */
  function Trim(s: string): (r: string)
    ensures |r| <= |s|
    ensures r != [] ==> !IsWhitespace(r[0]) && !IsWhitespace(r[|r| - 1])
  {
    var t := TrimStart(s);
    var r := TrimEnd(t);
    assert r != [] ==> r[0] == t[0];
    r
  }

  /** `r` occurs in `s` at `k` and everything around it is whitespace. */
  predicate PaddedAt(s: string, r: string, k: int) {
    OccursAt(s, r, k) &&
    (forall i :: 0 <= i < k ==> IsWhitespace(s[i])) &&
    (forall i :: k + |r| <= i < |s| ==> IsWhitespace(s[i]))
  }

  /** A block cut from the end of `s` after a whitespace prefix, with a
      whitespace suffix cut off in turn, is padded by whitespace in `s`. */
  lemma PaddedByParts(s: string, t: string, r: string)
    requires |t| <= |s| && s[|s| - |t|..] == t
    requires |r| <= |t| && t[..|r|] == r
    requires forall i :: 0 <= i < |s| - |t| ==> IsWhitespace(s[i])
    requires forall i :: |r| <= i < |t| ==> IsWhitespace(t[i])
    ensures PaddedAt(s, r, |s| - |t|)
  {
    var k := |s| - |t|;
    assert s[k..k + |r|] == r by {
      assert s[k..k + |r|] == s[k..][..|r|];
    }
    forall i | k + |r| <= i < |s| ensures IsWhitespace(s[i]) {
      assert s[i] == s[k..][i - k];
    }
  }

  /** What `trim` returns is a block of `s` that neither starts nor ends with
      whitespace, and only whitespace was cut on either side. */
  lemma TrimIsInnerBlock(s: string)
    ensures exists k :: PaddedAt(s, Trim(s), k)
    ensures Trim(s) != [] ==> !IsWhitespace(Trim(s)[0]) && !IsWhitespace(Trim(s)[|Trim(s)| - 1])
  {
    var t := TrimStart(s);
    PaddedByParts(s, t, TrimEnd(t));
    assert PaddedAt(s, Trim(s), |s| - |t|);
  }

  /** `s.trim()` is empty exactly when every character of `s` is whitespace. */
  lemma TrimEmptyIff(s: string)
    ensures Trim(s) == "" <==> forall i :: 0 <= i < |s| ==> IsWhitespace(s[i])
  {
    var t := TrimStart(s);
    if Trim(s) == "" {
      // a non-empty remainder would start with a character trim keeps
      assert t == [];
    } else {
      var k :| PaddedAt(s, Trim(s), k) by { TrimIsInnerBlock(s); }
      assert !IsWhitespace(s[k]) by { TrimIsInnerBlock(s); }
    }
  }

  /** `s.replace(from, to)` where the pattern is a one-character string:
      only the first occurrence is replaced. */
  function ReplaceFirst(s: string, from: char, to: char): (r: string)
    ensures |r| == |s|
  {
    if s == [] then []
    else if s[0] == from then [to] + s[1..]
    else [s[0]] + ReplaceFirst(s[1..], from, to)
  }

  /** Without an occurrence nothing is replaced. */
  lemma {:induction false} ReplaceFirstAbsent(s: string, from: char, to: char)
    requires from !in s
    ensures ReplaceFirst(s, from, to) == s
  {
    if s != [] {
      assert from !in s[1..] by { assert forall c :: c in s[1..] ==> c in s; }
      ReplaceFirstAbsent(s[1..], from, to);
      assert s == [s[0]] + s[1..];
    }
  }

  /** The character at the first occurrence becomes `to`, and no other. */
  lemma {:induction false} ReplaceFirstAt(s: string, from: char, to: char, i: int)
    requires 0 <= i < |s| && s[i] == from && from !in s[..i]
    ensures ReplaceFirst(s, from, to) == s[..i] + [to] + s[i + 1..]
    decreases i
  {
    var t := s[1..];
    if i == 0 {
      assert s[..i] == [] && s[i + 1..] == t;
    } else {
      assert s[0] in s[..i];
      assert t[i - 1] == from;
      assert from !in t[..i - 1] by {
        assert forall c :: c in t[..i - 1] ==> c in s[..i] by {
          assert t[..i - 1] == s[1..i];
        }
      }
      ReplaceFirstAt(t, from, to, i - 1);
      assert s[..i] == [s[0]] + t[..i - 1];
      assert s[i + 1..] == t[i..];
    }
  }

  /** Without an occurrence nothing is replaced; otherwise exactly the
      character at the first occurrence becomes `to`. */
  lemma ReplaceFirstSpec(s: string, from: char, to: char)
    ensures from !in s ==> ReplaceFirst(s, from, to) == s
    ensures forall i :: 0 <= i < |s| && s[i] == from && from !in s[..i] ==>
      ReplaceFirst(s, from, to) == s[..i] + [to] + s[i + 1..]
  {
    if from !in s {
      ReplaceFirstAbsent(s, from, to);
    }
    forall i | 0 <= i < |s| && s[i] == from && from !in s[..i]
      ensures ReplaceFirst(s, from, to) == s[..i] + [to] + s[i + 1..]
    {
      ReplaceFirstAt(s, from, to, i);
    }
  }

  /** Every character `ReplaceFirst` writes is either kept or `to`. */
  lemma {:induction false} ReplaceFirstOnlyChangesTarget(s: string, from: char, to: char)
    ensures forall i :: 0 <= i < |s| ==>
      ReplaceFirst(s, from, to)[i] == s[i] || ReplaceFirst(s, from, to)[i] == to
  {
    if s != [] && s[0] != from {
      ReplaceFirstOnlyChangesTarget(s[1..], from, to);
      var r := ReplaceFirst(s, from, to);
      forall i | 0 <= i < |s| ensures r[i] == s[i] || r[i] == to {
        if i > 0 { assert r[i] == ReplaceFirst(s[1..], from, to)[i - 1]; }
      }
    }
  }

  /** `s.split(sep)`: the maximal blocks of `s` between separators. A string
      without a separator gives one segment, possibly empty. */
  function Split(s: string, sep: char): (r: seq<string>)
    ensures |r| >= 1
  {
    if s == [] then [[]]
    else
      var rest := Split(s[1..], sep);
      if s[0] == sep then [[]] + rest
      else [[s[0]] + rest[0]] + rest[1..]
  }

  /** The total length of the segments. */
  function TotalLength(segs: seq<string>): nat {
    if segs == [] then 0 else |segs[0]| + TotalLength(segs[1..])
  }

  /** The segments with one separator between each two, so one character
      fewer than the segments and a separator each: the inverse of `Split`,
      used to state what `split` returns. */
  function Join(segs: seq<string>, sep: char): (r: string)
    ensures segs != [] ==> |r| + 1 == TotalLength(segs) + |segs|
    ensures segs == [] ==> r == []
  {
    if segs == [] then []
    else if |segs| == 1 then segs[0]
    else segs[0] + [sep] + Join(segs[1..], sep)
  }

  /** Splitting never leaves a separator inside a segment. */
  lemma {:induction false} SplitSegmentsFree(s: string, sep: char)
    ensures forall k :: 0 <= k < |Split(s, sep)| ==> sep !in Split(s, sep)[k]
  {
    if s != [] {
      var rest := Split(s[1..], sep);
      SplitSegmentsFree(s[1..], sep);
      var r := Split(s, sep);
      if s[0] == sep {
        assert r == [[]] + rest;
        forall k | 0 <= k < |r| ensures sep !in r[k] {
          if k > 0 { assert r[k] == rest[k - 1]; }
        }
      } else {
        assert r == [[s[0]] + rest[0]] + rest[1..];
        forall k | 0 <= k < |r| ensures sep !in r[k] {
          if k > 0 { assert r[k] == rest[k]; }
        }
      }
    }
  }

  /** An empty first segment contributes only its separator. */
  lemma JoinEmptyHead(rest: seq<string>, sep: char)
    requires rest != []
    ensures Join([[]] + rest, sep) == [sep] + Join(rest, sep)
  {
    var x := [[]] + rest;
    assert x[0] == [] && x[1..] == rest && |x| >= 2;
  }

  /** A character put in front of the first segment comes first in the join. */
  lemma JoinConsHead(c: char, rest: seq<string>, sep: char)
    requires rest != []
    ensures Join([[c] + rest[0]] + rest[1..], sep) == [c] + Join(rest, sep)
  {
    var x := [[c] + rest[0]] + rest[1..];
    assert x[0] == [c] + rest[0] && x[1..] == rest[1..] && |x| == |rest|;
    if |rest| > 1 {
      assert Join(rest, sep) == rest[0] + [sep] + Join(rest[1..], sep);
      assert Join(x, sep) == ([c] + rest[0]) + [sep] + Join(rest[1..], sep);
    }
  }

  /** Joining the segments back with the separator gives the original
      string. */
  lemma {:induction false} SplitThenJoin(s: string, sep: char)
    ensures Join(Split(s, sep), sep) == s
  {
    if s != [] {
      var t := s[1..];
      SplitThenJoin(t, sep);
      var rest := Split(t, sep);
      assert s == [s[0]] + t;
      if s[0] == sep {
        assert Split(s, sep) == [[]] + rest;
        JoinEmptyHead(rest, sep);
      } else {
        assert Split(s, sep) == [[s[0]] + rest[0]] + rest[1..];
        JoinConsHead(s[0], rest, sep);
      }
    }
  }

  /** Splitting never leaves a separator inside a segment, and joining the
      segments back with the separator gives the original string. */
  lemma SplitJoin(s: string, sep: char)
    ensures Join(Split(s, sep), sep) == s
    ensures forall k :: 0 <= k < |Split(s, sep)| ==> sep !in Split(s, sep)[k]
  {
    SplitThenJoin(s, sep);
    SplitSegmentsFree(s, sep);
  }

  /** Splitting a block without separators followed by a separator gives the
      block as the first segment. */
  lemma {:induction false} SplitAfterBlock(a: string, sep: char, t: string)
    requires sep !in a
    ensures Split(a + [sep] + t, sep) == [a] + Split(t, sep)
  {
    var s := a + [sep] + t;
    if a == [] {
      assert s[1..] == t;
    } else {
      assert sep !in a[1..] by { assert forall c :: c in a[1..] ==> c in a; }
      SplitAfterBlock(a[1..], sep, t);
      assert s[1..] == a[1..] + [sep] + t;
      assert [a[0]] + a[1..] == a;
    }
  }

  /** The other round trip: segments without the separator, joined with it,
      split back into the same segments. */
  lemma {:induction false} JoinSplit(segs: seq<string>, sep: char)
    requires segs != []
    requires forall k :: 0 <= k < |segs| ==> sep !in segs[k]
    ensures Split(Join(segs, sep), sep) == segs
  {
    if |segs| == 1 {
      SplitWithoutSeparator(segs[0], sep);
    } else {
      JoinSplit(segs[1..], sep);
      SplitAfterBlock(segs[0], sep, Join(segs[1..], sep));
      assert [segs[0]] + segs[1..] == segs;
    }
  }

  /** A string with no separator splits into itself alone. */
  lemma {:induction false} SplitWithoutSeparator(s: string, sep: char)
    requires sep !in s
    ensures Split(s, sep) == [s]
  {
    if s != [] {
      assert sep !in s[1..] by { assert forall c :: c in s[1..] ==> c in s; }
      SplitWithoutSeparator(s[1..], sep);
      assert [s[0]] + s[1..] == s;
    }
  }
}

/** The part of Python's `str` API that the scripts rely on, over ASCII:
    character classes, case mapping, substring search and counting,
    splitting on a character, joining, stripping, replacing and decimal
    rendering of naturals. Every other module imports this one. */
module Text {

  // ---------------------------------------------------------------------
  // Character classes (ASCII subsets of Python's str predicates and of the
  // regex classes \d, \w and \s)
  // ---------------------------------------------------------------------

  predicate IsUpper(c: char) { 'A' <= c <= 'Z' }
  predicate IsLowerLetter(c: char) { 'a' <= c <= 'z' }
  predicate IsDigit(c: char) { '0' <= c <= '9' }
  predicate IsAlpha(c: char) { IsUpper(c) || IsLowerLetter(c) }
  predicate IsAlnum(c: char) { IsAlpha(c) || IsDigit(c) }
  /** Regex `\w` */
  predicate IsWordChar(c: char) { IsAlnum(c) || c == '_' }
  /** `str.isspace` and regex `\s`, restricted to code points below 128 */
  predicate IsSpace(c: char)
  {
    c == ' ' || c == '\t' || c == '\n' || c == '\r' || c == '\U{0B}' || c == '\U{0C}'
    || c == '\U{1C}' || c == '\U{1D}' || c == '\U{1E}' || c == '\U{1F}'
  }

  function LowerChar(c: char): (r: char)
    ensures !IsUpper(r)
    ensures IsAlpha(c) <==> IsAlpha(r)
  {
    if IsUpper(c) then (c as int + 32) as char else c
  }

  function UpperChar(c: char): (r: char)
    ensures !IsLowerLetter(r)
    ensures IsAlpha(c) <==> IsAlpha(r)
  {
    if IsLowerLetter(c) then (c as int - 32) as char else c
  }

  /** `str.lower` */
  function Lower(s: string): (r: string)
    ensures |r| == |s|
    ensures forall i :: 0 <= i < |s| ==> r[i] == LowerChar(s[i])
  {
    seq(|s|, i requires 0 <= i < |s| => LowerChar(s[i]))
  }

  /** `str.upper` */
  function Upper(s: string): (r: string)
    ensures |r| == |s|
    ensures forall i :: 0 <= i < |s| ==> r[i] == UpperChar(s[i])
  {
    seq(|s|, i requires 0 <= i < |s| => UpperChar(s[i]))
  }

  predicate HasUpper(s: string) { exists i :: 0 <= i < |s| && IsUpper(s[i]) }

  // ---------------------------------------------------------------------
  // Prefixes, suffixes and substrings
  // ---------------------------------------------------------------------

  predicate StartsWith(s: string, p: string) { |p| <= |s| && s[..|p|] == p }
  predicate EndsWith(s: string, p: string) { |p| <= |s| && s[|s| - |p|..] == p }

  /** `p` occurs in `s` at index `i` */
  predicate OccursAt(s: string, p: string, i: int)
  {
    0 <= i && i + |p| <= |s| && s[i..i + |p|] == p
  }

  /** Python's `p in s` */
  predicate Contains(s: string, p: string)
  {
    exists i :: 0 <= i <= |s| && OccursAt(s, p, i)
  }

  function FindFrom(s: string, p: string, i: nat): (r: int)
    requires i <= |s|
    decreases |s| - i
    ensures r == -1 || (i <= r && OccursAt(s, p, r))
    ensures r == -1 ==> forall j :: i <= j ==> !OccursAt(s, p, j)
    ensures r >= 0 ==> forall j :: i <= j < r ==> !OccursAt(s, p, j)
  {
    if i + |p| > |s| then -1
    else if s[i..i + |p|] == p then i
    else FindFrom(s, p, i + 1)
  }

  /** `str.find`: the first index at which `p` occurs, or -1 */
  function Find(s: string, p: string): (r: int)
    ensures r == -1 <==> !Contains(s, p)
    ensures r >= 0 ==> OccursAt(s, p, r) && forall j :: 0 <= j < r ==> !OccursAt(s, p, j)
  {
    FindFrom(s, p, 0)
  }

  /** An occurrence of an occurrence is an occurrence. */
  lemma ContainsTransitive(s: string, w: string, h: string)
    requires Contains(s, w) && Contains(w, h)
    ensures Contains(s, h)
  {
    var i :| 0 <= i <= |s| && OccursAt(s, w, i);
    var j :| 0 <= j <= |w| && OccursAt(w, h, j);
    var u, v := s[i..i + |w|][j..j + |h|], s[i + j..i + j + |h|];
    forall k | 0 <= k < |h|
      ensures u[k] == v[k]
    {
    }
    assert u == v;
    assert OccursAt(s, h, i + j);
  }

  /** A pattern holding an upper-case letter never occurs in a lower-cased text. */
  lemma NoUpperInLower(s: string, p: string)
    requires HasUpper(p)
    ensures !Contains(Lower(s), p)
  {
    var k :| 0 <= k < |p| && IsUpper(p[k]);
    forall i | 0 <= i && i + |p| <= |s|
      ensures !OccursAt(Lower(s), p, i)
    {
      assert Lower(s)[i..i + |p|][k] == Lower(s)[i + k];
    }
  }

  // ---------------------------------------------------------------------
  // Counting non-overlapping occurrences (`str.count`)
  // ---------------------------------------------------------------------

  function CountFrom(s: string, p: string, i: nat): nat
    requires |p| > 0 && i <= |s|
    decreases |s| - i
  {
    if i + |p| > |s| then 0
    else if s[i..i + |p|] == p then 1 + CountFrom(s, p, i + |p|)
    else CountFrom(s, p, i + 1)
  }

  /** `str.count`: non-overlapping occurrences, scanning left to right;
      the empty pattern is counted at every position, as Python does */
  function Count(s: string, p: string): nat
  {
    if |p| == 0 then |s| + 1 else CountFrom(s, p, 0)
  }

  lemma {:induction false} CountFromPositive(s: string, p: string, i: nat)
    requires |p| > 0 && i <= |s|
    decreases |s| - i
    ensures CountFrom(s, p, i) > 0 <==> exists j :: i <= j && OccursAt(s, p, j)
  {
    if i + |p| > |s| {
      assert forall j :: i <= j ==> !OccursAt(s, p, j);
    } else if s[i..i + |p|] == p {
      assert OccursAt(s, p, i);
    } else {
      CountFromPositive(s, p, i + 1);
      assert !OccursAt(s, p, i);
      assert forall j :: i <= j && OccursAt(s, p, j) ==> i + 1 <= j;
    }
  }

  /** A pattern is counted at least once exactly when it occurs. */
  lemma CountPositive(s: string, p: string)
    ensures Count(s, p) > 0 <==> Contains(s, p)
  {
    if |p| == 0 {
      assert OccursAt(s, p, 0);
    } else {
      CountFromPositive(s, p, 0);
    }
  }

  lemma {:induction false} CountFromBound(s: string, p: string, i: nat)
    requires |p| > 0 && i <= |s|
    decreases |s| - i
    ensures CountFrom(s, p, i) * |p| <= |s| - i
  {
    if i + |p| > |s| {
    } else if s[i..i + |p|] == p {
      CountFromBound(s, p, i + |p|);
    } else {
      CountFromBound(s, p, i + 1);
    }
  }

  /** Occurrences do not overlap, so they cannot outnumber |s| / |p|. */
  lemma CountBound(s: string, p: string)
    requires |p| > 0
    ensures Count(s, p) * |p| <= |s|
  {
    CountFromBound(s, p, 0);
  }

  // ---------------------------------------------------------------------
  // Splitting on one character and joining
  // ---------------------------------------------------------------------

  /** `s.split(c)` for a one-character separator: always at least one piece,
      and no piece holds the separator */
  function Split(s: string, c: char): (r: seq<string>)
    decreases |s|
    ensures |r| >= 1
    ensures forall k :: 0 <= k < |r| ==> c !in r[k]
  {
    if |s| == 0 then [""]
    else
      var rest := Split(s[1..], c);
      if s[0] == c then [""] + rest
      else [[s[0]] + rest[0]] + rest[1..]
  }

  /** `sep.join(parts)` */
  function Join(parts: seq<string>, sep: string): string
    decreases |parts|
  {
    if |parts| == 0 then ""
    else if |parts| == 1 then parts[0]
    else parts[0] + sep + Join(parts[1..], sep)
  }

  lemma {:induction false} JoinSplit(s: string, c: char)
    decreases |s|
    ensures Join(Split(s, c), [c]) == s
  {
    if |s| > 0 {
      var rest := Split(s[1..], c);
      JoinSplit(s[1..], c);
      if s[0] == c {
        assert Split(s, c) == [""] + rest;
        assert Join([""] + rest, [c]) == "" + [c] + Join(rest, [c]);
      } else {
        var r := [[s[0]] + rest[0]] + rest[1..];
        assert Split(s, c) == r;
        if |rest| == 1 {
          assert Join(r, [c]) == [s[0]] + rest[0];
          assert Join(rest, [c]) == rest[0];
        } else {
          assert r[1..] == rest[1..];
          assert Join(r, [c]) == [s[0]] + rest[0] + [c] + Join(rest[1..], [c]);
          assert Join(rest, [c]) == rest[0] + [c] + Join(rest[1..], [c]);
        }
      }
    }
  }

  /** Splitting at a separator splits the pieces on either side of it. */
  lemma {:induction false} SplitAppend(a: string, b: string, c: char)
    decreases |a|
    ensures Split(a + [c] + b, c) == Split(a, c) + Split(b, c)
  {
    if |a| == 0 {
      assert a + [c] + b == [c] + b;
      assert ([c] + b)[1..] == b;
    } else {
      assert (a + [c] + b)[0] == a[0];
      assert (a + [c] + b)[1..] == a[1..] + [c] + b;
      SplitAppend(a[1..], b, c);
    }
  }

  lemma {:induction false} SplitNoSep(s: string, c: char)
    requires c !in s
    decreases |s|
    ensures Split(s, c) == [s]
  {
    if |s| > 0 {
      SplitNoSep(s[1..], c);
      assert [s[0]] + s[1..] == s;
    }
  }

  /** Splitting a join recovers the pieces when no piece holds the separator:
      together with JoinSplit, `Split` and `Join` are inverse. */
  lemma {:induction false} SplitJoin(parts: seq<string>, c: char)
    requires |parts| >= 1
    requires forall k :: 0 <= k < |parts| ==> c !in parts[k]
    decreases |parts|
    ensures Split(Join(parts, [c]), c) == parts
  {
    if |parts| == 1 {
      SplitNoSep(parts[0], c);
    } else {
      SplitJoin(parts[1..], c);
      SplitNoSep(parts[0], c);
      SplitAppend(parts[0], Join(parts[1..], [c]), c);
      assert [parts[0]] + parts[1..] == parts;
    }
  }

  /** The end of the run of word characters (regex `\w*`) starting at `i` */
  function WordRunEnd(s: string, i: nat): (j: nat)
    requires i <= |s|
    decreases |s| - i
    ensures i <= j <= |s|
  {
    if i < |s| && IsWordChar(s[i]) then WordRunEnd(s, i + 1) else i
  }

  lemma {:induction false} WordRun(s: string, i: nat)
    requires i <= |s|
    decreases |s| - i
    ensures var j := WordRunEnd(s, i);
      (forall k :: i <= k < j ==> IsWordChar(s[k])) && (j < |s| ==> !IsWordChar(s[j]))
  {
    if i < |s| && IsWordChar(s[i]) {
      WordRun(s, i + 1);
    }
  }

  /** Joining two non-empty lists puts one separator between them. */
  lemma {:induction false} JoinAppend(a: seq<string>, b: seq<string>, sep: string)
    requires |a| > 0 && |b| > 0
    decreases |a|
    ensures Join(a + b, sep) == Join(a, sep) + sep + Join(b, sep)
  {
    assert (a + b)[0] == a[0];
    if |a| == 1 {
      assert (a + b)[1..] == b;
    } else {
      JoinAppend(a[1..], b, sep);
      assert (a + b)[1..] == a[1..] + b;
    }
  }

  lemma ContainsTail(s: string, p: string)
    requires |s| > 0 && Contains(s[1..], p)
    ensures Contains(s, p)
  {
    var i :| 0 <= i <= |s[1..]| && OccursAt(s[1..], p, i);
    assert s[1..][i..i + |p|] == s[i + 1..i + 1 + |p|];
    assert OccursAt(s, p, i + 1);
  }

  /** Every piece of a split occurs in the split text; the first one starts it. */
  lemma {:induction false} SplitPieceIn(s: string, c: char, k: nat)
    requires k < |Split(s, c)|
    decreases |s|
    ensures Contains(s, Split(s, c)[k])
    ensures k == 0 ==> StartsWith(s, Split(s, c)[0])
  {
    if |s| == 0 {
      assert OccursAt(s, Split(s, c)[k], 0);
    } else {
      var rest := Split(s[1..], c);
      if s[0] == c {
        if k == 0 {
          assert OccursAt(s, Split(s, c)[k], 0);
        } else {
          SplitPieceIn(s[1..], c, k - 1);
          ContainsTail(s, rest[k - 1]);
        }
      } else if k == 0 {
        SplitPieceIn(s[1..], c, 0);
        var p := [s[0]] + rest[0];
        assert s[..|p|] == [s[0]] + s[1..][..|rest[0]|];
        assert OccursAt(s, p, 0);
      } else {
        SplitPieceIn(s[1..], c, k);
        ContainsTail(s, rest[k]);
      }
    }
  }

  /** A separator that occurs splits the text into at least two pieces. */
  lemma {:induction false} SplitSeparated(s: string, c: char)
    requires c in s
    decreases |s|
    ensures |Split(s, c)| >= 2
  {
    if s[0] != c {
      assert s == [s[0]] + s[1..];
      SplitSeparated(s[1..], c);
    }
  }

  lemma ContainsInfix(a: string, s: string, b: string)
    ensures Contains(a + s + b, s)
  {
    assert (a + s + b)[|a|..|a| + |s|] == s;
    assert OccursAt(a + s + b, s, |a|);
  }

  /** Every character of `s` satisfies `P` */
  predicate All(s: string, P: char -> bool)
  {
    forall i :: 0 <= i < |s| ==> P(s[i])
  }

  lemma AllAppend(a: string, b: string, P: char -> bool)
    requires All(a, P) && All(b, P)
    ensures All(a + b, P)
  {
    forall i | 0 <= i < |a + b|
      ensures P((a + b)[i])
    {
      if i >= |a| {
        assert (a + b)[i] == b[i - |a|];
      }
    }
  }

  /** A join of pieces and a separator drawn from a character class stays in it. */
  lemma {:induction false} JoinAll(parts: seq<string>, sep: string, P: char -> bool)
    requires All(sep, P)
    requires forall k :: 0 <= k < |parts| ==> All(parts[k], P)
    decreases |parts|
    ensures All(Join(parts, sep), P)
  {
    if |parts| > 1 {
      JoinAll(parts[1..], sep, P);
      AllAppend(parts[0], sep, P);
      AllAppend(parts[0] + sep, Join(parts[1..], sep), P);
    }
  }

  /** The number of '\n'-separated lines of `s`: `len(s.split('\n'))` */
  function LineCount(s: string): nat
  {
    |Split(s, '\n')|
  }

  // ---------------------------------------------------------------------
  // Stripping
  // ---------------------------------------------------------------------

  function StripLeft(s: string, drop: set<char>): (r: string)
    decreases |s|
    ensures |r| <= |s| && r == s[|s| - |r|..]
    ensures |r| > 0 ==> r[0] !in drop
  {
    if |s| > 0 && s[0] in drop then StripLeft(s[1..], drop) else s
  }

  function StripRight(s: string, drop: set<char>): (r: string)
    decreases |s|
    ensures |r| <= |s| && r == s[..|r|]
    ensures |r| > 0 ==> r[|r| - 1] !in drop
  {
    if |s| > 0 && s[|s| - 1] in drop then StripRight(s[..|s| - 1], drop) else s
  }

  /** `s.strip(chars)` */
  function StripSet(s: string, drop: set<char>): (r: string)
    ensures |r| <= |s|
    ensures |r| > 0 ==> r[0] !in drop && r[|r| - 1] !in drop
  {
    var left := StripLeft(s, drop);
    var r := StripRight(left, drop);
    assert |r| > 0 ==> r[0] == left[0];
    r
  }

  /** What is left after stripping is a piece of the text. */
  lemma StripContained(s: string, drop: set<char>)
    ensures Contains(s, StripSet(s, drop))
  {
    var left := StripLeft(s, drop);
    var r := StripRight(left, drop);
    assert r == s[|s| - |left|..|s| - |left| + |r|];
    assert OccursAt(s, r, |s| - |left|);
  }

  const Whitespace: set<char> :=
    {' ', '\t', '\n', '\r', '\U{0B}', '\U{0C}', '\U{1C}', '\U{1D}', '\U{1E}', '\U{1F}'}

  lemma WhitespaceIsSpace(c: char)
    ensures c in Whitespace <==> IsSpace(c)
  {
  }

  /** `s.strip()` */
  function Strip(s: string): string
  {
    StripSet(s, Whitespace)
  }

  lemma StripLeftNone(s: string, drop: set<char>)
    requires |s| == 0 || s[0] !in drop
    ensures StripLeft(s, drop) == s
  {
  }

  lemma StripRightNone(s: string, drop: set<char>)
    requires |s| == 0 || s[|s| - 1] !in drop
    ensures StripRight(s, drop) == s
  {
  }

  /** Stripping twice strips nothing more. */
  lemma StripIdempotent(s: string, drop: set<char>)
    ensures StripSet(StripSet(s, drop), drop) == StripSet(s, drop)
  {
    var r := StripSet(s, drop);
    StripLeftNone(r, drop);
    StripRightNone(r, drop);
  }

  // ---------------------------------------------------------------------
  // Slicing with Python's clamping
  // ---------------------------------------------------------------------

  /** `[f(x) for x in xs]` */
  function MapSeq<A, B>(f: A -> B, xs: seq<A>): (r: seq<B>)
    decreases |xs|
    ensures |r| == |xs|
  {
    if |xs| == 0 then [] else MapSeq(f, xs[..|xs| - 1]) + [f(xs[|xs| - 1])]
  }

  /** One more element maps to one more image. */
  lemma MapSeqPrefix<A, B>(f: A -> B, xs: seq<A>, i: nat)
    requires i < |xs|
    ensures MapSeq(f, xs[..i + 1]) == MapSeq(f, xs[..i]) + [f(xs[i])]
  {
    assert xs[..i + 1][..i] == xs[..i];
  }

  /** The k-th image is the image of the k-th element. */
  lemma {:induction false} MapSeqAt<A, B>(f: A -> B, xs: seq<A>, k: nat)
    requires k < |xs|
    decreases |xs|
    ensures MapSeq(f, xs)[k] == f(xs[k])
  {
    var n := |xs| - 1;
    if k < n {
      MapSeqAt(f, xs[..n], k);
      assert xs[..n][k] == xs[k];
    }
  }

  /** `[y for x in xs for y in f(x)]` */
  function FlatMap<A, B>(f: A -> seq<B>, xs: seq<A>): seq<B>
    decreases |xs|
  {
    if |xs| == 0 then [] else FlatMap(f, xs[..|xs| - 1]) + f(xs[|xs| - 1])
  }

  /** Flattening distributes over concatenation. */
  lemma {:induction false} FlatMapAppend<A, B>(f: A -> seq<B>, xs: seq<A>, ys: seq<A>)
    decreases |ys|
    ensures FlatMap(f, xs + ys) == FlatMap(f, xs) + FlatMap(f, ys)
  {
    if |ys| > 0 {
      var n := |ys| - 1;
      FlatMapAppend(f, xs, ys[..n]);
      assert (xs + ys)[..|xs| + n] == xs + ys[..n];
      assert (xs + ys)[|xs| + n] == ys[n];
    } else {
      assert xs + ys == xs;
    }
  }

  /** The flattening is empty exactly when every image is. */
  lemma {:induction false} FlatMapEmpty<A, B>(f: A -> seq<B>, xs: seq<A>)
    decreases |xs|
    ensures FlatMap(f, xs) == [] <==> forall k :: 0 <= k < |xs| ==> f(xs[k]) == []
  {
    if |xs| > 0 {
      var n := |xs| - 1;
      FlatMapEmpty(f, xs[..n]);
      assert forall k :: 0 <= k < n ==> xs[..n][k] == xs[k];
    }
  }

  /** A property every image's elements have, the flattening's have. */
  lemma {:induction false} FlatMapAll<A, B>(f: A -> seq<B>, xs: seq<A>, P: B -> bool)
    requires forall k, j :: 0 <= k < |xs| && 0 <= j < |f(xs[k])| ==> P(f(xs[k])[j])
    decreases |xs|
    ensures forall j :: 0 <= j < |FlatMap(f, xs)| ==> P(FlatMap(f, xs)[j])
  {
    if |xs| > 0 {
      var n := |xs| - 1;
      assert forall k :: 0 <= k < n ==> xs[..n][k] == xs[k];
      FlatMapAll(f, xs[..n], P);
      var r := FlatMap(f, xs);
      forall j | 0 <= j < |r|
        ensures P(r[j])
      {
        if j >= |FlatMap(f, xs[..n])| {
          assert r[j] == f(xs[n])[j - |FlatMap(f, xs[..n])|];
        }
      }
    }
  }

  /** Every element of an image is in the flattening. */
  lemma {:induction false} FlatMapContains<A, B>(f: A -> seq<B>, xs: seq<A>, k: nat, y: B)
    requires k < |xs| && y in f(xs[k])
    decreases |xs|
    ensures y in FlatMap(f, xs)
  {
    var n := |xs| - 1;
    if k < n {
      FlatMapContains(f, xs[..n], k, y);
      assert xs[..n][k] == xs[k];
    }
  }

  /** `s[:n]` for n >= 0 */
  function Take<T>(s: seq<T>, n: nat): (r: seq<T>)
    ensures |r| == if n < |s| then n else |s|
    ensures r == s[..|r|]
  {
    if n < |s| then s[..n] else s
  }

  /** `s.index(x)`: the first position holding `x` */
  function IndexOf<T(==)>(s: seq<T>, x: T): (r: nat)
    requires x in s
    decreases |s|
    ensures r < |s| && s[r] == x
    ensures forall j :: 0 <= j < r ==> s[j] != x
  {
    if s[0] == x then 0 else 1 + IndexOf(s[1..], x)
  }

  /** `s[-n:] if len(s) > n else s` */
  function LastN<T>(s: seq<T>, n: nat): (r: seq<T>)
    ensures |r| == if n < |s| then n else |s|
    ensures r == s[|s| - |r|..]
  {
    if |s| > n then s[|s| - n..] else s
  }

  /** `s[a:b]` for `a >= 0`: a negative end counts from the back, both
      ends are clamped, and a range that ends before it starts is empty */
  function Slice<T>(s: seq<T>, a: nat, b: int): (r: seq<T>)
    ensures |r| <= |s|
    ensures 0 <= b <= |s| && a <= b ==> r == s[a..b]
    ensures b < 0 && a <= |s| + b ==> r == s[a..|s| + b]
  {
    var e := if b < 0 then (if |s| + b < 0 then 0 else |s| + b) else (if b > |s| then |s| else b);
    if a >= e then [] else s[a..e]
  }

  // ---------------------------------------------------------------------
  // Replacing
  // ---------------------------------------------------------------------

  /** `s.replace("", rep)`: `rep` before every character and at the end */
  function InsertEverywhere(s: string, rep: string): (r: string)
    decreases |s|
    ensures |r| == |s| + (|s| + 1) * |rep|
  {
    if |s| == 0 then rep else rep + [s[0]] + InsertEverywhere(s[1..], rep)
  }

  /** `s.replace(pat, rep)`: every non-overlapping occurrence, left to right */
  function ReplaceAll(s: string, pat: string, rep: string): string
    decreases |s|
  {
    if |pat| == 0 then InsertEverywhere(s, rep)
    else if |s| < |pat| then s
    else if s[..|pat|] == pat then rep + ReplaceAll(s[|pat|..], pat, rep)
    else [s[0]] + ReplaceAll(s[1..], pat, rep)
  }

  /** Replacing a pattern that does not occur changes nothing. */
  lemma {:induction false} ReplaceAllAbsent(s: string, pat: string, rep: string)
    requires |pat| > 0 && !Contains(s, pat)
    decreases |s|
    ensures ReplaceAll(s, pat, rep) == s
  {
    if |s| >= |pat| {
      assert !OccursAt(s, pat, 0);
      if !Contains(s[1..], pat) {
      } else {
        var i :| 0 <= i <= |s[1..]| && OccursAt(s[1..], pat, i);
        assert s[1..][i..i + |pat|] == s[i + 1..i + 1 + |pat|];
        assert OccursAt(s, pat, i + 1);
      }
      ReplaceAllAbsent(s[1..], pat, rep);
      assert [s[0]] + s[1..] == s;
    }
  }

  /** Replacing a pattern that occurs writes the replacement in. */
  lemma {:induction false} ReplaceAllPresent(s: string, pat: string, rep: string)
    requires |pat| > 0 && Contains(s, pat)
    decreases |s|
    ensures Contains(ReplaceAll(s, pat, rep), rep)
  {
    var i :| 0 <= i <= |s| && OccursAt(s, pat, i);
    if s[..|pat|] == pat {
      assert OccursAt(ReplaceAll(s, pat, rep), rep, 0);
    } else {
      assert i > 0;
      assert s[1..][i - 1..i - 1 + |pat|] == s[i..i + |pat|];
      assert OccursAt(s[1..], pat, i - 1);
      ReplaceAllPresent(s[1..], pat, rep);
      var r := ReplaceAll(s[1..], pat, rep);
      var j :| 0 <= j <= |r| && OccursAt(r, rep, j);
      assert ([s[0]] + r)[j + 1..j + 1 + |rep|] == r[j..j + |rep|];
      assert OccursAt(ReplaceAll(s, pat, rep), rep, j + 1);
    }
  }

  /** `s.replace(pat, rep, 1)` */
  function ReplaceFirst(s: string, pat: string, rep: string): (r: string)
    ensures !Contains(s, pat) ==> r == s
    ensures Contains(s, pat) ==>
      exists i :: OccursAt(s, pat, i) && (forall j :: 0 <= j < i ==> !OccursAt(s, pat, j))
        && r == s[..i] + rep + s[i + |pat|..]
  {
    var i := Find(s, pat);
    if i < 0 then s else s[..i] + rep + s[i + |pat|..]
  }

  // ---------------------------------------------------------------------
  // Decimal rendering of naturals (`str(n)`)
  // ---------------------------------------------------------------------

  function DigitChar(d: nat): (c: char)
    requires d < 10
    ensures IsDigit(c)
  {
    ('0' as int + d) as char
  }

  function NatToString(n: nat): (r: string)
    decreases n
    ensures |r| >= 1
    ensures forall k :: 0 <= k < |r| ==> IsDigit(r[k])
  {
    if n < 10 then [DigitChar(n)] else NatToString(n / 10) + [DigitChar(n % 10)]
  }

  /** The value of a string of decimal digits (`int(s)` on digits). */
  function ParseDigits(s: string): nat
    requires forall k :: 0 <= k < |s| ==> IsDigit(s[k])
    decreases |s|
  {
    if |s| == 0 then 0
    else
      assert IsDigit(s[|s| - 1]);
      10 * ParseDigits(s[..|s| - 1]) + (s[|s| - 1] as int - '0' as int)
  }

  /** Reading back a rendered natural gives the natural. */
  lemma {:induction false} ParseNatToString(n: nat)
    decreases n
    ensures ParseDigits(NatToString(n)) == n
  {
    if n >= 10 {
      var r := NatToString(n);
      ParseNatToString(n / 10);
      assert r[..|r| - 1] == NatToString(n / 10);
    }
  }

  /** Rendering is injective, so distinct counts give distinct texts. */
  lemma NatToStringInjective(m: nat, n: nat)
    requires NatToString(m) == NatToString(n)
    ensures m == n
  {
    ParseNatToString(m);
    ParseNatToString(n);
  }
}

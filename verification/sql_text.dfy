/**
 * Text helpers shared by the SQL statement builders: decimal rendering of
 * placeholder indices (Go's `%d` / `strconv.Itoa`), joining and splitting on
 * a separator, `strings.Replace(s, "?", x, 1)`, and an extractor that reads
 * back the `$n` placeholders of a statement, used to state that the
 * placeholders of a built statement line up with its bound values, and the
 * order-preserving embedding of the assigned columns in the column list.
 */
module SqlText {

  predicate IsDigit(c: char) { '0' <= c <= '9' }

  /**
   * `r` is `s` with some elements dropped: `idx` gives, in increasing order,
   * the position in `s` of each element of `r`.
   */
  ghost predicate Embeds<T>(r: seq<T>, s: seq<T>, idx: seq<nat>)
  {
    |idx| == |r|
    && (forall k :: 0 <= k < |idx| ==> idx[k] < |s| && r[k] == s[idx[k]])
    && (forall k, l :: 0 <= k < l < |idx| ==> idx[k] < idx[l])
  }

  /** Appending to an empty builder gives what is appended. */
  lemma AppendToEmpty<T>(q: seq<T>, x: seq<T>)
    ensures q == [] ==> q + x == x
  {
  }

  lemma AppendAssoc<T>(a: seq<T>, b: seq<T>, c: seq<T>)
    ensures (a + b) + c == a + (b + c)
  {
  }

  /** Dropping one more element at the end keeps the embedding. */
  lemma EmbedsDrop<T>(r: seq<T>, s: seq<T>, idx: seq<nat>, x: T)
    requires Embeds(r, s, idx)
    ensures Embeds(r, s + [x], idx)
  {
    forall k | 0 <= k < |idx|
      ensures idx[k] < |s + [x]| && r[k] == (s + [x])[idx[k]]
    {
      assert (s + [x])[idx[k]] == s[idx[k]];
    }
  }

  /** Keeping one more element at the end extends the embedding by its position. */
  lemma EmbedsKeep<T>(r: seq<T>, s: seq<T>, idx: seq<nat>, x: T)
    requires Embeds(r, s, idx)
    ensures Embeds(r + [x], s + [x], idx + [|s|])
  {
    var r', s', idx' := r + [x], s + [x], idx + [|s|];
    forall k | 0 <= k < |idx'|
      ensures idx'[k] < |s'| && r'[k] == s'[idx'[k]]
    {
      if k < |idx| {
        assert idx'[k] == idx[k] && r'[k] == r[k] && s'[idx[k]] == s[idx[k]];
      }
    }
    forall k, l | 0 <= k < l < |idx'|
      ensures idx'[k] < idx'[l]
    {
      if l < |idx| {
        assert idx'[k] == idx[k] && idx'[l] == idx[l];
      } else {
        assert idx'[k] == idx[k] < |s|;
      }
    }
  }

  predicate AllDigits(s: string) { forall i :: 0 <= i < |s| ==> IsDigit(s[i]) }

  /** `c` does not occur in `s`. */
  predicate Free(s: string, c: char) { forall i :: 0 <= i < |s| ==> s[i] != c }

  lemma FreeConcat(a: string, b: string, c: char)
    requires Free(a, c) && Free(b, c)
    ensures Free(a + b, c)
  {
  }

  /** Six pieces without `c` make a text without `c`. */
  lemma FreeConcat6(p0: string, p1: string, p2: string, p3: string, p4: string, p5: string, c: char)
    requires Free(p0, c) && Free(p1, c) && Free(p2, c) && Free(p3, c) && Free(p4, c) && Free(p5, c)
    ensures Free(p0 + p1 + p2 + p3 + p4 + p5, c)
  {
    FreeConcat(p0, p1, c);
    FreeConcat(p0 + p1, p2, c);
    FreeConcat(p0 + p1 + p2, p3, c);
    FreeConcat(p0 + p1 + p2 + p3, p4, c);
    FreeConcat(p0 + p1 + p2 + p3 + p4, p5, c);
  }

  function DigitChar(d: nat): (c: char)
    requires d < 10
    ensures IsDigit(c) && c as int - '0' as int == d
  {
    ('0' as int + d) as char
  }

  /** Decimal rendering of a natural number, most significant digit first. */
  function NatToString(n: nat): (s: string)
    ensures |s| > 0 && AllDigits(s)
    ensures |s| > 1 ==> s[0] != '0'
  {
    if n < 10 then [DigitChar(n)] else NatToString(n / 10) + [DigitChar(n % 10)]
  }

  /** The value of a decimal digit character. */
  function DigitValue(c: char): nat
  {
    if IsDigit(c) then c as int - '0' as int else 0
  }

  /** The number written by the digits `s[i..j]`, most significant first. */
  function NumberAt(s: string, i: nat, j: nat): nat
    requires i <= j <= |s|
    decreases j - i
  {
    if j == i then 0 else NumberAt(s, i, j - 1) * 10 + DigitValue(s[j - 1])
  }

  /** Digits before the end of `a` read the same with anything appended. */
  lemma {:induction false} NumberAtAppend(a: string, b: string, i: nat, j: nat)
    requires i <= j <= |a|
    ensures NumberAt(a + b, i, j) == NumberAt(a, i, j)
    decreases j - i
  {
    if j > i {
      NumberAtAppend(a, b, i, j - 1);
    }
  }

  /** Digits inside `b` read the same after a prefix `a`. */
  lemma {:induction false} NumberAtShift(a: string, b: string, i: nat, j: nat)
    requires i <= j <= |b|
    ensures NumberAt(a + b, |a| + i, |a| + j) == NumberAt(b, i, j)
    decreases j - i
  {
    if j > i {
      NumberAtShift(a, b, i, j - 1);
      assert (a + b)[|a| + j - 1] == b[j - 1];
    }
  }

  /** Reading back a rendered number gives the number. */
  lemma {:induction false} NatToStringRoundTrip(n: nat)
    ensures NumberAt(NatToString(n), 0, |NatToString(n)|) == n
  {
    if n >= 10 {
      var p, c := NatToString(n / 10), DigitChar(n % 10);
      NatToStringRoundTrip(n / 10);
      NumberAtAppend(p, [c], 0, |p|);
      assert NatToString(n) == p + [c];
    }
  }

  /** Distinct numbers render differently. */
  lemma NatToStringInjective(m: nat, n: nat)
    ensures NatToString(m) == NatToString(n) ==> m == n
  {
    NatToStringRoundTrip(m);
    NatToStringRoundTrip(n);
  }

  /** The placeholder text `$n`. */
  function Placeholder(n: nat): string { "$" + NatToString(n) }

  /** The sequence 1, 2, ..., n. */
  function OneTo(n: nat): (r: seq<nat>)
    ensures |r| == n && forall i :: 0 <= i < n ==> r[i] == i + 1
  {
    seq(n, i requires 0 <= i < n => i + 1)
  }

  lemma OneToSnoc(n: nat)
    ensures OneTo(n + 1) == OneTo(n) + [n + 1]
  {
  }

  lemma OneToPair(n: nat)
    ensures OneTo(n) + [n + 1, n + 2] == OneTo(n + 2)
  {
  }

  /** The sequence lo+1, lo+2, ..., lo+n. */
  function Range(lo: nat, n: nat): (r: seq<nat>)
    ensures |r| == n && forall i :: 0 <= i < n ==> r[i] == lo + i + 1
  {
    seq(n, i requires 0 <= i < n => lo + i + 1)
  }

  lemma RangeSplit(lo: nat, m: nat, n: nat)
    ensures Range(lo, m) + Range(lo + m, n) == Range(lo, m + n)
  {
  }

  // ---------------------------------------------------------------------------
  // Join and Split

  /** `strings.Join(parts, string(sep))`. */
  function Join(parts: seq<string>, sep: char): string
  {
    if |parts| == 0 then ""
    else if |parts| == 1 then parts[0]
    else parts[0] + [sep] + Join(parts[1..], sep)
  }

  /** Splitting on every occurrence of `sep` (like `strings.Split`); never empty. */
  function Split(s: string, sep: char): (r: seq<string>)
    ensures |r| >= 1
  {
    if s == [] then [[]]
    else if s[0] == sep then [[]] + Split(s[1..], sep)
    else var rest := Split(s[1..], sep); [[s[0]] + rest[0]] + rest[1..]
  }

  /** Splitting a string extended by the separator: one more, empty, piece. */
  lemma {:induction false} SplitSnocSep(s: string, sep: char)
    ensures Split(s + [sep], sep) == Split(s, sep) + [[]]
  {
    if s == [] {
      assert s + [sep] == [sep];
    } else {
      assert (s + [sep])[1..] == s[1..] + [sep];
      SplitSnocSep(s[1..], sep);
      var rest := Split(s[1..], sep);
      if s[0] != sep {
        assert Split(s + [sep], sep) == [[s[0]] + rest[0]] + (rest[1..] + [[]]);
      }
    }
  }

  /** Splitting a string extended by another character: the last piece grows. */
  lemma {:induction false} SplitSnocOther(s: string, c: char, sep: char)
    requires c != sep
    ensures var p := Split(s, sep);
      Split(s + [c], sep) == p[..|p| - 1] + [p[|p| - 1] + [c]]
  {
    if s == [] {
      assert s + [c] == [c];
      assert [c][1..] == [];
      var rest := Split([c][1..], sep);
      assert rest == [[]];
      assert [c] + rest[0] == [c];
      assert Split([c], sep) == [[c] + rest[0]] + rest[1..];
    } else {
      SplitSnocOther(s[1..], c, sep);
      SplitSnocOtherStep(s, c, sep);
      assert GrowsLast(Split(s, sep), Split(s + [c], sep), c);
    }
  }

  /** The last piece of a split grows by `c`. */
  ghost predicate GrowsLast(before: seq<string>, after: seq<string>, c: char)
  {
    |before| >= 1 && after == before[..|before| - 1] + [before[|before| - 1] + [c]]
  }

  /** The inductive step of `SplitSnocOther`, from the tail of `s` to `s`. */
  lemma SplitSnocOtherStep(s: string, c: char, sep: char)
    requires c != sep && s != []
    requires GrowsLast(Split(s[1..], sep), Split(s[1..] + [c], sep), c)
    ensures GrowsLast(Split(s, sep), Split(s + [c], sep), c)
  {
    assert (s + [c])[1..] == s[1..] + [c];
    if s[0] == sep {
      GrowsAfterEmpty(Split(s[1..], sep), Split(s[1..] + [c], sep), c);
    } else {
      GrowsAfterExtend(s[0], Split(s[1..], sep), Split(s[1..] + [c], sep), c);
    }
  }

  /** A piece put in front keeps the growth of the last piece. */
  lemma GrowsAfterEmpty(rest: seq<string>, rest': seq<string>, c: char)
    requires GrowsLast(rest, rest', c)
    ensures GrowsLast([[]] + rest, [[]] + rest', c)
  {
    var p := [[]] + rest;
    assert p[..|p| - 1] == [[]] + rest[..|rest| - 1];
  }

  /** Extending the first piece by a character keeps the growth of the last piece. */
  lemma GrowsAfterExtend(h: char, rest: seq<string>, rest': seq<string>, c: char)
    requires GrowsLast(rest, rest', c)
    ensures GrowsLast([[h] + rest[0]] + rest[1..], [[h] + rest'[0]] + rest'[1..], c)
  {
    var n := |rest|;
    var p := [[h] + rest[0]] + rest[1..];
    if n == 1 {
      assert rest' == [rest[0] + [c]];
      assert [h] + (rest[0] + [c]) == ([h] + rest[0]) + [c];
    } else {
      assert rest'[0] == rest[0];
      assert rest'[1..] == rest[1..n - 1] + [rest[n - 1] + [c]];
      assert p[..|p| - 1] == [[h] + rest[0]] + rest[1..n - 1];
    }
  }

  /** The number of occurrences of `c` in `s`. */
  function Occurrences(s: string, c: char): nat
  {
    if s == [] then 0 else (if s[0] == c then 1 else 0) + Occurrences(s[1..], c)
  }

  /** A split has one piece more than there are separators. */
  lemma {:induction false} SplitCount(s: string, sep: char)
    ensures |Split(s, sep)| == Occurrences(s, sep) + 1
  {
    if s != [] {
      SplitCount(s[1..], sep);
    }
  }

  /** No piece of a split contains the separator. */
  lemma {:induction false} SplitPiecesFree(s: string, sep: char)
    ensures forall k :: 0 <= k < |Split(s, sep)| ==> Free(Split(s, sep)[k], sep)
  {
    if s != [] {
      SplitPiecesFree(s[1..], sep);
    }
  }

  /** Joining the pieces of a split restores the string. */
  lemma {:induction false} JoinSplit(s: string, sep: char)
    ensures Join(Split(s, sep), sep) == s
  {
    if s != [] {
      JoinSplit(s[1..], sep);
      var rest := Split(s[1..], sep);
      if s[0] == sep {
        assert Split(s, sep) == [[]] + rest;
      } else {
        JoinHeadExtend(s[0], rest, sep);
      }
    }
  }

  lemma JoinHeadExtend(c: char, parts: seq<string>, sep: char)
    requires |parts| >= 1
    ensures Join([[c] + parts[0]] + parts[1..], sep) == [c] + Join(parts, sep)
  {
    var ps := [[c] + parts[0]] + parts[1..];
    if |parts| > 1 {
      assert ps[1..] == parts[1..];
    }
  }

  /** Splitting a join of separator-free pieces gives the pieces back. */
  lemma {:induction false} SplitJoin(parts: seq<string>, sep: char)
    requires |parts| >= 1
    requires forall k :: 0 <= k < |parts| ==> Free(parts[k], sep)
    ensures Split(Join(parts, sep), sep) == parts
  {
    if |parts| == 1 {
      SplitFree(parts[0], sep);
    } else {
      SplitJoin(parts[1..], sep);
      SplitPrefix(parts[0], Join(parts[1..], sep), sep);
      assert [parts[0]] + parts[1..] == parts;
    }
  }

  /** A separator-free string splits into itself alone. */
  lemma {:induction false} SplitFree(s: string, sep: char)
    requires Free(s, sep)
    ensures Split(s, sep) == [s]
  {
    if s != [] {
      SplitFree(s[1..], sep);
      assert s[0] != sep;
      assert [s[0]] + s[1..] == s;
    }
  }

  /** Splitting `p + sep + t` with a separator-free `p`. */
  lemma {:induction false} SplitPrefix(p: string, t: string, sep: char)
    requires Free(p, sep)
    ensures Split(p + [sep] + t, sep) == [p] + Split(t, sep)
  {
    if p != [] {
      SplitPrefix(p[1..], t, sep);
      var s := p + [sep] + t;
      assert s[0] == p[0] && p[0] != sep;
      assert s[1..] == p[1..] + [sep] + t;
      var rest := Split(s[1..], sep);
      assert rest == [p[1..]] + Split(t, sep);
      assert [p[0]] + p[1..] == p;
      assert Split(s, sep) == [[s[0]] + rest[0]] + rest[1..];
    } else {
      assert (p + [sep] + t) == [sep] + t;
    }
  }

  /** The pieces joined into a separator-free result contain no separator. */
  lemma {:induction false} JoinFree(parts: seq<string>, sep: char, c: char)
    requires c != sep
    requires forall k :: 0 <= k < |parts| ==> Free(parts[k], c)
    ensures Free(Join(parts, sep), c)
  {
    if |parts| > 1 {
      JoinFree(parts[1..], sep, c);
    }
  }

  /** Appending one more piece to a join. */
  lemma {:induction false} JoinSnoc(parts: seq<string>, x: string, sep: char)
    requires |parts| >= 1
    ensures Join(parts + [x], sep) == Join(parts, sep) + [sep] + x
  {
    if |parts| == 1 {
      assert (parts + [x])[1..] == [x];
    } else {
      assert (parts + [x])[1..] == parts[1..] + [x];
      JoinSnoc(parts[1..], x, sep);
    }
  }

  /** `query` after the first `i` rounds of the joining loop over `fields`. */
  ghost function JoinedSoFar(fields: seq<string>, i: nat): string
    requires i <= |fields|
  {
    if i == 0 then "" else if i < |fields| then Join(fields[..i], ',') + "," else Join(fields, ',')
  }

  /** One round of the joining loop, without the text before the join. */
  lemma JoinedRound(fields: seq<string>, i: nat)
    requires i < |fields|
    ensures i != |fields| - 1 ==> JoinedSoFar(fields, i) + fields[i] + "," == JoinedSoFar(fields, i + 1)
    ensures i == |fields| - 1 ==> JoinedSoFar(fields, i) + fields[i] == JoinedSoFar(fields, i + 1)
  {
    var head := fields[..i + 1];
    assert head == fields[..i] + [fields[i]];
    if i == 0 {
      assert head == [fields[0]];
      assert Join(head, ',') == fields[0];
      if i == |fields| - 1 {
        assert head == fields;
      }
    } else {
      JoinSnoc(fields[..i], fields[i], ',');
      if i == |fields| - 1 {
        assert head == fields;
      }
    }
  }

  /** One round of the joining loop: the field, then "," unless it is the last. */
  lemma JoinedStep(p: string, fields: seq<string>, i: nat)
    requires i < |fields|
    ensures i != |fields| - 1 ==> p + JoinedSoFar(fields, i) + fields[i] + "," == p + JoinedSoFar(fields, i + 1)
    ensures i == |fields| - 1 ==> p + JoinedSoFar(fields, i) + fields[i] == p + JoinedSoFar(fields, i + 1)
  {
    JoinedRound(fields, i);
    var a := JoinedSoFar(fields, i);
    assert p + a + fields[i] == p + (a + fields[i]);
    assert p + a + fields[i] + "," == p + (a + fields[i] + ",");
  }

  // ---------------------------------------------------------------------------
  // Other Go string functions

  /** `strings.TrimPrefix(s, prefix)`. */
  function TrimPrefix(s: string, prefix: string): (r: string)
    ensures |prefix| <= |s| && s[..|prefix|] == prefix ==> prefix + r == s
    ensures !(|prefix| <= |s| && s[..|prefix|] == prefix) ==> r == s
  {
    if |prefix| <= |s| && s[..|prefix|] == prefix then s[|prefix|..] else s
  }

  /** `strings.Trim(s, string(c))`: `c` removed from both ends. */
  function Trim(s: string, c: char): (r: string)
    ensures |r| <= |s|
    ensures r != [] ==> r[0] != c && r[|r| - 1] != c
  {
    if s == [] then []
    else if s[0] == c then Trim(s[1..], c)
    else if s[|s| - 1] == c then Trim(s[..|s| - 1], c)
    else s
  }

  /** What `Trim` keeps lies between `i` and `j`, with only `c` outside them. */
  ghost predicate TrimmedTo(s: string, c: char, i: nat, j: nat)
  {
    i <= j <= |s| && Trim(s, c) == s[i..j]
    && (forall k :: 0 <= k < i ==> s[k] == c) && (forall k :: j <= k < |s| ==> s[k] == c)
  }

  /** Dropping a leading `c` shifts the bounds by one. */
  lemma TrimmedFront(s: string, c: char, i: nat, j: nat)
    requires s != [] && s[0] == c && TrimmedTo(s[1..], c, i, j)
    ensures TrimmedTo(s, c, i + 1, j + 1)
  {
    var t := s[1..];
    assert forall k :: 0 <= k < |t| ==> s[k + 1] == t[k];
    assert t[i..j] == s[i + 1..j + 1];
    forall k | 0 <= k < i + 1 ensures s[k] == c {
      if k > 0 { assert s[k] == t[k - 1]; }
    }
    forall k | j + 1 <= k < |s| ensures s[k] == c {
      assert s[k] == t[k - 1];
    }
  }

  /** Dropping a trailing `c`, the first character being kept, keeps the bounds. */
  lemma TrimmedBack(s: string, c: char, i: nat, j: nat)
    requires s != [] && s[0] != c && s[|s| - 1] == c && TrimmedTo(s[..|s| - 1], c, i, j)
    ensures TrimmedTo(s, c, i, j)
  {
    var t := s[..|s| - 1];
    assert forall k :: 0 <= k < |t| ==> s[k] == t[k];
    assert t[i..j] == s[i..j];
    assert |t| > 0 ==> t[0] != c;
    assert i == 0;
    forall k | j <= k < |s| ensures s[k] == c {
      if k < |t| { assert s[k] == t[k]; }
    }
  }

  /** The bounds of what `Trim` keeps: `Trim(s, c) == s[i..j]`, with only `c` outside them. */
  lemma {:induction false} TrimBounds(s: string, c: char) returns (i: nat, j: nat)
    ensures i <= j <= |s| && Trim(s, c) == s[i..j]
    ensures forall k :: 0 <= k < i ==> s[k] == c
    ensures forall k :: j <= k < |s| ==> s[k] == c
  {
    if s == [] {
      i, j := 0, 0;
    } else if s[0] == c {
      var i', j' := TrimBounds(s[1..], c);
      TrimmedFront(s, c, i', j');
      i, j := i' + 1, j' + 1;
    } else if s[|s| - 1] == c {
      i, j := TrimBounds(s[..|s| - 1], c);
      TrimmedBack(s, c, i, j);
    } else {
      i, j := 0, |s|;
    }
  }

  /**
   * `Trim` removes only copies of `c` at the two ends: the result is a
   * contiguous piece `s[i..j]` of the text with nothing but `c` before `i`
   * and from `j` on.
   */
  lemma TrimKeepsMiddle(s: string, c: char)
    ensures exists i, j :: (0 <= i <= j <= |s| && Trim(s, c) == s[i..j]
      && (forall k :: 0 <= k < i ==> s[k] == c) && (forall k :: j <= k < |s| ==> s[k] == c))
  {
    var i, j := TrimBounds(s, c);
  }

  /** `fmt.Sprintf("%s", xs)` of a `[]string`: the elements between brackets, separated by spaces. */
  function GoSliceString(xs: seq<string>): string
  {
    "[" + Join(xs, ' ') + "]"
  }

  /** `fmt.Sprintf("%d", i)` of a Go `int`. */
  function IntToString(i: int): string
  {
    if i < 0 then "-" + NatToString(-i) else NatToString(i)
  }

  // ---------------------------------------------------------------------------
  // strings.Replace(s, old, new, 1) with a one-character `old`

  function ReplaceFirst(s: string, c: char, x: string): string
  {
    if s == [] then []
    else if s[0] == c then x + s[1..]
    else [s[0]] + ReplaceFirst(s[1..], c, x)
  }

  /** The first occurrence is the one replaced. */
  lemma {:induction false} ReplaceFirstAt(p: string, c: char, x: string, q: string)
    requires Free(p, c)
    ensures ReplaceFirst(p + [c] + q, c, x) == p + x + q
  {
    if p != [] {
      assert (p + [c] + q)[1..] == p[1..] + [c] + q;
      ReplaceFirstAt(p[1..], c, x, q);
    } else {
      assert p + [c] + q == [c] + q;
    }
  }

  /** Without an occurrence nothing changes. */
  lemma {:induction false} ReplaceFirstAbsent(s: string, c: char, x: string)
    requires Free(s, c)
    ensures ReplaceFirst(s, c, x) == s
  {
    if s != [] {
      ReplaceFirstAbsent(s[1..], c, x);
    }
  }

  /** Replacing inside the tail of a concatenation whose head has no occurrence. */
  lemma {:induction false} ReplaceFirstSkip(p: string, q: string, c: char, x: string)
    requires Free(p, c)
    ensures ReplaceFirst(p + q, c, x) == p + ReplaceFirst(q, c, x)
  {
    if p != [] {
      assert (p + q)[1..] == p[1..] + q;
      ReplaceFirstSkip(p[1..], q, c, x);
    } else {
      assert p + q == q;
    }
  }

  // ---------------------------------------------------------------------------
  // Reading the `$n` placeholders back out of a statement

  /** The end of the run of digits that starts at `i`: the first non-digit at or after `i`, or |s|. */
  function DigitEnd(s: string, i: nat): (j: nat)
    requires i <= |s|
    ensures i <= j <= |s|
    decreases |s| - i
  {
    if i < |s| && IsDigit(s[i]) then DigitEnd(s, i + 1) else i
  }

  /** A run inside `a` ends at the same place when `a` is followed by a closed fragment. */
  lemma {:induction false} DigitEndAppend(a: string, b: string, i: nat)
    requires i <= |a| && Closed(b)
    ensures DigitEnd(a + b, i) == DigitEnd(a, i)
    decreases |a| - i
  {
    if i < |a| && IsDigit(a[i]) {
      DigitEndAppend(a, b, i + 1);
    } else if i == |a| && b != [] {
      assert (a + b)[i] == b[0];
    }
  }

  /** A run inside `b` ends at the same place, shifted, after a prefix `a`. */
  lemma {:induction false} DigitEndShift(a: string, b: string, i: nat)
    requires i <= |b|
    ensures DigitEnd(a + b, |a| + i) == |a| + DigitEnd(b, i)
    decreases |b| - i
  {
    if i < |b| && IsDigit(b[i]) {
      DigitEndShift(a, b, i + 1);
    }
  }

  /** A run that reaches the end of the string ends at |s|. */
  lemma {:induction false} DigitEndAll(s: string, i: nat)
    requires i <= |s| && forall k :: i <= k < |s| ==> IsDigit(s[k])
    ensures DigitEnd(s, i) == |s|
    decreases |s| - i
  {
    if i < |s| {
      DigitEndAll(s, i + 1);
    }
  }

  /**
   * The placeholder numbers of `s` from position `i` on, left to right:
   * every `$` followed by at least one digit, read with all the digits that
   * follow it.
   */
  function PlaceholdersFrom(s: string, i: nat): seq<nat>
    requires i <= |s|
    decreases |s| - i
  {
    if i == |s| then []
    else if s[i] == '$' && i + 1 < |s| && IsDigit(s[i + 1]) then
      var j := DigitEnd(s, i + 1);
      [NumberAt(s, i + 1, j)] + PlaceholdersFrom(s, j)
    else PlaceholdersFrom(s, i + 1)
  }

  /** The placeholder numbers of `s`, left to right. */
  function Placeholders(s: string): seq<nat>
  {
    PlaceholdersFrom(s, 0)
  }

  /** A fragment that may be followed by anything without changing what is read. */
  predicate Closed(s: string) { s == [] || !IsDigit(s[0]) }

  /** What is read inside `b` does not depend on what precedes it. */
  lemma {:induction false} PlaceholdersShift(a: string, b: string, i: nat)
    requires i <= |b|
    ensures PlaceholdersFrom(a + b, |a| + i) == PlaceholdersFrom(b, i)
    decreases |b| - i
  {
    if i < |b| {
      if b[i] == '$' && i + 1 < |b| && IsDigit(b[i + 1]) {
        PlaceholdersShift(a, b, DigitEnd(b, i + 1));
        ShiftRun(a, b, i);
      } else {
        PlaceholdersShift(a, b, i + 1);
        ShiftSkip(a, b, i);
      }
    }
  }

  /** `PlaceholdersShift` at a placeholder of `b`. */
  lemma ShiftRun(a: string, b: string, i: nat)
    requires i + 1 < |b| && b[i] == '$' && IsDigit(b[i + 1])
    requires PlaceholdersFrom(a + b, |a| + DigitEnd(b, i + 1)) == PlaceholdersFrom(b, DigitEnd(b, i + 1))
    ensures PlaceholdersFrom(a + b, |a| + i) == PlaceholdersFrom(b, i)
  {
    var s, k := a + b, |a| + i;
    var j := DigitEnd(b, i + 1);
    assert s[k] == '$' && s[k + 1] == b[i + 1];
    DigitEndShift(a, b, i + 1);
    assert DigitEnd(s, k + 1) == |a| + j;
    NumberAtShift(a, b, i + 1, j);
    assert NumberAt(s, k + 1, |a| + j) == NumberAt(b, i + 1, j);
    assert PlaceholdersFrom(s, k) == [NumberAt(s, k + 1, |a| + j)] + PlaceholdersFrom(s, |a| + j);
    assert PlaceholdersFrom(b, i) == [NumberAt(b, i + 1, j)] + PlaceholdersFrom(b, j);
  }

  /** `PlaceholdersShift` at a character of `b` that opens no placeholder. */
  lemma ShiftSkip(a: string, b: string, i: nat)
    requires i < |b| && !(b[i] == '$' && i + 1 < |b| && IsDigit(b[i + 1]))
    requires PlaceholdersFrom(a + b, |a| + (i + 1)) == PlaceholdersFrom(b, i + 1)
    ensures PlaceholdersFrom(a + b, |a| + i) == PlaceholdersFrom(b, i)
  {
    var s, k := a + b, |a| + i;
    assert s[k] == b[i];
    if i + 1 < |b| {
      assert s[k + 1] == b[i + 1];
    }
    assert k + 1 == |a| + (i + 1);
  }

  /** Reading `a + b` from inside `a`: the rest of `a`, then all of `b`. */
  lemma {:induction false} PlaceholdersFromConcat(a: string, b: string, i: nat)
    requires i <= |a| && Closed(b)
    ensures PlaceholdersFrom(a + b, i) == PlaceholdersFrom(a, i) + PlaceholdersFrom(b, 0)
    decreases |a| - i
  {
    if i == |a| {
      PlaceholdersShift(a, b, 0);
    } else if a[i] == '$' && i + 1 < |a| && IsDigit(a[i + 1]) {
      var j := DigitEnd(a, i + 1);
      DigitEndAppend(a, b, i + 1);
      NumberAtAppend(a, b, i + 1, j);
      PlaceholdersFromConcat(a, b, j);
    } else {
      if i + 1 == |a| && b != [] {
        assert (a + b)[i + 1] == b[0];
      }
      PlaceholdersFromConcat(a, b, i + 1);
    }
  }

  /** Placeholders of a concatenation, when the right part does not start with a digit. */
  lemma PlaceholdersConcat(a: string, b: string)
    requires Closed(b)
    ensures Placeholders(a + b) == Placeholders(a) + Placeholders(b)
  {
    PlaceholdersFromConcat(a, b, 0);
  }

  /** A statement framed by a placeholder-free head and a closing `$n+1`, around a list numbered 1..n. */
  lemma PlaceholdersFramed(h: string, j: string, c: string, n: nat)
    requires Placeholders(h) == [] && Placeholders(j) == OneTo(n) && Closed(j)
    requires Placeholders(c) == [n + 1] && Closed(c)
    ensures Placeholders(h + j + c) == OneTo(n + 1)
  {
    PlaceholdersConcat(h, j);
    assert Placeholders(h + j) == [] + OneTo(n);
    assert [] + OneTo(n) == OneTo(n);
    PlaceholdersConcat(h + j, c);
    OneToSnoc(n);
  }

  lemma {:induction false} PlaceholdersFromNone(s: string, i: nat)
    requires i <= |s| && Free(s, '$')
    ensures PlaceholdersFrom(s, i) == []
    decreases |s| - i
  {
    if i < |s| {
      PlaceholdersFromNone(s, i + 1);
    }
  }

  /** A fragment without `$` contributes no placeholder. */
  lemma PlaceholdersNone(s: string)
    requires Free(s, '$')
    ensures Placeholders(s) == []
  {
    PlaceholdersFromNone(s, 0);
  }

  /** `$n` reads back as exactly [n]. */
  lemma PlaceholderReads(n: nat)
    ensures Placeholders(Placeholder(n)) == [n]
  {
    PlaceholderThen(n, []);
    assert Placeholder(n) + [] == Placeholder(n);
  }

  /** After the `$`, a placeholder is all digits. */
  lemma PlaceholderDigits(n: nat)
    ensures |Placeholder(n)| >= 2 && Placeholder(n)[0] == '$'
    ensures forall k :: 1 <= k < |Placeholder(n)| ==> IsDigit(Placeholder(n)[k])
  {
    var d := NatToString(n);
    assert forall k :: 1 <= k < |Placeholder(n)| ==> Placeholder(n)[k] == d[k - 1];
  }

  /** A placeholder followed by something that does not start with a digit. */
  lemma PlaceholderThen(n: nat, rest: string)
    requires Closed(rest)
    ensures Placeholders(Placeholder(n) + rest) == [n] + Placeholders(rest)
  {
    var d, p := NatToString(n), Placeholder(n);
    PlaceholderDigits(n);
    DigitEndAll(p, 1);
    DigitEndAppend(p, rest, 1);
    NumberAtAppend(p, rest, 1, |p|);
    NumberAtShift("$", d, 0, |d|);
    NatToStringRoundTrip(n);
    PlaceholdersShift(p, rest, 0);
    assert (p + rest)[1] == p[1];
  }

  /** A placeholder holds nothing but `$` and digits. */
  lemma PlaceholderFree(n: nat, c: char)
    requires c != '$' && !IsDigit(c)
    ensures Free(Placeholder(n), c)
  {
  }

  /** Closed fragments stay closed under concatenation on the right. */
  lemma ClosedConcat(a: string, b: string)
    requires Closed(a) && Closed(b)
    ensures Closed(a + b)
  {
    if a == [] { assert a + b == b; }
  }

  // ---------------------------------------------------------------------------
  // strings.ToLower / strings.ToUpper, on ASCII letters

  function LowerChar(c: char): char
  {
    if 'A' <= c <= 'Z' then (c as int + 32) as char else c
  }

  function UpperChar(c: char): char
  {
    if 'a' <= c <= 'z' then (c as int - 32) as char else c
  }

  function ToLower(s: string): (r: string)
    ensures |r| == |s| && forall i :: 0 <= i < |s| ==> r[i] == LowerChar(s[i])
  {
    seq(|s|, i requires 0 <= i < |s| => LowerChar(s[i]))
  }

  function ToUpper(s: string): (r: string)
    ensures |r| == |s| && forall i :: 0 <= i < |s| ==> r[i] == UpperChar(s[i])
  {
    seq(|s|, i requires 0 <= i < |s| => UpperChar(s[i]))
  }
}

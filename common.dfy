// Shared vocabulary: optional values and results, folds over sequences, and
// the few Python string operations the backend relies on (lower(), strip(),
// split(), `in` on strings, endswith()), restricted to ASCII.

module Common {

  datatype Option<T> = None | Some(value: T) {
    /** Python's `d.get(key, default)` for a key that may be missing. */
    function GetOr(default: T): T {
      match this
      case Some(v) => v
      case None => default
    }
  }

  datatype Result<T> = Ok(value: T) | Err(message: string)

  // ---------------------------------------------------------------------------
  // Folds over sequences, defined from the last element so that a loop that
  // walks a sequence front to back adds exactly one term per iteration.
  // ---------------------------------------------------------------------------

  function Sum<T>(s: seq<T>, f: T -> real): real
  {
    if s == [] then 0.0 else Sum(s[..|s| - 1], f) + f(s[|s| - 1])
  }

  function SumNat<T>(s: seq<T>, f: T -> nat): nat
  {
    if s == [] then 0 else SumNat(s[..|s| - 1], f) + f(s[|s| - 1])
  }

  function Filter<T>(s: seq<T>, p: T -> bool): (r: seq<T>)
    ensures |r| <= |s|
    ensures forall x :: x in r ==> x in s && p(x)
  {
    if s == [] then []
    else if p(s[|s| - 1]) then Filter(s[..|s| - 1], p) + [s[|s| - 1]]
    else Filter(s[..|s| - 1], p)
  }

  function Count<T>(s: seq<T>, p: T -> bool): nat
  {
    if s == [] then 0
    else Count(s[..|s| - 1], p) + (if p(s[|s| - 1]) then 1 else 0)
  }

  lemma SumSnoc<T>(s: seq<T>, x: T, f: T -> real)
    ensures Sum(s + [x], f) == Sum(s, f) + f(x)
  {
    SnocFront(s, x);
  }

  lemma SumNatSnoc<T>(s: seq<T>, x: T, f: T -> nat)
    ensures SumNat(s + [x], f) == SumNat(s, f) + f(x)
  {
    SnocFront(s, x);
  }

  lemma FilterSnoc<T>(s: seq<T>, x: T, p: T -> bool)
    ensures Filter(s + [x], p) == if p(x) then Filter(s, p) + [x] else Filter(s, p)
  {
    SnocFront(s, x);
  }

  /** A non-empty sequence is its front followed by its last element. */
  lemma SplitLast<T>(s: seq<T>)
    requires s != []
    ensures s == s[..|s| - 1] + [s[|s| - 1]]
  {
  }

  lemma TakeSnoc<T>(s: seq<T>, i: nat)
    requires i < |s|
    ensures s[..i + 1] == s[..i] + [s[i]]
  {
  }

  lemma TakeTake<T>(s: seq<T>, i: nat)
    requires i < |s|
    ensures s[..i + 1][..i] == s[..i]
  {
  }

  lemma SnocFront<T>(s: seq<T>, x: T)
    ensures (s + [x])[..|s|] == s
  {
  }

  lemma ConcatTakeSnoc<T>(a: seq<T>, b: seq<T>, j: nat)
    requires j < |b|
    ensures a + b[..j + 1] == (a + b[..j]) + [b[j]]
  {
  }

  lemma ConcatSplitLast<T>(a: seq<T>, b: seq<T>)
    requires b != []
    ensures a + b == (a + b[..|b| - 1]) + [b[|b| - 1]]
  {
  }

  lemma CountSnoc<T>(s: seq<T>, x: T, p: T -> bool)
    ensures Count(s + [x], p) == Count(s, p) + (if p(x) then 1 else 0)
  {
    SnocFront(s, x);
  }

  lemma {:induction false} SumConcat<T>(a: seq<T>, b: seq<T>, f: T -> real)
    ensures Sum(a + b, f) == Sum(a, f) + Sum(b, f)
    decreases |b|
  {
    if b == [] {
      assert a + b == a;
    } else {
      var b' := b[..|b| - 1];
      assert a + b == (a + b') + [b[|b| - 1]];
      SumSnoc(a + b', b[|b| - 1], f);
      SumConcat(a, b', f);
    }
  }

  lemma {:induction false} SumNatConcat<T>(a: seq<T>, b: seq<T>, f: T -> nat)
    ensures SumNat(a + b, f) == SumNat(a, f) + SumNat(b, f)
    decreases |b|
  {
    if b == [] {
      assert a + b == a;
    } else {
      var b' := b[..|b| - 1];
      assert a + b == (a + b') + [b[|b| - 1]];
      SumNatSnoc(a + b', b[|b| - 1], f);
      SumNatConcat(a, b', f);
    }
  }

  lemma {:induction false} FilterConcat<T>(a: seq<T>, b: seq<T>, p: T -> bool)
    ensures Filter(a + b, p) == Filter(a, p) + Filter(b, p)
    decreases |b|
  {
    if b == [] {
      assert a + b == a;
    } else {
      var b' := b[..|b| - 1];
      assert a + b == (a + b') + [b[|b| - 1]];
      FilterSnoc(a + b', b[|b| - 1], p);
      FilterConcat(a, b', p);
    }
  }

  lemma {:induction false} FilterMultiset<T>(s: seq<T>, p: T -> bool, q: T -> bool)
    requires forall x :: x in s ==> (q(x) <==> !p(x))
    ensures multiset(Filter(s, p)) + multiset(Filter(s, q)) == multiset(s)
  {
    if s != [] {
      var s', x := s[..|s| - 1], s[|s| - 1];
      SplitLast(s);
      FilterMultiset(s', p, q);
    }
  }

  lemma {:induction false} FilterCount<T>(s: seq<T>, p: T -> bool)
    ensures |Filter(s, p)| == Count(s, p)
  {
    if s != [] {
      FilterCount(s[..|s| - 1], p);
    }
  }

  lemma {:induction false} SumBounds<T>(s: seq<T>, f: T -> real, lo: real, hi: real)
    requires forall x :: x in s ==> lo <= f(x) <= hi
    ensures |s| as real * lo <= Sum(s, f) <= |s| as real * hi
  {
    if s != [] {
      SumBounds(s[..|s| - 1], f, lo, hi);
    }
  }

  /** The arithmetic mean of `f` over `s`, and `empty` for an empty sequence. */
  function MeanOr<T>(s: seq<T>, f: T -> real, empty: real): real
  {
    if s == [] then empty else Sum(s, f) / |s| as real
  }

  /** A mean lies between the bounds of the values it averages. */
  lemma MeanBounds<T>(s: seq<T>, f: T -> real, empty: real, lo: real, hi: real)
    requires forall x :: x in s ==> lo <= f(x) <= hi
    requires lo <= empty <= hi
    ensures lo <= MeanOr(s, f, empty) <= hi
  {
    if s != [] {
      SumBounds(s, f, lo, hi);
      var n := |s| as real;
      DivBounds(Sum(s, f), n, lo, hi);
    }
  }

  lemma DivBounds(x: real, n: real, lo: real, hi: real)
    requires n > 0.0 && n * lo <= x <= n * hi
    ensures lo <= x / n <= hi
  {
    assert x / n * n == x;
  }

  /** `part / total * 100` when the total is positive, and 0 otherwise. */
  function Percentage(part: real, total: real): (r: real)
    ensures total > 0.0 ==> r * total == part * 100.0
    ensures total <= 0.0 ==> r == 0.0
  {
    if total > 0.0 then part / total * 100.0 else 0.0
  }

  /** A part between nothing and the whole is between 0 and 100 percent of it. */
  lemma PercentageBounds(part: real, total: real)
    requires 0.0 <= part <= total
    ensures 0.0 <= Percentage(part, total) <= 100.0
  {
    if total > 0.0 {
      DivBounds(part, total, 0.0, 1.0);
    }
  }

  /** Two parts that make up a positive whole have percentages adding up to 100. */
  lemma PercentagesComplement(p1: real, p2: real, total: real)
    requires p1 + p2 == total
    ensures total > 0.0 ==> Percentage(p1, total) + Percentage(p2, total) == 100.0
    ensures total <= 0.0 ==> Percentage(p1, total) == 0.0 && Percentage(p2, total) == 0.0
  {
    if total > 0.0 {
      assert p1 / total + p2 / total == (p1 + p2) / total;
      assert (p1 + p2) / total == 1.0;
    }
  }

  // ---------------------------------------------------------------------------
  // ASCII string helpers
  // ---------------------------------------------------------------------------

  /** Python's str.isspace() on the ASCII range. */
  predicate IsSpace(c: char) {
    c == ' ' || ('\t' <= c <= '\r') || ('\U{001C}' <= c <= '\U{001F}')
  }

  predicate IsUpper(c: char) {
    'A' <= c <= 'Z'
  }

  function LowerChar(c: char): char {
    if IsUpper(c) then (c as int + 32) as char else c
  }

  /** Python's str.lower(), on ASCII letters. */
  function Lower(s: string): (r: string)
    ensures |r| == |s|
    ensures forall i :: 0 <= i < |s| ==> r[i] == LowerChar(s[i])
  {
    seq(|s|, i requires 0 <= i < |s| => LowerChar(s[i]))
  }

  predicate StartsWith(s: string, prefix: string) {
    |prefix| <= |s| && s[..|prefix|] == prefix
  }

  /** Python's str.endswith(). */
  predicate EndsWith(s: string, suffix: string) {
    |suffix| <= |s| && s[|s| - |suffix|..] == suffix
  }

  /** Python's `sub in s` on strings. */
  predicate Contains(s: string, sub: string)
    decreases |s|
  {
    StartsWith(s, sub) || (|s| > 0 && Contains(s[1..], sub))
  }

  lemma {:induction false} ContainsLower(s: string, sub: string)
    requires Contains(s, sub)
    ensures Contains(Lower(s), Lower(sub))
    decreases |s|
  {
    if StartsWith(s, sub) {
      assert Lower(s)[..|sub|] == Lower(sub);
    } else {
      ContainsLower(s[1..], sub);
      assert Lower(s)[1..] == Lower(s[1..]);
    }
  }

  lemma {:induction false} ContainsSuffix(s: string, suffix: string)
    requires EndsWith(s, suffix)
    ensures Contains(s, suffix)
    decreases |s|
  {
    if |s| == |suffix| {
      assert s[..|suffix|] == s[|s| - |suffix|..];
    } else {
      assert s[1..][|s[1..]| - |suffix|..] == s[|s| - |suffix|..];
      ContainsSuffix(s[1..], suffix);
    }
  }

  lemma {:induction false} ContainsIn(s: string, i: nat, j: nat)
    requires i <= j <= |s|
    ensures Contains(s, s[i..j])
    decreases i
  {
    if i == 0 {
      assert s[..j - i] == s[i..j];
    } else {
      assert s[1..][i - 1..j - 1] == s[i..j];
      ContainsIn(s[1..], i - 1, j - 1);
    }
  }

  /** `sub` occurs in `s` when it is the slice of `s` starting at `i`. */
  lemma ContainsAt(s: string, sub: string, i: nat)
    requires i + |sub| <= |s| && s[i..i + |sub|] == sub
    ensures Contains(s, sub)
  {
    ContainsIn(s, i, i + |sub|);
  }

  lemma {:induction false} ContainsTrans(s: string, t: string, u: string)
    requires Contains(s, t) && Contains(t, u)
    ensures Contains(s, u)
    decreases |s|
  {
    if StartsWith(s, t) {
      var i := ContainsWitness(t, u);
      assert s[i..i + |u|] == t[i..i + |u|];
      ContainsIn(s, i, i + |u|);
    } else {
      ContainsTrans(s[1..], t, u);
    }
  }

  lemma {:induction false} ContainsWitness(s: string, sub: string) returns (i: nat)
    requires Contains(s, sub)
    ensures i + |sub| <= |s| && s[i..i + |sub|] == sub
    decreases |s|
  {
    if StartsWith(s, sub) {
      i := 0;
    } else {
      var k := ContainsWitness(s[1..], sub);
      assert s[1..][k..k + |sub|] == s[k + 1..k + 1 + |sub|];
      i := k + 1;
    }
  }

  lemma ContainsChar(s: string, sub: string, c: char)
    requires Contains(s, sub) && c in sub
    ensures c in s
  {
    var i := ContainsWitness(s, sub);
    var k :| 0 <= k < |sub| && sub[k] == c;
    assert s[i + k] == c;
  }

  /** Drops leading whitespace (the first half of Python's str.strip()). */
  function TrimLeft(s: string): (r: string)
    ensures |r| <= |s|
    ensures forall i :: 0 <= i < |s| - |r| ==> IsSpace(s[i])
    ensures r == [] || !IsSpace(r[0])
    decreases |s|
  {
    if s != [] && IsSpace(s[0]) then TrimLeft(s[1..]) else s
  }

  /** What TrimLeft drops is a prefix: the input is the dropped whitespace followed by the result. */
  lemma {:induction false} TrimLeftSplit(s: string)
    ensures s == s[..|s| - |TrimLeft(s)|] + TrimLeft(s)
    decreases |s|
  {
    if s != [] && IsSpace(s[0]) {
      TrimLeftSplit(s[1..]);
      var k := |s| - |TrimLeft(s)|;
      assert s[1..][..k - 1] == s[1..k];
      assert s == [s[0]] + s[1..];
    }
  }

  /** Drops trailing whitespace. */
  function TrimRight(s: string): (r: string)
    ensures |r| <= |s|
    ensures forall i :: |r| <= i < |s| ==> IsSpace(s[i])
    ensures r == [] || !IsSpace(r[|r| - 1])
    decreases |s|
  {
    if s != [] && IsSpace(s[|s| - 1]) then TrimRight(s[..|s| - 1]) else s
  }

  /** What TrimRight drops is a suffix: the input is the result followed by the dropped whitespace. */
  lemma {:induction false} TrimRightSplit(s: string)
    ensures s == TrimRight(s) + s[|TrimRight(s)|..]
    decreases |s|
  {
    if s != [] && IsSpace(s[|s| - 1]) {
      var s' := s[..|s| - 1];
      TrimRightSplit(s');
      var r := TrimRight(s);
      assert s'[|r|..] + [s[|s| - 1]] == s[|r|..];
      assert s == s' + [s[|s| - 1]];
    }
  }

  /** Python's str.strip() with no argument. */
  function Strip(s: string): string {
    TrimRight(TrimLeft(s))
  }

  /** Number of leading characters of `s` that are not whitespace. */
  function WordLength(s: string): (n: nat)
    ensures n <= |s|
    ensures forall i :: 0 <= i < n ==> !IsSpace(s[i])
    ensures n == |s| || IsSpace(s[n])
    decreases |s|
  {
    if s == [] || IsSpace(s[0]) then 0 else 1 + WordLength(s[1..])
  }

  /** Python's str.split() with no argument: maximal runs of non-whitespace. */
  function Words(s: string): (r: seq<string>)
    ensures forall w :: w in r ==> w != [] && Contains(s, w)
    decreases |s|
  {
    var t := TrimLeft(s);
    if t == [] then []
    else
      var n := WordLength(t);
      assert 0 < n <= |t| <= |s|;
      var rest := Words(t[n..]);
      TrimLeftSplit(s);
      assert t == s[|s| - |t|..];
      WordsInside(s, t, n, rest);
      [t[..n]] + rest
  }

  lemma ContainsTransAll(s: string, u: string, ws: seq<string>)
    requires Contains(s, u)
    requires forall w :: w in ws ==> Contains(u, w)
    ensures forall w :: w in ws ==> Contains(s, w)
  {
    forall w | w in ws ensures Contains(s, w) {
      ContainsTrans(s, u, w);
    }
  }

  lemma WordsInside(s: string, t: string, n: nat, rest: seq<string>)
    requires |t| <= |s| && t == s[|s| - |t|..] && 0 < n <= |t|
    requires forall w :: w in rest ==> w != [] && Contains(t[n..], w)
    ensures forall w :: w in [t[..n]] + rest ==> w != [] && Contains(s, w)
  {
    SuffixPartsInside(s, t, n);
    ContainsTransAll(s, t[n..], rest);
    assert forall w :: w in [t[..n]] + rest ==> w == t[..n] || w in rest;
  }

  /** Both parts of a suffix `t` of `s`, split at `n`, occur in `s`. */
  lemma SuffixPartsInside(s: string, t: string, n: nat)
    requires |t| <= |s| && t == s[|s| - |t|..] && n <= |t|
    ensures Contains(s, t[..n]) && Contains(s, t[n..])
  {
    var d := |s| - |t|;
    SuffixParts(s, t, d, n);
    ContainsAt(s, t[..n], d);
    ContainsAt(s, t[n..], d + n);
  }

  lemma SuffixParts<T>(s: seq<T>, t: seq<T>, d: nat, n: nat)
    requires d <= |s| && t == s[d..] && n <= |t|
    ensures t[..n] == s[d..d + n] && t[n..] == s[d + n..|s|]
  {
  }




}

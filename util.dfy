/** Small shared vocabulary: optional values, results, and the string and
    sequence helpers that the query builders and the admin views use. */
module Util {

  datatype Option<+T> = None | Some(value: T)

  datatype Result<+T, +E> = Ok(value: T) | Err(error: E)

  /** `xs.map(g)` where `g` may throw: the first error aborts the map. */
  function MapResult<A, B, E>(xs: seq<A>, g: A -> Result<B, E>): (r: Result<seq<B>, E>)
    ensures r.Ok? ==> |r.value| == |xs| && forall i :: 0 <= i < |xs| ==> g(xs[i]) == Ok(r.value[i])
    ensures r.Err? <==> exists i :: 0 <= i < |xs| && g(xs[i]).Err?
    decreases |xs|
  {
    if |xs| == 0 then Ok([])
    else
      match g(xs[0])
      case Err(e) => Err(e)
      case Ok(y) =>
        match MapResult(xs[1..], g)
        case Err(e) => Err(e)
        case Ok(rest) =>
          assert forall i :: 1 <= i < |xs| ==> xs[i] == xs[1..][i - 1];
          Ok([y] + rest)
  }

  /** The error of a failed map is that of the first element that fails. */
  lemma {:induction false} MapResultFirstError<A, B, E>(xs: seq<A>, g: A -> Result<B, E>, k: nat)
    requires k < |xs|
    requires forall i :: 0 <= i < k ==> g(xs[i]).Ok?
    requires g(xs[k]).Err?
    ensures MapResult(xs, g) == Err(g(xs[k]).error)
    decreases k
  {
    if k > 0 {
      assert forall i :: 0 <= i < k - 1 ==> xs[1..][i] == xs[i + 1];
      MapResultFirstError(xs[1..], g, k - 1);
      assert g(xs[0]).Ok?;
    }
  }

  /** `parts.join(sep)` */
  function Join(sep: string, parts: seq<string>): string
  {
    if |parts| == 0 then ""
    else if |parts| == 1 then parts[0]
    else parts[0] + sep + Join(sep, parts[1..])
  }

  /** Appending one more part to a non-empty join adds the separator and the part. */
  lemma {:induction false} JoinSnoc(sep: string, parts: seq<string>, last: string)
    requires |parts| > 0
    ensures Join(sep, parts + [last]) == Join(sep, parts) + sep + last
  {
    if |parts| == 1 {
      assert (parts + [last])[1..] == [last];
    } else {
      assert (parts + [last])[1..] == parts[1..] + [last];
      JoinSnoc(sep, parts[1..], last);
    }
  }

  /** `s.startsWith(prefix)` */
  predicate StartsWith(s: string, prefix: string)
  {
    |prefix| <= |s| && s[..|prefix|] == prefix
  }

  /** `hay.includes(needle)`: needle occurs at some position of hay. */
  predicate Includes(hay: string, needle: string)
    decreases |hay|
  {
    StartsWith(hay, needle) || (|hay| > 0 && Includes(hay[1..], needle))
  }

  /** needle occurs in hay starting at index i. */
  predicate OccursAt(hay: string, needle: string, i: int)
  {
    0 <= i && i + |needle| <= |hay| && hay[i..i + |needle|] == needle
  }

  /** Includes means: some window of hay spells needle. */
  lemma {:induction false} IncludesAt(hay: string, needle: string)
    ensures Includes(hay, needle) <==> exists i :: OccursAt(hay, needle, i)
    decreases |hay|
  {
    if StartsWith(hay, needle) {
      assert hay[0..|needle|] == hay[..|needle|];
      assert OccursAt(hay, needle, 0);
    }
    if |hay| == 0 {
      if exists i :: OccursAt(hay, needle, i) {
        var i :| OccursAt(hay, needle, i);
        assert needle == [];
        assert StartsWith(hay, needle);
      }
    } else {
      var tail := hay[1..];
      IncludesAt(tail, needle);
      if Includes(tail, needle) {
        var i :| OccursAt(tail, needle, i);
        assert tail[i..i + |needle|] == hay[i + 1..i + 1 + |needle|];
        assert OccursAt(hay, needle, i + 1);
      }
      if exists i :: OccursAt(hay, needle, i) {
        var i :| OccursAt(hay, needle, i);
        if i == 0 {
          assert hay[0..|needle|] == hay[..|needle|];
          assert StartsWith(hay, needle);
        } else {
          assert tail[i - 1..i - 1 + |needle|] == hay[i..i + |needle|];
          assert OccursAt(tail, needle, i - 1);
        }
      }
    }
  }

  /** ASCII case folding of one character. */
  function LowerChar(c: char): char
  {
    if 'A' <= c <= 'Z' then (c as int + 32) as char else c
  }

  /** ASCII case folding: `toLowerCase` where the text is known to be
      ASCII, and the case-insensitive match of an ASCII word. Where the
      text is arbitrary, `toLowerCase` is a parameter instead. */
  function Lower(s: string): (r: string)
    ensures |r| == |s|
    ensures forall i :: 0 <= i < |s| ==> r[i] == LowerChar(s[i])
  {
    seq(|s|, i requires 0 <= i < |s| => LowerChar(s[i]))
  }

  /** Lower-casing is idempotent. */
  lemma LowerIdempotent(s: string)
    ensures Lower(Lower(s)) == Lower(s)
  {
    assert forall i :: 0 <= i < |s| ==> LowerChar(LowerChar(s[i])) == LowerChar(s[i]);
  }

  /** The characters JavaScript's `\s` and `trim` treat as white space:
      the WhiteSpace code points (tab, vertical tab, form feed, the byte
      order mark and the space separators of category Zs) and the line
      terminators. */
  predicate IsSpace(c: char)
  {
    || c == '\t' || c == '\U{B}' || c == '\U{C}' || c == '\U{FEFF}'
    || c == ' ' || c == '\U{A0}' || c == '\U{1680}' || '\U{2000}' <= c <= '\U{200A}'
    || c == '\U{202F}' || c == '\U{205F}' || c == '\U{3000}'
    || c == '\n' || c == '\r' || c == '\U{2028}' || c == '\U{2029}'
  }

  function TrimStart(s: string): (r: string)
    ensures |r| <= |s| && r == s[|s| - |r|..]
    ensures r == [] || !IsSpace(r[0])
  {
    if |s| > 0 && IsSpace(s[0]) then TrimStart(s[1..]) else s
  }

  function TrimEnd(s: string): (r: string)
    ensures |r| <= |s| && r == s[..|r|]
    ensures r == [] || !IsSpace(r[|r| - 1])
  {
    if |s| > 0 && IsSpace(s[|s| - 1]) then TrimEnd(s[..|s| - 1]) else s
  }

  /** `s.trim()` */
  function Trim(s: string): string
  {
    TrimEnd(TrimStart(s))
  }

  /** `s.length` in JavaScript: the number of UTF-16 code units, two for a
      code point beyond the Basic Multilingual Plane. */
  function Utf16Length(s: string): (n: nat)
    ensures |s| <= n <= 2 * |s|
    ensures (forall i :: 0 <= i < |s| ==> s[i] as int < 0x10000) ==> n == |s|
    decreases |s|
  {
    if |s| == 0 then 0
    else Utf16Length(s[..|s| - 1]) + (if s[|s| - 1] as int < 0x10000 then 1 else 2)
  }

  function DigitChar(d: nat): char
    requires d < 10
  {
    "0123456789"[d]
  }

  /** Decimal rendering of a natural number, as template literals print it. */
  function NatToString(n: nat): (s: string)
    ensures |s| > 0
    ensures forall i :: 0 <= i < |s| ==> '0' <= s[i] <= '9'
    decreases n
  {
    if n < 10 then [DigitChar(n)] else NatToString(n / 10) + [DigitChar(n % 10)]
  }

  function IntToString(i: int): string
  {
    if i < 0 then "-" + NatToString(-i) else NatToString(i)
  }

  function Sum(xs: seq<int>): int
  {
    if |xs| == 0 then 0 else Sum(xs[..|xs| - 1]) + xs[|xs| - 1]
  }

  lemma {:induction false} SumAppend(xs: seq<int>, ys: seq<int>)
    ensures Sum(xs + ys) == Sum(xs) + Sum(ys)
    decreases |ys|
  {
    if |ys| == 0 {
      assert xs + ys == xs;
    } else {
      assert (xs + ys)[..|xs + ys| - 1] == xs + ys[..|ys| - 1];
      SumAppend(xs, ys[..|ys| - 1]);
    }
  }

  /** Replacing one element changes the sum by the difference. */
  lemma {:induction false} SumUpdate(xs: seq<int>, i: nat, v: int)
    requires i < |xs|
    ensures Sum(xs[i := v]) == Sum(xs) - xs[i] + v
    decreases |xs|
  {
    var n := |xs| - 1;
    if i == n {
      assert xs[i := v][..n] == xs[..n];
    } else {
      assert xs[i := v][..n] == xs[..n][i := v];
      SumUpdate(xs[..n], i, v);
    }
  }

  /** A sum of non-negative terms bounds each term. */
  lemma {:induction false} SumBoundsTerm(xs: seq<int>, i: nat)
    requires forall k :: 0 <= k < |xs| ==> xs[k] >= 0
    requires i < |xs|
    ensures 0 <= xs[i] <= Sum(xs)
    decreases |xs|
  {
    var n := |xs| - 1;
    SumNonNegative(xs[..n]);
    if i < n {
      SumBoundsTerm(xs[..n], i);
    }
  }

  lemma {:induction false} SumNonNegative(xs: seq<int>)
    requires forall k :: 0 <= k < |xs| ==> xs[k] >= 0
    ensures Sum(xs) >= 0
    decreases |xs|
  {
    if |xs| > 0 {
      SumNonNegative(xs[..|xs| - 1]);
    }
  }

  /** xs is obtained from ys by deleting elements, keeping the order. */
  predicate IsSubsequence<T(==)>(xs: seq<T>, ys: seq<T>)
    decreases |ys|
  {
    if |xs| == 0 then true
    else if |ys| == 0 then false
    else if xs[0] == ys[0] then IsSubsequence(xs[1..], ys[1..])
    else IsSubsequence(xs, ys[1..])
  }

  lemma {:induction false} SubsequenceReflexive<T>(xs: seq<T>)
    ensures IsSubsequence(xs, xs)
    decreases |xs|
  {
    if |xs| > 0 {
      SubsequenceReflexive(xs[1..]);
    }
  }

  /** `xs.filter(p)` */
  function Filter<T>(xs: seq<T>, p: T -> bool): (r: seq<T>)
    ensures |r| <= |xs|
    ensures forall x :: x in r ==> x in xs && p(x)
    ensures forall x :: x in xs && p(x) ==> x in r
    decreases |xs|
  {
    if |xs| == 0 then [] else (if p(xs[0]) then [xs[0]] else []) + Filter(xs[1..], p)
  }

  /** A filter every element passes keeps the sequence. */
  lemma {:induction false} FilterKeepsAll<T>(xs: seq<T>, p: T -> bool)
    requires forall x :: x in xs ==> p(x)
    ensures Filter(xs, p) == xs
    decreases |xs|
  {
    if |xs| > 0 {
      FilterKeepsAll(xs[1..], p);
      assert [xs[0]] + xs[1..] == xs;
    }
  }

  /** Filters by predicates that agree everywhere agree. */
  lemma {:induction false} FilterExtensional<T>(xs: seq<T>, p: T -> bool, q: T -> bool)
    requires forall x :: p(x) == q(x)
    ensures Filter(xs, p) == Filter(xs, q)
    decreases |xs|
  {
    if |xs| > 0 {
      FilterExtensional(xs[1..], p, q);
    }
  }

  /** A filter by q after a filter by a weaker p is the filter by q alone. */
  lemma {:induction false} FilterOfFilter<T>(xs: seq<T>, p: T -> bool, q: T -> bool)
    requires forall x :: q(x) ==> p(x)
    ensures Filter(Filter(xs, p), q) == Filter(xs, q)
    decreases |xs|
  {
    if |xs| > 0 {
      var head := if p(xs[0]) then [xs[0]] else [];
      FilterAppend(head, Filter(xs[1..], p), q);
      FilterOfFilter(xs[1..], p, q);
      if p(xs[0]) {
        assert head[1..] == [];
      }
    }
  }

  /** Filtering a sequence with one more element at the end. */
  lemma {:induction false} FilterSnoc<T>(xs: seq<T>, x: T, p: T -> bool)
    ensures Filter(xs + [x], p) == Filter(xs, p) + (if p(x) then [x] else [])
    decreases |xs|
  {
    if |xs| == 0 {
      assert xs + [x] == [x];
    } else {
      assert (xs + [x])[1..] == xs[1..] + [x];
      FilterSnoc(xs[1..], x, p);
    }
  }

  /** The filter keeps nothing exactly when no element passes. */
  lemma {:induction false} FilterEmpty<T>(xs: seq<T>, p: T -> bool)
    ensures |Filter(xs, p)| == 0 <==> forall x :: x in xs ==> !p(x)
    decreases |xs|
  {
    if |xs| > 0 {
      FilterEmpty(xs[1..], p);
      assert forall x :: x in xs <==> x == xs[0] || x in xs[1..];
    }
  }

  /** Filtering distributes over concatenation. */
  lemma {:induction false} FilterAppend<T>(xs: seq<T>, ys: seq<T>, p: T -> bool)
    ensures Filter(xs + ys, p) == Filter(xs, p) + Filter(ys, p)
    decreases |xs|
  {
    if |xs| == 0 {
      assert xs + ys == ys;
    } else {
      assert (xs + ys)[1..] == xs[1..] + ys;
      FilterAppend(xs[1..], ys, p);
    }
  }

  /** The filter keeps everything exactly when every element passes. */
  lemma {:induction false} FilterAll<T>(xs: seq<T>, p: T -> bool)
    ensures |Filter(xs, p)| == |xs| <==> forall x :: x in xs ==> p(x)
    decreases |xs|
  {
    if |xs| > 0 {
      FilterAll(xs[1..], p);
      assert forall x :: x in xs <==> x == xs[0] || x in xs[1..];
    }
  }

  lemma {:induction false} FilterIsSubsequence<T>(xs: seq<T>, p: T -> bool)
    ensures IsSubsequence(Filter(xs, p), xs)
    decreases |xs|
  {
    if |xs| > 0 {
      FilterIsSubsequence(xs[1..], p);
      var rest := Filter(xs[1..], p);
      if p(xs[0]) {
        assert Filter(xs, p) == [xs[0]] + rest;
        assert ([xs[0]] + rest)[1..] == rest;
      } else {
        assert Filter(xs, p) == rest;
        SubsequenceTail(rest, xs);
      }
    }
  }

  lemma {:induction false} SubsequenceDropHead<T>(xs: seq<T>, ys: seq<T>)
    requires |xs| > 0 && IsSubsequence(xs, ys)
    ensures IsSubsequence(xs[1..], ys)
    decreases |ys|, 1
  {
    if xs[0] == ys[0] {
      SubsequenceWeaken(xs[1..], ys[1..], ys);
    } else {
      SubsequenceDropHead(xs, ys[1..]);
      SubsequenceWeaken(xs[1..], ys[1..], ys);
    }
  }

  lemma {:induction false} SubsequenceWeaken<T>(xs: seq<T>, ys: seq<T>, zs: seq<T>)
    requires |zs| > 0 && ys == zs[1..] && IsSubsequence(xs, ys)
    ensures IsSubsequence(xs, zs)
    decreases |zs|, 0
  {
    if |xs| > 0 && xs[0] == zs[0] {
      SubsequenceDropHead(xs, ys);
    }
  }

  lemma SubsequenceTail<T>(xs: seq<T>, ys: seq<T>)
    requires |ys| > 0 && IsSubsequence(xs, ys[1..])
    ensures IsSubsequence(xs, ys)
  {
    SubsequenceWeaken(xs, ys[1..], ys);
  }

  /** Appending the same element to both sides, or to the larger side only,
      keeps a subsequence one. */
  lemma {:induction false} SubsequenceSnoc<T>(xs: seq<T>, ys: seq<T>, y: T)
    requires IsSubsequence(xs, ys)
    ensures IsSubsequence(xs + [y], ys + [y])
    ensures IsSubsequence(xs, ys + [y])
    decreases |ys|
  {
    if |ys| > 0 {
      assert (ys + [y])[1..] == ys[1..] + [y];
      if |xs| == 0 {
        SubsequenceSnoc(xs, ys[1..], y);
        assert xs + [y] == [y];
      } else if xs[0] == ys[0] {
        assert (xs + [y])[1..] == xs[1..] + [y];
        SubsequenceSnoc(xs[1..], ys[1..], y);
      } else {
        SubsequenceSnoc(xs, ys[1..], y);
      }
    } else if |xs| == 0 {
      assert xs + [y] == [y] && ys + [y] == [y];
      assert [y][1..] == [];
    }
  }

  /** Filtering by one predicate and then another is a subsequence too. */
  lemma SubsequenceTransitive<T>(xs: seq<T>, ys: seq<T>, zs: seq<T>)
    requires IsSubsequence(xs, ys) && IsSubsequence(ys, zs)
    ensures IsSubsequence(xs, zs)
    decreases |zs|
  {
    if |xs| > 0 && |zs| > 0 {
      if ys[0] == zs[0] {
        if xs[0] == ys[0] {
          SubsequenceTransitive(xs[1..], ys[1..], zs[1..]);
        } else {
          SubsequenceTransitive(xs, ys[1..], zs[1..]);
          SubsequenceTail(xs, zs);
        }
      } else {
        SubsequenceTransitive(xs, ys, zs[1..]);
        SubsequenceTail(xs, zs);
      }
    }
  }

  /** Filtering keeps relative order, so a relation that holds between every
      earlier and later element still holds after filtering. */
  lemma {:induction false} PairwiseFilter<T>(xs: seq<T>, p: T -> bool, rel: (T, T) -> bool)
    requires forall i, j :: 0 <= i < j < |xs| ==> rel(xs[i], xs[j])
    ensures forall i, j :: 0 <= i < j < |Filter(xs, p)| ==> rel(Filter(xs, p)[i], Filter(xs, p)[j])
    decreases |xs|
  {
    if |xs| > 0 {
      PairwiseFilter(xs[1..], p, rel);
      var rest := Filter(xs[1..], p);
      var ys := Filter(xs, p);
      assert forall i, j :: 0 <= i < j < |rest| ==> rel(rest[i], rest[j]);
      if p(xs[0]) {
        assert ys == [xs[0]] + rest;
        forall i, j | 0 <= i < j < |ys|
          ensures rel(ys[i], ys[j])
        {
          if i == 0 {
            assert ys[j] == rest[j - 1] && rest[j - 1] in rest;
            var k :| 0 <= k < |xs[1..]| && xs[1..][k] == rest[j - 1];
            assert xs[k + 1] == ys[j];
            assert rel(xs[0], xs[k + 1]);
          } else {
            assert ys[i] == rest[i - 1] && ys[j] == rest[j - 1];
          }
        }
      } else {
        assert ys == rest;
      }
    }
  }
}

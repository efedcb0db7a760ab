/**
 * Values and sequence operations shared by every part of the model:
 * optional values, the JavaScript number values a form can produce,
 * and the Array.prototype operations (filter, find, findIndex) the
 * components rely on.
 */
module Common {

  datatype Option<T> = None | Some(value: T)

  /** A JavaScript number. NaN is kept apart from the finite values, which
      are modelled as reals (IEEE-754 rounding and infinities are not). */
  datatype JsNumber = NaN | Num(v: real)

  /** JavaScript truthiness of a number: 0 and NaN are falsy. */
  predicate NumberTruthy(n: JsNumber)
  {
    n.Num? && n.v != 0.0
  }

  /** The text of a form input, classified by what JavaScript's Number()
      makes of it: the empty string (Blank), a text that is not a number
      (NotNumeric), or a text that denotes `value`. A whitespace-only text
      is Numeric(0.0), as Number("  ") is 0. */
  datatype NumericText = Blank | NotNumeric | Numeric(value: real)

  /** Number(text). */
  function NumberOf(t: NumericText): (n: JsNumber)
    ensures n.NaN? <==> t.NotNumeric?
    ensures t.Blank? ==> n == Num(0.0)
    ensures t.Numeric? ==> n == Num(t.value)
  {
    match t
    case Blank => Num(0.0)
    case NotNumeric => NaN
    case Numeric(v) => Num(v)
  }

  /** The value of a select whose options are "" and the decimal texts of
      catalogue ids. */
  datatype IdText = NoId | IdOf(id: int)

  /** JavaScript truthiness of such a value: only "" is falsy. */
  predicate IdTruthy(t: IdText)
  {
    t.IdOf?
  }

  /** Number(value): Number("") is 0. */
  function IdNumber(t: IdText): (n: int)
    ensures t.IdOf? ==> n == t.id
    ensures t.NoId? ==> n == 0
  {
    if t.IdOf? then t.id else 0
  }

  /** Array.prototype.filter. */
  function Filter<T>(s: seq<T>, p: T -> bool): (r: seq<T>)
    ensures |r| <= |s|
    ensures forall i :: 0 <= i < |r| ==> r[i] in s && p(r[i])
    ensures forall i :: 0 <= i < |s| && p(s[i]) ==> s[i] in r
  {
    if s == [] then []
    else if p(s[0]) then [s[0]] + Filter(s[1..], p)
    else Filter(s[1..], p)
  }

  lemma {:induction false} FilterConcat<T>(a: seq<T>, b: seq<T>, p: T -> bool)
    ensures Filter(a + b, p) == Filter(a, p) + Filter(b, p)
  {
    if a == [] {
      assert a + b == b;
    } else {
      assert (a + b)[1..] == a[1..] + b;
      FilterConcat(a[1..], b, p);
    }
  }

  /** Filtering keeps everything exactly when every element passes. */
  lemma {:induction false} FilterKeepsAll<T>(s: seq<T>, p: T -> bool)
    requires forall i :: 0 <= i < |s| ==> p(s[i])
    ensures Filter(s, p) == s
  {
    if s != [] {
      FilterKeepsAll(s[1..], p);
    }
  }

  /** Two predicates that agree on the elements of `s` filter it alike. */
  lemma {:induction false} FilterCongruent<T>(s: seq<T>, p: T -> bool, q: T -> bool)
    requires forall i :: 0 <= i < |s| ==> p(s[i]) == q(s[i])
    ensures Filter(s, p) == Filter(s, q)
  {
    if s != [] {
      FilterCongruent(s[1..], p, q);
    }
  }

  /** A predicate implied by another keeps at least as many elements. */
  lemma {:induction false} FilterWeaker<T>(s: seq<T>, p: T -> bool, q: T -> bool)
    requires forall i :: 0 <= i < |s| && p(s[i]) ==> q(s[i])
    ensures |Filter(s, p)| <= |Filter(s, q)|
  {
    if s != [] {
      FilterWeaker(s[1..], p, q);
    }
  }

  /** Every element is kept by exactly one of `p` and its negation. */
  lemma {:induction false} FilterSplit<T>(s: seq<T>, p: T -> bool, q: T -> bool)
    requires forall i :: 0 <= i < |s| ==> q(s[i]) == !p(s[i])
    ensures |Filter(s, p)| + |Filter(s, q)| == |s|
  {
    if s != [] {
      FilterSplit(s[1..], p, q);
    }
  }

  /** The sequence without its element at index i; an index outside the
      sequence removes nothing. */
  function RemoveAt<T>(s: seq<T>, i: int): (r: seq<T>)
    ensures 0 <= i < |s| ==> |r| == |s| - 1
    ensures !(0 <= i < |s|) ==> r == s
    ensures 0 <= i < |s| ==> forall j :: 0 <= j < |r| ==> r[j] == if j < i then s[j] else s[j + 1]
  {
    if 0 <= i < |s| then s[..i] + s[i + 1..] else s
  }

  /** Math.min and Math.max of two integers. */
  function Min(a: int, b: int): int
  {
    if a <= b then a else b
  }

  function Max(a: int, b: int): int
  {
    if a >= b then a else b
  }

  /** Where Array.prototype.splice starts: a negative start counts from
      the end and stops at 0, and a start past the end is the length. */
  function SpliceStart(len: nat, start: int): (k: nat)
    ensures k <= len
  {
    if start < 0 then (if len + start >= 0 then len + start else 0)
    else if start <= len then start else len
  }

  /** Array.prototype.map. */
  function Map<T, U>(s: seq<T>, f: T -> U): (r: seq<U>)
    ensures |r| == |s|
    ensures forall i :: 0 <= i < |s| ==> r[i] == f(s[i])
  {
    if s == [] then [] else [f(s[0])] + Map(s[1..], f)
  }

  /** Filtering the images by `p` is mapping the elements that `q` keeps,
      when `q` holds exactly of the elements whose image passes `p`. */
  lemma {:induction false} MapThenFilter<T, U>(s: seq<T>, f: T -> U, p: U -> bool, q: T -> bool)
    requires forall i :: 0 <= i < |s| ==> q(s[i]) == p(f(s[i]))
    ensures Filter(Map(s, f), p) == Map(Filter(s, q), f)
  {
    if s != [] {
      assert Map(s, f)[1..] == Map(s[1..], f);
      MapThenFilter(s[1..], f, p, q);
    }
  }

  /** Filtering twice is filtering once by both predicates. */
  lemma {:induction false} FilterFilter<T>(s: seq<T>, p: T -> bool, q: T -> bool, pq: T -> bool)
    requires forall i :: 0 <= i < |s| ==> pq(s[i]) == (p(s[i]) && q(s[i]))
    ensures Filter(Filter(s, p), q) == Filter(s, pq)
  {
    if s != [] {
      FilterFilter(s[1..], p, q, pq);
    }
  }

  /** The values of the present elements, in order (filter(Boolean) on a
      list of values and nulls). */
  function Somes<T>(s: seq<Option<T>>): (r: seq<T>)
    ensures |r| <= |s|
  {
    if s == [] then []
    else if s[0].Some? then [s[0].value] + Somes(s[1..])
    else Somes(s[1..])
  }

  /** Mapping to optional values and keeping the present ones is mapping
      the elements whose image is present. */
  lemma {:induction false} SomesOfMap<T, U>(s: seq<T>, f: T -> Option<U>, p: T -> bool, g: T -> U)
    requires forall i :: 0 <= i < |s| ==> p(s[i]) == f(s[i]).Some?
    requires forall i :: 0 <= i < |s| && f(s[i]).Some? ==> g(s[i]) == f(s[i]).value
    ensures Somes(Map(s, f)) == Map(Filter(s, p), g)
  {
    if s != [] {
      assert Map(s, f)[1..] == Map(s[1..], f);
      SomesOfMap(s[1..], f, p, g);
    }
  }

  /** A relative index of Array.prototype.slice resolved against a
      length: a negative one counts from the end, and both are clamped to
      [0, n]. */
  function SliceIndex(i: int, n: nat): (r: nat)
    ensures r <= n
    ensures 0 <= i <= n ==> r == i
    ensures i > n ==> r == n
    ensures i < 0 ==> r == if n + i < 0 then 0 else n + i
  {
    if i < 0 then (if n + i < 0 then 0 else n + i) else if i > n then n else i
  }

  /** Array.prototype.slice(start, end). */
  function Slice<T>(s: seq<T>, start: int, end: int): (r: seq<T>)
    ensures SliceIndex(start, |s|) <= SliceIndex(end, |s|) ==> r == s[SliceIndex(start, |s|)..SliceIndex(end, |s|)]
    ensures SliceIndex(start, |s|) > SliceIndex(end, |s|) ==> r == []
  {
    var a, b := SliceIndex(start, |s|), SliceIndex(end, |s|);
    if a < b then s[a..b] else []
  }

  /** Array.prototype.findIndex: the first index whose element satisfies
      `p`, or -1. */
  function FirstIndex<T>(s: seq<T>, p: T -> bool): (r: int)
    ensures -1 <= r < |s|
    ensures r >= 0 ==> p(s[r]) && forall j :: 0 <= j < r ==> !p(s[j])
    ensures r == -1 <==> forall j :: 0 <= j < |s| ==> !p(s[j])
  {
    if s == [] then -1
    else if p(s[0]) then 0
    else
      var k := FirstIndex(s[1..], p);
      if k == -1 then -1 else k + 1
  }

  /** Array.prototype.find: the first element satisfying `p`. */
  function Find<T>(s: seq<T>, p: T -> bool): (r: Option<T>)
    ensures r.None? <==> forall j :: 0 <= j < |s| ==> !p(s[j])
    ensures r.Some? ==> r.value in s && p(r.value)
    ensures r.Some? ==> exists i :: 0 <= i < |s| && s[i] == r.value && forall j :: 0 <= j < i ==> !p(s[j])
  {
    var i := FirstIndex(s, p);
    if i == -1 then None else Some(s[i])
  }

  /** The concatenation of f(x) for the elements x of xs, in order (a
      forEach that pushes f(x)'s elements). */
  function FlatMap<T, U>(xs: seq<T>, f: T -> seq<U>): seq<U>
  {
    if xs == [] then [] else FlatMap(xs[..|xs| - 1], f) + f(xs[|xs| - 1])
  }

  lemma {:induction false} FlatMapConcat<T, U>(a: seq<T>, b: seq<T>, f: T -> seq<U>)
    ensures FlatMap(a + b, f) == FlatMap(a, f) + FlatMap(b, f)
    decreases |b|
  {
    if b == [] {
      assert a + b == a;
    } else {
      var bi := b[..|b| - 1];
      assert (a + b)[..|a + b| - 1] == a + bi;
      assert (a + b)[|a + b| - 1] == b[|b| - 1];
      FlatMapConcat(a, bi, f);
    }
  }

  /** Each element of a FlatMap comes from f applied to one element of xs. */
  lemma {:induction false} FlatMapElement<T, U>(xs: seq<T>, f: T -> seq<U>, k: nat) returns (i: nat, off: nat)
    requires k < |FlatMap(xs, f)|
    ensures i < |xs| && off < |f(xs[i])| && FlatMap(xs, f)[k] == f(xs[i])[off]
  {
    var init := xs[..|xs| - 1];
    if k < |FlatMap(init, f)| {
      i, off := FlatMapElement(init, f, k);
    } else {
      i, off := |xs| - 1, k - |FlatMap(init, f)|;
    }
  }

  /** Math.ceil(n / d) for a positive divisor: the least number of pages
      of size d that hold n items. */
  function CeilDiv(n: nat, d: nat): (r: nat)
    requires d > 0
    ensures r * d >= n
    ensures r == 0 || (r - 1) * d < n
    ensures r == 0 <==> n == 0
  {
    if n == 0 then 0 else 1 + CeilDiv(if n <= d then 0 else n - d, d)
  }

  /** Math.round(part / whole * 100) for non-negative counts: the integer
      nearest to the exact percentage, halves rounded up. */
  function RoundPercent(part: nat, whole: nat): (r: nat)
    requires whole > 0
    ensures 2 * whole * r <= 200 * part + whole < 2 * whole * (r + 1)
  {
    (200 * part + whole) / (2 * whole)
  }

  /** Integer division is the unique quotient (`x / d == q` when
      `d * q <= x < d * (q + 1)`). */
  lemma DivIsQuotient(x: nat, d: nat, q: nat)
    requires d > 0
    requires d * q <= x < d * (q + 1)
    ensures x / d == q
  {
    var k, m := x / d, x % d;
    assert x == d * k + m && 0 <= m < d;
    assert d * q < d * (k + 1) && d * k < d * (q + 1);
  }

  /** Integer division by a positive number keeps the order. */
  lemma DivMonotone(x: nat, y: nat, d: nat)
    requires d > 0 && x <= y
    ensures x / d <= y / d
  {
    var qx, qy := x / d, y / d;
    assert d * qx <= x && y < d * (qy + 1);
    MulCancelLess(d, qx, qy + 1);
  }

  lemma MulCancelLess(d: int, a: int, b: int)
    requires d > 0 && d * a < d * b
    ensures a < b
  {
  }

  /** Rounded percentages keep the order of their parts. */
  lemma RoundPercentMonotone(a: nat, b: nat, whole: nat)
    requires whole > 0 && a <= b
    ensures RoundPercent(a, whole) <= RoundPercent(b, whole)
  {
    DivMonotone(200 * a + whole, 200 * b + whole, 2 * whole);
  }

  /** The whole is 100 percent of itself. */
  lemma RoundPercentFull(whole: nat)
    requires whole > 0
    ensures RoundPercent(whole, whole) == 100
  {
    var x := 200 * whole + whole;
    assert 2 * whole * 100 == 200 * whole && 2 * whole * 101 == 202 * whole;
    DivIsQuotient(x, 2 * whole, 100);
  }

  lemma RoundPercentBounds(part: nat, whole: nat)
    requires whole > 0
    ensures part == 0 ==> RoundPercent(part, whole) == 0
    ensures part == whole ==> RoundPercent(part, whole) == 100
    ensures part <= whole ==> RoundPercent(part, whole) <= 100
  {
    if part == 0 {
      DivIsQuotient(whole, 2 * whole, 0);
    }
    RoundPercentFull(whole);
    if part <= whole {
      RoundPercentMonotone(part, whole, whole);
    }
  }
}

/**
 * Python's `sum` over lists and dictionary values, in exact real
 * arithmetic.  A dictionary is a `map`; Python iterates it in
 * insertion order, which does not change an exact sum, so the sums over
 * maps here are defined by removing an arbitrary key.
 */
module Aggregates {

  /** Python's `sum(xs)` over a list of numbers. */
  function Sum(xs: seq<real>): real
  {
    if |xs| == 0 then 0.0 else xs[0] + Sum(xs[1..])
  }

  /** Python's `sum(xs)` over a list of integers. */
  function SumInts(xs: seq<int>): int
  {
    if |xs| == 0 then 0 else xs[0] + SumInts(xs[1..])
  }

  lemma {:induction false} SumAppend(xs: seq<real>, ys: seq<real>)
    ensures Sum(xs + ys) == Sum(xs) + Sum(ys)
  {
    if |xs| > 0 {
      assert (xs + ys)[0] == xs[0];
      assert (xs + ys)[1..] == xs[1..] + ys;
      SumAppend(xs[1..], ys);
    } else {
      assert xs + ys == ys;
    }
  }

  lemma {:induction false} SumIntsAppend(xs: seq<int>, ys: seq<int>)
    ensures SumInts(xs + ys) == SumInts(xs) + SumInts(ys)
  {
    if |xs| > 0 {
      assert (xs + ys)[1..] == xs[1..] + ys;
      SumIntsAppend(xs[1..], ys);
    } else {
      assert xs + ys == ys;
    }
  }

  /** The sum of the first `n + 1` integers adds entry `n` to that of the first `n`. */
  lemma SumIntsPrefix(xs: seq<int>, n: nat)
    requires n < |xs|
    ensures SumInts(xs[..n + 1]) == SumInts(xs[..n]) + xs[n]
  {
    assert xs[..n + 1] == xs[..n] + [xs[n]];
    SumIntsAppend(xs[..n], [xs[n]]);
  }

  /** A list of zeros sums to 0. */
  lemma {:induction false} SumZeros(xs: seq<real>)
    requires forall i :: 0 <= i < |xs| ==> xs[i] == 0.0
    ensures Sum(xs) == 0.0
  {
    if |xs| > 0 {
      SumZeros(xs[1..]);
    }
  }

  /**
   * `a * b`.  Products of two variables inside the definitions below are
   * written through this function, which keeps the solver's view of those
   * definitions linear.
   */
  function Times(a: real, b: real): real
  {
    a * b
  }

  /** Multiplying by a quotient undoes the division. */
  lemma TimesQuotient(a: real, b: real)
    requires a != 0.0
    ensures Times(a, b / a) == b
  {
  }

  /** `(x * (t / s)) * s == x * t`: scaling by `t / s` and then by `s` is scaling by `t`. */
  lemma TimesScaleBack(x: real, t: real, s: real)
    requires s != 0.0
    ensures Times(Times(x, t / s), s) == Times(x, t)
  {
    var q := t / s;
    assert q * s == t;
    assert x * q * s == x * (q * s);
  }

  lemma TimesNonNegative(a: real, b: real)
    requires a >= 0.0 && b >= 0.0
    ensures Times(a, b) >= 0.0
  {
  }

  lemma QuotientNonNegative(a: real, b: real)
    requires a >= 0.0 && b > 0.0
    ensures a / b >= 0.0
  {
  }

  /** Every element multiplied by `c`. */
  function Scale(xs: seq<real>, c: real): (ys: seq<real>)
    ensures |ys| == |xs|
  {
    if |xs| == 0 then [] else [Times(xs[0], c)] + Scale(xs[1..], c)
  }

  /** Scaling every element scales the sum. */
  lemma {:induction false} SumScale(xs: seq<real>, c: real)
    ensures Sum(Scale(xs, c)) == Times(Sum(xs), c)
  {
    if |xs| > 0 {
      SumScale(xs[1..], c);
      assert Scale(xs, c)[1..] == Scale(xs[1..], c);
    }
  }

  lemma ScaleAt(xs: seq<real>, c: real, i: nat)
    requires i < |xs|
    ensures Scale(xs, c)[i] == Times(xs[i], c)
    decreases i
  {
    if i > 0 {
      ScaleAt(xs[1..], c, i - 1);
    }
  }

  /** A sum of non-negative numbers is non-negative. */
  lemma {:induction false} SumNonNegative(xs: seq<real>)
    requires forall i :: 0 <= i < |xs| ==> xs[i] >= 0.0
    ensures Sum(xs) >= 0.0
  {
    if |xs| > 0 {
      SumNonNegative(xs[1..]);
    }
  }

  // Sums over the values of a dictionary

  ghost function Pick(keys: set<string>): string
    requires keys != {}
  {
    var k :| k in keys; k
  }

  /** Python's `sum(d.values())` for a dictionary `d` of numbers. */
  ghost function SumValues(m: map<string, real>): real
    decreases |m|
  {
    if |m| == 0 then 0.0
    else
      var k := Pick(m.Keys);
      assert |m - {k}| < |m| by {
        assert (m - {k}).Keys == m.Keys - {k};
      }
      m[k] + SumValues(m - {k})
  }

  /** Any key may be taken out of the sum first. */
  lemma {:induction false} SumValuesRemove(m: map<string, real>, k: string)
    requires k in m
    ensures SumValues(m) == m[k] + SumValues(m - {k})
    decreases |m|
  {
    var p := Pick(m.Keys);
    assert (m - {k}).Keys == m.Keys - {k};
    if p != k {
      assert (m - {p}).Keys == m.Keys - {p};
      SumValuesRemove(m - {p}, k);
      SumValuesRemove(m - {k}, p);
      assert m - {p} - {k} == m - {k} - {p};
    }
  }

  /** The empty dictionary sums to 0. */
  lemma SumValuesEmpty(m: map<string, real>)
    requires |m| == 0
    ensures SumValues(m) == 0.0
  {
  }

  /** A dictionary of zeros sums to 0. */
  lemma {:induction false} SumValuesZero(m: map<string, real>)
    requires forall k :: k in m ==> m[k] == 0.0
    ensures SumValues(m) == 0.0
    decreases |m|
  {
    if |m| > 0 {
      var k := Pick(m.Keys);
      assert (m - {k}).Keys == m.Keys - {k};
      SumValuesZero(m - {k});
    }
  }

  /** A dictionary that is 0 everywhere but at `k` sums to its value at `k`. */
  lemma SumValuesSingle(m: map<string, real>, k: string)
    requires k in m
    requires forall j :: j in m && j != k ==> m[j] == 0.0
    ensures SumValues(m) == m[k]
  {
    SumValuesRemove(m, k);
    SumValuesZero(m - {k});
  }

  /** The pointwise sum of two dictionaries over the same keys. */
  function AddValues(a: map<string, real>, b: map<string, real>): (c: map<string, real>)
    requires a.Keys == b.Keys
    ensures c.Keys == a.Keys
    ensures forall k :: k in c ==> c[k] == a[k] + b[k]
  {
    map k | k in a :: a[k] + b[k]
  }

  /** Summing a pointwise sum of two dictionaries over the same keys. */
  lemma {:induction false} SumValuesAdd(a: map<string, real>, b: map<string, real>)
    requires a.Keys == b.Keys
    ensures SumValues(AddValues(a, b)) == SumValues(a) + SumValues(b)
    decreases |a|
  {
    if |a| > 0 {
      var c := AddValues(a, b);
      var k := Pick(a.Keys);
      assert |a - {k}| < |a| by {
        assert (a - {k}).Keys == a.Keys - {k};
      }
      SumValuesRemove(a, k);
      SumValuesRemove(b, k);
      SumValuesRemove(c, k);
      SumValuesAdd(a - {k}, b - {k});
      AddValuesRemove(a, b, k);
    }
  }

  /** Removing a key from a pointwise sum is summing the two dictionaries without it. */
  lemma AddValuesRemove(a: map<string, real>, b: map<string, real>, k: string)
    requires a.Keys == b.Keys
    ensures AddValues(a, b) - {k} == AddValues(a - {k}, b - {k})
  {
    var c, d := AddValues(a, b) - {k}, AddValues(a - {k}, b - {k});
    assert c.Keys == d.Keys;
    assert forall j :: j in c ==> c[j] == d[j];
  }

  /** Every value multiplied by `c`. */
  function ScaleValues(m: map<string, real>, c: real): (s: map<string, real>)
    ensures s.Keys == m.Keys
  {
    map k | k in m :: Times(m[k], c)
  }

  /** The values of a dictionary, listed in the order in which `SumValues` adds them. */
  ghost function ValueList(m: map<string, real>): seq<real>
    decreases |m|
  {
    if |m| == 0 then []
    else
      var k := Pick(m.Keys);
      assert |m - {k}| < |m| by {
        assert (m - {k}).Keys == m.Keys - {k};
      }
      [m[k]] + ValueList(m - {k})
  }

  lemma {:induction false} SumValuesAsList(m: map<string, real>)
    ensures SumValues(m) == Sum(ValueList(m))
    decreases |m|
  {
    if |m| > 0 {
      var k := Pick(m.Keys);
      assert (m - {k}).Keys == m.Keys - {k};
      SumValuesAsList(m - {k});
      assert ValueList(m)[1..] == ValueList(m - {k});
    }
  }

  lemma {:induction false} ValueListScale(m: map<string, real>, c: real)
    ensures ValueList(ScaleValues(m, c)) == Scale(ValueList(m), c)
    decreases |m|
  {
    var s := ScaleValues(m, c);
    if |m| > 0 {
      var k := Pick(m.Keys);
      assert Pick(s.Keys) == k;
      assert (m - {k}).Keys == m.Keys - {k};
      var t := ScaleValues(m - {k}, c);
      assert s - {k} == t by {
        assert (s - {k}).Keys == t.Keys;
        forall j | j in t ensures (s - {k})[j] == t[j] {
          assert (m - {k})[j] == m[j];
          assert t[j] == Times((m - {k})[j], c);
          assert s[j] == Times(m[j], c);
        }
      }
      ValueListScale(m - {k}, c);
      assert ValueList(m) == [m[k]] + ValueList(m - {k});
      assert ValueList(s) == [s[k]] + ValueList(t);
      ScaleValuesAt(m, c, k);
      ScaleCons(m[k], ValueList(m - {k}), c);
    } else {
      assert s == map[];
    }
  }

  lemma ScaleCons(x: real, xs: seq<real>, c: real)
    ensures Scale([x] + xs, c) == [Times(x, c)] + Scale(xs, c)
  {
    var ys := [x] + xs;
    assert |ys| > 0 && ys[0] == x && ys[1..] == xs;
  }

  lemma ScaleValuesAt(m: map<string, real>, c: real, k: string)
    requires k in m
    ensures ScaleValues(m, c)[k] == Times(m[k], c)
  {
  }

  /** Scaling every value scales the sum. */
  lemma SumValuesScale(m: map<string, real>, c: real)
    ensures SumValues(ScaleValues(m, c)) == Times(SumValues(m), c)
  {
    SumValuesAsList(m);
    SumValuesAsList(ScaleValues(m, c));
    ValueListScale(m, c);
    SumScale(ValueList(m), c);
  }

  /** Summing over the keys of a map with finitely many keys, as Python's `sum` does. */
  method SumOfValues(m: map<string, real>) returns (total: real)
    ensures total == SumValues(m)
  {
    total := 0.0;
    var rest := m;
    while rest != map[]
      invariant total + SumValues(rest) == SumValues(m)
      decreases |rest|
    {
      var k :| k in rest;
      SumValuesRemove(rest, k);
      total := total + rest[k];
      assert (rest - {k}).Keys == rest.Keys - {k};
      rest := rest - {k};
    }
  }
}

/**
 * String operations of Python that the demo relies on: substring search
 * (`sub in s`), `str.split(sep)` with an explicit separator, `sep.join(parts)`,
 * and the decimal rendering and parsing of natural numbers used in the
 * generated names "VM k" and "Host k".
 */
module Text {

  /** `sep` occurs in `s` starting at index `i`. */
  predicate OccursAt(s: string, sep: string, i: nat) {
    i + |sep| <= |s| && s[i..i + |sep|] == sep
  }

  /** Python's `sub in s` for strings. */
  predicate Contains(s: string, sub: string) {
    exists i: nat | i <= |s| :: OccursAt(s, sub, i)
  }

  predicate EndsWith(s: string, suffix: string) {
    |suffix| <= |s| && s[|s| - |suffix|..] == suffix
  }

  /** A one-character string occurs exactly where that character does. */
  lemma CharNotContained(s: string, c: char)
    requires c !in s
    ensures !Contains(s, [c])
  {
    forall j: nat | j <= |s| ensures !OccursAt(s, [c], j) {
      if j + 1 <= |s| {
        assert s[j..j + 1] == [s[j]];
      }
    }
  }

  lemma OccursAtTail(s: string, sep: string, j: nat)
    requires |s| > 0
    ensures OccursAt(s, sep, j + 1) <==> OccursAt(s[1..], sep, j)
  {
    if j + 1 + |sep| <= |s| {
      assert s[j + 1..j + 1 + |sep|] == s[1..][j..j + |sep|];
    }
  }

  /** The index of the first occurrence of `sep` in `s`, or -1 (Python's `str.find`). */
  function IndexOf(s: string, sep: string): (r: int)
    ensures r >= -1
    ensures r >= 0 ==> OccursAt(s, sep, r)
    ensures forall j: nat :: j < r ==> !OccursAt(s, sep, j)
    ensures r == -1 <==> !Contains(s, sep)
    decreases |s|
  {
    if |s| < |sep| then
      -1
    else if s[..|sep|] == sep then
      assert OccursAt(s, sep, 0);
      0
    else
      var r := IndexOf(s[1..], sep);
      FirstOccurrenceInTail(s, sep, r);
      if r < 0 then -1 else r + 1
  }

  /** Where `sep` does not start `s`, its first occurrence in `s` is one past its first in `s[1..]`. */
  lemma FirstOccurrenceInTail(s: string, sep: string, r: int)
    requires |s| > 0 && !OccursAt(s, sep, 0)
    requires r >= -1 && (r >= 0 ==> OccursAt(s[1..], sep, r))
    requires forall j: nat :: j < r ==> !OccursAt(s[1..], sep, j)
    requires r == -1 <==> !Contains(s[1..], sep)
    ensures var t := if r < 0 then -1 else r + 1;
      && (t >= 0 ==> OccursAt(s, sep, t))
      && (forall j: nat :: j < t ==> !OccursAt(s, sep, j))
      && (t == -1 <==> !Contains(s, sep))
  {
    forall j: nat ensures OccursAt(s, sep, j + 1) <==> OccursAt(s[1..], sep, j) {
      OccursAtTail(s, sep, j);
    }
    assert forall j: nat :: OccursAt(s, sep, j) ==> j > 0 && OccursAt(s[1..], sep, j - 1);
    if r >= 0 {
      assert OccursAt(s, sep, r + 1);
    }
  }

  /** A first occurrence determines `IndexOf`. */
  lemma IndexOfIs(s: string, sep: string, i: nat)
    requires OccursAt(s, sep, i)
    requires forall j: nat :: j < i ==> !OccursAt(s, sep, j)
    ensures IndexOf(s, sep) == i
  {
  }

  /** Python's `s.split(sep)` for a non-empty separator. */
  function Split(s: string, sep: string): (parts: seq<string>)
    requires |sep| > 0
    ensures |parts| >= 1
    decreases |s|
  {
    var i := IndexOf(s, sep);
    if i < 0 then [s] else [s[..i]] + Split(s[i + |sep|..], sep)
  }

  /** No piece of a split contains the separator. */
  lemma {:induction false} SplitPiecesFree(s: string, sep: string)
    requires |sep| > 0
    ensures forall k :: 0 <= k < |Split(s, sep)| ==> !Contains(Split(s, sep)[k], sep)
    decreases |s|
  {
    var i := IndexOf(s, sep);
    if i >= 0 {
      var rest := s[i + |sep|..];
      HeadFree(s, sep);
      SplitPiecesFree(rest, sep);
      SplitFound(s, sep);
      ConsFree(Split(s, sep), s[..i], Split(rest, sep), sep);
    }
  }

  /** The text before the first occurrence does not contain the separator. */
  lemma HeadFree(s: string, sep: string)
    requires |sep| > 0 && IndexOf(s, sep) >= 0
    ensures !Contains(s[..IndexOf(s, sep)], sep)
  {
    var head := s[..IndexOf(s, sep)];
    forall j: nat | OccursAt(head, sep, j) ensures false {
      assert s[j..j + |sep|] == head[j..j + |sep|];
      assert OccursAt(s, sep, j);
    }
  }

  /** Prepending a separator-free piece to separator-free pieces keeps them separator-free. */
  lemma ConsFree(whole: seq<string>, head: string, rest: seq<string>, sep: string)
    requires whole == [head] + rest && !Contains(head, sep)
    requires forall k :: 0 <= k < |rest| ==> !Contains(rest[k], sep)
    ensures forall k :: 0 <= k < |whole| ==> !Contains(whole[k], sep)
  {
    forall k | 0 <= k < |whole| ensures !Contains(whole[k], sep) {
      if k > 0 {
        assert whole[k] == rest[k - 1];
      }
    }
  }

  /** Python's `sep.join(parts)`. */
  function Join(parts: seq<string>, sep: string): string
  {
    if |parts| == 0 then ""
    else if |parts| == 1 then parts[0]
    else parts[0] + sep + Join(parts[1..], sep)
  }

  /** Joining the pieces of a split with the same separator restores the string. */
  lemma {:induction false} JoinSplit(s: string, sep: string)
    requires |sep| > 0
    ensures Join(Split(s, sep), sep) == s
    decreases |s|
  {
    var i := IndexOf(s, sep);
    if i >= 0 {
      var head, rest := s[..i], s[i + |sep|..];
      SplitFound(s, sep);
      JoinSplit(rest, sep);
      JoinCons(head, Split(rest, sep), sep);
      CutAt(s, i, sep);
    }
  }

  /** A sequence with `mid` at index `i` is what comes before, then `mid`, then what follows. */
  lemma CutAt<T>(s: seq<T>, i: nat, mid: seq<T>)
    ensures i + |mid| <= |s| && s[i..i + |mid|] == mid ==> s == s[..i] + mid + s[i + |mid|..]
  {
    if i + |mid| <= |s| && s[i..i + |mid|] == mid {
      assert s == s[..i] + s[i..i + |mid|] + s[i + |mid|..];
    }
  }

  /** Where the separator occurs, the split cuts at its first occurrence. */
  lemma SplitFound(s: string, sep: string)
    requires |sep| > 0 && IndexOf(s, sep) >= 0
    ensures var i := IndexOf(s, sep); Split(s, sep) == [s[..i]] + Split(s[i + |sep|..], sep)
  {
  }

  lemma JoinCons(head: string, parts: seq<string>, sep: string)
    requires |parts| >= 1
    ensures Join([head] + parts, sep) == head + sep + Join(parts, sep)
  {
    assert ([head] + parts)[1..] == parts;
  }

  /** A string without the separator splits into itself alone. */
  lemma SplitNoSep(s: string, sep: string)
    requires |sep| > 0 && !Contains(s, sep)
    ensures Split(s, sep) == [s]
  {
  }

  /** An occurrence that ends inside `a` is unaffected by what follows `a`. */
  lemma OccursAtPrefix(a: string, t: string, sep: string, j: nat)
    requires j + |sep| <= |a|
    ensures OccursAt(a + t, sep, j) <==> OccursAt(a, sep, j)
  {
    assert (a + t)[j..j + |sep|] == a[j..j + |sep|];
  }

  /** The first occurrence of `sep` in `a` stays the first one in `a + t`. */
  lemma IndexOfPrefix(a: string, t: string, sep: string)
    requires IndexOf(a, sep) >= 0
    ensures IndexOf(a + t, sep) == IndexOf(a, sep)
  {
    var i := IndexOf(a, sep);
    forall j: nat | j < i ensures !OccursAt(a + t, sep, j) {
      OccursAtPrefix(a, t, sep, j);
    }
    OccursAtPrefix(a, t, sep, i);
    IndexOfIs(a + t, sep, i);
  }

  /** A one-character separator absent from `a` is first found right after `a`. */
  lemma IndexOfAfter(a: string, sep: string, b: string)
    requires |sep| == 1 && !Contains(a, sep)
    ensures IndexOf(a + sep + b, sep) == |a|
  {
    var s := a + sep + b;
    forall j: nat | j < |a| ensures !OccursAt(s, sep, j) {
      OccursAtPrefix(a, sep + b, sep, j);
      assert a + sep + b == a + (sep + b);
    }
    assert s[|a|..|a| + 1] == sep;
    IndexOfIs(s, sep, |a|);
  }

  /** A one-character separator absent from `a`: the first piece is `a`. */
  lemma SplitAfterFree(a: string, sep: string, b: string)
    requires |sep| == 1 && IndexOf(a, sep) < 0
    ensures Split(a + sep + b, sep) == [a] + Split(b, sep)
  {
    var s := a + sep + b;
    IndexOfAfter(a, sep, b);
    SplitFound(s, sep);
    assert s[|a| + 1..] == b;
    assert s[..|a|] == a;
  }

  /** A one-character separator present in `a`: the first piece is cut inside `a`. */
  lemma SplitInside(a: string, sep: string, b: string)
    requires |sep| == 1 && IndexOf(a, sep) >= 0
    ensures var i := IndexOf(a, sep);
      Split(a + sep + b, sep) == [a[..i]] + Split(a[i + |sep|..] + sep + b, sep)
  {
    var s := a + sep + b;
    var i := IndexOf(a, sep);
    assert s == a + (sep + b);
    IndexOfPrefix(a, sep + b, sep);
    SplitFound(s, sep);
    CutInside(a, sep, b, i);
  }

  lemma CutInside(a: string, sep: string, b: string, i: nat)
    requires i < |a| && |sep| == 1
    ensures (a + sep + b)[..i] == a[..i] && (a + sep + b)[i + |sep|..] == a[i + |sep|..] + sep + b
  {
  }

  /** A sequence that is `h + rest`, where `rest == restLeft + right` and `left == h + restLeft`, is `left + right`. */
  lemma Regroup<T>(whole: seq<T>, left: seq<T>, right: seq<T>, h: seq<T>, rest: seq<T>, restLeft: seq<T>)
    ensures whole == h + rest && rest == restLeft + right && left == h + restLeft ==> whole == left + right
  {
  }

  /** A sequence that is `[x] + right`, with `left == [x]`, is `left + right`. */
  lemma Prepend<T>(whole: seq<T>, left: seq<T>, right: seq<T>, x: T)
    ensures whole == [x] + right && left == [x] ==> whole == left + right
  {
  }

  /**
   * With a one-character separator, splitting distributes over the
   * separator: `(a + sep + b).split(sep) == a.split(sep) + b.split(sep)`.
   */
  lemma {:induction false} SplitConcat(a: string, sep: string, b: string)
    requires |sep| == 1
    ensures Split(a + sep + b, sep) == Split(a, sep) + Split(b, sep)
    decreases |a|
  {
    var i := IndexOf(a, sep);
    if i < 0 {
      SplitAfterFree(a, sep, b);
      SplitNoSep(a, sep);
      Prepend(Split(a + sep + b, sep), Split(a, sep), Split(b, sep), a);
    } else {
      SplitInside(a, sep, b);
      SplitConcat(a[i + |sep|..], sep, b);
      SplitFound(a, sep);
      Regroup(Split(a + sep + b, sep), Split(a, sep), Split(b, sep),
              [a[..i]], Split(a[i + |sep|..] + sep + b, sep), Split(a[i + |sep|..], sep));
    }
  }

  /**
   * With a one-character separator, splitting a join of separator-free
   * pieces gives the pieces back.
   */
  lemma {:induction false} SplitJoin(parts: seq<string>, sep: string)
    requires |sep| == 1 && |parts| >= 1
    requires forall k :: 0 <= k < |parts| ==> !Contains(parts[k], sep)
    ensures Split(Join(parts, sep), sep) == parts
    decreases |parts|
  {
    if |parts| == 1 {
      SplitNoSep(parts[0], sep);
    } else {
      var tail := parts[1..];
      var j := Join(tail, sep);
      assert Join(parts, sep) == parts[0] + sep + j;
      SplitJoin(tail, sep);
      SplitConcat(parts[0], sep, j);
      SplitNoSep(parts[0], sep);
      assert parts == [parts[0]] + tail;
    }
  }

  // Decimal digits

  function DigitChar(d: nat): char
    requires d < 10
  {
    ['0', '1', '2', '3', '4', '5', '6', '7', '8', '9'][d]
  }

  predicate IsDigit(c: char) {
    '0' <= c <= '9'
  }

  /** Python's `str(n)` for a natural number. */
  function NatToString(n: nat): (s: string)
    ensures |s| >= 1
    ensures forall k :: 0 <= k < |s| ==> IsDigit(s[k])
  {
    if n < 10 then [DigitChar(n)] else NatToString(n / 10) + [DigitChar(n % 10)]
  }

  /** Python's `int(s)` on a non-empty string of decimal digits. */
  function ParseNat(s: string): nat
    requires forall k :: 0 <= k < |s| ==> IsDigit(s[k])
  {
    if |s| == 0 then 0
    else
      assert IsDigit(s[|s| - 1]);
      ParseNat(s[..|s| - 1]) * 10 + (s[|s| - 1] as int - '0' as int)
  }

  /** `int(str(n)) == n`. */
  lemma {:induction false} ParseNatToString(n: nat)
    ensures ParseNat(NatToString(n)) == n
  {
    if n >= 10 {
      var s := NatToString(n);
      assert s[..|s| - 1] == NatToString(n / 10);
      ParseNatToString(n / 10);
    }
  }

  /** Distinct numbers render as distinct strings. */
  lemma NatToStringInjective(m: nat, n: nat)
    requires NatToString(m) == NatToString(n)
    ensures m == n
  {
    ParseNatToString(m);
    ParseNatToString(n);
  }

  /** Rendered numbers contain no character other than digits. */
  lemma NatToStringHasNo(n: nat, c: char)
    requires !IsDigit(c)
    ensures c !in NatToString(n)
  {
  }
}

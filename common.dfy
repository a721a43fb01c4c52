/**
 * Values and string operations of the Java standard library that the
 * thread-scope core relies on, written out so that the rest of the model can
 * state its contracts in terms of them.
 */
module Common {

  /** A Java reference that may be null. */
  datatype Option<T> = None | Some(value: T)

  /** `java.time.Duration`, as a whole number of nanoseconds. */
  datatype Duration = Duration(nanos: int)

  const NANOS_PER_SECOND: int := 1_000_000_000

  /** `Duration.ofSeconds(s)`. */
  function OfSeconds(s: int): (d: Duration)
  {
    Duration(s * NANOS_PER_SECOND)
  }

  /** The outcome of a call into the JVM that may throw instead of returning. */
  datatype Fetch<T> = Ok(value: T) | Threw

  // ---------------------------------------------------------------------
  // java.lang.String
  // ---------------------------------------------------------------------

  /** `s.startsWith(prefix)` */
  predicate StartsWith(s: string, prefix: string)
  {
    |prefix| <= |s| && s[..|prefix|] == prefix
  }

  /** `s.contains(sub)`, searched from the left one position at a time. */
  predicate Contains(s: string, sub: string)
    decreases |s|
  {
    StartsWith(s, sub) || (|s| > 0 && Contains(s[1..], sub))
  }

  /** `sub` occurs in `s` starting at index `i`. */
  predicate OccursAt(s: string, sub: string, i: int)
  {
    0 <= i <= |s| - |sub| && s[i..i + |sub|] == sub
  }

  /** `Contains` holds exactly when `sub` occurs at some index of `s`. */
  lemma {:induction false} ContainsIff(s: string, sub: string)
    ensures Contains(s, sub) <==> exists i :: OccursAt(s, sub, i)
    decreases |s|
  {
    if StartsWith(s, sub) {
      assert OccursAt(s, sub, 0);
    } else if |s| == 0 {
    } else {
      ContainsIff(s[1..], sub);
      if exists i :: OccursAt(s, sub, i) {
        var i :| OccursAt(s, sub, i);
        assert i != 0;
        assert s[1..][i - 1..i - 1 + |sub|] == sub;
        assert OccursAt(s[1..], sub, i - 1);
      }
      if Contains(s[1..], sub) {
        var i :| OccursAt(s[1..], sub, i);
        assert s[i + 1..i + 1 + |sub|] == sub;
        assert OccursAt(s, sub, i + 1);
      }
    }
  }

  /** A string contains every string it starts with. */
  lemma StartsWithContains(s: string, sub: string)
    requires StartsWith(s, sub)
    ensures Contains(s, sub)
  {
  }

  /** `Character.toLowerCase` restricted to ASCII letters. */
  function LowerChar(c: char): (d: char)
  {
    if 'A' <= c <= 'Z' then (c as int + 32) as char else c
  }

  /** `s.toLowerCase()` for ASCII text. */
  function ToLowerAscii(s: string): (r: string)
    ensures |r| == |s|
    ensures forall i :: 0 <= i < |s| ==> r[i] == LowerChar(s[i])
  {
    seq(|s|, i requires 0 <= i < |s| => LowerChar(s[i]))
  }

  /** `a.equalsIgnoreCase(b)` for ASCII text. */
  predicate EqualsIgnoreCase(a: string, b: string)
  {
    |a| == |b| && forall i :: 0 <= i < |a| ==> LowerChar(a[i]) == LowerChar(b[i])
  }

  /** `String.join(sep, parts)` and `Collectors.joining(sep)`. */
  function Join(parts: seq<string>, sep: string): (r: string)
    decreases |parts|
  {
    if |parts| == 0 then ""
    else if |parts| == 1 then parts[0]
    else parts[0] + sep + Join(parts[1..], sep)
  }

  /** The concatenation of all parts, `Collectors.joining()`. */
  function Concat(parts: seq<string>): (r: string)
    decreases |parts|
  {
    if |parts| == 0 then "" else parts[0] + Concat(parts[1..])
  }

  lemma {:induction false} ConcatAppend(parts: seq<string>, last: string)
    ensures Concat(parts + [last]) == Concat(parts) + last
    decreases |parts|
  {
    if |parts| == 0 {
      assert parts + [last] == [last];
    } else {
      assert (parts + [last])[1..] == parts[1..] + [last];
      ConcatAppend(parts[1..], last);
    }
  }

  /** A concatenation splits around any one of its parts. */
  lemma {:induction false} ConcatSplit(parts: seq<string>, i: nat)
    requires i < |parts|
    ensures Concat(parts) == Concat(parts[..i]) + parts[i] + Concat(parts[i + 1..])
    decreases i
  {
    if i > 0 {
      var tail := parts[1..];
      ConcatSplit(tail, i - 1);
      assert tail[..i - 1] == parts[..i][1..];
      assert tail[i..] == parts[i + 1..];
    }
  }

  /** Part `i` of a concatenation sits right after the parts before it. */
  lemma PartAt(parts: seq<string>, i: nat)
    requires i < |parts|
    ensures OccursAt(Concat(parts), parts[i], |Concat(parts[..i])|)
  {
    ConcatSplit(parts, i);
  }

  /** Part `i` of a concatenation framed by a head and a tail sits after the head and the parts before it. */
  lemma PartBetween(head: string, parts: seq<string>, tail: string, i: nat)
    requires i < |parts|
    ensures OccursAt(head + Concat(parts) + tail, parts[i], |head| + |Concat(parts[..i])|)
  {
    ConcatSplit(parts, i);
    var k := |head| + |Concat(parts[..i])|;
    var s := head + Concat(parts) + tail;
    assert s == (head + Concat(parts[..i])) + parts[i] + (Concat(parts[i + 1..]) + tail);
  }

  lemma AppendAssociates<T>(a: seq<T>, b: seq<T>, c: seq<T>)
    ensures a + (b + c) == (a + b) + c
  {
  }

  lemma TakeOneMore<T>(xs: seq<T>, i: nat)
    requires i < |xs|
    ensures xs[..i + 1] == xs[..i] + [xs[i]]
  {
  }

  lemma TakeAll<T>(xs: seq<T>)
    ensures xs[..|xs|] == xs
  {
  }

  /** One more part of a list adds that part at the end of the concatenation. */
  lemma ConcatStep(parts: seq<string>, i: nat)
    requires i < |parts|
    ensures Concat(parts[..i + 1]) == Concat(parts[..i]) + parts[i]
  {
    TakeOneMore(parts, i);
    ConcatAppend(parts[..i], parts[i]);
  }

  /** Every later part starts after an earlier one ends: the parts appear in list order. */
  lemma PartsInOrder(parts: seq<string>, i: nat, j: nat)
    requires i < j <= |parts|
    ensures |Concat(parts[..i])| + |parts[i]| <= |Concat(parts[..j])|
  {
    var pre := parts[..j];
    ConcatSplit(pre, i);
    assert pre[..i] == parts[..i] && pre[i] == parts[i];
  }

  function DigitChar(d: nat): (c: char)
    requires d < 10
  {
    "0123456789"[d]
  }

  /** Decimal text of a natural number, as `Long.toString` prints it. */
  function NatToString(n: nat): (r: string)
    ensures |r| > 0
    decreases n
  {
    if n < 10 then [DigitChar(n)] else NatToString(n / 10) + [DigitChar(n % 10)]
  }

  /** `Long.toString(n)` / string concatenation of a `long`. */
  function IntToString(n: int): (r: string)
    ensures |r| > 0
  {
    if n < 0 then "-" + NatToString(-n) else NatToString(n)
  }

  /** `String.valueOf(boolean)`. */
  function BoolToString(b: bool): (r: string)
  {
    if b then "true" else "false"
  }

  /** `List<Long>.toString()`: the elements joined by ", " inside brackets. */
  function LongListToString(xs: seq<int>): (r: string)
  {
    "[" + Join(seq(|xs|, i requires 0 <= i < |xs| => IntToString(xs[i])), ", ") + "]"
  }

  // ---------------------------------------------------------------------
  // Streams over lists
  // ---------------------------------------------------------------------

  /** `a` is `b` with some elements dropped, the rest in their original order. */
  predicate IsSubsequence<T(==)>(a: seq<T>, b: seq<T>)
    decreases |b|
  {
    if |a| == 0 then true
    else if |b| == 0 then false
    else if a[0] == b[0] then IsSubsequence(a[1..], b[1..])
    else IsSubsequence(a, b[1..])
  }

  /** `stream().filter(p).toList()`. */
  function Filter<T>(xs: seq<T>, p: T -> bool): (r: seq<T>)
    decreases |xs|
  {
    if |xs| == 0 then [] else (if p(xs[0]) then [xs[0]] else []) + Filter(xs[1..], p)
  }

  /** Filtering keeps exactly the elements satisfying the predicate, in order. */
  lemma {:induction false} FilterSpec<T>(xs: seq<T>, p: T -> bool)
    ensures |Filter(xs, p)| <= |xs|
    ensures forall x :: x in Filter(xs, p) <==> x in xs && p(x)
    ensures IsSubsequence(Filter(xs, p), xs)
    decreases |xs|
  {
    if |xs| > 0 {
      FilterSpec(xs[1..], p);
      if p(xs[0]) {
        assert Filter(xs, p) == [xs[0]] + Filter(xs[1..], p);
        assert (([xs[0]] + Filter(xs[1..], p))[1..]) == Filter(xs[1..], p);
      } else {
        assert Filter(xs, p) == Filter(xs[1..], p);
        SubsequenceDropHead(Filter(xs[1..], p), xs);
      }
      forall x ensures x in xs <==> x == xs[0] || x in xs[1..] {
        assert xs == [xs[0]] + xs[1..];
      }
    }
  }

  lemma {:induction false} SubsequenceDropHead<T>(a: seq<T>, b: seq<T>)
    requires |b| > 0 && IsSubsequence(a, b[1..])
    ensures IsSubsequence(a, b)
    decreases |b|, 0
  {
    if |a| > 0 && a[0] == b[0] {
      SubsequenceTail(a, b[1..]);
    }
  }

  lemma {:induction false} SubsequenceTail<T>(a: seq<T>, b: seq<T>)
    requires |a| > 0 && IsSubsequence(a, b)
    ensures IsSubsequence(a[1..], b)
    decreases |b|, 1
  {
    if a[0] == b[0] {
      if |a| > 1 && |b| > 1 {
        SubsequenceDropHead(a[1..], b);
      } else if |a| > 1 {
        assert IsSubsequence(a[1..], b[1..]);
      }
    } else {
      SubsequenceTail(a, b[1..]);
      if |a| > 1 {
        SubsequenceDropHead(a[1..], b);
      }
    }
  }

  /** No element occurs twice. */
  predicate Distinct<T(==)>(s: seq<T>)
  {
    forall i, j :: 0 <= i < j < |s| ==> s[i] != s[j]
  }

  lemma {:induction false} DistinctCount<T>(s: seq<T>, x: T)
    requires Distinct(s)
    ensures multiset(s)[x] <= 1
    decreases |s|
  {
    if |s| > 0 {
      assert s == [s[0]] + s[1..];
      DistinctCount(s[1..], x);
      if s[0] == x {
        assert x !in s[1..];
      }
    }
  }

  /** A permutation of a sequence without duplicates has none either. */
  lemma DistinctPermutation<T>(a: seq<T>, b: seq<T>)
    requires multiset(a) == multiset(b) && Distinct(a)
    ensures Distinct(b)
  {
    forall i, j | 0 <= i < j < |b| ensures b[i] != b[j] {
      if b[i] == b[j] {
        var x := b[i];
        assert b == b[..j] + [b[j]] + b[j + 1..];
        assert x in b[..j];
        assert multiset(b)[x] >= 2;
        DistinctCount(a, x);
      }
    }
  }

  /** `stream().filter(p).count()`. */
  function Count<T>(xs: seq<T>, p: T -> bool): (n: nat)
    decreases |xs|
  {
    if |xs| == 0 then 0 else (if p(xs[0]) then 1 else 0) + Count(xs[1..], p)
  }

  /** A count is at most the list's length and is the length of the filtered list. */
  lemma {:induction false} CountBound<T>(xs: seq<T>, p: T -> bool)
    ensures Count(xs, p) <= |xs|
    ensures Count(xs, p) == |Filter(xs, p)|
    decreases |xs|
  {
    if |xs| > 0 {
      CountBound(xs[1..], p);
    }
  }

  lemma {:induction false} CountAppend<T>(xs: seq<T>, x: T, p: T -> bool)
    ensures Count(xs + [x], p) == Count(xs, p) + (if p(x) then 1 else 0)
    decreases |xs|
  {
    if |xs| == 0 {
      assert xs + [x] == [x];
    } else {
      assert (xs + [x])[1..] == xs[1..] + [x];
      CountAppend(xs[1..], x, p);
    }
  }

  lemma {:induction false} FilterAppend<T>(xs: seq<T>, x: T, p: T -> bool)
    ensures Filter(xs + [x], p) == Filter(xs, p) + (if p(x) then [x] else [])
    decreases |xs|
  {
    var ys := xs + [x];
    if |xs| == 0 {
      assert ys == [x];
      assert Filter(ys, p) == (if p(x) then [x] else []) + Filter([], p);
    } else {
      assert ys[0] == xs[0] && ys[1..] == xs[1..] + [x];
      FilterAppend(xs[1..], x, p);
      var head := if p(xs[0]) then [xs[0]] else [];
      assert Filter(ys, p) == head + Filter(xs[1..] + [x], p);
      assert Filter(xs, p) == head + Filter(xs[1..], p);
    }
  }

  /** `stream().filter(Objects::nonNull).toList()` over a list that may hold nulls. */
  function NonNull<T>(xs: seq<Option<T>>): (r: seq<T>)
    decreases |xs|
  {
    if |xs| == 0 then [] else (if xs[0].Some? then [xs[0].value] else []) + NonNull(xs[1..])
  }

  /** Each element of a list, as a present entry of a list that may hold nulls. */
  function Present<T>(ys: seq<T>): (r: seq<Option<T>>)
    ensures |r| == |ys| && forall i :: 0 <= i < |ys| ==> r[i] == Some(ys[i])
  {
    seq(|ys|, i requires 0 <= i < |ys| => Some(ys[i]))
  }

  /** Dropping the nulls keeps every other entry, once each, in its order. */
  lemma {:induction false} NonNullSpec<T>(xs: seq<Option<T>>)
    ensures |NonNull(xs)| <= |xs|
    ensures forall x :: x in NonNull(xs) <==> Some(x) in xs
    ensures IsSubsequence(Present(NonNull(xs)), xs)
    decreases |xs|
  {
    if |xs| > 0 {
      NonNullSpec(xs[1..]);
      var rest := NonNull(xs[1..]);
      if xs[0].Some? {
        assert NonNull(xs) == [xs[0].value] + rest;
        assert Present(NonNull(xs))[1..] == Present(rest);
      } else {
        assert NonNull(xs) == rest;
        SubsequenceDropHead(Present(rest), xs);
      }
      forall x ensures Some(x) in xs <==> Some(x) == xs[0] || Some(x) in xs[1..] {
        assert xs == [xs[0]] + xs[1..];
      }
    }
  }

  /** `list.remove(x)`: the first element equal to `x` is dropped, if there is one. */
  function RemoveFirst<T(==)>(xs: seq<T>, x: T): (r: seq<T>)
    decreases |xs|
  {
    if |xs| == 0 then [] else if xs[0] == x then xs[1..] else [xs[0]] + RemoveFirst(xs[1..], x)
  }

  /** Removing an element that is not there changes nothing. */
  lemma {:induction false} RemoveAbsent<T>(xs: seq<T>, x: T)
    requires x !in xs
    ensures RemoveFirst(xs, x) == xs
    decreases |xs|
  {
    if |xs| > 0 {
      assert xs[0] != x && x !in xs[1..];
      RemoveAbsent(xs[1..], x);
      assert xs == [xs[0]] + xs[1..];
    }
  }

  /** Removing an element that is there takes out exactly its first occurrence. */
  lemma {:induction false} RemoveFirstAt<T>(xs: seq<T>, x: T, k: nat)
    requires k < |xs| && xs[k] == x && x !in xs[..k]
    ensures RemoveFirst(xs, x) == xs[..k] + xs[k + 1..]
    decreases k
  {
    if k > 0 {
      assert xs[0] in xs[..k];
      var tail := xs[1..];
      assert tail[k - 1] == x && tail[..k - 1] == xs[1..k];
      assert forall y :: y in xs[1..k] ==> y in xs[..k];
      RemoveFirstAt(tail, x, k - 1);
      assert xs[..k] == [xs[0]] + tail[..k - 1];
      assert xs[k + 1..] == tail[k..];
    }
  }

  lemma {:induction false} NonNullAppend<T>(xs: seq<Option<T>>, x: Option<T>)
    ensures NonNull(xs + [x]) == NonNull(xs) + (if x.Some? then [x.value] else [])
    decreases |xs|
  {
    var ys := xs + [x];
    if |xs| == 0 {
      assert ys == [x] && ys[1..] == [];
    } else {
      assert ys[0] == xs[0] && ys[1..] == xs[1..] + [x];
      NonNullAppend(xs[1..], x);
      var head := if xs[0].Some? then [xs[0].value] else [];
      assert NonNull(ys) == head + NonNull(xs[1..] + [x]);
      assert NonNull(xs) == head + NonNull(xs[1..]);
    }
  }
}

/** Shared vocabulary of the model: optional values, the numeric helpers that
    JavaScript's `Math` object provides, `String.prototype.split` on a single
    character, and the stable sort that `Array.prototype.sort` performs. */
module Common {

  /** A value that may be absent: JavaScript's `null` / `undefined`. */
  datatype Option<T> = None | Some(value: T) {
    /** The `??` operator: this value if present, otherwise `default`. */
    function OrElse(default: T): T {
      match this
      case Some(v) => v
      case None => default
    }
  }

  function Abs(x: real): real { if x < 0.0 then -x else x }
  function Min(x: real, y: real): real { if x <= y then x else y }
  function Max(x: real, y: real): real { if x >= y then x else y }
  function MaxInt(x: int, y: int): int { if x >= y then x else y }

  /** `Math.round`: halves round up, towards positive infinity. */
  function Round(x: real): (r: int)
    ensures r as real <= x + 0.5 < r as real + 1.0
  {
    (x + 0.5).Floor
  }

  /** `Math.ceil`. */
  function Ceil(x: real): (r: int)
    ensures x <= r as real < x + 1.0
  {
    -((-x).Floor)
  }

  // ---------------------------------------------------------------------
  // Sums and means

  /** The left-to-right sum that `reduce((acc, v) => acc + v, 0)` computes. */
  function Sum(s: seq<real>): real
  {
    if s == [] then 0.0 else Sum(s[..|s| - 1]) + s[|s| - 1]
  }

  ghost predicate AllWithin(s: seq<real>, lo: real, hi: real)
  {
    forall i :: 0 <= i < |s| ==> lo <= s[i] <= hi
  }

  /** A sum of values in [lo, hi] lies between |s|·lo and |s|·hi. */
  lemma {:induction false} SumBounds(s: seq<real>, lo: real, hi: real)
    requires AllWithin(s, lo, hi)
    ensures |s| as real * lo <= Sum(s) <= |s| as real * hi
  {
    if s != [] {
      var n := |s| - 1;
      SumBounds(s[..n], lo, hi);
      assert s[..n][..n] == s[..n];
      assert (n + 1) as real * lo == n as real * lo + lo;
      assert (n + 1) as real * hi == n as real * hi + hi;
    }
  }

  /** Dividing by a positive count keeps a lower and an upper bound. */
  lemma DivideBounds(a: real, n: real, lo: real, hi: real)
    requires n > 0.0 && n * lo <= a <= n * hi
    ensures lo <= a / n <= hi
  {
    assert (a / n) * n == a;
  }

  lemma ScaleMonotone(a: real, b: real, w: real)
    requires a <= b && w >= 0.0
    ensures a * w <= b * w
  {
    assert (b - a) * w >= 0.0;
  }

  lemma DivideSelf(x: real)
    requires x != 0.0
    ensures x / x == 1.0
  {
  }

  /** Comparing a quotient with a constant is comparing the dividend with the
      constant times the (positive) divisor. */
  lemma DivideCompare(a: real, n: real, c: real)
    requires n > 0.0
    ensures a / n >= c <==> a >= c * n
  {
    var q := a / n;
    assert q * n == a;
    if q >= c {
      assert (q - c) * n >= 0.0;
    } else {
      assert (c - q) * n > 0.0;
    }
  }

  /** The mean of values in [lo, hi] lies in [lo, hi]. */
  lemma MeanBounds(s: seq<real>, lo: real, hi: real)
    requires s != [] && AllWithin(s, lo, hi)
    ensures lo <= Sum(s) / |s| as real <= hi
  {
    SumBounds(s, lo, hi);
    DivideBounds(Sum(s), |s| as real, lo, hi);
  }

  /** The same, stated for any non-empty sequence. */
  lemma MeanWithin(s: seq<real>, lo: real, hi: real)
    requires s != []
    ensures AllWithin(s, lo, hi) ==> lo <= Sum(s) / |s| as real <= hi
  {
    if AllWithin(s, lo, hi) {
      MeanBounds(s, lo, hi);
    }
  }

  // ---------------------------------------------------------------------
  // String splitting on one character

  /** `s.split(sep)` for a one-character separator: the pieces between
      separators, including empty ones; the empty string gives `[""]`. */
  function Split(s: string, sep: char): (r: seq<string>)
    ensures |r| >= 1
    ensures forall i :: 0 <= i < |r| ==> sep !in r[i]
  {
    if s == [] then [[]]
    else if s[0] == sep then [[]] + Split(s[1..], sep)
    else
      var rest := Split(s[1..], sep);
      [[s[0]] + rest[0]] + rest[1..]
  }

  /** `parts.join(sep)`. */
  function Join(parts: seq<string>, sep: char): string
    requires |parts| >= 1
  {
    if |parts| == 1 then parts[0] else parts[0] + [sep] + Join(parts[1..], sep)
  }

  /** Splitting loses nothing: joining the pieces gives back the input. */
  lemma {:induction false} JoinSplit(s: string, sep: char)
    ensures Join(Split(s, sep), sep) == s
  {
    if s != [] {
      JoinSplit(s[1..], sep);
      var rest := Split(s[1..], sep);
      if s[0] != sep {
        if |rest| == 1 {
          assert Split(s, sep) == [[s[0]] + rest[0]];
        } else {
          assert Split(s, sep)[1..] == rest[1..];
        }
      }
    }
  }

  /** `filter(Boolean)` on strings: drop the empty ones, keep the order. */
  function NonEmpty(parts: seq<string>): seq<string>
  {
    if parts == [] then []
    else if parts[0] == [] then NonEmpty(parts[1..])
    else [parts[0]] + NonEmpty(parts[1..])
  }

  /** The kept pieces are non-empty pieces of the input, and every non-empty
      piece is kept. */
  lemma {:induction false} NonEmptyFacts(parts: seq<string>)
    ensures |NonEmpty(parts)| <= |parts|
    ensures forall i :: 0 <= i < |NonEmpty(parts)| ==> NonEmpty(parts)[i] != [] && NonEmpty(parts)[i] in parts
    ensures forall i :: 0 <= i < |parts| && parts[i] != [] ==> parts[i] in NonEmpty(parts)
  {
    if parts != [] {
      NonEmptyFacts(parts[1..]);
      assert parts == [parts[0]] + parts[1..];
    }
  }

  // ---------------------------------------------------------------------
  // Stable sort

  /** Every element's key is at least the key of every later element. */
  ghost predicate SortedDesc<T>(s: seq<T>, key: T -> real)
  {
    forall i, j :: 0 <= i < j < |s| ==> key(s[i]) >= key(s[j])
  }

  /** Put `x` in front of the first element whose key does not exceed its own;
      elements of equal key that come later in the input stay behind it. */
  function InsertDesc<T>(x: T, s: seq<T>, key: T -> real): seq<T>
  {
    if s == [] || key(x) >= key(s[0]) then [x] + s
    else [s[0]] + InsertDesc(x, s[1..], key)
  }

  /** `s.slice().sort((a, b) => key(b) - key(a))`: JavaScript's sort is
      stable, and so is this insertion sort. */
  function SortDesc<T>(s: seq<T>, key: T -> real): seq<T>
  {
    if s == [] then [] else InsertDesc(s[0], SortDesc(s[1..], key), key)
  }

  /** The elements of `s` whose key is `k`, in order. */
  function WithKey<T>(s: seq<T>, key: T -> real, k: real): seq<T>
  {
    if s == [] then [] else (if key(s[0]) == k then [s[0]] else []) + WithKey(s[1..], key, k)
  }

  /** Inserting `x` puts it ahead of every element of equal key and leaves
      their order alone: whatever precedes `x` has a strictly larger key. */
  lemma {:induction false} InsertDescWithKey<T>(x: T, s: seq<T>, key: T -> real, k: real)
    ensures WithKey(InsertDesc(x, s, key), key, k) == (if key(x) == k then [x] else []) + WithKey(s, key, k)
  {
    var r := InsertDesc(x, s, key);
    if s == [] || key(x) >= key(s[0]) {
      assert r[0] == x && r[1..] == s;
    } else {
      assert r[0] == s[0] && r[1..] == InsertDesc(x, s[1..], key);
      InsertDescWithKey(x, s[1..], key, k);
    }
  }

  /** The sort is stable: the elements of any one key come out in the order
      they went in. */
  lemma {:induction false} SortDescStable<T>(s: seq<T>, key: T -> real, k: real)
    ensures WithKey(SortDesc(s, key), key, k) == WithKey(s, key, k)
  {
    if s != [] {
      SortDescStable(s[1..], key, k);
      InsertDescWithKey(s[0], SortDesc(s[1..], key), key, k);
    }
  }

  /** The elements of one key in a prefix are a prefix of those in the whole. */
  lemma {:induction false} WithKeyPrefix<T>(s: seq<T>, key: T -> real, k: real, m: nat)
    requires m <= |s|
    ensures WithKey(s[..m], key, k) <= WithKey(s, key, k)
  {
    if m > 0 {
      assert s[..m][0] == s[0] && s[..m][1..] == s[1..][..m - 1];
      WithKeyPrefix(s[1..], key, k, m - 1);
    }
  }

  /** The first `n` of the sort keep, of each key, the earliest elements of
      that key in input order. */
  lemma TopOfSortDescStable<T>(s: seq<T>, key: T -> real, n: nat, k: real)
    ensures WithKey(Take(SortDesc(s, key), n), key, k) <= WithKey(s, key, k)
  {
    var sorted := SortDesc(s, key);
    SortDescFacts(s, key);
    SortDescStable(s, key, k);
    if n <= |sorted| {
      WithKeyPrefix(sorted, key, k, n);
    }
  }

  /** No element's key exceeds `b`. */
  ghost predicate KeysAtMost<T>(s: seq<T>, key: T -> real, b: real)
  {
    forall i :: 0 <= i < |s| ==> key(s[i]) <= b
  }

  /** A head whose key bounds a descending tail makes a descending sequence. */
  lemma ConsSorted<T>(h: T, t: seq<T>, key: T -> real)
    requires SortedDesc(t, key) && KeysAtMost(t, key, key(h))
    ensures SortedDesc([h] + t, key)
  {
    var r := [h] + t;
    forall i, j | 0 <= i < j < |r| ensures key(r[i]) >= key(r[j]) {
      assert r[j] == t[j - 1];
      if i > 0 {
        assert r[i] == t[i - 1];
      }
    }
  }

  /** The tail of a descending sequence is descending and bounded by its head. */
  lemma TailSorted<T>(s: seq<T>, key: T -> real)
    requires SortedDesc(s, key) && s != []
    ensures SortedDesc(s[1..], key) && KeysAtMost(s[1..], key, key(s[0]))
  {
    var t := s[1..];
    forall i | 0 <= i < |t| ensures key(t[i]) <= key(s[0]) {
      assert t[i] == s[i + 1];
    }
    forall i, j | 0 <= i < j < |t| ensures key(t[i]) >= key(t[j]) {
      assert t[i] == s[i + 1] && t[j] == s[j + 1];
    }
  }

  /** A bound on every key survives insertion of an element under it. */
  lemma {:induction false} InsertDescBound<T>(x: T, s: seq<T>, key: T -> real, b: real)
    requires KeysAtMost(s, key, b) && key(x) <= b
    ensures KeysAtMost(InsertDesc(x, s, key), key, b)
  {
    var r := InsertDesc(x, s, key);
    if s == [] || key(x) >= key(s[0]) {
      forall i | 0 <= i < |r| ensures key(r[i]) <= b {
        if i > 0 {
          assert r[i] == s[i - 1];
        }
      }
    } else {
      var t := InsertDesc(x, s[1..], key);
      assert KeysAtMost(s[1..], key, b) by {
        forall i | 0 <= i < |s[1..]| ensures key(s[1..][i]) <= b {
          assert s[1..][i] == s[i + 1];
        }
      }
      InsertDescBound(x, s[1..], key, b);
      forall i | 0 <= i < |r| ensures key(r[i]) <= b {
        if i > 0 {
          assert r[i] == t[i - 1];
        }
      }
    }
  }

  /** Inserting adds exactly one occurrence of `x`. */
  lemma {:induction false} InsertDescMultiset<T>(x: T, s: seq<T>, key: T -> real)
    ensures multiset(InsertDesc(x, s, key)) == multiset(s) + multiset{x}
  {
    if s != [] && key(x) < key(s[0]) {
      InsertDescMultiset(x, s[1..], key);
      assert s == [s[0]] + s[1..];
    }
  }

  /** Inserting into a descending sequence keeps it descending. */
  lemma {:induction false} InsertDescSorted<T>(x: T, s: seq<T>, key: T -> real)
    requires SortedDesc(s, key)
    ensures SortedDesc(InsertDesc(x, s, key), key)
  {
    if s == [] {
      ConsSorted(x, s, key);
    } else if key(x) >= key(s[0]) {
      TailSorted(s, key);
      assert KeysAtMost(s, key, key(x)) by {
        forall i | 0 <= i < |s| ensures key(s[i]) <= key(x) {
          if i > 0 {
            assert s[1..][i - 1] == s[i];
          }
        }
      }
      ConsSorted(x, s, key);
    } else {
      TailSorted(s, key);
      InsertDescSorted(x, s[1..], key);
      InsertDescBound(x, s[1..], key, key(s[0]));
      ConsSorted(s[0], InsertDesc(x, s[1..], key), key);
    }
  }

  lemma InsertDescFacts<T>(x: T, s: seq<T>, key: T -> real)
    requires SortedDesc(s, key)
    ensures multiset(InsertDesc(x, s, key)) == multiset(s) + multiset{x}
    ensures SortedDesc(InsertDesc(x, s, key), key)
  {
    InsertDescMultiset(x, s, key);
    InsertDescSorted(x, s, key);
  }

  /** The sort orders by descending key and is a permutation of its input. */
  lemma {:induction false} SortDescFacts<T>(s: seq<T>, key: T -> real)
    ensures |SortDesc(s, key)| == |s|
    ensures multiset(SortDesc(s, key)) == multiset(s)
    ensures SortedDesc(SortDesc(s, key), key)
  {
    if s != [] {
      SortDescFacts(s[1..], key);
      InsertDescFacts(s[0], SortDesc(s[1..], key), key);
      assert s == [s[0]] + s[1..];
      assert |multiset(SortDesc(s, key))| == |multiset(s)|;
    }
  }

  /** `.slice(0, n)`. */
  function Take<T>(s: seq<T>, n: nat): (r: seq<T>)
    ensures |r| == if |s| < n then |s| else n
    ensures forall i :: 0 <= i < |r| ==> r[i] == s[i]
  {
    if |s| < n then s else s[..n]
  }

  /** A prefix of a descending sequence is descending, and no element after
      the prefix has a larger key than one inside it. */
  lemma PrefixOfSorted<T>(sorted: seq<T>, key: T -> real, m: nat)
    requires SortedDesc(sorted, key) && m <= |sorted|
    ensures SortedDesc(sorted[..m], key)
    ensures multiset(sorted) == multiset(sorted[..m]) + multiset(sorted[m..])
    ensures forall c, i :: c in multiset(sorted[m..]) && 0 <= i < m ==> key(c) <= key(sorted[i])
  {
    assert sorted == sorted[..m] + sorted[m..];
    forall c, i | c in multiset(sorted[m..]) && 0 <= i < m
      ensures key(c) <= key(sorted[i])
    {
      var j :| 0 <= j < |sorted[m..]| && sorted[m..][j] == c;
      assert sorted[m + j] == c;
    }
  }

  /** The first `n` of a descending sort: the right number, in order, taken
      from the input, and no element left out has a larger key than one
      kept. */
  lemma TopOfSortDesc<T>(s: seq<T>, key: T -> real, n: nat)
    ensures |Take(SortDesc(s, key), n)| == if |s| < n then |s| else n
    ensures SortedDesc(Take(SortDesc(s, key), n), key)
    ensures multiset(Take(SortDesc(s, key), n)) <= multiset(s)
    ensures forall c, i ::
              c in multiset(s) - multiset(Take(SortDesc(s, key), n)) && 0 <= i < |Take(SortDesc(s, key), n)| ==>
                key(c) <= key(Take(SortDesc(s, key), n)[i])
  {
    var sorted := SortDesc(s, key);
    SortDescFacts(s, key);
    var top := Take(sorted, n);
    var m := |top|;
    assert top == sorted[..m];
    PrefixOfSorted(sorted, key, m);
    assert multiset(s) - multiset(top) == multiset(sorted[m..]);
  }
}

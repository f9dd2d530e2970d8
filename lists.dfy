/**
 * Sequence operations shared by the components: `Array.prototype.filter`, `slice`,
 * the "append unless present" and "remove every copy" updates of a selection list,
 * occurrence counting, and ordering by a numeric key.
 */
module Lists {

  /** No element occurs twice. */
  ghost predicate NoDup<T>(s: seq<T>) {
    forall i, j :: 0 <= i < j < |s| ==> s[i] != s[j]
  }

  /** `a` is `b` with some elements left out, the rest in their original order. */
  ghost predicate IsSubsequence<T>(a: seq<T>, b: seq<T>)
    decreases |b|
  {
    a == [] || (b != [] && ((a[0] == b[0] && IsSubsequence(a[1..], b[1..])) || IsSubsequence(a, b[1..])))
  }

  /** `s.filter(keep)`. */
  function Filter<T(!new)>(s: seq<T>, keep: T -> bool): (r: seq<T>)
    ensures |r| <= |s|
    ensures forall x :: x in r <==> x in s && keep(x)
    ensures IsSubsequence(r, s)
  {
    if s == [] then []
    else if keep(s[0]) then [s[0]] + Filter(s[1..], keep)
    else Filter(s[1..], keep)
  }

  /** Filtering a concatenation filters each part. */
  lemma {:induction false} FilterAppend<T(!new)>(a: seq<T>, b: seq<T>, keep: T -> bool)
    ensures Filter(a + b, keep) == Filter(a, keep) + Filter(b, keep)
  {
    if a != [] {
      assert (a + b)[1..] == a[1..] + b;
      FilterAppend(a[1..], b, keep);
    } else {
      assert a + b == b;
    }
  }

  /** A filter that keeps every element is the identity. */
  lemma {:induction false} FilterKeepsAll<T(!new)>(s: seq<T>, keep: T -> bool)
    requires forall x :: x in s ==> keep(x)
    ensures Filter(s, keep) == s
  {
    if s != [] {
      FilterKeepsAll(s[1..], keep);
    }
  }

  /** Every sequence is a subsequence of itself followed by anything. */
  lemma {:induction false} PrefixIsSubsequence<T>(a: seq<T>, b: seq<T>)
    ensures IsSubsequence(a, a + b)
  {
    if a != [] {
      PrefixIsSubsequence(a[1..], b);
      assert (a + b)[1..] == a[1..] + b;
    }
  }

  /** Leaving out elements twice is leaving them out once. */
  lemma {:induction false} SubsequenceTrans<T>(a: seq<T>, b: seq<T>, c: seq<T>)
    requires IsSubsequence(a, b) && IsSubsequence(b, c)
    ensures IsSubsequence(a, c)
    decreases |c|
  {
    if a != [] {
      assert b != [] && c != [];
      if b[0] == c[0] && IsSubsequence(b[1..], c[1..]) {
        if a[0] == b[0] && IsSubsequence(a[1..], b[1..]) {
          SubsequenceTrans(a[1..], b[1..], c[1..]);
        } else {
          SubsequenceDropFirst(a, b);
          SubsequenceTrans(a, b[1..], c[1..]);
        }
      } else {
        SubsequenceTrans(a, b, c[1..]);
      }
    }
  }

  lemma {:induction false} SubsequenceDropFirst<T>(a: seq<T>, b: seq<T>)
    requires a != [] && IsSubsequence(a, b) && !(a[0] == b[0] && IsSubsequence(a[1..], b[1..]))
    ensures IsSubsequence(a, b[1..])
  {
  }

  /** `s.slice(0, n)`: the first `n` elements, in order. */
  function Take<T>(s: seq<T>, n: nat): (r: seq<T>)
    ensures |r| == if n < |s| then n else |s|
    ensures forall k :: 0 <= k < |r| ==> r[k] == s[k]
    ensures IsSubsequence(r, s)
  {
    if n < |s| then
      PrefixIsSubsequence(s[..n], s[n..]);
      assert s[..n] + s[n..] == s;
      s[..n]
    else
      PrefixIsSubsequence(s, []);
      assert s + [] == s;
      s
  }

  /**
   * `if (!s.includes(x)) s = [...s, x]`: the handler that adds a tag or skill.
   * The result holds `x` and everything `s` held, and nothing else.
   */
  function AddIfAbsent<T(==,!new)>(s: seq<T>, x: T): (r: seq<T>)
    ensures x in r
    ensures forall y :: y in r <==> y in s || y == x
    ensures x in s ==> r == s
    ensures x !in s ==> r == s + [x]
    ensures NoDup(s) ==> NoDup(r)
  {
    if x in s then s else s + [x]
  }

  /** Adding the same element twice is the same as adding it once. */
  lemma AddIfAbsentIdempotent<T(!new)>(s: seq<T>, x: T)
    ensures AddIfAbsent(AddIfAbsent(s, x), x) == AddIfAbsent(s, x)
  {
  }

  /** The predicate `y => y !== x`. */
  function Differs<T(==)>(x: T): T -> bool {
    y => y != x
  }

  /**
   * `s.filter(y => y !== x)`: every copy of `x` is removed, the other elements stay
   * in their order.
   */
  function Removed<T(==,!new)>(s: seq<T>, x: T): (r: seq<T>)
    ensures x !in r
    ensures forall y :: y != x ==> (y in r <==> y in s)
    ensures IsSubsequence(r, s)
    ensures x !in s ==> r == s
  {
    assert x !in s ==> Filter(s, Differs(x)) == s by {
      if x !in s {
        FilterKeepsAll(s, Differs(x));
      }
    }
    Filter(s, Differs(x))
  }

  /** Removing from a list without duplicates keeps it without duplicates. */
  lemma {:induction false} RemovedNoDup<T(!new)>(s: seq<T>, x: T)
    requires NoDup(s)
    ensures NoDup(Removed(s, x))
  {
    SubsequenceNoDup(Removed(s, x), s);
  }

  lemma {:induction false} SubsequenceNoDup<T>(a: seq<T>, b: seq<T>)
    requires NoDup(b) && IsSubsequence(a, b)
    ensures NoDup(a)
    decreases |b|
  {
    if a != [] {
      assert NoDup(b[1..]) by {
        forall i, j | 0 <= i < j < |b[1..]| ensures b[1..][i] != b[1..][j] {
          assert b[1..][i] == b[i + 1] && b[1..][j] == b[j + 1];
        }
      }
      if a[0] == b[0] && IsSubsequence(a[1..], b[1..]) {
        SubsequenceNoDup(a[1..], b[1..]);
        SubsequenceMembers(a[1..], b[1..]);
        forall i, j | 0 <= i < j < |a| ensures a[i] != a[j] {
          if i == 0 {
            assert a[j] == a[1..][j - 1];
            assert a[j] in b[1..];
            var k :| 0 <= k < |b[1..]| && b[1..][k] == a[j];
            assert b[k + 1] == a[j];
          } else {
            assert a[i] == a[1..][i - 1] && a[j] == a[1..][j - 1];
          }
        }
      } else {
        SubsequenceNoDup(a, b[1..]);
      }
    }
  }

  /** Every element of a subsequence is an element of the sequence. */
  lemma {:induction false} SubsequenceMembers<T>(a: seq<T>, b: seq<T>)
    requires IsSubsequence(a, b)
    ensures forall x :: x in a ==> x in b
    decreases |b|
  {
    if a != [] {
      if a[0] == b[0] && IsSubsequence(a[1..], b[1..]) {
        SubsequenceMembers(a[1..], b[1..]);
        assert a == [a[0]] + a[1..];
        assert b == [b[0]] + b[1..];
      } else {
        SubsequenceMembers(a, b[1..]);
        assert b == [b[0]] + b[1..];
      }
    }
  }

  /**
   * Toggling `x`: remove it when present, append it otherwise
   * (the candidate checkbox handler).
   */
  function Toggled<T(==,!new)>(s: seq<T>, x: T): (r: seq<T>)
    ensures x in r <==> x !in s
    ensures forall y :: y != x ==> (y in r <==> y in s)
  {
    if x in s then Removed(s, x) else s + [x]
  }

  /**
   * Toggling twice restores the selection: exactly when `x` was absent, and as a
   * set of members when it was present (it then moves to the end).
   */
  lemma {:induction false} ToggleTwice<T(!new)>(s: seq<T>, x: T)
    ensures x !in s ==> Toggled(Toggled(s, x), x) == s
    ensures forall y :: y in Toggled(Toggled(s, x), x) <==> y in s
  {
    if x !in s {
      assert Toggled(s, x) == s + [x];
      FilterAppend(s, [x], Differs(x));
      FilterKeepsAll(s, Differs(x));
      assert Filter([x], Differs(x)) == [];
    }
  }

  /** The number of occurrences of `x` in `s`. */
  function Count<T(==)>(s: seq<T>, x: T): (n: nat)
    ensures n <= |s|
    ensures n > 0 <==> x in s
  {
    if s == [] then 0 else (if s[0] == x then 1 else 0) + Count(s[1..], x)
  }

  /** Appending one element adds one to its own count and leaves the others. */
  lemma {:induction false} CountSnoc<T>(s: seq<T>, x: T, y: T)
    ensures Count(s + [x], y) == Count(s, y) + (if x == y then 1 else 0)
  {
    if s == [] {
      assert s + [x] == [x];
    } else {
      assert (s + [x])[1..] == s[1..] + [x];
      CountSnoc(s[1..], x, y);
    }
  }

  /** The occurrences of every key of `keys` in `s`, added up. */
  function CountAll<T(==)>(keys: seq<T>, s: seq<T>): nat {
    if keys == [] then 0 else Count(s, keys[0]) + CountAll(keys[1..], s)
  }

  lemma {:induction false} CountAllEmpty<T>(keys: seq<T>)
    ensures CountAll(keys, []) == 0
  {
    if keys != [] {
      CountAllEmpty(keys[1..]);
    }
  }

  lemma {:induction false} CountAllCons<T>(keys: seq<T>, h: T, t: seq<T>)
    ensures CountAll(keys, [h] + t) == Count(keys, h) + CountAll(keys, t)
  {
    if keys != [] {
      assert ([h] + t)[1..] == t;
      CountAllCons(keys[1..], h, t);
    }
  }

  lemma {:induction false} CountNoDup<T>(keys: seq<T>, x: T)
    requires NoDup(keys) && x in keys
    ensures Count(keys, x) == 1
  {
    if keys[0] == x {
      assert x !in keys[1..] by {
        forall k | 0 <= k < |keys[1..]| ensures keys[1..][k] != x {
          assert keys[1..][k] == keys[k + 1];
        }
      }
    } else {
      assert x in keys[1..];
      CountNoDup(keys[1..], x);
    }
  }

  /**
   * When the keys are distinct and cover every element of `s`, the per-key counts
   * add up to the length of `s`: each element is counted under exactly one key.
   */
  lemma {:induction false} CountAllCovers<T>(keys: seq<T>, s: seq<T>)
    requires NoDup(keys)
    requires forall x :: x in s ==> x in keys
    ensures CountAll(keys, s) == |s|
  {
    if s == [] {
      CountAllEmpty(keys);
    } else {
      assert s == [s[0]] + s[1..];
      CountAllCons(keys, s[0], s[1..]);
      CountNoDup(keys, s[0]);
      CountAllCovers(keys, s[1..]);
    }
  }

  /** `s` is in ascending order of `key`. */
  ghost predicate SortedBy<T>(s: seq<T>, key: T -> int) {
    forall i, j :: 0 <= i < j < |s| ==> key(s[i]) <= key(s[j])
  }

  /** Every key in `s` is at least `b`. */
  ghost predicate KeysAtLeast<T>(s: seq<T>, key: T -> int, b: int) {
    forall k :: 0 <= k < |s| ==> b <= key(s[k])
  }

  lemma SortedCons<T>(x: T, s: seq<T>, key: T -> int)
    requires SortedBy(s, key) && KeysAtLeast(s, key, key(x))
    ensures SortedBy([x] + s, key)
  {
    var r := [x] + s;
    forall i, j | 0 <= i < j < |r| ensures key(r[i]) <= key(r[j]) {
      assert r[j] == s[j - 1];
      if i > 0 {
        assert r[i] == s[i - 1];
      }
    }
  }

  /** Inserts `x` before the first element with a larger key. */
  function InsertByKey<T>(x: T, s: seq<T>, key: T -> int): (r: seq<T>)
    requires SortedBy(s, key)
    ensures SortedBy(r, key)
    ensures multiset(r) == multiset(s) + multiset{x}
    ensures forall b :: KeysAtLeast(s, key, b) && b <= key(x) ==> KeysAtLeast(r, key, b)
  {
    if s == [] then [x]
    else if key(x) <= key(s[0]) then
      SortedCons(x, s, key);
      [x] + s
    else
      var rest := InsertByKey(x, s[1..], key);
      assert s == [s[0]] + s[1..];
      assert KeysAtLeast(s[1..], key, key(s[0]));
      SortedCons(s[0], rest, key);
      [s[0]] + rest
  }

  /**
   * The ascending order of `s` by `key`, as the database's `order by` returns
   * rows: a permutation of `s` that is sorted.
   */
  function SortByKey<T>(s: seq<T>, key: T -> int): (r: seq<T>)
    ensures SortedBy(r, key)
    ensures multiset(r) == multiset(s)
    ensures |r| == |s|
  {
    if s == [] then []
    else
      assert s == [s[0]] + s[1..];
      InsertByKey(s[0], SortByKey(s[1..], key), key)
  }
}

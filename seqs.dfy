/** Sequence operations the ledgers and mirrors are built from: removal of a set
    of values keeping order, keeping the newest entries, duplicate freedom. */
module Seqs {

  predicate NoDup<T(==)>(s: seq<T>) {
    forall i, j :: 0 <= i < j < |s| ==> s[i] != s[j]
  }

  /** The elements of `s` not in `xs`, in their original order
      (`s.filter(c => !xs.has(c))`). */
  function Without<T(!new)>(s: seq<T>, xs: set<T>): (r: seq<T>)
    ensures |r| <= |s|
    ensures forall x :: x in r <==> x in s && x !in xs
  {
    if s == [] then []
    else if s[0] in xs then Without(s[1..], xs)
    else [s[0]] + Without(s[1..], xs)
  }

  /** Removal distributes over concatenation: survivors keep their relative order. */
  lemma {:induction false} WithoutAppend<T(!new)>(a: seq<T>, b: seq<T>, xs: set<T>)
    ensures Without(a + b, xs) == Without(a, xs) + Without(b, xs)
  {
    if a == [] {
      assert a + b == b;
    } else {
      assert (a + b)[1..] == a[1..] + b;
      WithoutAppend(a[1..], b, xs);
    }
  }

  /** Nothing is removed when no element is a target. */
  lemma {:induction false} WithoutNone<T(!new)>(s: seq<T>, xs: set<T>)
    requires forall i :: 0 <= i < |s| ==> s[i] !in xs
    ensures Without(s, xs) == s
  {
    if s != [] {
      WithoutNone(s[1..], xs);
    }
  }

  /** Removal keeps a duplicate-free list duplicate-free. */
  lemma {:induction false} WithoutNoDup<T(!new)>(s: seq<T>, xs: set<T>)
    requires NoDup(s)
    ensures NoDup(Without(s, xs))
  {
    if s != [] {
      WithoutNoDup(s[1..], xs);
      var rest := Without(s[1..], xs);
      assert s[0] !in s[1..];
    }
  }

  /** The last `n` elements of `s`, or all of them (`s.slice(-n)` once `|s| > n`). */
  function Newest<T>(s: seq<T>, n: nat): (r: seq<T>)
    ensures |r| == if |s| <= n then |s| else n
    ensures r == s[|s| - |r|..]
  {
    if |s| > n then s[|s| - n..] else s
  }

  /** Appends `x` unless it is already present (`if (!s.includes(x)) s.push(x)`). */
  function AddOnce<T(==, !new)>(s: seq<T>, x: T): (r: seq<T>)
    ensures x in r
    ensures s <= r && |r| <= |s| + 1
    ensures forall y :: y in r <==> y in s || y == x
    ensures NoDup(s) ==> NoDup(r)
  {
    if x in s then s else s + [x]
  }

  /** Adding a present value a second time changes nothing. */
  lemma AddOnceIdempotent<T(!new)>(s: seq<T>, x: T)
    ensures AddOnce(AddOnce(s, x), x) == AddOnce(s, x)
  {
  }

  /** Trimming to the newest `n` before or after appending one element gives
      the same newest `n`. */
  lemma NewestAppend<T>(s: seq<T>, y: T, n: nat)
    ensures Newest(Newest(s, n) + [y], n) == Newest(s + [y], n)
  {
    var t := Newest(s, n);
    assert t + [y] == (s + [y])[|s| - |t|..];
  }

  /** Every entry of the newest ones is an entry of the list. */
  lemma NewestIn<T>(s: seq<T>, n: nat, x: T)
    requires x in Newest(s, n)
    ensures x in s
  {
    var r := Newest(s, n);
    var i :| 0 <= i < |r| && r[i] == x;
    assert s[|s| - |r| + i] == x;
  }

  /** The newest entries of a duplicate-free list are duplicate-free. */
  lemma NewestNoDup<T>(s: seq<T>, n: nat)
    ensures NoDup(s) ==> NoDup(Newest(s, n))
  {
    if NoDup(s) {
      var r := Newest(s, n);
      forall i, j | 0 <= i < j < |r| ensures r[i] != r[j] {
        assert r[i] == s[|s| - |r| + i] && r[j] == s[|s| - |r| + j];
      }
    }
  }

  /** Dropping the last element of a duplicate-free list leaves a
      duplicate-free list without that element. */
  lemma NoDupInit<T>(s: seq<T>)
    requires NoDup(s) && s != []
    ensures NoDup(s[..|s| - 1]) && s[|s| - 1] !in s[..|s| - 1]
  {
    var p := s[..|s| - 1];
    forall i, j | 0 <= i < j < |p| ensures p[i] != p[j] {
      assert p[i] == s[i] && p[j] == s[j];
    }
  }
}

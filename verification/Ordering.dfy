// Strict orders, the lexicographic order of strings, and sorting.
module Ordering {
  // Byte-wise comparison of Go and code-point comparison of Python agree with
  // the order of characters on the text compared here.
  predicate Less(a: string, b: string)
    decreases |a|
  {
    b != [] && (a == [] || a[0] < b[0] || (a[0] == b[0] && Less(a[1..], b[1..])))
  }

  lemma {:induction false} LessIrreflexive(a: string)
    ensures !Less(a, a)
    decreases |a|
  {
    if a != [] {
      LessIrreflexive(a[1..]);
    }
  }

  lemma {:induction false} LessTransitive(a: string, b: string, c: string)
    requires Less(a, b) && Less(b, c)
    ensures Less(a, c)
    decreases |a|
  {
    if a != [] && a[0] == b[0] == c[0] {
      LessTransitive(a[1..], b[1..], c[1..]);
    }
  }

  lemma {:induction false} LessTotal(a: string, b: string)
    ensures a == b || Less(a, b) || Less(b, a)
    decreases |a|
  {
    if a != [] && b != [] && a[0] == b[0] {
      LessTotal(a[1..], b[1..]);
      assert a == [a[0]] + a[1..] && b == [b[0]] + b[1..];
    }
  }

  lemma LessIsOrder()
    ensures forall a :: !Less(a, a)
    ensures forall a, b, c :: Less(a, b) && Less(b, c) ==> Less(a, c)
    ensures forall a, b :: a == b || Less(a, b) || Less(b, a)
  {
    forall a ensures !Less(a, a) {
      LessIrreflexive(a);
    }
    forall a, b, c | Less(a, b) && Less(b, c) ensures Less(a, c) {
      LessTransitive(a, b, c);
    }
    forall a, b ensures a == b || Less(a, b) || Less(b, a) {
      LessTotal(a, b);
    }
  }

  // A strict order, total on the elements of a sequence.
  ghost predicate Orders<T(!new)>(less: (T, T) -> bool, s: seq<T>) {
    && (forall a :: !less(a, a))
    && (forall a, b, c :: less(a, b) && less(b, c) ==> less(a, c))
    && (forall i, j :: 0 <= i < |s| && 0 <= j < |s| && i != j ==> less(s[i], s[j]) || less(s[j], s[i]))
  }

  ghost predicate Increasing<T(!new)>(less: (T, T) -> bool, s: seq<T>) {
    forall i, j :: 0 <= i < j < |s| ==> less(s[i], s[j])
  }

  // There is only one increasing arrangement of a set of elements.
  lemma {:induction false} IncreasingUnique<T(!new)>(less: (T, T) -> bool, s: seq<T>, t: seq<T>)
    requires forall a :: !less(a, a)
    requires forall a, b, c :: less(a, b) && less(b, c) ==> less(a, c)
    requires Increasing(less, s) && Increasing(less, t)
    requires forall x :: x in s <==> x in t
    ensures s == t
    decreases |s|
  {
    EmptyAlike(s, t);
    if s != [] {
      assert s[0] in s && t[0] in t;
      HeadLeast(less, s, t[0]);
      HeadLeast(less, t, s[0]);
      forall x ensures x in s[1..] <==> x in t[1..] {
        TailMember(less, s, x);
        TailMember(less, t, x);
      }
      IncreasingUnique(less, s[1..], t[1..]);
      assert s == [s[0]] + s[1..] && t == [t[0]] + t[1..];
    }
  }

  lemma EmptyAlike<T>(s: seq<T>, t: seq<T>)
    requires forall x :: x in s <==> x in t
    ensures s == [] <==> t == []
  {
    if s != [] {
      assert s[0] in t;
    }
    if t != [] {
      assert t[0] in s;
    }
  }

  lemma HeadLeast<T(!new)>(less: (T, T) -> bool, s: seq<T>, x: T)
    requires Increasing(less, s) && x in s
    ensures x == s[0] || less(s[0], x)
  {
  }

  lemma TailMember<T(!new)>(less: (T, T) -> bool, s: seq<T>, x: T)
    requires forall a :: !less(a, a)
    requires Increasing(less, s) && s != []
    ensures x in s[1..] <==> x in s && x != s[0]
  {
    if x in s[1..] {
      var i :| 0 <= i < |s[1..]| && s[1..][i] == x;
      assert s[i + 1] == x && less(s[0], x);
    }
  }

  // Insertion into an increasing sequence.
  method Insert<T(!new)>(less: (T, T) -> bool, s: seq<T>, x: T) returns (r: seq<T>)
    requires forall a, b, c :: less(a, b) && less(b, c) ==> less(a, c)
    requires Increasing(less, s)
    requires forall i :: 0 <= i < |s| ==> less(s[i], x) || less(x, s[i])
    ensures Increasing(less, r)
    ensures multiset(r) == multiset(s) + multiset{x}
  {
    var i := 0;
    while i < |s| && less(s[i], x)
      invariant 0 <= i <= |s|
      invariant forall k :: 0 <= k < i ==> less(s[k], x)
    {
      i := i + 1;
    }
    r := s[..i] + [x] + s[i..];
    assert s == s[..i] + s[i..];
    forall k | i <= k < |s| ensures less(x, s[k]) {
      assert less(x, s[i]);
      assert k > i ==> less(s[i], s[k]);
    }
  }

  method Sort<T(!new)>(less: (T, T) -> bool, s: seq<T>) returns (r: seq<T>)
    requires Orders(less, s)
    ensures Increasing(less, r)
    ensures multiset(r) == multiset(s)
  {
    r := [];
    for n := 0 to |s|
      invariant Increasing(less, r)
      invariant multiset(r) == multiset(s[..n])
    {
      assert s[..n + 1] == s[..n] + [s[n]];
      forall i | 0 <= i < |r| ensures less(r[i], s[n]) || less(s[n], r[i]) {
        assert r[i] in multiset(s[..n]);
        var j :| 0 <= j < n && s[..n][j] == r[i];
        assert s[j] == r[i];
      }
      r := Insert(less, r, s[n]);
    }
    assert s[..|s|] == s;
  }
}

/** Shared vocabulary: bytes as the wire carries them, options, and sequences read in order. */
module Prelude {
  type Byte = x: int | 0 <= x < 256

  datatype Option<+T> = None | Some(value: T)

  ghost predicate NoDup<T>(s: seq<T>) {
    forall i, j | 0 <= i < j < |s| :: s[i] != s[j]
  }

  ghost function Elements<T>(s: seq<T>): set<T> { set x | x in s }

  lemma ElementsOneMore<T>(s: seq<T>, n: nat)
    requires n < |s|
    ensures Elements(s[..n + 1]) == Elements(s[..n]) + {s[n]}
    ensures NoDup(s) ==> s[n] !in Elements(s[..n])
  {
    assert s[..n + 1] == s[..n] + [s[n]];
  }

  /** `s` without the elements of `drop`, in the same order. */
  function Without<T(==)>(s: seq<T>, drop: set<T>): (r: seq<T>)
    ensures forall x | x in r :: x in s && x !in drop
    ensures forall x | x in s :: x !in drop ==> x in r
    ensures |r| <= |s|
  {
    if s == [] then []
    else (if s[0] in drop then [] else [s[0]]) + Without(s[1..], drop)
  }

  lemma {:induction false} WithoutNoDup<T>(s: seq<T>, drop: set<T>)
    requires NoDup(s)
    ensures NoDup(Without(s, drop))
  {
    if s != [] {
      WithoutNoDup(s[1..], drop);
      assert s[0] !in s[1..];
    }
  }

  lemma {:induction false} WithoutNothing<T>(s: seq<T>, drop: set<T>)
    requires forall x | x in s :: x !in drop
    ensures Without(s, drop) == s
  {
    if s != [] { WithoutNothing(s[1..], drop); }
  }

  lemma {:induction false} WithoutSplit<T>(s: seq<T>, drop: set<T>)
    ensures multiset(s) == multiset(Without(s, drop)) + Dropped(s, drop)
  {
    if s != [] {
      assert s == [s[0]] + s[1..];
      WithoutSplit(s[1..], drop);
    }
  }

  /** The elements `Without` leaves out, with their multiplicity. */
  function Dropped<T(==)>(s: seq<T>, drop: set<T>): multiset<T> {
    if s == [] then multiset{}
    else (if s[0] in drop then multiset{s[0]} else multiset{}) + Dropped(s[1..], drop)
  }

  /** Removing one element that `drop` contains anyway. */
  lemma {:induction false} WithoutRemoved<T>(s: seq<T>, i: nat, drop: set<T>)
    requires i < |s| && s[i] in drop
    ensures Without(s[..i] + s[i + 1..], drop) == Without(s, drop)
    ensures Dropped(s[..i] + s[i + 1..], drop) + multiset{s[i]} == Dropped(s, drop)
  {
    if i == 0 {
      assert s[..0] + s[1..] == s[1..];
    } else {
      assert (s[..i] + s[i + 1..])[1..] == s[1..][..i - 1] + s[1..][i..];
      WithoutRemoved(s[1..], i - 1, drop);
    }
  }

  lemma {:induction false} DroppedNothing<T>(s: seq<T>, drop: set<T>)
    requires forall x | x in s :: x !in drop
    ensures Dropped(s, drop) == multiset{}
  {
    if s != [] { DroppedNothing(s[1..], drop); }
  }

  /** Dropping one set after another. */
  lemma {:induction false} WithoutTwice<T>(s: seq<T>, a: set<T>, b: set<T>)
    ensures Without(Without(s, a), b) == Without(s, a + b)
    ensures Dropped(s, a) + Dropped(Without(s, a), b) == Dropped(s, a + b)
  {
    if s != [] {
      WithoutTwice(s[1..], a, b);
      if s[0] in a {
        assert Without(s, a) == Without(s[1..], a);
      } else {
        assert Without(s, a)[1..] == Without(s[1..], a);
      }
    }
  }

  lemma {:induction false} WithoutAll<T>(s: seq<T>, drop: set<T>)
    requires forall x | x in s :: x in drop
    ensures Without(s, drop) == []
  {
    if s != [] { WithoutAll(s[1..], drop); }
  }

  lemma {:induction false} WithoutConcat<T>(a: seq<T>, b: seq<T>, drop: set<T>)
    ensures Without(a + b, drop) == Without(a, drop) + Without(b, drop)
  {
    if a == [] {
      assert a + b == b;
    } else {
      assert (a + b)[1..] == a[1..] + b;
      WithoutConcat(a[1..], b, drop);
    }
  }

  lemma PartsDiffer<T>(a: seq<T>, b: seq<T>)
    requires NoDup(a + b)
    ensures forall x | x in b :: x !in a
  {
    forall i, j | 0 <= i < |a| && 0 <= j < |b|
      ensures a[i] != b[j]
    {
      assert (a + b)[i] != (a + b)[|a| + j];
    }
  }

  lemma NoDupFront<T>(a: seq<T>, b: seq<T>)
    requires NoDup(a + b)
    ensures NoDup(a)
  {
    assert forall i | 0 <= i < |a| :: a[i] == (a + b)[i];
  }

  /** Dropping what stands in the middle of a list without repetition leaves the two ends. */
  lemma WithoutMiddle<T>(a: seq<T>, b: seq<T>, c: seq<T>)
    requires NoDup(a + b + c)
    ensures Without(a + b + c, Elements(b)) == a + c
  {
    PartsDiffer(a + b, c);
    NoDupFront(a + b, c);
    PartsDiffer(a, b);
    WithoutConcat(a + b, c, Elements(b));
    WithoutConcat(a, b, Elements(b));
    WithoutNothing(a, Elements(b));
    WithoutAll(b, Elements(b));
    assert forall x | x in c :: x !in b by {
      assert forall x | x in b :: x in a + b;
    }
    WithoutNothing(c, Elements(b));
    assert a + [] == a;
  }

  /** `a` can be read in `b` in the same order, skipping elements. */
  predicate Subsequence<T(==)>(a: seq<T>, b: seq<T>) {
    a == [] ||
    (b != [] && if a[0] == b[0] then Subsequence(a[1..], b[1..]) else Subsequence(a, b[1..]))
  }

  lemma {:induction false} SubsequenceTail<T>(a: seq<T>, b: seq<T>)
    requires Subsequence(a, b) && a != []
    ensures Subsequence(a[1..], b)
  {
    if a[0] == b[0] {
      if |a| > 1 {
        if a[1] == b[0] { SubsequenceTail(a[1..], b[1..]); }
      }
    } else {
      SubsequenceTail(a, b[1..]);
      if |a| > 1 && a[1] == b[0] { SubsequenceTail(a[1..], b[1..]); }
    }
  }

  lemma {:induction false} SubsequenceTransitive<T>(a: seq<T>, b: seq<T>, c: seq<T>)
    requires Subsequence(a, b) && Subsequence(b, c)
    ensures Subsequence(a, c)
    decreases |a| + |b| + |c|
  {
    if a != [] {
      if b[0] != c[0] {
        SubsequenceTransitive(a, b, c[1..]);
        if a[0] == c[0] {
          SubsequenceTail(a, c[1..]);
        }
      } else if a[0] == b[0] {
        SubsequenceTransitive(a[1..], b[1..], c[1..]);
      } else {
        SubsequenceTransitive(a, b[1..], c[1..]);
      }
    }
  }

  lemma {:induction false} SubsequenceConcat<T>(a: seq<T>, b: seq<T>, c: seq<T>, d: seq<T>)
    requires Subsequence(a, b) && Subsequence(c, d)
    ensures Subsequence(a + c, b + d)
    decreases |b|
  {
    if b == [] {
      assert a + c == c && b + d == d;
    } else if a == [] {
      SubsequenceConcat([], b[1..], c, d);
      assert a + c == c && [] + c == c;
      assert (b + d)[1..] == b[1..] + d;
      if c != [] && c[0] == b[0] { SubsequenceTail(c, b[1..] + d); }
    } else {
      assert (b + d)[1..] == b[1..] + d && (a + c)[1..] == a[1..] + c;
      if a[0] == b[0] {
        SubsequenceConcat(a[1..], b[1..], c, d);
      } else {
        SubsequenceConcat(a, b[1..], c, d);
      }
    }
  }

  lemma {:induction false} SubsequenceSelf<T>(a: seq<T>)
    ensures Subsequence(a, a)
  {
    if a != [] { SubsequenceSelf(a[1..]); }
  }

  lemma {:induction false} WithoutIsSubsequence<T>(s: seq<T>, drop: set<T>)
    ensures Subsequence(Without(s, drop), s)
  {
    if s != [] {
      WithoutIsSubsequence(s[1..], drop);
      if s[0] in drop {
        var w := Without(s[1..], drop);
        assert Without(s, drop) == w;
        assert w == [] || w[0] != s[0];
      } else {
        assert Without(s, drop)[1..] == Without(s[1..], drop);
      }
    }
  }

  /** In a list without repetition, nothing can be read after its last element. */
  lemma {:induction false} NothingAfterLast<T>(a: seq<T>, x: T, rest: seq<T>, b: seq<T>)
    requires NoDup(b + [x]) && rest != []
    ensures !Subsequence(a + [x] + rest, b + [x])
    decreases |b|
  {
    var s, t := a + [x] + rest, b + [x];
    if b == [] {
      assert t[1..] == [];
      assert s[1..] != [];
    } else {
      assert t[1..] == b[1..] + [x];
      if s[0] == t[0] {
        assert t[0] != t[|t| - 1] == x;
        assert s[1..] == a[1..] + [x] + rest;
        NothingAfterLast(a[1..], x, rest, b[1..]);
      } else {
        NothingAfterLast(a, x, rest, b[1..]);
      }
    }
  }
}

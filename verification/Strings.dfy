/** String order and sorting, as `sort.Strings` uses them: byte-wise
    lexicographic order, and the one sorted listing a finite set has. */
module Strings {

  /** Lexicographic order on strings. */
  predicate Le(a: string, b: string)
  {
    a == [] || (b != [] && (a[0] < b[0] || (a[0] == b[0] && Le(a[1..], b[1..]))))
  }

  /** The first difference is at k, and there `a` is less. */
  predicate LessAt(a: string, b: string, k: nat)
  {
    k < |a| && k < |b| && (forall i :: 0 <= i < k ==> a[i] == b[i]) && a[k] < b[k]
  }

  lemma LessAtTail(a: string, b: string, k: nat)
    requires a != [] && b != [] && a[0] == b[0]
    ensures LessAt(a, b, k + 1) <==> LessAt(a[1..], b[1..], k)
    ensures !LessAt(a, b, 0)
  {
    if LessAt(a, b, k + 1) {
      forall i | 0 <= i < k ensures a[1..][i] == b[1..][i] { assert a[i + 1] == b[i + 1]; }
    }
    if LessAt(a[1..], b[1..], k) {
      forall i | 0 <= i < k + 1 ensures a[i] == b[i] { if i > 0 { assert a[1..][i - 1] == b[1..][i - 1]; } }
    }
  }

  /** The order spelt out: a prefix comes first, else the first difference
      decides. */
  lemma {:induction false} LeMeans(a: string, b: string)
    ensures Le(a, b) <==> a <= b || exists k: nat :: LessAt(a, b, k)
  {
    if a != [] && b != [] && a[0] == b[0] {
      LeMeans(a[1..], b[1..]);
      assert a <= b <==> a[1..] <= b[1..] by { assert a == [a[0]] + a[1..] && b == [b[0]] + b[1..]; }
      hide LessAt;
      if exists k: nat :: LessAt(a[1..], b[1..], k) {
        var k: nat :| LessAt(a[1..], b[1..], k);
        LessAtTail(a, b, k);
      }
      if exists k: nat :: LessAt(a, b, k) {
        var k: nat :| LessAt(a, b, k);
        LessAtTail(a, b, if k == 0 then 0 else k - 1);
      }
    } else if a != [] && b != [] && a[0] < b[0] {
      assert LessAt(a, b, 0);
    }
  }

  lemma LeReflexive(a: string)
    ensures Le(a, a)
  {}

  lemma LeTotal(a: string, b: string)
    ensures Le(a, b) || Le(b, a)
  {}

  lemma {:induction false} LeTransitive(a: string, b: string, c: string)
    requires Le(a, b) && Le(b, c)
    ensures Le(a, c)
  {
    if a != [] && a[0] == b[0] && b[0] == c[0] {
      LeTransitive(a[1..], b[1..], c[1..]);
    }
  }

  lemma {:induction false} LeAntisymmetric(a: string, b: string)
    requires Le(a, b) && Le(b, a)
    ensures a == b
  {
    if a != [] {
      LeAntisymmetric(a[1..], b[1..]);
      assert a == [a[0]] + a[1..] && b == [b[0]] + b[1..];
    }
  }

  ghost predicate Sorted(xs: seq<string>)
  {
    forall i, j :: 0 <= i < j < |xs| ==> Le(xs[i], xs[j])
  }

  ghost predicate NoDuplicates<T(!new)>(xs: seq<T>)
  {
    forall i, j :: 0 <= i < j < |xs| ==> xs[i] != xs[j]
  }

  /** `xs` lists `s`, each element once, in ascending order. */
  ghost predicate Lists(xs: seq<string>, s: set<string>)
  {
    Sorted(xs) && NoDuplicates(xs) && forall x :: x in xs <==> x in s
  }

  lemma EmptyListing(xs: seq<string>, s: set<string>)
    requires Lists(xs, s)
    ensures xs == [] <==> s == {}
  {
    if xs != [] {
      assert xs[0] in s;
    }
  }

  lemma {:induction false} ListingUnique(xs: seq<string>, ys: seq<string>, s: set<string>)
    requires Lists(xs, s) && Lists(ys, s)
    ensures xs == ys
    decreases |xs|
  {
    EmptyListing(xs, s);
    EmptyListing(ys, s);
    if s != {} {
      assert xs[0] in s && ys[0] in s;
      var i :| 0 <= i < |ys| && ys[i] == xs[0];
      var j :| 0 <= j < |xs| && xs[j] == ys[0];
      LeReflexive(xs[0]);
      LeReflexive(ys[0]);
      LeAntisymmetric(xs[0], ys[0]);
      TailLists(xs, s);
      TailLists(ys, s);
      ListingUnique(xs[1..], ys[1..], s - {xs[0]});
      assert xs == [xs[0]] + xs[1..] && ys == [ys[0]] + ys[1..];
    }
  }

  lemma TailLists(xs: seq<string>, s: set<string>)
    requires xs != [] && Lists(xs, s)
    ensures Lists(xs[1..], s - {xs[0]})
  {
    forall x | x in s - {xs[0]} ensures x in xs[1..] {
      assert x in xs;
    }
  }

  /** Insert one string into a sorted sequence (one round of insertion sort). */
  function Insert(x: string, xs: seq<string>): (r: seq<string>)
    ensures |r| == |xs| + 1 && multiset(r) == multiset(xs) + multiset{x}
  {
    if xs == [] then [x]
    else if Le(x, xs[0]) then [x] + xs
    else
      assert xs == [xs[0]] + xs[1..];
      [xs[0]] + Insert(x, xs[1..])
  }

  lemma {:induction false} InsertSorted(x: string, xs: seq<string>)
    requires Sorted(xs)
    ensures Sorted(Insert(x, xs))
  {
    if xs != [] {
      if Le(x, xs[0]) {
        forall j | 0 <= j < |xs| ensures Le(x, xs[j]) {
          if j > 0 { LeTransitive(x, xs[0], xs[j]); }
        }
      } else {
        LeTotal(x, xs[0]);
        InsertSorted(x, xs[1..]);
        var r := Insert(x, xs[1..]);
        forall j | 0 <= j < |r| ensures Le(xs[0], r[j]) {
          assert r[j] in multiset(r);
          assert r[j] in multiset(xs[1..]) + multiset{x};
          if r[j] != x {
            assert r[j] in xs[1..];
          }
        }
      }
    }
  }

  lemma InsertLists(x: string, xs: seq<string>, s: set<string>)
    requires Lists(xs, s) && x !in s
    ensures Lists(Insert(x, xs), s + {x})
  {
    InsertSorted(x, xs);
    var r := Insert(x, xs);
    forall y ensures y in r <==> y in s + {x} {
      assert y in r <==> y in multiset(r);
      assert y in xs <==> y in multiset(xs);
    }
    MultisetNoDuplicates(xs);
    forall y | y in multiset(r) ensures multiset(r)[y] == 1 {
      assert x !in multiset(xs);
      if y != x { assert y in multiset(xs); }
    }
    UniqueNoDuplicates(r);
  }

  lemma {:induction false} MultisetNoDuplicates<T(!new)>(xs: seq<T>)
    requires NoDuplicates(xs)
    ensures forall y :: y in multiset(xs) ==> multiset(xs)[y] == 1
  {
    if xs != [] {
      MultisetNoDuplicates(xs[1..]);
      assert xs == [xs[0]] + xs[1..];
      assert xs[0] !in xs[1..];
      assert multiset(xs) == multiset{xs[0]} + multiset(xs[1..]);
    }
  }

  lemma {:induction false} UniqueNoDuplicates<T(!new)>(xs: seq<T>)
    requires forall y :: y in multiset(xs) ==> multiset(xs)[y] == 1
    ensures NoDuplicates(xs)
  {
    if xs != [] {
      assert xs == [xs[0]] + xs[1..];
      assert multiset(xs) == multiset{xs[0]} + multiset(xs[1..]);
      assert xs[0] in multiset(xs);
      assert xs[0] !in multiset(xs[1..]);
      assert xs[0] !in xs[1..];
      forall y | y in multiset(xs[1..]) ensures multiset(xs[1..])[y] == 1 {
        assert y in multiset(xs);
      }
      UniqueNoDuplicates(xs[1..]);
    }
  }

  /** Collect a set in whatever order its elements come, then sort: the result
      is the set's one sorted listing, so the order does not show. */
  method SortSet(s: set<string>) returns (xs: seq<string>)
    ensures Lists(xs, s)
  {
    xs := [];
    var todo := s;
    while todo != {}
      invariant todo <= s
      invariant Lists(xs, s - todo)
      decreases todo
    {
      var x :| x in todo;
      InsertLists(x, xs, s - todo);
      assert s - todo + {x} == s - (todo - {x});
      xs := Insert(x, xs);
      todo := todo - {x};
    }
    assert s - todo == s;
  }

  /** Every finite set has a sorted listing. */
  lemma {:induction false} ListingExists(s: set<string>)
    ensures exists xs :: Lists(xs, s)
  {
    if s == {} {
      assert Lists([], s);
    } else {
      var x :| x in s;
      ListingExists(s - {x});
      var xs :| Lists(xs, s - {x});
      InsertLists(x, xs, s - {x});
      assert s - {x} + {x} == s;
    }
  }

  /** The sorted listing of a set. */
  ghost function Listing(s: set<string>): (xs: seq<string>)
    ensures Lists(xs, s)
  {
    ListingExists(s);
    var xs :| Lists(xs, s);
    xs
  }

  lemma WithoutIndex<T>(b: seq<T>, i: nat)
    requires i < |b|
    ensures b == b[..i] + [b[i]] + b[i + 1..]
    ensures multiset(b[..i] + b[i + 1..]) == multiset(b) - multiset{b[i]}
  {
    assert b == b[..i] + [b[i]] + b[i + 1..];
    assert multiset(b) == multiset(b[..i] + b[i + 1..]) + multiset{b[i]};
  }

  /** The first element of one order, found and taken out of the other. */
  lemma TakeOut<T>(a: seq<T>, b: seq<T>) returns (before: seq<T>, after: seq<T>)
    requires a != [] && multiset(a) == multiset(b)
    ensures a == [a[0]] + a[1..] && b == before + [a[0]] + after
    ensures multiset(a[1..]) == multiset(before + after)
  {
    assert a[0] in multiset(b);
    var i :| 0 <= i < |b| && b[i] == a[0];
    before, after := b[..i], b[i + 1..];
    WithoutIndex(b, i);
    assert a == [a[0]] + a[1..];
    assert multiset(a) == multiset{a[0]} + multiset(a[1..]);
  }

  function Filter<T>(xs: seq<T>, f: T -> bool): seq<T>
  {
    if xs == [] then []
    else if f(xs[0]) then [xs[0]] + Filter(xs[1..], f)
    else Filter(xs[1..], f)
  }

  lemma {:induction false} FilterMembers<T>(xs: seq<T>, f: T -> bool, x: T)
    ensures x in Filter(xs, f) <==> x in xs && f(x)
  {
    if xs != [] {
      FilterMembers(xs[1..], f, x);
      assert xs == [xs[0]] + xs[1..];
    }
  }

  /** What a filter takes and what it leaves make up the whole. */
  lemma {:induction false} FilterSplits<T>(xs: seq<T>, f: T -> bool, g: T -> bool)
    requires forall x :: x in xs ==> g(x) == !f(x)
    ensures multiset(Filter(xs, f)) + multiset(Filter(xs, g)) == multiset(xs)
  {
    if xs != [] {
      FilterSplits(xs[1..], f, g);
      assert xs == [xs[0]] + xs[1..];
      assert multiset(xs) == multiset{xs[0]} + multiset(xs[1..]);
    }
  }

  /** The places in `xs` of what meets `f`. */
  ghost function Where<T>(xs: seq<T>, f: T -> bool): set<nat>
  {
    set i: nat | i < |xs| && f(xs[i])
  }

  lemma WhereOneMore<T>(xs: seq<T>, f: T -> bool)
    requires xs != []
    ensures |Where(xs, f)| == |Where(xs[..|xs| - 1], f)| + if f(xs[|xs| - 1]) then 1 else 0
  {
    var n := |xs| - 1;
    assert Where(xs, f) == Where(xs[..n], f) + if f(xs[n]) then {n} else {};
  }
}

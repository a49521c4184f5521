/**
 * `orderBy: { createdAt: 'desc' }`: a table listed newest first. Rows created
 * at the same instant keep their table order; the database leaves that order
 * open, so this is one admissible answer.
 */
module Listing {

  /** Newest first: no row is listed before a strictly newer one. */
  ghost predicate NewestFirstOrder<T>(xs: seq<T>, createdAt: T -> nat) {
    forall i, j :: 0 <= i < j < |xs| ==> createdAt(xs[i]) >= createdAt(xs[j])
  }

  /** Places `x` before the first row that is not newer than it. */
  function Insert<T>(x: T, xs: seq<T>, createdAt: T -> nat): (r: seq<T>)
    ensures multiset(r) == multiset(xs) + multiset{x}
    ensures |r| == |xs| + 1
  {
    if xs == [] || createdAt(xs[0]) <= createdAt(x) then [x] + xs
    else
      assert xs == [xs[0]] + xs[1..];
      [xs[0]] + Insert(x, xs[1..], createdAt)
  }

  lemma {:induction false} InsertKeepsOrder<T>(x: T, xs: seq<T>, createdAt: T -> nat)
    requires NewestFirstOrder(xs, createdAt)
    ensures NewestFirstOrder(Insert(x, xs, createdAt), createdAt)
    ensures |xs| > 0 ==> var r := Insert(x, xs, createdAt);
      createdAt(r[0]) == createdAt(xs[0]) || createdAt(r[0]) == createdAt(x)
  {
    if xs == [] || createdAt(xs[0]) <= createdAt(x) {
    } else {
      InsertKeepsOrder(x, xs[1..], createdAt);
      var r := Insert(x, xs, createdAt);
      var t := Insert(x, xs[1..], createdAt);
      assert r == [xs[0]] + t;
      assert |xs[1..]| > 0 ==> createdAt(xs[0]) >= createdAt(xs[1]);
      forall i, j | 0 <= i < j < |r|
        ensures createdAt(r[i]) >= createdAt(r[j])
      {
        if i == 0 {
          assert r[j] == t[j - 1];
          assert createdAt(t[0]) <= createdAt(xs[0]);
          assert createdAt(t[0]) >= createdAt(t[j - 1]);
        } else {
          assert r[i] == t[i - 1] && r[j] == t[j - 1];
        }
      }
    }
  }

  /** The listing: every row of the table exactly once, newest first. */
  function NewestFirst<T>(xs: seq<T>, createdAt: T -> nat): (r: seq<T>)
    ensures multiset(r) == multiset(xs)
    ensures |r| == |xs|
  {
    if xs == [] then []
    else
      assert xs == [xs[0]] + xs[1..];
      Insert(xs[0], NewestFirst(xs[1..], createdAt), createdAt)
  }

  /** The listing is ordered newest first. */
  lemma {:induction false} NewestFirstIsOrdered<T>(xs: seq<T>, createdAt: T -> nat)
    ensures NewestFirstOrder(NewestFirst(xs, createdAt), createdAt)
  {
    if xs != [] {
      NewestFirstIsOrdered(xs[1..], createdAt);
      InsertKeepsOrder(xs[0], NewestFirst(xs[1..], createdAt), createdAt);
    }
  }

  /** A row is listed exactly when it is in the table. */
  lemma ListedIffStored<T>(xs: seq<T>, createdAt: T -> nat, x: T)
    ensures x in NewestFirst(xs, createdAt) <==> x in xs
  {
    assert x in multiset(NewestFirst(xs, createdAt)) <==> x in multiset(xs);
  }

  /** `reduce((sum, x) => sum + f(x), 0)`. */
  function SumOf<T>(xs: seq<T>, f: T -> nat): nat {
    if xs == [] then 0 else f(xs[0]) + SumOf(xs[1..], f)
  }

  lemma {:induction false} SumOfAppend<T>(a: seq<T>, b: seq<T>, f: T -> nat)
    ensures SumOf(a + b, f) == SumOf(a, f) + SumOf(b, f)
  {
    if a == [] {
      assert a + b == b;
    } else {
      assert (a + b)[1..] == a[1..] + b;
      SumOfAppend(a[1..], b, f);
    }
  }

  lemma {:induction false} SumOfInsert<T>(x: T, xs: seq<T>, createdAt: T -> nat, f: T -> nat)
    ensures SumOf(Insert(x, xs, createdAt), f) == f(x) + SumOf(xs, f)
  {
    if xs == [] || createdAt(xs[0]) <= createdAt(x) {
      assert ([x] + xs)[1..] == xs;
    } else {
      SumOfInsert(x, xs[1..], createdAt, f);
      assert ([xs[0]] + Insert(x, xs[1..], createdAt))[1..] == Insert(x, xs[1..], createdAt);
    }
  }

  /** A sum over the listing is the sum over the table: the order does not matter. */
  lemma {:induction false} SumOfNewestFirst<T>(xs: seq<T>, createdAt: T -> nat, f: T -> nat)
    ensures SumOf(NewestFirst(xs, createdAt), f) == SumOf(xs, f)
  {
    if xs != [] {
      SumOfNewestFirst(xs[1..], createdAt, f);
      SumOfInsert(xs[0], NewestFirst(xs[1..], createdAt), createdAt, f);
    }
  }
}

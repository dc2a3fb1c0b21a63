/** Multisets collected over a sequence, counted element by element. */
module Bags {

  function Total<T, X>(items: seq<T>, f: T -> multiset<X>): multiset<X> {
    if items == [] then multiset{} else f(items[0]) + Total(items[1..], f)
  }

  lemma {:induction false} TotalSum<T, X>(a: seq<T>, b: seq<T>, f: T -> multiset<X>)
    ensures Total(a + b, f) == Total(a, f) + Total(b, f)
  {
    if a == [] {
      assert a + b == b;
    } else {
      assert (a + b)[1..] == a[1..] + b;
      TotalSum(a[1..], b, f);
    }
  }

  lemma TotalOne<T, X>(t: T, f: T -> multiset<X>)
    ensures Total([t], f) == f(t)
  {
    assert Total([t], f) == f(t) + Total([], f);
  }

  /** Appending one item adds what it carries. */
  lemma TotalAppend<T, X>(items: seq<T>, t: T, f: T -> multiset<X>)
    ensures Total(items + [t], f) == Total(items, f) + f(t)
  {
    TotalSum(items, [t], f);
    TotalOne(t, f);
  }

  /** Replacing one item moves the total by the difference of what they carry. */
  lemma TotalUpdate<T, X>(items: seq<T>, i: nat, t: T, f: T -> multiset<X>, x: X)
    requires i < |items|
    ensures Total(items[i := t], f)[x] + f(items[i])[x] == Total(items, f)[x] + f(t)[x]
  {
    var a, b := items[..i], items[i + 1..];
    assert items == a + [items[i]] + b;
    assert items[i := t] == a + [t] + b;
    TotalSum(a + [items[i]], b, f);
    TotalAppend(a, items[i], f);
    TotalSum(a + [t], b, f);
    TotalAppend(a, t, f);
  }

  /** Replacing one item by a list, possibly an empty one. */
  lemma TotalReplace<T, X>(a: seq<T>, t: T, left: seq<T>, b: seq<T>, f: T -> multiset<X>, x: X)
    requires |left| <= 1
    ensures Total(a + [t] + b, f)[x] + (if left == [] then 0 else f(left[0])[x])
         == Total(a + left + b, f)[x] + f(t)[x]
  {
    TotalSum(a + [t], b, f);
    TotalAppend(a, t, f);
    TotalSum(a + left, b, f);
    if left == [] {
      assert a + left == a;
    } else {
      TotalAppend(a, left[0], f);
      assert left == [left[0]];
    }
  }
}

/** The `Array.prototype.filter` idiom the pages use on every list. */
module Seqs {

  /** Keeps the elements that satisfy `keep`: each of them as often as it
      occurs in `xs`, and no other. */
  function Filter<T(!new)>(xs: seq<T>, keep: T -> bool): (r: seq<T>)
    ensures |r| <= |xs|
    ensures forall x :: x in r <==> x in xs && keep(x)
    ensures forall x :: multiset(r)[x] == if keep(x) then multiset(xs)[x] else 0
  {
    if xs == [] then []
    else
      assert xs == [xs[0]] + xs[1..];
      (if keep(xs[0]) then [xs[0]] else []) + Filter(xs[1..], keep)
  }

  /** Filtering distributes over appending one element: a record added at the end
      shows up at the end of every filtered view that keeps it. */
  lemma {:induction false} FilterSnoc<T(!new)>(xs: seq<T>, x: T, keep: T -> bool)
    ensures Filter(xs + [x], keep) == Filter(xs, keep) + (if keep(x) then [x] else [])
  {
    var tail: seq<T> := if keep(x) then [x] else [];
    if xs == [] {
      assert xs + [x] == [x];
      assert [x][1..] == [];
      assert Filter([x], keep) == tail + Filter([], keep);
    } else {
      var head: seq<T> := if keep(xs[0]) then [xs[0]] else [];
      var ys := xs + [x];
      assert ys[0] == xs[0];
      assert ys[1..] == xs[1..] + [x];
      FilterSnoc(xs[1..], x, keep);
      calc {
        Filter(ys, keep);
        head + Filter(xs[1..] + [x], keep);
        head + (Filter(xs[1..], keep) + tail);
        { AppendAssoc(head, Filter(xs[1..], keep), tail); }
        (head + Filter(xs[1..], keep)) + tail;
        Filter(xs, keep) + tail;
      }
    }
  }

  lemma AppendAssoc<T>(a: seq<T>, b: seq<T>, c: seq<T>)
    ensures a + (b + c) == (a + b) + c
  {
  }

  /** Filtering with a predicate every element satisfies changes nothing. */
  lemma {:induction false} FilterKeepsAll<T(!new)>(xs: seq<T>, keep: T -> bool)
    requires forall i :: 0 <= i < |xs| ==> keep(xs[i])
    ensures Filter(xs, keep) == xs
  {
    if xs != [] {
      FilterKeepsAll(xs[1..], keep);
    }
  }

  /** The elements in the opposite order. */
  function Reverse<T>(xs: seq<T>): (r: seq<T>)
    ensures |r| == |xs|
    ensures forall i :: 0 <= i < |xs| ==> r[i] == xs[|xs| - 1 - i]
  {
    if xs == [] then [] else Reverse(xs[1..]) + [xs[0]]
  }
}

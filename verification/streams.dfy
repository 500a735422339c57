/**
 * The Java stream terminal operations the filters are built from, over a
 * finite sequence (a collection's stream visits its elements in order).
 * Each is defined the way a stream evaluates it, element by element, and
 * its contract states the quantified meaning.
 */
module Streams {

  /** `stream().anyMatch(p)`: stops at the first element that passes. */
  function AnyMatch<T>(xs: seq<T>, p: T -> bool): (r: bool)
    ensures r <==> exists i :: 0 <= i < |xs| && p(xs[i])
  {
    if xs == [] then false
    else if p(xs[0]) then true
    else
      var rest := AnyMatch(xs[1..], p);
      assert forall i :: 1 <= i < |xs| ==> xs[i] == xs[1..][i - 1];
      rest
  }

  /** `stream().allMatch(p)`: stops at the first element that fails. */
  function AllMatch<T>(xs: seq<T>, p: T -> bool): (r: bool)
    ensures r <==> forall i :: 0 <= i < |xs| ==> p(xs[i])
  {
    if xs == [] then true
    else if !p(xs[0]) then false
    else
      var rest := AllMatch(xs[1..], p);
      assert forall i :: 1 <= i < |xs| ==> xs[i] == xs[1..][i - 1];
      rest
  }

  /** `stream().noneMatch(p)`: stops at the first element that passes. */
  function NoneMatch<T>(xs: seq<T>, p: T -> bool): (r: bool)
    ensures r <==> forall i :: 0 <= i < |xs| ==> !p(xs[i])
  {
    if xs == [] then true
    else if p(xs[0]) then false
    else
      var rest := NoneMatch(xs[1..], p);
      assert forall i :: 1 <= i < |xs| ==> xs[i] == xs[1..][i - 1];
      rest
  }

  /** `stream().filter(p)`: keeps, in order, exactly the elements that pass. */
  function Filter<T>(xs: seq<T>, p: T -> bool): (r: seq<T>)
    ensures |r| <= |xs|
    ensures forall i :: 0 <= i < |r| ==> r[i] in xs && p(r[i])
    ensures forall i :: 0 <= i < |xs| && p(xs[i]) ==> xs[i] in r
  {
    if xs == [] then []
    else
      var rest := Filter(xs[1..], p);
      assert forall i :: 1 <= i < |xs| ==> xs[i] == xs[1..][i - 1];
      if p(xs[0]) then [xs[0]] + rest else rest
  }
}

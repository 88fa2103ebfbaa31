/** Small value types and sequence facts shared by every other module. */
module Sequences {

  datatype Option<+T> = None | Some(value: T)

  datatype Result<+T> = Ok(value: T) | Err

  function Max(x: int, y: int): int { if x >= y then x else y }

  function Abs(x: int): int { if x < 0 then -x else x }

  function AbsReal(x: real): real { if x < 0.0 then -x else x }

  function Last<T>(s: seq<T>): T
    requires s != []
  {
    s[|s| - 1]
  }

  function Front<T>(s: seq<T>): seq<T>
    requires s != []
  {
    s[..|s| - 1]
  }

  predicate Distinct<T(==)>(s: seq<T>) {
    forall i, j :: 0 <= i < j < |s| ==> s[i] != s[j]
  }

  /** Concatenation of a sequence of sequences. */
  function Flatten<T>(ss: seq<seq<T>>): seq<T> {
    if ss == [] then [] else ss[0] + Flatten(ss[1..])
  }

  lemma {:induction false} FlattenConcat<T>(xs: seq<seq<T>>, ys: seq<seq<T>>)
    ensures Flatten(xs + ys) == Flatten(xs) + Flatten(ys)
  {
    if xs == [] {
      assert xs + ys == ys;
    } else {
      assert (xs + ys)[1..] == xs[1..] + ys;
      FlattenConcat(xs[1..], ys);
    }
  }

  lemma FlattenSnoc<T>(xs: seq<seq<T>>, y: seq<T>)
    ensures Flatten(xs + [y]) == Flatten(xs) + y
  {
    FlattenConcat(xs, [y]);
    assert Flatten([y]) == y;
  }

  /** Growing the last member grows the concatenation. */
  lemma FlattenGrowLast<T>(xs: seq<seq<T>>, z: seq<T>)
    requires xs != []
    ensures Flatten(Front(xs) + [Last(xs) + z]) == Flatten(xs) + z
  {
    FlattenSnoc(Front(xs), Last(xs) + z);
    FlattenSnoc(Front(xs), Last(xs));
    assert Front(xs) + [Last(xs)] == xs;
  }

  function Map<A, B>(f: A -> B, s: seq<A>): (r: seq<B>)
    ensures |r| == |s|
    ensures forall i :: 0 <= i < |s| ==> r[i] == f(s[i])
  {
    seq(|s|, i requires 0 <= i < |s| => f(s[i]))
  }

  /** Any member of a nonempty set: the source's loops over a set take its members in no fixed order. */
  method Pick<T(==)>(s: set<T>) returns (x: T)
    requires s != {}
    ensures x in s
  {
    x :| x in s;
  }
}

/** Concatenation of sequences. */
module Sequences {
  function Flat<T>(parts: seq<seq<T>>): seq<T> {
    if parts == [] then [] else parts[0] + Flat(parts[1..])
  }

  lemma FlatStep<T>(p: seq<T>, parts: seq<seq<T>>)
    ensures Flat([p] + parts) == p + Flat(parts)
  {
    assert ([p] + parts)[1..] == parts;
  }

  lemma {:induction false} FlatLength<S, T>(a: seq<seq<S>>, b: seq<seq<T>>)
    requires |a| == |b| && forall i :: 0 <= i < |a| ==> |a[i]| == |b[i]|
    ensures |Flat(a)| == |Flat(b)|
  {
    if a != [] { FlatLength(a[1..], b[1..]); }
  }

  lemma Assoc<T>(x: seq<T>, y: seq<T>, z: seq<T>)
    ensures (x + y) + z == x + (y + z)
  {
  }

  lemma NothingMore<T>(x: seq<T>)
    ensures x + [] == x
  {
  }

  lemma Rejoin<T>(whole: seq<T>, x: seq<T>, rest: seq<T>, y: seq<T>, z: seq<T>, front: seq<T>)
    requires whole == x + rest && rest == y + z && front == x + y
    ensures whole == front + z
  {
  }

  lemma DropAll<T>(x: seq<T>, y: seq<T>)
    ensures (x + y)[|x|..] == y
  {
  }

  lemma DropOfSum<T>(x: seq<T>, y: seq<T>, n: nat)
    requires n <= |x|
    ensures (x + y)[n..] == x[n..] + y
  {
  }
}

/** Small shared vocabulary: optional values and strictly increasing sequences. */
module Prelude {
  datatype Option<+T> = None | Some(value: T)

  predicate Increasing(s: seq<nat>) {
    forall i, j :: 0 <= i < j < |s| ==> s[i] < s[j]
  }

  /** `s` without the members of `drop`, in the same order. */
  function Without(s: seq<nat>, drop: set<nat>): (kept: seq<nat>)
    ensures forall x :: x in kept <==> x in s && x !in drop
    ensures Increasing(s) ==> Increasing(kept)
    ensures (forall x :: x in s ==> x in drop) ==> kept == []
  {
    if s == [] then []
    else
      var front := Without(s[..|s| - 1], drop);
      var last := s[|s| - 1];
      assert forall x :: x in s <==> x in s[..|s| - 1] || x == last;
      assert Increasing(s) ==> Increasing(s[..|s| - 1]) && forall x :: x in front ==> x < last;
      assert forall i :: 0 <= i < |front| ==> front[i] in front;
      if last in drop then front else front + [last]
  }

  lemma IncreasingConcat(s: seq<nat>, t: seq<nat>)
    requires Increasing(s) && Increasing(t)
    requires forall x, y :: x in s && y in t ==> x < y
    ensures Increasing(s + t)
  {
    assert forall i :: 0 <= i < |s| ==> s[i] in s;
    assert forall j :: 0 <= j < |t| ==> t[j] in t;
  }

  lemma WithoutAppend(s: seq<nat>, x: nat, drop: set<nat>)
    ensures Without(s + [x], drop) == Without(s, drop) + (if x in drop then [] else [x])
  {
    assert (s + [x])[..|s|] == s;
  }

  lemma WithoutNothing(s: seq<nat>, drop: set<nat>)
    requires forall x :: x in s ==> x !in drop
    ensures Without(s, drop) == s
  {
    if s != [] {
      assert s == s[..|s| - 1] + [s[|s| - 1]];
      WithoutNothing(s[..|s| - 1], drop);
    }
  }

  lemma WithoutLast(s: seq<nat>, x: nat)
    requires x !in s
    ensures Without(s + [x], {x}) == s
  {
    WithoutAppend(s, x, {x});
    WithoutNothing(s, {x});
  }

  function Elements(s: seq<nat>): set<nat> {
    set x | x in s
  }
}

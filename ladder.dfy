/** The concentrations (mg/ml) in which the drug is available, and the step up the ladder. */
module Ladder {

  /** The available concentrations, ascending. */
  const Concentrations: seq<real> := [1.0, 2.5, 5.0, 10.0, 20.0]

  /** The largest available concentration. */
  const Highest: real := 20.0

  predicate StrictlyAscending(xs: seq<real>) {
    forall i, j :: 0 <= i < j < |xs| ==> xs[i] < xs[j]
  }

  /** Linear search: the first entry of `xs` above `c`, or `c` itself when none is. */
  function FirstAbove(xs: seq<real>, c: real): real {
    if xs == [] then c
    else if xs[0] > c then xs[0]
    else FirstAbove(xs[1..], c)
  }

  /** On an ascending list the search finds the least entry above `c`, and returns `c` when there is none. */
  lemma {:induction false} FirstAboveIsLeastAbove(xs: seq<real>, c: real)
    requires StrictlyAscending(xs)
    ensures (exists x :: x in xs && x > c) ==>
              && FirstAbove(xs, c) in xs
              && FirstAbove(xs, c) > c
              && forall x :: x in xs && x > c ==> FirstAbove(xs, c) <= x
    ensures (forall x :: x in xs ==> x <= c) ==> FirstAbove(xs, c) == c
  {
    if xs != [] && xs[0] <= c {
      FirstAboveIsLeastAbove(xs[1..], c);
      assert forall x :: x in xs && x > c ==> x in xs[1..];
    }
  }

  /** `get_next_higher_concentration`: the next concentration up, or the same one at the top. */
  function NextHigher(c: real): (r: real)
    ensures r >= c
    ensures c < Highest ==> r in Concentrations && r > c && forall x :: x in Concentrations && x > c ==> r <= x
    ensures c >= Highest ==> r == c
  {
    FirstAboveIsLeastAbove(Concentrations, c);
    assert Highest in Concentrations;
    FirstAbove(Concentrations, c)
  }

  /** Climbing from an available concentration stays on the ladder, and stops at its top. */
  lemma NextHigherStaysOnLadder(c: real)
    requires c in Concentrations
    ensures NextHigher(c) in Concentrations
    ensures c == Highest <==> NextHigher(c) == c
  {
  }
}

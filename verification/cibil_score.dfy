/**
 * The credit-score page: the colour band of a score, and the dial that
 * counts up from 0 to the score 785 in steps of 15, one step per tick,
 * and stops exactly on 785.
 */
module CibilScore {
  datatype Band = Green | Yellow | Red

  /** `getScoreColor`. */
  function ScoreBand(s: int): (b: Band)
    ensures b == Green <==> s > 750
    ensures b == Yellow <==> 650 < s <= 750
    ensures b == Red <==> s <= 650
  {
    if s > 750 then Green else if s > 650 then Yellow else Red
  }

  function Rank(b: Band): nat
  {
    match b
    case Red => 0
    case Yellow => 1
    case Green => 2
  }

  /** A higher score never falls in a lower band. */
  lemma BandMonotone(s: int, t: int)
    requires s <= t
    ensures Rank(ScoreBand(s)) <= Rank(ScoreBand(t))
  {
  }

  const Target: int := 785
  const Increment: int := 15

  /** The values the interval hands to `setScore`, one per tick, until it
      clears itself. */
  method AnimateScore() returns (shown: seq<int>)
    ensures |shown| == (Target + Increment - 1) / Increment
    ensures forall i :: 0 <= i < |shown| - 1 ==> shown[i] == Increment * (i + 1)
    ensures shown[|shown| - 1] == Target
    ensures forall i, j :: 0 <= i <= j < |shown| ==> 0 < shown[i] <= shown[j] <= Target
  {
    var current := 0;
    shown := [];
    while true
      invariant current == Increment * |shown| < Target
      invariant forall i :: 0 <= i < |shown| ==> shown[i] == Increment * (i + 1)
      decreases Target - current
    {
      current := current + Increment;
      if current >= Target {
        shown := shown + [Target];
        return;
      }
      shown := shown + [current];
    }
  }
}

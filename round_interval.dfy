/**
 * `OpenSearchQueryParser._roundInterval`: the fixed ladder that turns a
 * bucket width in milliseconds into one of the interval labels OpenSearch
 * date histograms accept.
 */
module IntervalRounding {

  /** _roundInterval's switch, threshold by threshold. */
  function RoundInterval(interval: real): string {
    if interval <= 500.0 then "100ms"
    else if interval <= 5000.0 then "1s"
    else if interval <= 7500.0 then "5s"
    else if interval <= 15000.0 then "10s"
    else if interval <= 45000.0 then "30s"
    else if interval <= 180000.0 then "1m"
    else if interval <= 450000.0 then "5m"
    else if interval <= 1200000.0 then "10m"
    else if interval <= 2700000.0 then "30m"
    else if interval <= 7200000.0 then "1h"
    else if interval <= 21600000.0 then "3h"
    else if interval <= 86400000.0 then "12h"
    else if interval <= 604800000.0 then "24h"
    else if interval <= 1814400000.0 then "1w"
    else if interval < 3628800000.0 then "30d"
    else "1y"
  }

  /** One step of the ladder: the widest interval it takes, and its label. */
  datatype Rung = Rung(bound: real, inclusive: bool, name: string)

  /** The ladder as a table; every bound is inclusive except the last. */
  const Ladder: seq<Rung> := [
    Rung(500.0, true, "100ms"),
    Rung(5000.0, true, "1s"),
    Rung(7500.0, true, "5s"),
    Rung(15000.0, true, "10s"),
    Rung(45000.0, true, "30s"),
    Rung(180000.0, true, "1m"),
    Rung(450000.0, true, "5m"),
    Rung(1200000.0, true, "10m"),
    Rung(2700000.0, true, "30m"),
    Rung(7200000.0, true, "1h"),
    Rung(21600000.0, true, "3h"),
    Rung(86400000.0, true, "12h"),
    Rung(604800000.0, true, "24h"),
    Rung(1814400000.0, true, "1w"),
    Rung(3628800000.0, false, "30d")
  ]

  /** The label for widths above every rung. */
  const Top: string := "1y"

  /** Every label in ladder order, the top one last. */
  function Labels(): (ls: seq<string>)
    ensures |ls| == |Ladder| + 1
  {
    seq(|Ladder|, i requires 0 <= i < |Ladder| => Ladder[i].name) + [Top]
  }

  predicate Admits(r: Rung, x: real) {
    if r.inclusive then x <= r.bound else x < r.bound
  }

  /** The index of the first rung at or after i that admits x, or |Ladder| if none does. */
  function Climb(x: real, i: nat): (k: nat)
    requires i <= |Ladder|
    decreases |Ladder| - i
    ensures i <= k <= |Ladder|
    ensures k < |Ladder| ==> Admits(Ladder[k], x)
    ensures forall j :: i <= j < k ==> !Admits(Ladder[j], x)
  {
    if i == |Ladder| then i
    else if Admits(Ladder[i], x) then i
    else Climb(x, i + 1)
  }

  /** The position of a label in ladder order. */
  ghost function LabelIndex(name: string): nat {
    if exists i :: 0 <= i < |Labels()| && Labels()[i] == name
    then var i :| 0 <= i < |Labels()| && Labels()[i] == name; i
    else |Labels()|
  }

  /** Climb stops at k when rung k is the first to admit x. */
  lemma {:induction false} ClimbStops(x: real, i: nat, k: nat)
    requires i <= k <= |Ladder|
    requires k < |Ladder| ==> Admits(Ladder[k], x)
    requires forall j :: i <= j < k ==> !Admits(Ladder[j], x)
    decreases k - i
    ensures Climb(x, i) == k
  {
    if i < k {
      ClimbStops(x, i + 1, k);
    }
  }

  /** The switch and the table agree on every width. */
  lemma RoundIntervalFollowsLadder(x: real)
    ensures RoundInterval(x) == Labels()[Climb(x, 0)]
  {
    var k := if x <= 500.0 then 0
      else if x <= 5000.0 then 1
      else if x <= 7500.0 then 2
      else if x <= 15000.0 then 3
      else if x <= 45000.0 then 4
      else if x <= 180000.0 then 5
      else if x <= 450000.0 then 6
      else if x <= 1200000.0 then 7
      else if x <= 2700000.0 then 8
      else if x <= 7200000.0 then 9
      else if x <= 21600000.0 then 10
      else if x <= 86400000.0 then 11
      else if x <= 604800000.0 then 12
      else if x <= 1814400000.0 then 13
      else if x < 3628800000.0 then 14
      else 15;
    ClimbStops(x, 0, k);
  }

  /** Widening the input never moves down the ladder. */
  lemma {:induction false} ClimbMonotone(x: real, y: real, i: nat)
    requires x <= y && i <= |Ladder|
    decreases |Ladder| - i
    ensures Climb(x, i) <= Climb(y, i)
  {
    if i < |Ladder| && !Admits(Ladder[i], x) {
      ClimbMonotone(x, y, i + 1);
    }
  }

  /** No two rungs share a label. */
  lemma LabelsDistinct()
    ensures forall i, j :: 0 <= i < j < |Labels()| ==> Labels()[i] != Labels()[j]
  {
  }

  /** Each label's position is the rung it names. */
  lemma LabelIndexOf(k: nat)
    requires k < |Labels()|
    ensures LabelIndex(Labels()[k]) == k
  {
    LabelsDistinct();
  }

  /** A larger width never yields an earlier label. */
  lemma RoundIntervalMonotone(x: real, y: real)
    requires x <= y
    ensures LabelIndex(RoundInterval(x)) <= LabelIndex(RoundInterval(y))
  {
    RoundIntervalFollowsLadder(x);
    RoundIntervalFollowsLadder(y);
    ClimbMonotone(x, y, 0);
    LabelIndexOf(Climb(x, 0));
    LabelIndexOf(Climb(y, 0));
  }
}

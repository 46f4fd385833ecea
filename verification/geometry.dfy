/**
 The geometry half of `create_radar_chart`: evenly spaced angles, closing the
 angle and score lists by repeating their first element, and choosing the
 angular ticks and their labels. An angle is kept as its integer slot k,
 standing for k * 2pi / n of a full turn, so no reals or pi are needed.
 */
module Geometry {
  import opened Traits

  /** Slot k of n stands for the angle k * 2pi / n. */
  type Slot = nat

  /** `np.linspace(0, 2pi, n, endpoint=False)`: slot i is the i-th of n equal steps. */
  function Linspace(n: nat): (angles: seq<Slot>)
    ensures |angles| == n
    ensures forall i :: 0 <= i < n ==> angles[i] == i
  {
    if n == 0 then [] else Linspace(n - 1) + [n - 1]
  }

  /** The angle of slot k out of n, as a fraction of a full turn. */
  function AngleInTurns(k: Slot, n: nat): real
    requires n > 0
  {
    k as real / n as real
  }

  /** `s += s[:1]`: a copy of the first element goes to the end; an empty list
      stays empty. */
  function Close<T>(s: seq<T>): (closed: seq<T>)
    ensures |s| == 0 ==> closed == []
    ensures |s| > 0 ==> |closed| == |s| + 1 && closed[|s|] == closed[0]
    ensures closed[..|s|] == s
  {
    s + s[..if |s| == 0 then 0 else 1]
  }

  /** `s[:-1]`: everything but the last element; an empty list stays empty.
      Putting the last element back gives the list again. */
  function DropLast<T>(s: seq<T>): (front: seq<T>)
    ensures |s| == 0 ==> front == []
    ensures |s| > 0 ==> front + [s[|s| - 1]] == s
  {
    if |s| == 0 then [] else s[..|s| - 1]
  }

  /** What the chart hands to the renderer: the closed polygon as parallel
      angle and radius lists, the angular tick positions and their labels. */
  datatype Chart<R> = Chart(
    angles: seq<Slot>,
    radii: seq<R>,
    tickPositions: seq<Slot>,
    tickLabels: seq<string>)

  /** The polygon and axes of `create_radar_chart` for the given scores. The
      scores are plotted as they are: no scaling, clamping or conversion. */
  function BuildChart<R>(scores: seq<R>): (c: Chart<R>)
    ensures c.angles == [0, 1, 2, 3, 4, 0]
    ensures |scores| == 0 ==> c.radii == []
    ensures |scores| > 0 ==> |c.radii| == |scores| + 1 && c.radii[|scores|] == c.radii[0]
    ensures c.radii[..|scores|] == scores
    ensures |scores| == |TRAITS| ==> |c.radii| == |c.angles|
    ensures c.tickPositions == c.angles[..|TRAITS|]
    ensures c.tickLabels == TRAITS
    ensures forall i :: 0 <= i < |TRAITS| ==> c.tickPositions[i] == i
  {
    var angles := Close(Linspace(|TRAITS|));
    Chart(angles, Close(scores), DropLast(angles), TRAITS)
  }

  /** Dropping the last element undoes closing, for every list. */
  lemma DropLastUndoesClose<T>(s: seq<T>)
    ensures DropLast(Close(s)) == s
  {
  }

  /** The slots are strictly increasing and each one lies in [0, n). */
  lemma LinspaceIncreasing(n: nat)
    ensures forall i, j :: 0 <= i < j < n ==> Linspace(n)[i] < Linspace(n)[j]
    ensures forall i :: 0 <= i < n ==> Linspace(n)[i] < n
  {
  }

  /** A slot below n is a fraction of a turn in [0, 1), and a later slot is a
      larger fraction. */
  lemma SlotFractions(i: nat, j: nat, n: nat)
    requires i < n && j < n
    ensures 0.0 <= AngleInTurns(i, n) < 1.0
    ensures i < j ==> AngleInTurns(i, n) < AngleInTurns(j, n)
  {
    var d := n as real;
    assert AngleInTurns(i, n) * d == i as real;
    assert AngleInTurns(j, n) * d == j as real;
    var gap := AngleInTurns(j, n) - AngleInTurns(i, n);
    assert gap * d == (j - i) as real;
  }

  /** Every slot of `Linspace(n)` is an angle in [0, 1) of a full turn, that
      is in [0, 2pi), and the angles strictly increase. */
  lemma LinspaceWithinOneTurn(n: nat)
    requires n > 0
    ensures forall i :: 0 <= i < n ==> 0.0 <= AngleInTurns(Linspace(n)[i], n) < 1.0
    ensures forall i, j :: 0 <= i < j < n ==>
      AngleInTurns(Linspace(n)[i], n) < AngleInTurns(Linspace(n)[j], n)
  {
    forall i | 0 <= i < n
      ensures 0.0 <= AngleInTurns(Linspace(n)[i], n) < 1.0
    {
      SlotFractions(i, i, n);
    }
    forall i, j | 0 <= i < j < n
      ensures AngleInTurns(Linspace(n)[i], n) < AngleInTurns(Linspace(n)[j], n)
    {
      SlotFractions(i, j, n);
    }
  }

  /** The chart records its scores faithfully: equal charts come from equal
      scores (and, being a function, equal scores always give equal charts). */
  lemma BuildChartInjective<R>(s1: seq<R>, s2: seq<R>)
    ensures BuildChart(s1) == BuildChart(s2) <==> s1 == s2
  {
  }
}

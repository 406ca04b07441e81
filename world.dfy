/** The wall grid (WORLD_MAP): rows addressed by the floored x coordinate,
    columns by the floored y coordinate. 0 is a passable cell, a positive
    value is the texture id of a wall. */
module World {

  type WorldMap = seq<seq<int>>

  /** Every row has the length of the first one. */
  predicate Rectangular(m: WorldMap) {
    |m| > 0 && forall i :: 0 <= i < |m| ==> |m[i]| == |m[0]|
  }

  predicate InBounds(m: WorldMap, i: int, j: int) {
    0 <= i < |m| && 0 <= j < |m[i]|
  }

  predicate OnBorder(m: WorldMap, i: int, j: int)
    requires Rectangular(m)
  {
    i == 0 || i == |m| - 1 || j == 0 || j == |m[0]| - 1
  }

  /** The map author's obligation: every border cell is a wall (> 0), so that
      neither the player nor a ray can leave the grid. */
  ghost predicate Walled(m: WorldMap)
    requires Rectangular(m)
  {
    forall i, j :: InBounds(m, i, j) && OnBorder(m, i, j) ==> m[i][j] > 0
  }

  /** A cell strictly inside the border: all eight neighbours are in the grid. */
  predicate Interior(m: WorldMap, i: int, j: int)
    requires Rectangular(m)
  {
    0 < i < |m| - 1 && 0 < j < |m[0]| - 1
  }

  /** The movement guard `map[i][j] === 0`. */
  predicate Passable(m: WorldMap, i: int, j: int) {
    InBounds(m, i, j) && m[i][j] == 0
  }

  /** A cell that the ray caster does not stop at (`!(map[i][j] > 0)`) and
      that lies in the grid is inside a walled map. */
  lemma OpenCellIsInterior(m: WorldMap, i: int, j: int)
    requires Rectangular(m) && Walled(m)
    requires InBounds(m, i, j) && m[i][j] <= 0
    ensures Interior(m, i, j)
  {
    assert !OnBorder(m, i, j);
  }

  /** A neighbour (or the cell itself) of an interior cell is in the grid. */
  lemma NeighbourInBounds(m: WorldMap, i: int, j: int, i': int, j': int)
    requires Rectangular(m) && Interior(m, i, j)
    requires i - 1 <= i' <= i + 1 && j - 1 <= j' <= j + 1
    ensures InBounds(m, i', j')
  {
    assert |m[i']| == |m[0]|;
  }

  /** Moving a coordinate by less than one cell moves its floor by at most one. */
  lemma FloorNear(a: real, b: real)
    requires -1.0 < b - a < 1.0
    ensures a.Floor - 1 <= b.Floor <= a.Floor + 1
  {
  }
}

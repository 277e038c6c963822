/** Pure rules used while a submarine surfaces. */
module SurfacingRules {
  import MapUtils

  /** A map cell as the surfacing rules see it; `isIce` absent is falsy. */
  datatype Cell = Cell(isIce: bool)

  /** The movement track is always cleared on surfacing. */
  function ResetTrack<T>(track: seq<T>): (r: seq<T>)
    ensures r == []
  {
    []
  }

  /** One point of damage on an ice cell, none elsewhere. */
  function GetIceDamage(cell: Cell): (d: nat)
    ensures d <= 1
    ensures d == 1 <==> cell.isIce
  {
    if cell.isIce then 1 else 0
  }

  /**
   * Sector number without the negative-coordinate guard: Math.floor(row / 5) * 3 +
   * Math.floor(col / 5) + 1.  Dafny's `/` by a positive divisor rounds toward minus
   * infinity, exactly as Math.floor does, also for negative operands.
   */
  function GetSector(row: int, col: int): (s: int)
    ensures 0 <= row < 15 && 0 <= col < 15 ==> 1 <= s <= 9
  {
    (row / 5) * 3 + col / 5 + 1
  }

  /** On non-negative coordinates both sector functions agree. */
  lemma {:induction false} AgreesWithMapUtils(row: int, col: int)
    requires 0 <= row && 0 <= col
    ensures GetSector(row, col) == MapUtils.GetSector(row, col)
  {
  }

  /** The sectors the surfacing tests rely on. */
  lemma {:induction false} KnownSectors()
    ensures GetSector(0, 0) == 1 && GetSector(4, 4) == 1 && GetSector(0, 5) == 2
    ensures GetSector(5, 0) == 4 && GetSector(14, 14) == 9
  {
  }

  /** Negative coordinates are floored: (-1, -1) lies in "sector" -3, not 0. */
  lemma {:induction false} NegativeCoordinatesNotGuarded()
    ensures GetSector(-1, -1) == -3 && MapUtils.GetSector(-1, -1) == 0
  {
  }
}

/** Grid arithmetic shared by the map screens: distances, sectors and labels. */
module MapUtils {
  import opened Wrappers

  datatype GridPoint = GridPoint(row: int, col: int)

  function Abs(x: int): (r: nat)
    ensures r == x || r == -x
  {
    if x < 0 then -x else x
  }

  /** Manhattan distance; a missing point gives 0. */
  function GetRange(p1: Option<GridPoint>, p2: Option<GridPoint>): (d: nat)
    ensures p1.None? || p2.None? ==> d == 0
    ensures p1.Some? && p2.Some? ==>
      d == Abs(p1.value.row - p2.value.row) + Abs(p1.value.col - p2.value.col)
  {
    match (p1, p2)
    case (Some(a), Some(b)) => Abs(a.row - b.row) + Abs(a.col - b.col)
    case _ => 0
  }

  lemma {:induction false} RangeSymmetric(p1: Option<GridPoint>, p2: Option<GridPoint>)
    ensures GetRange(p1, p2) == GetRange(p2, p1)
  {
  }

  lemma {:induction false} RangeZeroIffSame(p: GridPoint, q: GridPoint)
    ensures GetRange(Some(p), Some(q)) == 0 <==> p == q
  {
  }

  /** The distance obeys the triangle inequality. */
  lemma {:induction false} RangeTriangle(p: GridPoint, q: GridPoint, r: GridPoint)
    ensures GetRange(Some(p), Some(r)) <= GetRange(Some(p), Some(q)) + GetRange(Some(q), Some(r))
  {
  }

  /** Distance 1 means exactly one orthogonal step. */
  lemma {:induction false} RangeOneIsOrthogonalStep(p: GridPoint, q: GridPoint)
    ensures GetRange(Some(p), Some(q)) == 1 <==>
      (p.row == q.row && Abs(p.col - q.col) == 1) || (p.col == q.col && Abs(p.row - q.row) == 1)
  {
  }

  /**
   * Sector numbering of the 15 x 15 grid in 5 x 5 blocks, row-major:
   *   1 2 3 / 4 5 6 / 7 8 9.  A negative coordinate gives 0.
   * Math.floor(x / 5) is Dafny's `x / 5` for the non-negative values reached here.
   */
  function GetSector(row: int, col: int): (s: int)
    ensures row < 0 || col < 0 ==> s == 0
    ensures 0 <= row < 15 && 0 <= col < 15 ==> 1 <= s <= 9
  {
    if row < 0 || col < 0 then 0 else (row / 5) * 3 + col / 5 + 1
  }

  /** Inside the board, the sector is determined by the block row and block column. */
  lemma {:induction false} SectorIsBlockRowMajor(row: int, col: int)
    requires 0 <= row < 15 && 0 <= col < 15
    ensures GetSector(row, col) == 3 * (row / 5) + (col / 5) + 1
    ensures (GetSector(row, col) - 1) / 3 == row / 5 && (GetSector(row, col) - 1) % 3 == col / 5
  {
  }

  /** Two cells are in the same sector exactly when they are in the same 5 x 5 block. */
  lemma {:induction false} SameSectorIffSameBlock(r1: int, c1: int, r2: int, c2: int)
    requires 0 <= r1 < 15 && 0 <= c1 < 15 && 0 <= r2 < 15 && 0 <= c2 < 15
    ensures GetSector(r1, c1) == GetSector(r2, c2) <==> r1 / 5 == r2 / 5 && c1 / 5 == c2 / 5
  {
    SectorIsBlockRowMajor(r1, c1);
    SectorIsBlockRowMajor(r2, c2);
  }

  /** `String(n)` for an integer. */
  function IntToString(n: int): (s: string)
    ensures |s| >= 1
  {
    if n < 0 then "-" + NatToString(-n) else NatToString(n)
  }

  /**
   * "A1"-style label: the column becomes the letter with code 65 + col, then the row number + 1.
   */
  function ToAlphaNumeric(row: int, col: int): (name: string)
    requires 0 <= 65 + col < 0xD800
    ensures |name| >= 2 && name[0] as int == 65 + col
    ensures name[1..] == IntToString(row + 1)
  {
    [(65 + col) as char] + IntToString(row + 1)
  }

  lemma {:induction false} OriginIsA1()
    ensures ToAlphaNumeric(0, 0) == "A1"
  {
  }

  /** Different columns give different letters, different rows different numbers. */
  lemma {:induction false} ToAlphaNumericInjective(r1: int, c1: int, r2: int, c2: int)
    requires 0 <= c1 < 26 && 0 <= c2 < 26 && 0 <= r1 && 0 <= r2
    requires ToAlphaNumeric(r1, c1) == ToAlphaNumeric(r2, c2)
    ensures r1 == r2 && c1 == c2
  {
    var a, b := ToAlphaNumeric(r1, c1), ToAlphaNumeric(r2, c2);
    assert a[0] == b[0];
    assert a[1..] == b[1..];
    NatToStringInjective(r1 + 1, r2 + 1);
  }

  lemma {:induction false} NatToStringInjective(m: nat, n: nat)
    requires NatToString(m) == NatToString(n)
    ensures m == n
    decreases m
  {
    var a, b := NatToString(m), NatToString(n);
    if m < 10 && n < 10 {
      DigitInjective(m, n);
    } else if m < 10 || n < 10 {
      assert false;
    } else {
      assert a[..|a| - 1] == NatToString(m / 10);
      assert b[..|b| - 1] == NatToString(n / 10);
      DigitInjective(m % 10, n % 10);
      NatToStringInjective(m / 10, n / 10);
    }
  }

  lemma {:induction false} DigitInjective(d: nat, e: nat)
    requires d < 10 && e < 10 && DigitChar(d) == DigitChar(e)
    ensures d == e
  {
  }
}

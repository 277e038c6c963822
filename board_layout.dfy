/** The fixed 15 x 15 game board: 0 is water, 1 is land. */
module BoardLayout {

  const L: int := 1
  const W: int := 0

  /** Number of rows and columns of the board. */
  const Size: nat := 15

  type Board = seq<seq<int>>

  /** Every row has `Size` cells and there are `Size` rows. */
  predicate IsSquareBoard(b: Board) {
    |b| == Size && forall r :: 0 <= r < |b| ==> |b[r]| == Size
  }

  /** The board literal; every call yields this same value. */
  function GenerateBoard(): (b: Board)
    ensures IsSquareBoard(b)
    ensures forall c :: 0 <= c < Size ==> b[0][c] == W && b[5][c] == W
  {
    [[W, W, W, W, W,   W, W, W, W, W,   W, W, W, W, W],
     [W, W, L, W, W,   W, L, W, W, W,   W, W, L, L, W],
     [W, W, L, W, W,   W, W, W, L, W,   W, W, L, W, W],
     [W, W, W, W, W,   W, W, W, L, W,   W, W, W, W, W],
     [W, W, W, W, W,   W, W, W, W, W,   W, W, W, W, W],

     [W, W, W, W, W,   W, W, W, W, W,   W, W, W, W, W],
     [W, L, W, L, W,   W, L, W, L, W,   W, W, W, W, W],
     [W, L, W, L, W,   W, L, W, W, W,   W, W, W, W, W],
     [W, W, W, L, W,   W, W, L, W, W,   W, L, L, L, W],
     [W, W, W, W, W,   W, W, W, W, W,   W, W, W, W, W],

     [W, W, W, L, W,   W, W, W, W, W,   W, W, W, W, W],
     [W, W, L, W, W,   W, W, L, W, W,   W, L, W, W, W],
     [L, W, W, W, W,   W, W, W, W, W,   W, W, L, W, W],
     [W, W, L, W, W,   W, L, W, L, W,   W, W, W, L, W],
     [W, W, W, L, W,   W, W, W, W, W,   W, W, W, W, W]]
  }

  /** A row holding only water and land cells. */
  predicate WaterOrLand(row: seq<int>) {
    forall c :: 0 <= c < |row| ==> row[c] == W || row[c] == L
  }

  /** Every cell of the board is water or land. */
  lemma {:induction false} BoardCellsAreWaterOrLand()
    ensures forall r :: 0 <= r < Size ==> WaterOrLand(GenerateBoard()[r])
  {
    var b := GenerateBoard();
    assert WaterOrLand(b[0]) && WaterOrLand(b[1]) && WaterOrLand(b[2]) && WaterOrLand(b[3]);
    assert WaterOrLand(b[4]) && WaterOrLand(b[5]) && WaterOrLand(b[6]) && WaterOrLand(b[7]);
    assert WaterOrLand(b[8]) && WaterOrLand(b[9]) && WaterOrLand(b[10]) && WaterOrLand(b[11]);
    assert WaterOrLand(b[12]) && WaterOrLand(b[13]) && WaterOrLand(b[14]);
  }

  /** The land and water cells the game-flow scenarios rely on. */
  lemma {:induction false} KnownCells()
    ensures GenerateBoard()[1][2] == L && GenerateBoard()[2][2] == L
    ensures GenerateBoard()[5][5] == W
  {
  }
}

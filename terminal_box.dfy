/**
 * The teletype terminal: a bounded list of message rows stacked
 * ROW_HEIGHT apart inside a wrapper whose vertical offset keeps the newest
 * row at the bottom edge.
 */
module Terminal {
  import opened Wrappers

  const RowHeight := 30
  const Padding := 15

  /** A style override's value; `Undefined` is a property present with the value undefined. */
  datatype StyleValue = Str(s: string) | Num(n: int) | Undefined

  /** A TextStyle override object, by property name. */
  type Style = map<string, StyleValue>

  /** A MessageRow: its text, its style overrides and its offset inside the wrapper. */
  datatype Row = Row(text: string, style: Option<Style>, y: int)

  /** `option || fallback` for a numeric option: an absent option or 0 takes the fallback. */
  function OrDefault(option: Option<int>, fallback: int): (r: int)
    ensures option.Some? && option.value != 0 ==> r == option.value
    ensures option.None? || option.value == 0 ==> r == fallback
  {
    if option.Some? && option.value != 0 then option.value else fallback
  }

  /** Where the wrapper sits when the newest of `rowCount` rows ends PADDING above the bottom. */
  function LiveY(terminalHeight: int, rowCount: nat): int {
    terminalHeight - Padding - rowCount * RowHeight
  }

  /** The number of rows the terminal settles on: maxRows, or none at all for a negative maxRows. */
  function Capacity(maxRows: int): nat {
    if maxRows < 0 then 0 else maxRows
  }

  /** The newest `cap` lines of `lines`. */
  function Newest(lines: seq<string>, cap: nat): (r: seq<string>)
    ensures |r| == if |lines| < cap then |lines| else cap
    ensures r == lines[|lines| - |r|..]
  {
    if |lines| <= cap then lines else lines[|lines| - cap..]
  }

  /** Appending to a full window drops its oldest line: keeping the newest lines is a first-in first-out window. */
  lemma {:induction false} NewestAppend(lines: seq<string>, line: string, cap: nat)
    ensures Newest(Newest(lines, cap) + [line], cap) == Newest(lines + [line], cap)
  {
  }

  function Texts(rows: seq<Row>): (r: seq<string>)
    ensures |r| == |rows| && forall i :: 0 <= i < |rows| ==> r[i] == rows[i].text
  {
    seq(|rows|, i requires 0 <= i < |rows| => rows[i].text)
  }

  /** The rows after dropping the oldest, each moved up to its new slot. */
  function Reindexed(rows: seq<Row>): (r: seq<Row>)
    ensures |r| == |rows|
    ensures forall i :: 0 <= i < |r| ==> r[i] == rows[i].(y := i * RowHeight)
  {
    seq(|rows|, i requires 0 <= i < |rows| => rows[i].(y := i * RowHeight))
  }

  /** The rows after appending `r`: the oldest row is dropped and the rest moved up once there are more than `cap`. */
  function AfterAppend(rows: seq<Row>, r: Row, cap: nat): seq<Row> {
    if |rows| + 1 > cap then Reindexed((rows + [r])[1..]) else rows + [r]
  }

  /** Appending keeps every row in its slot and at most `cap` rows, keeps the newest texts, and ends on the new row. */
  lemma {:induction false} AfterAppendShape(rows: seq<Row>, r: Row, cap: nat)
    requires |rows| <= cap && forall i :: 0 <= i < |rows| ==> rows[i].y == i * RowHeight
    requires r.y == |rows| * RowHeight
    ensures var after := AfterAppend(rows, r, cap);
      |after| <= cap && (forall i :: 0 <= i < |after| ==> after[i].y == i * RowHeight) &&
      Texts(after) == Newest(Texts(rows) + [r.text], cap) &&
      (after != [] ==> after[|after| - 1].text == r.text && after[|after| - 1].style == r.style)
  {
    var all := rows + [r];
    assert Texts(all) == Texts(rows) + [r.text];
    if |all| > cap {
      assert Texts(Reindexed(all[1..])) == Texts(all)[1..];
    }
  }

  /** Appending keeps every earlier row's text and style; only the oldest may leave, and only positions change. */
  lemma {:induction false} AfterAppendKeepsRows(rows: seq<Row>, r: Row, cap: nat)
    ensures var after := AfterAppend(rows, r, cap);
      (|after| == |rows| + 1 || |after| == |rows|) &&
      forall i :: 0 <= i < |after| ==> after[i].(y := 0) == (rows + [r])[i + |rows| + 1 - |after|].(y := 0)
  {
    var all := rows + [r];
    if |all| > cap {
      var tail := all[1..];
      assert forall i :: 0 <= i < |tail| ==> tail[i] == all[i + 1];
    }
  }

  /** The last row after an append is the appended one, moved to the last slot. */
  lemma {:induction false} AfterAppendLast(rows: seq<Row>, r: Row, cap: nat)
    requires r.y == |rows| * RowHeight
    ensures var after := AfterAppend(rows, r, cap);
      after != [] ==> after[|after| - 1] == r.(y := (|after| - 1) * RowHeight)
  {
    var all := rows + [r];
    if |all| > cap && |all| >= 2 {
      assert all[1..][|all| - 2] == r;
    }
  }

  class TerminalBox {
    const width: int
    const terminalHeight: int
    const typingDelay: int
    const maxRows: int
    var rows: seq<Row>
    /** rowWrapper.y */
    var wrapperY: int

    /** Every row sits in the slot of its index, and no more rows than the capacity are kept. */
    ghost predicate Valid()
      reads this
    {
      |rows| <= Capacity(maxRows) &&
      forall i :: 0 <= i < |rows| ==> rows[i].y == i * RowHeight
    }

    function GetLiveY(): int
      reads this
    {
      LiveY(terminalHeight, |rows|)
    }

    /** The options default to a 400 by 150 box typing one character per 30 ms and keeping 10 rows. */
    constructor(width: Option<int>, height: Option<int>, typingDelay: Option<int>, maxRows: Option<int>)
      ensures Valid()
      ensures this.width == OrDefault(width, 400) && terminalHeight == OrDefault(height, 150)
      ensures this.typingDelay == OrDefault(typingDelay, 30) && this.maxRows == OrDefault(maxRows, 10)
      ensures rows == [] && wrapperY == terminalHeight - Padding && wrapperY == GetLiveY()
    {
      this.width := OrDefault(width, 400);
      terminalHeight := OrDefault(height, 150);
      this.typingDelay := OrDefault(typingDelay, 30);
      this.maxRows := OrDefault(maxRows, 10);
      rows := [];
      wrapperY := OrDefault(height, 150) - Padding;
    }

    /**
     * appendLine: undefined or null text adds nothing; otherwise the row is
     * added under the others, the wrapper scrolls to the live position, and
     * beyond the capacity the oldest row is evicted and the rest re-slotted.
     * The typing animation of the row is not modelled.
     */
    method AppendLine(lineText: Option<string>, styleOverrides: Option<Style>) returns (row: Option<Row>)
      requires Valid()
      modifies this
      ensures Valid()
      ensures lineText.None? ==> row.None? && rows == old(rows) && wrapperY == old(wrapperY)
      ensures lineText.Some? ==>
        rows == AfterAppend(old(rows), Row(lineText.value, styleOverrides, |old(rows)| * RowHeight), Capacity(maxRows)) &&
        Texts(rows) == Newest(Texts(old(rows)) + [lineText.value], Capacity(maxRows)) &&
        wrapperY == GetLiveY()
      ensures lineText.Some? ==>
        row == Some(Row(lineText.value, styleOverrides, if rows == [] then 0 else (|rows| - 1) * RowHeight)) &&
        (rows != [] ==> row.value == rows[|rows| - 1])
      ensures lineText.Some? && rows != [] ==>
        rows[|rows| - 1].text == lineText.value && rows[|rows| - 1].style == styleOverrides &&
        wrapperY + rows[|rows| - 1].y + RowHeight == terminalHeight - Padding
    {
      if lineText.None? {
        return None;
      }
      var r := Row(lineText.value, styleOverrides, |rows| * RowHeight);
      var cap := Capacity(maxRows);
      AfterAppendShape(rows, r, cap);
      AfterAppendLast(rows, r, cap);
      // push, then evict the oldest and re-slot the rest when over capacity
      var after := AfterAppend(rows, r, cap);
      rows := after;
      wrapperY := LiveY(terminalHeight, |after|);
      return Some(r.(y := if after == [] then 0 else (|after| - 1) * RowHeight));
    }
  }
}

/**
 * The XO panel controller of public/js/controllers: local gauge levels per
 * subsystem and the mode of each subsystem row, driven by clicks and by moves.
 */
module XoPanel {

  /**
   * The mode a row's button-state managers are put in.  Active and
   * ReadyToDischarge both call setActive, so the row's icon is clickable
   * (eventMode 'static'); Disabled and Neutral make it inert.
   */
  datatype RowMode = RowActive | RowDisabled | RowNeutral | ReadyToDischarge

  predicate Clickable(m: RowMode) {
    m == RowActive || m == ReadyToDischarge
  }

  const LevelKeys: seq<string> := ["sonar", "drone", "mine", "torpedo", "silence", "scenario"]

  const MaxLevels: map<string, int> :=
    map["sonar" := 4, "drone" := 3, "mine" := 3, "torpedo" := 3, "silence" := 6, "scenario" := 4]

  const InitialLevels: map<string, int> :=
    map["sonar" := 0, "drone" := 0, "mine" := 0, "torpedo" := 0, "silence" := 0, "scenario" := 0]

  /** Every field the click and move logic reads or writes. */
  datatype PanelVars = PanelVars(levels: map<string, int>, modes: map<string, RowMode>)

  /** The rows of the renderer are subsystems with a level and a mode, and every level lies within its cap. */
  predicate PanelOk(v: PanelVars, rows: seq<string>) {
    v.levels.Keys == MaxLevels.Keys &&
    (forall i :: 0 <= i < |rows| ==> rows[i] in MaxLevels && rows[i] in v.modes) &&
    (forall k :: k in v.levels ==> 0 <= v.levels[k] <= MaxLevels[k])
  }

  predicate Full(v: PanelVars, key: string)
    requires key in v.levels && key in MaxLevels
  {
    v.levels[key] >= MaxLevels[key]
  }

  /** The modes after the first `done` rows were set ready-to-discharge when full, disabled otherwise. */
  function ChargedModes(v: PanelVars, rows: seq<string>, done: nat): map<string, RowMode>
    requires done <= |rows| && PanelOk(v, rows)
  {
    map k | k in v.modes ::
      if k in rows[..done] then (if Full(v, k) then ReadyToDischarge else RowDisabled) else v.modes[k]
  }

  lemma {:induction false} ChargedStep(v: PanelVars, rows: seq<string>, i: nat)
    requires i < |rows| && PanelOk(v, rows)
    ensures ChargedModes(v, rows, i + 1) ==
      ChargedModes(v, rows, i)[rows[i] := if Full(v, rows[i]) then ReadyToDischarge else RowDisabled]
  {
    assert rows[..i + 1] == rows[..i] + [rows[i]];
  }

  /** The modes after the first `done` rows were set disabled when full, active otherwise. */
  function MovedModes(v: PanelVars, rows: seq<string>, done: nat): map<string, RowMode>
    requires done <= |rows| && PanelOk(v, rows)
  {
    map k | k in v.modes ::
      if k in rows[..done] then (if Full(v, k) then RowDisabled else RowActive) else v.modes[k]
  }

  lemma {:induction false} MovedStep(v: PanelVars, rows: seq<string>, i: nat)
    requires i < |rows| && PanelOk(v, rows)
    ensures MovedModes(v, rows, i + 1) ==
      MovedModes(v, rows, i)[rows[i] := if Full(v, rows[i]) then RowDisabled else RowActive]
  {
    assert rows[..i + 1] == rows[..i] + [rows[i]];
  }

  /**
   * handleSubsystemClick on row `key`: nothing while the clock is stopped or when
   * the row is neither clickable nor full; a full row is discharged to 0 and
   * disabled; otherwise the level rises by one and every row becomes
   * ready-to-discharge if full and disabled if not.
   */
  function PanelClick(v: PanelVars, rows: seq<string>, key: string, clockRunning: bool): (r: PanelVars)
    requires PanelOk(v, rows) && key in rows
    ensures PanelOk(r, rows)
    ensures !clockRunning ==> r == v
    ensures clockRunning && Full(v, key) ==>
      r == PanelVars(v.levels[key := 0], v.modes[key := RowDisabled])
    ensures clockRunning && !Full(v, key) && !Clickable(v.modes[key]) ==> r == v
    ensures clockRunning && !Full(v, key) && Clickable(v.modes[key]) ==>
      r.levels == v.levels[key := v.levels[key] + 1] &&
      forall i :: 0 <= i < |rows| ==> r.modes[rows[i]] == if Full(r, rows[i]) then ReadyToDischarge else RowDisabled
  {
    if !clockRunning then v
    else if !Clickable(v.modes[key]) && !Full(v, key) then v
    else if Full(v, key) then PanelVars(v.levels[key := 0], v.modes[key := RowDisabled])
    else
      var charged := v.(levels := v.levels[key := v.levels[key] + 1]);
      charged.(modes := ChargedModes(charged, rows, |rows|))
  }

  /** handleMove: while the clock runs, full rows are disabled and all others become active. */
  function PanelMove(v: PanelVars, rows: seq<string>, clockRunning: bool): (r: PanelVars)
    requires PanelOk(v, rows)
    ensures PanelOk(r, rows) && r.levels == v.levels
    ensures !clockRunning ==> r == v
    ensures clockRunning ==>
      forall i :: 0 <= i < |rows| ==> r.modes[rows[i]] == if Full(v, rows[i]) then RowDisabled else RowActive
  {
    if !clockRunning then v else v.(modes := MovedModes(v, rows, |rows|))
  }

  /**
   * After a charge, no row can be charged again before the next move: a second
   * click leaves every level it does not discharge unchanged.
   */
  lemma {:induction false} OneChargePerMove(v: PanelVars, rows: seq<string>, key: string, other: string)
    requires PanelOk(v, rows) && key in rows && other in rows
    requires !Full(v, key) && Clickable(v.modes[key])
    ensures var w := PanelClick(v, rows, key, true);
      PanelClick(w, rows, other, true).levels[other] == 0 ||
      PanelClick(w, rows, other, true).levels[other] == w.levels[other]
  {
    var w := PanelClick(v, rows, key, true);
    var i :| 0 <= i < |rows| && rows[i] == other;
    assert w.modes[rows[i]] == if Full(w, rows[i]) then ReadyToDischarge else RowDisabled;
  }

  /** After a move every row that is not full is clickable, so each subsystem may charge once. */
  lemma {:induction false} MoveReopensRows(v: PanelVars, rows: seq<string>, key: string)
    requires PanelOk(v, rows) && key in rows && !Full(v, key)
    ensures var w := PanelMove(v, rows, true);
      PanelClick(w, rows, key, true).levels[key] == v.levels[key] + 1
  {
    var i :| 0 <= i < |rows| && rows[i] == key;
    assert PanelMove(v, rows, true).modes[rows[i]] == RowActive;
  }

  class XoPanelController {
    /** The keys of the renderer's subsystem rows, in their Map order. */
    const rows: seq<string>
    var levels: map<string, int>
    /** The row modes; a row gets one when init attaches its state managers. */
    var modes: map<string, RowMode>

    function Vars(): PanelVars
      reads this
    {
      PanelVars(levels, modes)
    }

    ghost predicate Valid()
      reads this
    {
      PanelOk(Vars(), rows)
    }

    constructor(rows: seq<string>)
      requires forall i :: 0 <= i < |rows| ==> rows[i] in MaxLevels
      ensures this.rows == rows && levels == InitialLevels && modes == map[]
    {
      this.rows := rows;
      levels := InitialLevels;
      modes := map[];
    }

    /** init: every row's state managers start disabled. */
    method Init()
      requires forall i :: 0 <= i < |rows| ==> rows[i] in MaxLevels
      requires levels.Keys == MaxLevels.Keys && forall k :: k in levels ==> 0 <= levels[k] <= MaxLevels[k]
      modifies this
      ensures Valid() && levels == old(levels)
      ensures forall i :: 0 <= i < |rows| ==> modes[rows[i]] == RowDisabled
    {
      for i := 0 to |rows|
        invariant forall j :: 0 <= j < i ==> rows[j] in modes && modes[rows[j]] == RowDisabled
        invariant levels == old(levels)
      {
        modes := modes[rows[i] := RowDisabled];
      }
    }

    /** handleSubsystemClick, with the shared simulation clock's running flag as a parameter. */
    method HandleSubsystemClick(key: string, clockRunning: bool)
      requires Valid() && key in rows
      modifies this
      ensures Valid()
      ensures Vars() == PanelClick(old(Vars()), rows, key, clockRunning)
    {
      if !clockRunning {
        return;
      }
      var isFull := levels[key] >= MaxLevels[key];
      var isActive := Clickable(modes[key]);
      if !isActive && !isFull {
        return;
      }
      if isFull {
        Discharge(key);
        return;
      }
      levels := levels[key := levels[key] + 1];
      ghost var charged := old(Vars()).(levels := levels);
      assert PanelOk(charged, rows);
      for i := 0 to |rows|
        invariant levels == charged.levels
        invariant modes == ChargedModes(charged, rows, i)
      {
        var k := rows[i];
        ChargedStep(charged, rows, i);
        if levels[k] >= MaxLevels[k] {
          modes := modes[k := ReadyToDischarge];
        } else {
          modes := modes[k := RowDisabled];
        }
      }
      assert rows[..|rows|] == rows;
    }

    /** discharge: the level drops to 0 and the row is disabled. */
    method Discharge(key: string)
      requires Valid() && key in rows
      modifies this
      ensures Valid()
      ensures Vars() == PanelVars(old(levels)[key := 0], old(modes)[key := RowDisabled])
    {
      levels := levels[key := 0];
      modes := modes[key := RowDisabled];
    }

    /** handleMove (the mocked move key). */
    method HandleMove(clockRunning: bool)
      requires Valid()
      modifies this
      ensures Valid()
      ensures Vars() == PanelMove(old(Vars()), rows, clockRunning)
    {
      if !clockRunning {
        return;
      }
      for i := 0 to |rows|
        invariant levels == old(levels)
        invariant modes == MovedModes(old(Vars()), rows, i)
      {
        var k := rows[i];
        MovedStep(old(Vars()), rows, i);
        if levels[k] >= MaxLevels[k] {
          modes := modes[k := RowDisabled];
        } else {
          modes := modes[k := RowActive];
        }
      }
      assert rows[..|rows|] == rows;
    }
  }
}

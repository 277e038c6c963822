/** The turn animation of the submarine sprite on the 8-direction compass ring. */
module SubAnimation {

  /** dirOrder: the compass ring, clockwise from north. */
  const DirOrder: seq<string> := ["N", "NE", "E", "SE", "S", "SW", "W", "NW"]

  /** Array.prototype.indexOf on the ring: -1 for a name that is not on it. */
  function DirIndex(d: string): (i: int)
    ensures -1 <= i < 8
    ensures i >= 0 <==> d in DirOrder
    ensures i >= 0 ==> DirOrder[i] == d
  {
    if d == "N" then 0 else if d == "NE" then 1 else if d == "E" then 2 else if d == "SE" then 3
    else if d == "S" then 4 else if d == "SW" then 5 else if d == "W" then 6 else if d == "NW" then 7
    else -1
  }

  /** The ring step: +1 clockwise, -1 counter-clockwise. */
  function TurnDir(fromIndex: int, toIndex: int): int {
    var diff := (toIndex - fromIndex + 8) % 8;
    if diff <= 4 && diff != 0 then 1 else -1
  }

  /** How many ring steps the turn takes in its direction. */
  function TurnLength(fromIndex: int, toIndex: int): nat {
    var diff := (toIndex - fromIndex + 8) % 8;
    if diff == 0 then 0 else if diff <= 4 then diff else 8 - diff
  }

  /** The ring position `k` steps away from `fromIndex`, clockwise when `turnDir` is 1 and counter-clockwise otherwise. */
  function RingAt(fromIndex: int, turnDir: int, k: int): (i: nat)
    ensures i < 8
  {
    (if turnDir == 1 then fromIndex + k else fromIndex - k) % 8
  }

  /** One more ring step, written as the loop of getFrameSequence writes it. */
  lemma {:induction false} RingStep(fromIndex: int, turnDir: int, k: nat)
    requires turnDir == 1 || turnDir == -1
    ensures (RingAt(fromIndex, turnDir, k) + turnDir + 8) % 8 == RingAt(fromIndex, turnDir, k + 1)
  {
    var a := if turnDir == 1 then fromIndex + k else fromIndex - k;
    var q := a / 8;
    assert a == 8 * q + a % 8;
    assert a % 8 + turnDir + 8 == (a + turnDir) + 8 * (1 - q);
  }

  /** Walking the turn's way from `fromIndex`, the target is met after exactly TurnLength steps and not before. */
  lemma {:induction false} RingHits(fromIndex: int, toIndex: int, k: nat)
    requires 0 <= fromIndex < 8 && 0 <= toIndex < 8
    requires k <= TurnLength(fromIndex, toIndex)
    ensures TurnLength(fromIndex, toIndex) <= 4
    ensures RingAt(fromIndex, TurnDir(fromIndex, toIndex), k) == toIndex <==> k == TurnLength(fromIndex, toIndex)
  {
    var diff := (toIndex - fromIndex + 8) % 8;
    if toIndex >= fromIndex {
      assert diff == toIndex - fromIndex;
    } else {
      assert diff == toIndex - fromIndex + 8;
    }
    if diff <= 4 && diff != 0 {
      assert RingAt(fromIndex, 1, k) == (fromIndex + k) % 8;
    } else if diff != 0 {
      assert RingAt(fromIndex, -1, k) == (fromIndex - k) % 8;
    }
  }

  /** Two ring positions are neighbours. */
  predicate Adjacent(a: string, b: string) {
    a in DirOrder && b in DirOrder &&
    ((DirIndex(a) + 1) % 8 == DirIndex(b) || (DirIndex(b) + 1) % 8 == DirIndex(a))
  }

  lemma {:induction false} RingNames(i: nat)
    requires i < 8
    ensures DirIndex(DirOrder[i]) == i
  {
  }

  /** A clockwise ring step goes to the next name of the ring, a counter-clockwise one to the previous. */
  predicate StepsBy(a: string, b: string, turnDir: int) {
    a in DirOrder && b in DirOrder &&
    (if turnDir == 1 then (DirIndex(a) + 1) % 8 == DirIndex(b) else (DirIndex(b) + 1) % 8 == DirIndex(a))
  }

  /** One ring step in either direction reaches a neighbour. */
  lemma {:induction false} StepIsAdjacent(i: nat, turnDir: int)
    requires i < 8 && (turnDir == 1 || turnDir == -1)
    ensures Adjacent(DirOrder[i], DirOrder[(i + turnDir + 8) % 8])
    ensures StepsBy(DirOrder[i], DirOrder[(i + turnDir + 8) % 8], turnDir)
  {
    var j := (i + turnDir + 8) % 8;
    RingNames(i);
    RingNames(j);
    if turnDir == 1 {
      assert j == (i + 1) % 8;
    } else {
      assert (j + 1) % 8 == i;
    }
  }

  /** The frames of a turn, in closed form: TurnLength steps of TurnDir from the start, both ends included. */
  function TurnFrames(fromIndex: nat, toIndex: nat): (r: seq<string>)
    requires fromIndex < 8 && toIndex < 8
    ensures |r| == TurnLength(fromIndex, toIndex) + 1
    ensures forall k :: 0 <= k < |r| ==> r[k] == DirOrder[RingAt(fromIndex, TurnDir(fromIndex, toIndex), k)]
  {
    seq(TurnLength(fromIndex, toIndex) + 1,
      k requires 0 <= k => DirOrder[RingAt(fromIndex, TurnDir(fromIndex, toIndex), k)])
  }

  /**
   * A turn starts on the start frame and ends on the target frame, has one
   * frame exactly when there is nothing to turn, and at most five in all.
   */
  lemma {:induction false} TurnFramesEnds(fromIndex: nat, toIndex: nat)
    requires fromIndex < 8 && toIndex < 8
    ensures var r := TurnFrames(fromIndex, toIndex);
      r[0] == DirOrder[fromIndex] && r[|r| - 1] == DirOrder[toIndex] &&
      (|r| == 1 <==> fromIndex == toIndex) && |r| <= 5
  {
    var r := TurnFrames(fromIndex, toIndex);
    RingHits(fromIndex, toIndex, 0);
    RingHits(fromIndex, toIndex, |r| - 1);
    assert RingAt(fromIndex, TurnDir(fromIndex, toIndex), 0) == fromIndex;
  }

  /** Frame `k + 1` of a turn is one ring step of the turn's way after frame `k`. */
  lemma {:induction false} TurnFrameStep(fromIndex: nat, toIndex: nat, k: nat)
    requires fromIndex < 8 && toIndex < 8
    requires k < TurnLength(fromIndex, toIndex)
    ensures var r, d := TurnFrames(fromIndex, toIndex), TurnDir(fromIndex, toIndex);
      StepsBy(r[k], r[k + 1], d) && Adjacent(r[k], r[k + 1])
  {
    var r, d := TurnFrames(fromIndex, toIndex), TurnDir(fromIndex, toIndex);
    var i := RingAt(fromIndex, d, k);
    RingStep(fromIndex, d, k);
    StepIsAdjacent(i, d);
    assert r[k] == DirOrder[i];
    assert r[k + 1] == DirOrder[(i + d + 8) % 8];
  }

  /**
   * A turn steps between neighbours, clockwise exactly when the target lies
   * one to four eighths clockwise.
   */
  lemma {:induction false} TurnFramesSteps(fromIndex: nat, toIndex: nat)
    requires fromIndex < 8 && toIndex < 8
    ensures var r := TurnFrames(fromIndex, toIndex);
      var clockwise := 1 <= (toIndex - fromIndex + 8) % 8 <= 4;
      forall k :: 0 <= k < |r| - 1 ==> StepsBy(r[k], r[k + 1], if clockwise then 1 else -1)
    ensures var r := TurnFrames(fromIndex, toIndex);
      forall k :: 0 <= k < |r| - 1 ==> Adjacent(r[k], r[k + 1])
  {
    var r := TurnFrames(fromIndex, toIndex);
    forall k | 0 <= k < |r| - 1
      ensures StepsBy(r[k], r[k + 1], TurnDir(fromIndex, toIndex)) && Adjacent(r[k], r[k + 1])
    {
      TurnFrameStep(fromIndex, toIndex, k);
    }
  }

  /** getFrameSequence, for two directions on the ring. */
  method GetFrameSequence(fromDir: string, toDir: string) returns (sequence: seq<string>)
    requires fromDir in DirOrder && toDir in DirOrder
    ensures sequence == TurnFrames(DirIndex(fromDir), DirIndex(toDir))
  {
    var fromIndex := DirIndex(fromDir);
    var toIndex := DirIndex(toDir);
    sequence := WalkRing(fromIndex, toIndex);
  }

  /** The first `m` frames a walk from `fromIndex` in direction `turnDir` records. */
  function Walked(fromIndex: int, turnDir: int, m: nat): (r: seq<string>)
    ensures |r| == m
  {
    if m == 0 then [] else Walked(fromIndex, turnDir, m - 1) + [DirOrder[RingAt(fromIndex, turnDir, m - 1)]]
  }

  lemma {:induction false} WalkedFrames(fromIndex: int, turnDir: int, m: nat)
    ensures forall k :: 0 <= k < m ==> Walked(fromIndex, turnDir, m)[k] == DirOrder[RingAt(fromIndex, turnDir, k)]
  {
    if m > 0 {
      WalkedFrames(fromIndex, turnDir, m - 1);
      var w := Walked(fromIndex, turnDir, m - 1);
      assert forall k :: 0 <= k < m - 1 ==> (w + [DirOrder[RingAt(fromIndex, turnDir, m - 1)]])[k] == w[k];
    }
  }

  /** The full walk followed by the target frame is the turn's frame sequence. */
  lemma {:induction false} WalkedIsTurn(fromIndex: nat, toIndex: nat)
    requires fromIndex < 8 && toIndex < 8
    ensures var n := TurnLength(fromIndex, toIndex);
      Walked(fromIndex, TurnDir(fromIndex, toIndex), n) + [DirOrder[toIndex]] == TurnFrames(fromIndex, toIndex)
  {
    var n, d := TurnLength(fromIndex, toIndex), TurnDir(fromIndex, toIndex);
    WalkedFrames(fromIndex, d, n);
    RingHits(fromIndex, toIndex, n);
    var w := Walked(fromIndex, d, n) + [DirOrder[toIndex]];
    assert forall k :: 0 <= k < n ==> w[k] == Walked(fromIndex, d, n)[k];
  }

  /** The loop of getFrameSequence on ring indices: every frame from the start up to the target, then the target. */
  method WalkRing(fromIndex: nat, toIndex: nat) returns (sequence: seq<string>)
    requires fromIndex < 8 && toIndex < 8
    ensures sequence == TurnFrames(fromIndex, toIndex)
  {
    var diff := (toIndex - fromIndex + 8) % 8;
    var turnDir := if diff <= 4 && diff != 0 then 1 else -1;
    ghost var n := TurnLength(fromIndex, toIndex);
    sequence := [];
    var currentIndex := fromIndex;
    assert turnDir == TurnDir(fromIndex, toIndex);
    RingHits(fromIndex, toIndex, 0);
    while currentIndex != toIndex
      invariant |sequence| <= n
      invariant currentIndex == RingAt(fromIndex, turnDir, |sequence|)
      invariant currentIndex == toIndex <==> |sequence| == n
      invariant sequence == Walked(fromIndex, turnDir, |sequence|)
      decreases n - |sequence|
    {
      ghost var k := |sequence|;
      RingStep(fromIndex, turnDir, k);
      RingHits(fromIndex, toIndex, k + 1);
      assert Walked(fromIndex, turnDir, k + 1) == sequence + [DirOrder[currentIndex]];
      sequence := sequence + [DirOrder[currentIndex]];
      currentIndex := (currentIndex + turnDir + 8) % 8;
    }
    WalkedIsTurn(fromIndex, toIndex);
    sequence := sequence + [DirOrder[toIndex]];
  }

  /**
   * The loop of getFrameSequence as written, with anything for the target
   * index: it exits within `fuel` steps when stepping from `currentIndex`
   * meets `toIndex`.
   */
  predicate LoopExitsWithin(currentIndex: int, toIndex: int, turnDir: int, fuel: nat)
    decreases fuel
  {
    currentIndex == toIndex ||
    (fuel > 0 && LoopExitsWithin((currentIndex + turnDir + 8) % 8, toIndex, turnDir, fuel - 1))
  }

  /**
   * A target that is not on the ring has index -1, which the loop, always on
   * the ring, never meets: getFrameSequence from a ring direction to such a
   * name does not return.
   */
  lemma {:induction false} UnknownTargetNeverReached(currentIndex: int, toDir: string, turnDir: int, fuel: nat)
    requires 0 <= currentIndex < 8 && toDir !in DirOrder
    ensures !LoopExitsWithin(currentIndex, DirIndex(toDir), turnDir, fuel)
    decreases fuel
  {
    if fuel > 0 {
      UnknownTargetNeverReached((currentIndex + turnDir + 8) % 8, toDir, turnDir, fuel - 1);
    }
  }

  /** For two ring directions the same loop exits after TurnLength steps. */
  lemma {:induction false} KnownTargetReached(fromIndex: nat, toIndex: nat, k: nat)
    requires fromIndex < 8 && toIndex < 8 && k <= TurnLength(fromIndex, toIndex)
    ensures LoopExitsWithin(RingAt(fromIndex, TurnDir(fromIndex, toIndex), k), toIndex,
      TurnDir(fromIndex, toIndex), TurnLength(fromIndex, toIndex) - k)
    decreases TurnLength(fromIndex, toIndex) - k
  {
    RingHits(fromIndex, toIndex, k);
    if k < TurnLength(fromIndex, toIndex) {
      RingStep(fromIndex, TurnDir(fromIndex, toIndex), k);
      KnownTargetReached(fromIndex, toIndex, k + 1);
    }
  }

  /** What a call of startTurn sets going. */
  datatype TurnOutcome = Ignored | MoveStarted | TurnStarted(frames: seq<string>)

  /**
   * The sprite's turn and move flags.  The turn animation's completion and the
   * end of the move are explicit callbacks; the sprite's textures are the
   * frame names last handed to it.
   */
  class SubmarineAnimation {
    var currentDir: string
    var isTurning: bool
    var isMoving: bool
    var textures: seq<string>
    /** The direction a running turn will end on. */
    var pendingDir: string

    ghost predicate Valid()
      reads this
    {
      currentDir in DirOrder && pendingDir in DirOrder && !(isTurning && isMoving)
    }

    constructor()
      ensures Valid()
      ensures currentDir == "N" && !isTurning && !isMoving && textures == ["N"]
    {
      currentDir := "N";
      pendingDir := "N";
      isTurning := false;
      isMoving := false;
      textures := ["N"];
    }

    /**
     * startTurn, with the answer of isValidDirection as `accepted`: ignored
     * while turning or moving, for a rejected direction and for a name off
     * the ring; the current direction moves straight on; any other starts
     * the turn animation.
     */
    method StartTurn(newDir: string, accepted: bool) returns (outcome: TurnOutcome)
      requires Valid()
      modifies this
      ensures Valid() && currentDir == old(currentDir)
      ensures old(isTurning) || old(isMoving) || !accepted || newDir !in DirOrder ==>
        outcome == Ignored && isTurning == old(isTurning) && isMoving == old(isMoving) &&
        textures == old(textures) && pendingDir == old(pendingDir)
      ensures !old(isTurning) && !old(isMoving) && accepted && newDir == old(currentDir) ==>
        outcome == MoveStarted && isMoving && !isTurning && textures == old(textures)
      ensures !old(isTurning) && !old(isMoving) && accepted && newDir in DirOrder && newDir != old(currentDir) ==>
        outcome == TurnStarted(TurnFrames(DirIndex(old(currentDir)), DirIndex(newDir))) &&
        isTurning && !isMoving && textures == outcome.frames && pendingDir == newDir
    {
      if isTurning || isMoving {
        return Ignored;
      }
      if !accepted || newDir !in DirOrder {
        return Ignored;
      }
      if newDir == currentDir {
        isMoving := true;
        return MoveStarted;
      }
      isTurning := true;
      var frameSequence := GetFrameSequence(currentDir, newDir);
      textures := frameSequence;
      pendingDir := newDir;
      return TurnStarted(frameSequence);
    }

    /** The turn animation completed: the sprite faces the new direction and moves forward. */
    method TurnComplete()
      requires Valid() && isTurning
      modifies this
      ensures Valid()
      ensures currentDir == old(pendingDir) && !isTurning && isMoving
      ensures textures == old(textures) && pendingDir == old(pendingDir)
    {
      currentDir := pendingDir;
      isTurning := false;
      isMoving := true;
    }

    /** The forward move reached its end. */
    method MoveComplete()
      requires Valid() && isMoving
      modifies this
      ensures Valid()
      ensures !isMoving && !isTurning && currentDir == old(currentDir)
      ensures textures == old(textures) && pendingDir == old(pendingDir)
    {
      isMoving := false;
    }
  }
}

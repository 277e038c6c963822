/** The zoom-level bookkeeping of the map controller. */
module MapControl {
  import opened Wrappers

  function Abs(x: int): nat {
    if x < 0 then -x else x
  }

  /** The reducer of findClosestLevel: the current level stays unless a later one is strictly closer. */
  function ReduceClosest(prev: int, rest: seq<int>, scale: int): (r: int)
    ensures r == prev || r in rest
    ensures Abs(r - scale) <= Abs(prev - scale)
    ensures forall l :: l in rest ==> Abs(r - scale) <= Abs(l - scale)
    decreases |rest|
  {
    if rest == [] then prev
    else
      var next := if Abs(rest[0] - scale) < Abs(prev - scale) then rest[0] else prev;
      var r := ReduceClosest(next, rest[1..], scale);
      assert forall l :: l in rest ==> l == rest[0] || l in rest[1..];
      r
  }

  /** findClosestLevel: reduce without a seed, so the list may not be empty. */
  function FindClosestLevel(levels: seq<int>, scale: int): (r: int)
    requires |levels| > 0
    ensures r in levels
    ensures forall l :: l in levels ==> Abs(r - scale) <= Abs(l - scale)
  {
    assert forall l :: l in levels ==> l == levels[0] || l in levels[1..];
    ReduceClosest(levels[0], levels[1..], scale)
  }

  /** Array.prototype.indexOf for a value that is present. */
  function IndexOf(levels: seq<int>, x: int): (i: nat)
    requires x in levels
    ensures i < |levels| && levels[i] == x
    ensures forall j :: 0 <= j < i ==> levels[j] != x
  {
    if levels[0] == x then 0 else 1 + IndexOf(levels[1..], x)
  }

  /** The reducer only gives up its seed for a strictly closer level. */
  lemma {:induction false} ReduceStrict(prev: int, rest: seq<int>, scale: int)
    ensures var r := ReduceClosest(prev, rest, scale);
      r != prev ==> Abs(r - scale) < Abs(prev - scale)
    decreases |rest|
  {
    if rest != [] {
      var next := if Abs(rest[0] - scale) < Abs(prev - scale) then rest[0] else prev;
      ReduceStrict(next, rest[1..], scale);
    }
  }

  /**
   * The reducer only gives up its seed for a strictly closer level, and then
   * for the first occurrence of that level every earlier one is farther away.
   */
  lemma {:induction false} ReduceKeepsEarliest(prev: int, rest: seq<int>, scale: int)
    ensures var r := ReduceClosest(prev, rest, scale);
      r != prev ==>
        Abs(r - scale) < Abs(prev - scale) && r in rest &&
        forall j :: 0 <= j < IndexOf(rest, r) ==> Abs(rest[j] - scale) > Abs(r - scale)
    decreases |rest|
  {
    ReduceStrict(prev, rest, scale);
    if rest != [] {
      var next := if Abs(rest[0] - scale) < Abs(prev - scale) then rest[0] else prev;
      var r := ReduceClosest(next, rest[1..], scale);
      assert r == ReduceClosest(prev, rest, scale);
      ReduceKeepsEarliest(next, rest[1..], scale);
      if r != next {
        assert Abs(r - scale) < Abs(next - scale) <= Abs(rest[0] - scale);
        EarlierFarther(rest, r, scale);
      } else if r != prev {
        assert IndexOf(rest, r) == 0;
      }
    }
  }

  /** A level found after a farther first element keeps every element before its first occurrence farther away. */
  lemma {:induction false} EarlierFarther(rest: seq<int>, r: int, scale: int)
    requires rest != [] && r in rest[1..] && Abs(rest[0] - scale) > Abs(r - scale)
    requires forall j :: 0 <= j < IndexOf(rest[1..], r) ==> Abs(rest[1..][j] - scale) > Abs(r - scale)
    ensures r in rest
    ensures forall j :: 0 <= j < IndexOf(rest, r) ==> Abs(rest[j] - scale) > Abs(r - scale)
  {
    var k := IndexOf(rest[1..], r);
    assert IndexOf(rest, r) == 1 + k;
    forall j | 0 <= j < 1 + k
      ensures Abs(rest[j] - scale) > Abs(r - scale)
    {
      if j > 0 {
        assert rest[j] == rest[1..][j - 1];
      }
    }
  }

  /** The closest level is the first one at the smallest distance. */
  lemma {:induction false} ClosestIsEarliest(levels: seq<int>, scale: int)
    requires |levels| > 0
    ensures var k := IndexOf(levels, FindClosestLevel(levels, scale));
      forall j :: 0 <= j < k ==> Abs(levels[j] - scale) > Abs(levels[k] - scale)
  {
    var r := FindClosestLevel(levels, scale);
    assert r == ReduceClosest(levels[0], levels[1..], scale);
    ReduceKeepsEarliest(levels[0], levels[1..], scale);
    if r == levels[0] {
      assert IndexOf(levels, r) == 0;
    } else {
      var k := IndexOf(levels[1..], r);
      assert IndexOf(levels, r) == 1 + k;
      assert forall j :: 0 <= j < k ==> Abs(levels[1..][j] - scale) > Abs(r - scale);
      forall j | 0 <= j < 1 + k
        ensures Abs(levels[j] - scale) > Abs(r - scale)
      {
        if j > 0 {
          assert levels[j] == levels[1..][j - 1];
        }
      }
    }
  }

  /** A scale that is one of the levels finds itself. */
  lemma {:induction false} ClosestOfALevel(levels: seq<int>, k: nat)
    requires k < |levels|
    ensures FindClosestLevel(levels, levels[k]) == levels[k]
  {
    var r := FindClosestLevel(levels, levels[k]);
    assert levels[k] in levels;
    assert Abs(r - levels[k]) <= Abs(levels[k] - levels[k]);
  }

  function Clamp(x: int, lo: int, hi: int): int
    requires lo <= hi
  {
    if x < lo then lo else if x > hi then hi else x
  }

  /** The index stepZoom aims at: one index per unit of direction, kept within the list. */
  function StepIndex(levels: seq<int>, scale: int, direction: int): (next: nat)
    requires |levels| > 0
    ensures next < |levels|
  {
    Clamp(IndexOf(levels, FindClosestLevel(levels, scale)) - direction, 0, |levels| - 1)
  }

  /** The zoom stepZoom requests, if the index changed at all. */
  function StepTarget(levels: seq<int>, scale: int, direction: int): (r: Option<int>)
    requires |levels| > 0
    ensures var current := IndexOf(levels, FindClosestLevel(levels, scale));
      r.Some? <==> StepIndex(levels, scale, direction) != current
    ensures r.Some? ==> r.value == levels[StepIndex(levels, scale, direction)]
  {
    var current := IndexOf(levels, FindClosestLevel(levels, scale));
    var next := StepIndex(levels, scale, direction);
    if next != current then Some(levels[next]) else None
  }

  /** A unit step zooms to the neighbouring level or, at either end of the list, does nothing. */
  lemma {:induction false} UnitStep(levels: seq<int>, scale: int, direction: int)
    requires |levels| > 0 && (direction == 1 || direction == -1)
    ensures var current := IndexOf(levels, FindClosestLevel(levels, scale));
      (0 <= current - direction < |levels| ==> StepTarget(levels, scale, direction) == Some(levels[current - direction])) &&
      (!(0 <= current - direction < |levels|) ==> StepTarget(levels, scale, direction) == None)
  {
    var current := IndexOf(levels, FindClosestLevel(levels, scale));
    var next := StepIndex(levels, scale, direction);
    assert next == Clamp(current - direction, 0, |levels| - 1);
    if 0 <= current - direction < |levels| {
      assert next == current - direction != current;
    } else {
      assert next == current;
    }
  }

  /** The three levels resize installs for a viewport `width` pixels wide. */
  function ZoomLevelsFor(width: int, gridSize: int, labelGutter: int, defaultScale: int): (r: seq<int>)
    requires gridSize > 0
    ensures |r| == 3 && r[0] == defaultScale
    ensures r[2] * gridSize <= width - labelGutter < (r[2] + 1) * gridSize
    ensures 2 * r[1] <= defaultScale + r[2] < 2 * r[1] + 2
  {
    var minScale := (width - labelGutter) / gridSize;
    [defaultScale, (defaultScale + minScale) / 2, minScale]
  }

  /** When the whole grid fits at the default scale the levels run from the default down to the fitting scale. */
  lemma {:induction false} ResizedLevelsDescend(width: int, gridSize: int, labelGutter: int, defaultScale: int)
    requires gridSize > 0
    requires (width - labelGutter) / gridSize <= defaultScale
    ensures var r := ZoomLevelsFor(width, gridSize, labelGutter, defaultScale);
      r[0] >= r[1] >= r[2]
  {
  }

  /** What the controller asks of its renderer. */
  datatype RendererCall = RenderMap | ClampPosition | SetViewport(width: int, height: int)

  /**
   * The map controller: the zoom levels, the target position and, standing in
   * for the renderer, its current scale and the calls made to it.  The map
   * constants are construction parameters.
   */
  class MapController {
    const gridSize: int
    const labelGutter: int
    const defaultScale: int
    var zoomLevels: seq<int>
    var targetPos: (int, int)
    var currentScale: int
    var rendererCalls: seq<RendererCall>
    /** The target scales handed to the zoom animation, oldest first. */
    var zoomRequests: seq<int>

    ghost predicate Valid()
      reads this
    {
      gridSize > 0 && |zoomLevels| == 3
    }

    constructor(gridSize: int, labelGutter: int, defaultScale: int, currentScale: int)
      requires gridSize > 0
      ensures Valid()
      ensures this.gridSize == gridSize && this.labelGutter == labelGutter && this.defaultScale == defaultScale
      ensures zoomLevels == [90, 60, 30] && targetPos == (7, 7) && this.currentScale == currentScale
      ensures rendererCalls == [RenderMap, ClampPosition] && zoomRequests == []
    {
      this.gridSize := gridSize;
      this.labelGutter := labelGutter;
      this.defaultScale := defaultScale;
      this.currentScale := currentScale;
      targetPos := (7, 7);
      zoomLevels := [90, 60, 30];
      rendererCalls := [RenderMap, ClampPosition];
      zoomRequests := [];
    }

    /** stepZoom: direction 1 zooms in, towards the lower indices. */
    method StepZoom(direction: int)
      requires Valid()
      modifies this
      ensures Valid() && zoomLevels == old(zoomLevels) && currentScale == old(currentScale)
      ensures rendererCalls == old(rendererCalls) && targetPos == old(targetPos)
      ensures var t := StepTarget(zoomLevels, currentScale, direction);
        zoomRequests == old(zoomRequests) + (if t.Some? then [t.value] else [])
    {
      var closest := FindClosestLevel(zoomLevels, currentScale);
      var currentIndex := IndexOf(zoomLevels, closest);
      var nextIndex := currentIndex - direction;
      nextIndex := Clamp(nextIndex, 0, |zoomLevels| - 1);
      if nextIndex != currentIndex {
        zoomRequests := zoomRequests + [zoomLevels[nextIndex]];
      }
    }

    /** resize: the levels follow the width, and the scale is raised to the smallest level if it was below it. */
    method Resize(width: int, height: int)
      requires Valid()
      modifies this
      ensures Valid()
      ensures zoomLevels == ZoomLevelsFor(width, gridSize, labelGutter, defaultScale)
      ensures currentScale == if old(currentScale) < zoomLevels[2] then zoomLevels[2] else old(currentScale)
      ensures rendererCalls == old(rendererCalls) + [SetViewport(width, height)] +
        (if old(currentScale) < zoomLevels[2] then [RenderMap] else []) + [ClampPosition]
      ensures zoomRequests == old(zoomRequests) && targetPos == old(targetPos)
    {
      rendererCalls := rendererCalls + [SetViewport(width, height)];
      var availableWidth := width - labelGutter;
      var minScale := availableWidth / gridSize;
      var intermediate := (defaultScale + minScale) / 2;
      zoomLevels := [defaultScale, intermediate, minScale];
      if currentScale < minScale {
        currentScale := minScale;
        rendererCalls := rendererCalls + [RenderMap];
      }
      rendererCalls := rendererCalls + [ClampPosition];
    }
  }
}

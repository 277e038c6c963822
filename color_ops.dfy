/**
 * Colour operations on display objects: the universal colour setter and its
 * cascade through a container's children.  Display objects are values here:
 * the cascade returns the recoloured tree.
 */
module ColorOps {
  import opened Wrappers

  /** A `background` sprite; `tint` is None when it has no tint property. */
  datatype Background = Background(tint: Option<int>)

  /**
   * A display object: its label property, whether it has a setTint method (and the
   * colours that method was called with), its tint property if it has one,
   * its background if truthy, and whether it has a children array and the
   * children in it (none when it has no array).
   */
  datatype DisplayObject = DisplayObject(
    labelText: Option<string>,
    hasSetTint: bool,
    setTintCalls: seq<int>,
    tint: Option<int>,
    background: Option<Background>,
    hasChildArray: bool,
    children: seq<DisplayObject>)

  /** The cascade's matcher argument. */
  datatype Matcher =
    | NoMatcher                                // null or undefined: every child matches
    | LabelMatcher(s: string)                  // a string: compared with the child's label
    | PredicateMatcher(f: DisplayObject -> bool) // a function: called on the child
    | OtherMatcher                             // any other truthy value: nothing matches

  /**
   * setColor on an object: a setTint method takes the colour and nothing else
   * is touched; otherwise the tint property and the background's tint, where
   * present, are set.
   */
  function SetColor(target: DisplayObject, color: int): (r: DisplayObject)
    ensures r.labelText == target.labelText && r.hasSetTint == target.hasSetTint
    ensures r.hasChildArray == target.hasChildArray && r.children == target.children
    ensures target.hasSetTint ==> r == target.(setTintCalls := target.setTintCalls + [color])
    ensures !target.hasSetTint ==> r.setTintCalls == target.setTintCalls
    ensures !target.hasSetTint ==> (r.tint.Some? <==> target.tint.Some?) && (target.tint.Some? ==> r.tint == Some(color))
    ensures !target.hasSetTint ==> (r.background.Some? <==> target.background.Some?)
    ensures !target.hasSetTint && target.background.Some? ==>
      (r.background.value.tint.Some? <==> target.background.value.tint.Some?) &&
      (target.background.value.tint.Some? ==> r.background.value.tint == Some(color))
  {
    if target.hasSetTint then target.(setTintCalls := target.setTintCalls + [color])
    else
      var tinted := if target.tint.Some? then target.(tint := Some(color)) else target;
      if tinted.background.Some? && tinted.background.value.tint.Some? then
        tinted.(background := Some(Background(Some(color))))
      else tinted
  }

  /** setColor on a null target does nothing. */
  function SetColorOn(target: Option<DisplayObject>, color: int): (r: Option<DisplayObject>)
    ensures target.None? ==> r.None?
    ensures target.Some? ==> r == Some(SetColor(target.value, color))
  {
    match target
    case None => None
    case Some(t) => Some(SetColor(t, color))
  }

  /** Whether the matcher selects a child; an empty label is falsy and so matches everything. */
  predicate Matches(matcher: Matcher, child: DisplayObject) {
    match matcher
    case NoMatcher => true
    case LabelMatcher(s) => s == "" || child.labelText == Some(s)
    case PredicateMatcher(f) => f(child)
    case OtherMatcher => false
  }

  predicate HasChildren(o: DisplayObject) {
    o.hasChildArray && |o.children| > 0
  }

  /** One child of the cascade: recoloured if it matches, then descended into when recursive and it has children. */
  function Visit(child: DisplayObject, color: int, matcher: Matcher, recursive: bool): (r: DisplayObject)
    ensures var colored := if Matches(matcher, child) then SetColor(child, color) else child;
      r.(children := colored.children) == colored
    ensures !recursive || !HasChildren(child) ==> r.children == child.children
    ensures r.hasChildArray == child.hasChildArray && |r.children| == |child.children|
    decreases child, 1
  {
    var colored := if Matches(matcher, child) then SetColor(child, color) else child;
    if recursive && HasChildren(child) then
      colored.(children := VisitAll(child, 0, color, matcher, recursive))
    else colored
  }

  /** The children of `parent` from index `i` on, each visited in order. */
  function VisitAll(parent: DisplayObject, i: nat, color: int, matcher: Matcher, recursive: bool): (r: seq<DisplayObject>)
    requires i <= |parent.children|
    ensures |r| == |parent.children| - i
    ensures forall k :: 0 <= k < |r| ==> r[k] == Visit(parent.children[i + k], color, matcher, recursive)
    decreases parent, 0, |parent.children| - i
  {
    if i == |parent.children| then []
    else [Visit(parent.children[i], color, matcher, recursive)] + VisitAll(parent, i + 1, color, matcher, recursive)
  }

  /**
   * cascadeColor: the root itself is never recoloured; each child is visited,
   * and a root without a children array is left alone.
   */
  function CascadeColor(container: DisplayObject, color: int, matcher: Matcher, recursive: bool): (r: DisplayObject)
    ensures r.(children := container.children) == container
    ensures !container.hasChildArray ==> r == container
    ensures |r.children| == |container.children|
    ensures container.hasChildArray ==> forall k :: 0 <= k < |r.children| ==>
      r.children[k] == Visit(container.children[k], color, matcher, recursive)
  {
    if !container.hasChildArray then container
    else container.(children := VisitAll(container, 0, color, matcher, recursive))
  }

  /** A non-recursive cascade leaves every grandchild as it was. */
  lemma {:induction false} ShallowCascadeKeepsGrandchildren(container: DisplayObject, color: int, matcher: Matcher, k: nat)
    requires k < |container.children|
    ensures CascadeColor(container, color, matcher, false).children[k].children == container.children[k].children
  {
  }

  /** The object carries the colour wherever setColor puts one. */
  predicate Carries(o: DisplayObject, color: int) {
    if o.hasSetTint then |o.setTintCalls| > 0 && o.setTintCalls[|o.setTintCalls| - 1] == color
    else
      (o.tint.Some? ==> o.tint == Some(color)) &&
      (o.background.Some? && o.background.value.tint.Some? ==> o.background.value.tint == Some(color))
  }

  /** Every descendant of `o` (not `o` itself) carries the colour. */
  predicate DescendantsCarry(o: DisplayObject, color: int)
    decreases o
  {
    o.hasChildArray ==>
      forall k :: 0 <= k < |o.children| ==>
        Carries(o.children[k], color) && DescendantsCarry(o.children[k], color)
  }

  /** A match-all recursive visit leaves the child and all below it carrying the colour. */
  lemma {:induction false} VisitColoursSubtree(child: DisplayObject, color: int)
    ensures var r := Visit(child, color, NoMatcher, true);
      Carries(r, color) && (HasChildren(child) ==> DescendantsCarry(r, color))
    decreases child
  {
    var r := Visit(child, color, NoMatcher, true);
    assert Carries(SetColor(child, color), color);
    if HasChildren(child) {
      var kids := child.children;
      forall k | 0 <= k < |kids|
        ensures Carries(r.children[k], color) && DescendantsCarry(r.children[k], color)
      {
        var g := kids[k];
        VisitColoursSubtree(g, color);
        assert r.children[k] == Visit(g, color, NoMatcher, true);
        if !HasChildren(g) {
          assert DescendantsCarry(Visit(g, color, NoMatcher, true), color);
        }
      }
    }
  }

  /** Without a matcher a recursive cascade recolours every descendant of the root. */
  lemma {:induction false} CascadeAllColoursEverything(container: DisplayObject, color: int)
    ensures DescendantsCarry(CascadeColor(container, color, NoMatcher, true), color)
  {
    var r := CascadeColor(container, color, NoMatcher, true);
    if container.hasChildArray {
      forall k | 0 <= k < |container.children|
        ensures Carries(r.children[k], color) && DescendantsCarry(r.children[k], color)
      {
        var child := container.children[k];
        VisitColoursSubtree(child, color);
        if !HasChildren(child) {
          assert DescendantsCarry(Visit(child, color, NoMatcher, true), color);
        }
      }
    }
  }
}

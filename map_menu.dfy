/** The intent and context menus of the map and the filtering of their options. */
module MapMenu {
  import opened Wrappers

  /** MapIntents; their values live in a constants file that is not part of this model. */
  datatype Intent = WaypointIntent | TorpedoIntent | MarkIntent

  /** The condition an option may carry, as a predicate on the square's data. */
  datatype Condition = NotCurrentWaypoint | IsCurrentWaypoint

  datatype MenuOption = MenuOption(
    id: string,
    caption: string,
    intent: Intent,
    action: Option<string>,
    description: Option<string>,
    condition: Option<Condition>)

  datatype MenuConfig = MenuConfig(menuType: string, title: string, options: seq<MenuOption>)

  /** The part of MapUtils.getSquareData the conditions look at. */
  datatype SquareData = SquareData(isCurrentWaypoint: bool)

  const IntentMenu := MenuConfig("intent", "Select Action", [
    MenuOption("set_waypoint", "Set Waypoint", WaypointIntent, None, None, Some(NotCurrentWaypoint)),
    MenuOption("cancel_waypoint", "Cancel Waypoint", WaypointIntent, Some("cancel"), None, Some(IsCurrentWaypoint))
  ])

  const ContextMenu := MenuConfig("context", "Change Intent", [
    MenuOption("intent_waypoint", "Navigate", WaypointIntent, None, Some("Set navigation waypoint"), None),
    MenuOption("intent_torpedo", "Attack", TorpedoIntent, None, Some("Target for torpedo"), None),
    MenuOption("intent_mark", "Mark", MarkIntent, None, Some("Mark location on map"), None)
  ])

  predicate Holds(c: Condition, sq: SquareData) {
    match c
    case NotCurrentWaypoint => !sq.isCurrentWaypoint
    case IsCurrentWaypoint => sq.isCurrentWaypoint
  }

  /** An option is kept when it has no condition or its condition holds. */
  predicate Kept(o: MenuOption, sq: SquareData) {
    o.condition.None? || Holds(o.condition.value, sq)
  }

  /** `a` is `b` with some elements dropped and the rest in their order. */
  predicate IsSubsequence<T(==)>(a: seq<T>, b: seq<T>) {
    if a == [] then true
    else if b == [] then false
    else if a[0] == b[0] then IsSubsequence(a[1..], b[1..])
    else IsSubsequence(a, b[1..])
  }

  function FilterOptions(opts: seq<MenuOption>, sq: SquareData): (r: seq<MenuOption>)
    ensures IsSubsequence(r, opts)
    ensures forall o :: o in r <==> o in opts && Kept(o, sq)
  {
    if opts == [] then []
    else if Kept(opts[0], sq) then [opts[0]] + FilterOptions(opts[1..], sq)
    else FilterOptions(opts[1..], sq)
  }

  /** getMenuConfig: 'intent' selects the intent menu, anything else the context menu. */
  function GetMenuConfig(menuType: string, sq: SquareData): (r: MenuConfig)
    ensures var config := if menuType == "intent" then IntentMenu else ContextMenu;
      r.menuType == config.menuType && r.title == config.title &&
      IsSubsequence(r.options, config.options) &&
      forall o :: o in r.options <==> o in config.options && Kept(o, sq)
  {
    var config := if menuType == "intent" then IntentMenu else ContextMenu;
    config.(options := FilterOptions(config.options, sq))
  }

  /** In the intent menu exactly one of setting and cancelling the waypoint is offered. */
  lemma {:induction false} IntentMenuOffersOne(sq: SquareData)
    ensures var r := GetMenuConfig("intent", sq);
      |r.options| == 1 &&
      (r.options[0].id == "cancel_waypoint" <==> sq.isCurrentWaypoint) &&
      (r.options[0].id == "set_waypoint" <==> !sq.isCurrentWaypoint)
  {
    var opts := IntentMenu.options;
    if sq.isCurrentWaypoint {
      assert FilterOptions(opts, sq) == FilterOptions(opts[1..], sq);
      assert FilterOptions(opts[1..], sq) == [opts[1]] + FilterOptions(opts[2..], sq);
    } else {
      assert FilterOptions(opts, sq) == [opts[0]] + FilterOptions(opts[1..], sq);
      assert FilterOptions(opts[1..], sq) == FilterOptions(opts[2..], sq);
    }
  }

  /** The context menu keeps all three intents, whatever the square. */
  lemma {:induction false} ContextMenuKeepsAll(menuType: string, sq: SquareData)
    requires menuType != "intent"
    ensures GetMenuConfig(menuType, sq) == ContextMenu
  {
    var opts := ContextMenu.options;
    assert FilterOptions(opts[3..], sq) == [];
    assert FilterOptions(opts[2..], sq) == [opts[2]];
    assert FilterOptions(opts[1..], sq) == opts[1..];
  }
}

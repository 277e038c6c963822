/** The teletype station controller: which pushed messages reach the terminal, and in what colour. */
module TeletypeControl {
  import opened Wrappers
  import opened ClientView
  import opened BaseControl
  import opened Terminal

  /** Colors.text of the user-interface palette. */
  const TextColor := 0x28ee28

  /** Colors.caution, the palette's warning-like entry. */
  const CautionColor := 0xffa500

  /**
   * The colours the palette defines, by name; a lookup of any other name
   * (Colors.warning among them) is undefined.
   */
  const Palette: map<string, int> := map[
    "background" := 0x001100, "text" := TextColor, "dim" := 0x146e14, "border" := 0x116611,
    "primary" := 0x28ee28, "active" := 0xffffff, "subA" := 0x00aaff, "subB" := 0xff5555,
    "roleCaptain" := 0xffcc00, "roleXO" := 0x005aff, "roleSonar" := 0x00ff00, "roleEngineer" := 0xb3b3b3,
    "caution" := CautionColor, "danger" := 0xff0000, "success" := 0x00ff00]

  /** `Colors[name]`, with undefined for a missing entry. */
  function PaletteValue(name: string): StyleValue {
    if name in Palette then Num(Palette[name]) else Undefined
  }

  const WarningTag := "[Warning]"

  /** JavaScript truthiness of an option value. */
  predicate Truthy(v: StyleValue) {
    match v
    case Str(s) => s != ""
    case Num(n) => n != 0
    case Undefined => false
  }

  /** The properties of an options object that were given, undefined ones included. */
  function Prop(options: Style, key: string): StyleValue {
    if key in options then options[key] else Undefined
  }

  /**
   * `Object.keys(mySub).find(k => mySub[k] === playerId)`, for a player who
   * sits on the submarine and whose id equals no other field of it: the
   * first role slot the player holds.
   */
  function RoleKeyOf(sub: SubView, pid: string): (r: Option<string>)
    ensures r.Some? <==> HoldsRole(sub, pid)
    ensures r == Some("co") <==> sub.co == Some(pid)
  {
    if sub.co == Some(pid) then Some("co")
    else if sub.xo == Some(pid) then Some("xo")
    else if sub.sonar == Some(pid) then Some("sonar")
    else if sub.eng == Some(pid) then Some("eng")
    else None
  }

  /**
   * The filtering of pushMessage: with a known player, a vessel or role
   * given and the player's submarine found, a vessel other than that
   * submarine's id, or a role other than the player's, drops the message.
   */
  predicate Filtered(state: Option<GameView>, playerId: Option<string>, options: Style) {
    var role := Prop(options, "role");
    var vessel := Prop(options, "vessel");
    playerId.Some? && playerId.value != "" && (Truthy(role) || Truthy(vessel)) &&
    state.Some? &&
    match PlayerSub(state.value.submarines, playerId.value)
    case None => false
    case Some(mySub) =>
      (Truthy(vessel) && vessel != Str(mySub.id)) ||
      (Truthy(role) && match RoleKeyOf(mySub, playerId.value) { case None => true case Some(k) => role != Str(k) })
  }

  /** The filter only ever drops a message for a known player whose submarine is in the cached state. */
  lemma {:induction false} FilterNeedsKnownPlayer(state: Option<GameView>, playerId: Option<string>, options: Style)
    requires Filtered(state, playerId, options)
    ensures playerId.Some? && state.Some?
    ensures PlayerSub(state.value.submarines, playerId.value).Some?
    ensures Truthy(Prop(options, "role")) || Truthy(Prop(options, "vessel"))
  {
  }

  /** A message addressed to the player's own submarine and role is never dropped. */
  lemma {:induction false} OwnAddressPasses(state: GameView, playerId: string, options: Style, sub: SubView, role: string)
    requires PlayerSub(state.submarines, playerId) == Some(sub)
    requires Prop(options, "vessel") == Str(sub.id) || !Truthy(Prop(options, "vessel"))
    requires RoleKeyOf(sub, playerId) == Some(role)
    requires Prop(options, "role") == Str(role) || !Truthy(Prop(options, "role"))
    ensures !Filtered(Some(state), Some(playerId), options)
  {
  }

  /**
   * The overrides handed to the terminal, as written: role and vessel taken
   * out, a falsy fill replaced by the text colour, and the text colour on a
   * warning message replaced by Colors.warning, which the palette does not define.
   */
  function StyleAsWritten(text: string, options: Style): (r: Style)
    ensures "role" !in r && "vessel" !in r
  {
    var style := options - {"role", "vessel"};
    var filled := if !Truthy(Prop(style, "fill")) then style["fill" := PaletteValue("text")] else style;
    if Prop(filled, "fill") == Num(TextColor) && Contains(text, WarningTag) then
      filled["fill" := PaletteValue("warning")]
    else filled
  }

  /** A warning message with the default colour is handed an undefined fill. */
  lemma {:induction false} WarningFillUndefined()
    ensures StyleAsWritten(WarningTag, map[])["fill"] == Undefined
  {
    assert Contains(WarningTag, WarningTag);
  }

  /**
   * The overrides handed to the terminal: role and vessel taken out, a falsy
   * fill replaced by the text colour, and the text colour on a message
   * tagged '[Warning]' replaced by the caution colour.
   */
  function StyleFor(text: string, options: Style): (r: Style)
    ensures "role" !in r && "vessel" !in r && "fill" in r
    ensures forall k :: k in r && k != "fill" ==> k in options && r[k] == options[k]
    ensures forall k :: k in options && k !in {"role", "vessel", "fill"} ==> k in r
    ensures Truthy(Prop(options, "fill")) && Prop(options, "fill") != Num(TextColor) ==> r["fill"] == options["fill"]
    ensures !Truthy(Prop(options, "fill")) || Prop(options, "fill") == Num(TextColor) ==>
      r["fill"] == if Contains(text, WarningTag) then Num(CautionColor) else Num(TextColor)
  {
    var style := options - {"role", "vessel"};
    var filled := if !Truthy(Prop(style, "fill")) then style["fill" := PaletteValue("text")] else style;
    if Prop(filled, "fill") == Num(TextColor) && Contains(text, WarningTag) then
      filled["fill" := PaletteValue("caution")]
    else filled
  }

  /** What pushMessage did. */
  datatype PushOutcome = Dropped | Appended(style: Style) | NoTerminal(style: Style)

  class TeletypeController {
    const base: BaseController
    /** The display object registered under 'terminal'. */
    const terminal: TerminalBox

    constructor(terminal: TerminalBox)
      ensures this.terminal == terminal && fresh(base)
      ensures base.Vars() == BaseVars(map[], map[], map[], None, None, false, [], [], [])
    {
      base := new BaseController();
      this.terminal := terminal;
    }

    /**
     * pushMessage: a filtered message is dropped; any other is appended to the
     * terminal, when one is registered, with the overrides of StyleFor.
     */
    method PushMessage(text: string, options: Style) returns (outcome: PushOutcome)
      requires terminal.Valid()
      modifies terminal
      ensures terminal.Valid()
      ensures var playerId := if base.socket.Some? then Some(base.socket.value.playerId) else None;
        Filtered(base.lastState, playerId, options) ==> outcome == Dropped && terminal.rows == old(terminal.rows) && terminal.wrapperY == old(terminal.wrapperY)
      ensures var playerId := if base.socket.Some? then Some(base.socket.value.playerId) else None;
        var registered := "terminal" in base.visuals && base.visuals["terminal"] == TerminalVisual;
        !Filtered(base.lastState, playerId, options) ==>
          outcome == (if registered then Appended(StyleFor(text, options)) else NoTerminal(StyleFor(text, options))) &&
          (registered ==> Texts(terminal.rows) == Newest(Texts(old(terminal.rows)) + [text], Capacity(terminal.maxRows))) &&
          (registered ==>
            terminal.rows == AfterAppend(old(terminal.rows), Row(text, Some(outcome.style), |old(terminal.rows)| * RowHeight),
                                         Capacity(terminal.maxRows)) &&
            terminal.wrapperY == terminal.GetLiveY()) &&
          (registered && terminal.rows != [] ==> terminal.rows[|terminal.rows| - 1].style == Some(outcome.style)) &&
          (!registered ==> terminal.rows == old(terminal.rows) && terminal.wrapperY == old(terminal.wrapperY))
    {
      var playerId := if base.socket.Some? then Some(base.socket.value.playerId) else None;
      if Filtered(base.lastState, playerId, options) {
        return Dropped;
      }
      var style := StyleFor(text, options);
      if "terminal" in base.visuals && base.visuals["terminal"] == TerminalVisual {
        var _ := terminal.AppendLine(Some(text), Some(style));
        return Appended(style);
      }
      return NoTerminal(style);
    }
  }
}

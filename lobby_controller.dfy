/**
 * LobbyController: turns the server's lobby state into what the lobby renderer
 * shows (role slots per submarine and the unassigned players), and forwards the
 * player's intents to the server.
 */
module LobbyControl {
  import opened Wrappers

  datatype LobbyPlayer = LobbyPlayer(id: string, name: string, connectionOrder: Option<int>)

  /**
   * The fields of a server submarine the lobby reads: the name and the four seats, and
   * the set of every other key whose value is truthy on the submarine object, its own
   * fields (`id`, `health`, `engineLayout`, ...) and inherited ones (`constructor`, ...).
   */
  datatype LobbySub = LobbySub(name: Option<string>, co: Option<string>, xo: Option<string>,
                               sonar: Option<string>, eng: Option<string>, truthyKeys: set<string>)

  datatype LobbyState = LobbyState(players: seq<LobbyPlayer>, submarines: seq<LobbySub>, ready: seq<string>)

  /** Which of the renderer's views exist. */
  datatype LobbyViews = LobbyViews(playerName: bool, subA: bool, subB: bool, unassigned: bool)

  /** What update does with one role slot of a panel. */
  datatype SlotView =
    | Seated(role: string, player: LobbyPlayer, ready: bool)   // assignPlayerToRole
    | Vacated(role: string)                                    // vacatePlayer
    | Unrendered(role: string)                                 // the holder is not among the players: no call

  datatype PanelView = PanelView(name: string, slots: seq<SlotView>)

  datatype Listed = Listed(player: LobbyPlayer, ready: bool)

  /** Every renderer call one update makes. */
  datatype LobbyRender = LobbyRender(playerName: Option<string>, panels: seq<Option<PanelView>>,
                                     unassigned: Option<seq<Listed>>)

  /** The socketManager intents the controller issues. */
  datatype LobbyCall =
    | SelectRoleCall(subId: string, role: string)
    | LeaveRoleCall
    | ChangeNameCall(name: string)
    | ReadyCall
    | NotReadyCall

  /** The order in which a panel's roles are visited. */
  const RoleKeys: seq<string> := ["co", "xo", "sonar", "eng"]

  function InternalToDisplay(role: string): string {
    if role == "co" then "Captain"
    else if role == "xo" then "1st Officer"
    else if role == "sonar" then "Sonar"
    else if role == "eng" then "Engineer"
    else role
  }

  /** ASCII `toLowerCase`. */
  function Lower(s: string): (r: string)
    ensures |r| == |s|
    ensures forall i :: 0 <= i < |s| ==> r[i] == if 'A' <= s[i] <= 'Z' then (s[i] as int + 32) as char else s[i]
  {
    if s == [] then []
    else [if 'A' <= s[0] <= 'Z' then (s[0] as int + 32) as char else s[0]] + Lower(s[1..])
  }

  /** _displayToInternal: the four display names map to role keys; anything else is lowercased. */
  function DisplayToInternal(roleName: string): (r: string)
    ensures roleName == "Captain" ==> r == "co"
    ensures roleName == "1st Officer" ==> r == "xo"
    ensures roleName == "Sonar" ==> r == "sonar"
    ensures roleName == "Engineer" ==> r == "eng"
    ensures roleName !in {"Captain", "1st Officer", "Sonar", "Engineer"} ==> r == Lower(roleName)
  {
    if roleName == "Captain" then "co"
    else if roleName == "1st Officer" then "xo"
    else if roleName == "Sonar" then "sonar"
    else if roleName == "Engineer" then "eng"
    else Lower(roleName)
  }

  /** The display names and the role keys are inverse on the four roles. */
  lemma {:induction false} DisplayRoundTrip(i: nat)
    requires i < |RoleKeys|
    ensures DisplayToInternal(InternalToDisplay(RoleKeys[i])) == RoleKeys[i]
  {
  }

  /** The keys whose values the model keeps as strings. */
  const StringFields: set<string> := {"co", "xo", "sonar", "eng", "name"}

  /** `sub[key]` for the string fields the model keeps; every other key gives None here. */
  function SubField(sub: LobbySub, key: string): Option<string> {
    if key == "co" then sub.co
    else if key == "xo" then sub.xo
    else if key == "sonar" then sub.sonar
    else if key == "eng" then sub.eng
    else if key == "name" then sub.name
    else None
  }

  /** A string-valued field is truthy when present and non-empty. */
  predicate Truthy(o: Option<string>) {
    o.Some? && o.value != ""
  }

  /** `sub[key]` is truthy, for any key. */
  predicate FieldTruthy(sub: LobbySub, key: string) {
    if key in StringFields then Truthy(SubField(sub, key)) else key in sub.truthyKeys
  }

  /** `players.find(p => p.id === id)`. */
  function FindPlayer(players: seq<LobbyPlayer>, id: string): (r: Option<LobbyPlayer>)
    ensures r.Some? ==> r.value in players && r.value.id == id
    ensures r.None? <==> forall i :: 0 <= i < |players| ==> players[i].id != id
  {
    if players == [] then None
    else if players[0].id == id then Some(players[0])
    else FindPlayer(players[1..], id)
  }

  /** The display of one role slot of a submarine. */
  function SlotFor(st: LobbyState, sub: LobbySub, role: string): (r: SlotView)
    ensures !Truthy(SubField(sub, role)) ==> r == Vacated(InternalToDisplay(role))
    ensures Truthy(SubField(sub, role)) ==>
      match FindPlayer(st.players, SubField(sub, role).value)
      case None => r == Unrendered(InternalToDisplay(role))
      case Some(p) => r.Seated? && r.role == InternalToDisplay(role) && r.player.id == SubField(sub, role).value &&
                      r.player in st.players && (r.ready <==> p.id in st.ready)
  {
    var holder := SubField(sub, role);
    if !Truthy(holder) then Vacated(InternalToDisplay(role))
    else match FindPlayer(st.players, holder.value)
      case None => Unrendered(InternalToDisplay(role))
      case Some(p) => Seated(InternalToDisplay(role), p, holder.value in st.ready)
  }

  /** `subState.name || \`Sub ${A|B}\``. */
  function PanelName(sub: LobbySub, i: nat): string
    requires i < 2
  {
    if Truthy(sub.name) then sub.name.value else "Sub " + [if i == 0 then 'A' else 'B']
  }

  function PanelPresent(views: LobbyViews, i: nat): bool
    requires i < 2
  {
    if i == 0 then views.subA else views.subB
  }

  /** A panel is updated when both the submarine and its view exist. */
  predicate Rendered(st: LobbyState, views: LobbyViews, i: nat)
    requires i < 2
  {
    i < |st.submarines| && PanelPresent(views, i)
  }

  /** The ids added to assignedPlayerIds by the first `n` roles of a submarine. */
  function SeatedIds(st: LobbyState, sub: LobbySub, n: nat): set<string>
    requires n <= |RoleKeys|
  {
    if n == 0 then {}
    else
      var holder := SubField(sub, RoleKeys[n - 1]);
      SeatedIds(st, sub, n - 1) +
        (if Truthy(holder) && FindPlayer(st.players, holder.value).Some? then {holder.value} else {})
  }

  /** The ids assigned by the first `n` panels. */
  function AssignedIds(st: LobbyState, views: LobbyViews, n: nat): set<string>
    requires n <= 2
  {
    if n == 0 then {}
    else
      AssignedIds(st, views, n - 1) +
        (if Rendered(st, views, n - 1) then SeatedIds(st, st.submarines[n - 1], |RoleKeys|) else {})
  }

  /** A player is assigned exactly when they hold a role on a rendered panel and are a known player. */
  lemma {:induction false} AssignedMeansSeated(st: LobbyState, views: LobbyViews, id: string)
    ensures id in AssignedIds(st, views, 2) <==>
      FindPlayer(st.players, id).Some? && id != "" &&
      exists i, j :: 0 <= i < 2 && 0 <= j < |RoleKeys| && Rendered(st, views, i) &&
                     SubField(st.submarines[i], RoleKeys[j]) == Some(id)
  {
    assert AssignedIds(st, views, 1) ==
      (if Rendered(st, views, 0) then SeatedIds(st, st.submarines[0], |RoleKeys|) else {});
    if id in AssignedIds(st, views, 2) {
      var i := if id in AssignedIds(st, views, 1) then 0 else 1;
      assert Rendered(st, views, i) && id in SeatedIds(st, st.submarines[i], 4);
      var j := SeatedWitness(st, st.submarines[i], 4, id);
    }
    if FindPlayer(st.players, id).Some? && id != "" &&
       exists i, j :: 0 <= i < 2 && 0 <= j < |RoleKeys| && Rendered(st, views, i) &&
                      SubField(st.submarines[i], RoleKeys[j]) == Some(id) {
      var i, j :| 0 <= i < 2 && 0 <= j < |RoleKeys| && Rendered(st, views, i) &&
                  SubField(st.submarines[i], RoleKeys[j]) == Some(id);
      SeatedComplete(st, st.submarines[i], 4, j);
      assert AssignedIds(st, views, 1) <= AssignedIds(st, views, 2);
    }
  }

  lemma {:induction false} SeatedWitness(st: LobbyState, sub: LobbySub, n: nat, id: string) returns (j: nat)
    requires n <= |RoleKeys| && id in SeatedIds(st, sub, n)
    ensures j < n && SubField(sub, RoleKeys[j]) == Some(id) && id != "" && FindPlayer(st.players, id).Some?
  {
    if id in SeatedIds(st, sub, n - 1) {
      j := SeatedWitness(st, sub, n - 1, id);
    } else {
      j := n - 1;
    }
  }

  lemma {:induction false} SeatedComplete(st: LobbyState, sub: LobbySub, n: nat, j: nat)
    requires n <= |RoleKeys| && j < n
    requires Truthy(SubField(sub, RoleKeys[j])) && FindPlayer(st.players, SubField(sub, RoleKeys[j]).value).Some?
    ensures SubField(sub, RoleKeys[j]).value in SeatedIds(st, sub, n)
  {
    if j < n - 1 {
      SeatedComplete(st, sub, n - 1, j);
    }
  }

  /** `(p.connectionOrder || 0)`. */
  function OrderKey(p: LobbyPlayer): int {
    p.connectionOrder.GetOr(0)
  }

  predicate SortedByOrder(ps: seq<LobbyPlayer>) {
    forall i, j :: 0 <= i < j < |ps| ==> OrderKey(ps[i]) <= OrderKey(ps[j])
  }

  /** Inserts `p` before the first player whose key is not smaller, which keeps equal keys in input order. */
  function InsertByOrder(p: LobbyPlayer, ps: seq<LobbyPlayer>): (r: seq<LobbyPlayer>)
    ensures multiset(r) == multiset(ps) + multiset{p}
  {
    if ps == [] || OrderKey(ps[0]) >= OrderKey(p) then [p] + ps
    else
      assert ps == [ps[0]] + ps[1..];
      [ps[0]] + InsertByOrder(p, ps[1..])
  }

  lemma {:induction false} InsertKeepsSorted(p: LobbyPlayer, ps: seq<LobbyPlayer>)
    requires SortedByOrder(ps)
    ensures SortedByOrder(InsertByOrder(p, ps))
  {
    if ps != [] && OrderKey(ps[0]) < OrderKey(p) {
      var rest := InsertByOrder(p, ps[1..]);
      InsertKeepsSorted(p, ps[1..]);
      assert ps == [ps[0]] + ps[1..];
      forall k | 0 <= k < |rest| ensures OrderKey(ps[0]) <= OrderKey(rest[k]) {
        assert rest[k] in multiset(rest);
        assert rest[k] in multiset(ps[1..]) || rest[k] == p;
        if rest[k] != p {
          var m :| 0 <= m < |ps[1..]| && ps[1..][m] == rest[k];
          assert ps[m + 1] == rest[k];
        }
      }
      assert InsertByOrder(p, ps) == [ps[0]] + rest;
    }
  }

  /** Array.prototype.sort with the connectionOrder comparator (a stable sort). */
  function SortByOrder(ps: seq<LobbyPlayer>): (r: seq<LobbyPlayer>)
    ensures multiset(r) == multiset(ps)
    ensures SortedByOrder(r)
  {
    if ps == [] then []
    else
      assert ps == [ps[0]] + ps[1..];
      InsertKeepsSorted(ps[0], SortByOrder(ps[1..]));
      InsertByOrder(ps[0], SortByOrder(ps[1..]))
  }

  /** `players.filter(p => !assigned.has(p.id))`. */
  function Unassigned(players: seq<LobbyPlayer>, assignedIds: set<string>): (r: seq<LobbyPlayer>)
    ensures forall p :: p in r <==> p in players && p.id !in assignedIds
    ensures |r| <= |players|
  {
    if players == [] then []
    else (if players[0].id in assignedIds then [] else [players[0]]) + Unassigned(players[1..], assignedIds)
  }

  /** The unassigned list with each player's ready flag. */
  function ListedPlayers(st: LobbyState, ps: seq<LobbyPlayer>): (r: seq<Listed>)
    ensures |r| == |ps|
    ensures forall i :: 0 <= i < |ps| ==> r[i].player == ps[i] && (r[i].ready <==> ps[i].id in st.ready)
  {
    seq(|ps|, i requires 0 <= i < |ps| => Listed(ps[i], ps[i].id in st.ready))
  }

  /**
   * The unassigned panel's list: exactly the players who are not assigned,
   * ordered by connectionOrder, each with their ready flag.
   */
  function UnassignedList(st: LobbyState, assignedIds: set<string>): (r: seq<Listed>)
    ensures forall p :: p in st.players && p.id !in assignedIds <==> Listed(p, p.id in st.ready) in r
    ensures forall i :: 0 <= i < |r| ==> r[i].player in st.players && r[i].player.id !in assignedIds
    ensures forall i :: 0 <= i < |r| ==> (r[i].ready <==> r[i].player.id in st.ready)
    ensures forall i, j :: 0 <= i < j < |r| ==> OrderKey(r[i].player) <= OrderKey(r[j].player)
  {
    var sorted := SortByOrder(Unassigned(st.players, assignedIds));
    SortKeepsMembers(Unassigned(st.players, assignedIds));
    ListedPlayers(st, sorted)
  }

  lemma {:induction false} SortKeepsMembers(ps: seq<LobbyPlayer>)
    ensures forall p :: p in SortByOrder(ps) <==> p in ps
  {
    forall p ensures p in SortByOrder(ps) <==> p in ps {
      assert p in SortByOrder(ps) <==> p in multiset(SortByOrder(ps));
      assert p in ps <==> p in multiset(ps);
    }
  }

  /** The panel update of the i-th submarine, or None when it is not rendered. */
  function PanelOut(st: LobbyState, views: LobbyViews, i: nat): Option<PanelView>
    requires i < 2
  {
    if Rendered(st, views, i) then
      var sub := st.submarines[i];
      Some(PanelView(PanelName(sub, i), seq(|RoleKeys|, j requires 0 <= j < |RoleKeys| => SlotFor(st, sub, RoleKeys[j]))))
    else None
  }

  /** Everything one update shows. */
  function Render(st: LobbyState, selfId: Option<string>, views: LobbyViews): (r: LobbyRender)
    ensures |r.panels| == 2
    ensures forall i :: 0 <= i < 2 ==> (r.panels[i].Some? <==> Rendered(st, views, i))
    ensures forall i :: 0 <= i < 2 && Rendered(st, views, i) ==>
      |r.panels[i].value.slots| == |RoleKeys| &&
      forall j :: 0 <= j < |RoleKeys| ==> r.panels[i].value.slots[j] == SlotFor(st, st.submarines[i], RoleKeys[j])
    ensures r.playerName.Some? <==> views.playerName && selfId.Some? && FindPlayer(st.players, selfId.value).Some?
    ensures r.playerName.Some? ==> r.playerName == Some(FindPlayer(st.players, selfId.value).value.name)
    ensures r.unassigned.Some? <==> views.unassigned
    ensures views.unassigned ==> r.unassigned == Some(UnassignedList(st, AssignedIds(st, views, 2)))
  {
    var name := if views.playerName && selfId.Some? then
                  match FindPlayer(st.players, selfId.value)
                  case Some(p) => Some(p.name)
                  case None => None
                else None;
    LobbyRender(name, [PanelOut(st, views, 0), PanelOut(st, views, 1)],
                if views.unassigned then Some(UnassignedList(st, AssignedIds(st, views, 2))) else None)
  }

  /**
   * requestRoleSelection's effect: nothing when the cached state shows the slot
   * (sub 'A' is index 0, any other id index 1) already filled; otherwise a
   * select_role request for the internal role name.
   */
  function RoleRequest(state: Option<LobbyState>, subId: string, roleName: string): (r: Option<LobbyCall>)
    ensures r.None? <==>
      state.Some? && var idx := if subId == "A" then 0 else 1;
      idx < |state.value.submarines| && FieldTruthy(state.value.submarines[idx], DisplayToInternal(roleName))
    ensures r.Some? ==> r.value == SelectRoleCall(subId, DisplayToInternal(roleName))
  {
    var role := DisplayToInternal(roleName);
    if state.Some? then
      var idx := if subId == "A" then 0 else 1;
      if idx < |state.value.submarines| && FieldTruthy(state.value.submarines[idx], role) then None
      else Some(SelectRoleCall(subId, role))
    else Some(SelectRoleCall(subId, role))
  }

  /** The characters `String.prototype.trim` removes: WhiteSpace and LineTerminator. */
  predicate IsSpace(c: char) {
    c == '\t' || c == '\n' || c == '\U{000B}' || c == '\U{000C}' || c == '\r' || c == ' ' ||
    c == '\U{00A0}' || c == '\U{1680}' || ('\U{2000}' <= c <= '\U{200A}') ||
    c == '\U{2028}' || c == '\U{2029}' || c == '\U{202F}' || c == '\U{205F}' ||
    c == '\U{3000}' || c == '\U{FEFF}'
  }

  predicate AllSpace(s: string) {
    forall i :: 0 <= i < |s| ==> IsSpace(s[i])
  }

  /** The index of the first non-space character at or after `from`. */
  function SkipLeading(s: string, from: nat): (i: nat)
    requires from <= |s|
    ensures from <= i <= |s| && AllSpace(s[from..i]) && (i < |s| ==> !IsSpace(s[i]))
    decreases |s| - from
  {
    if from == |s| || !IsSpace(s[from]) then from else SkipLeading(s, from + 1)
  }

  /** The end of `s[..hi]` without its trailing spaces, never before `lo`. */
  function SkipTrailing(s: string, lo: nat, hi: nat): (j: nat)
    requires lo <= hi <= |s|
    ensures lo <= j <= hi && AllSpace(s[j..hi]) && (j > lo ==> !IsSpace(s[j - 1]))
    decreases hi
  {
    if hi == lo || !IsSpace(s[hi - 1]) then hi
    else
      var j := SkipTrailing(s, lo, hi - 1);
      assert s[j..hi] == s[j..hi - 1] + [s[hi - 1]];
      j
  }

  /** `s.trim()`: the middle of `s` between a space-only prefix and a space-only suffix. */
  function Trim(s: string): (r: string)
    ensures r == "" <==> AllSpace(s)
    ensures r != "" ==> !IsSpace(r[0]) && !IsSpace(r[|r| - 1])
    ensures exists i :: 0 <= i <= |s| - |r| && r == s[i..i + |r|] && AllSpace(s[..i]) && AllSpace(s[i + |r|..])
  {
    var i := SkipLeading(s, 0);
    var j := SkipTrailing(s, i, |s|);
    assert s[..i] == s[0..i];
    assert s[j..] == s[j..|s|];
    assert j == i ==> AllSpace(s);
    s[i..j]
  }

  /** requestNameChange's effect: a change_name request with the trimmed name, unless it is blank. */
  function NameRequest(newName: Option<string>): (r: Option<LobbyCall>)
    ensures r.None? <==> newName.None? || AllSpace(newName.value)
    ensures r.Some? ==> r.value == ChangeNameCall(Trim(newName.value)) && Trim(newName.value) != ""
  {
    if newName.None? || newName.value == "" || Trim(newName.value) == "" then None
    else Some(ChangeNameCall(Trim(newName.value)))
  }

  /** requestToggleReady's effect: not_ready when the player is ready, ready otherwise, nothing without a state. */
  function ToggleRequest(state: Option<LobbyState>, selfId: Option<string>): (r: Option<LobbyCall>)
    ensures state.None? <==> r.None?
    ensures state.Some? ==> (r == Some(NotReadyCall) <==> selfId.Some? && selfId.value in state.value.ready)
    ensures state.Some? ==> (r == Some(ReadyCall) <==> !(selfId.Some? && selfId.value in state.value.ready))
  {
    if state.None? then None
    else if selfId.Some? && selfId.value in state.value.ready then Some(NotReadyCall)
    else Some(ReadyCall)
  }

  /** Toggling twice against states that followed the first toggle sends ready and not_ready in turn. */
  lemma {:induction false} ToggleAlternates(st: LobbyState, id: string)
    ensures ToggleRequest(Some(st), Some(id)) == Some(ReadyCall) ==>
      ToggleRequest(Some(st.(ready := st.ready + [id])), Some(id)) == Some(NotReadyCall)
  {
  }

  class LobbyController {
    /** The last state received, as `this.state`. */
    var state: Option<LobbyState>
    /** The requests sent to socketManager, oldest first. */
    var calls: seq<LobbyCall>

    constructor()
      ensures state.None? && calls == []
    {
      state := None;
      calls := [];
    }

    /** The role slots of one panel, and the ids seated there. */
    method UpdatePanel(st: LobbyState, i: nat) returns (slots: seq<SlotView>, seated: set<string>)
      requires i < |st.submarines|
      ensures slots == seq(|RoleKeys|, j requires 0 <= j < |RoleKeys| => SlotFor(st, st.submarines[i], RoleKeys[j]))
      ensures seated == SeatedIds(st, st.submarines[i], |RoleKeys|)
    {
      var sub := st.submarines[i];
      slots := [];
      seated := {};
      for j := 0 to |RoleKeys|
        invariant |slots| == j
        invariant forall k :: 0 <= k < j ==> slots[k] == SlotFor(st, sub, RoleKeys[k])
        invariant seated == SeatedIds(st, sub, j)
      {
        var role := RoleKeys[j];
        var holder := SubField(sub, role);
        if Truthy(holder) {
          var player := FindPlayer(st.players, holder.value);
          if player.Some? {
            slots := slots + [Seated(InternalToDisplay(role), player.value, holder.value in st.ready)];
            seated := seated + {holder.value};
          } else {
            slots := slots + [Unrendered(InternalToDisplay(role))];
          }
        } else {
          slots := slots + [Vacated(InternalToDisplay(role))];
        }
      }
    }

    /** update: caches the state and computes every renderer call; a missing state is ignored. */
    method Update(s: Option<LobbyState>, selfId: Option<string>, views: LobbyViews) returns (render: Option<LobbyRender>)
      modifies this
      ensures s.None? ==> state == old(state) && render.None?
      ensures s.Some? ==> state == s && render == Some(Render(s.value, selfId, views))
      ensures calls == old(calls)
    {
      if s.None? {
        return None;
      }
      var st := s.value;
      state := s;
      var name: Option<string> := None;
      if selfId.Some? {
        var client := FindPlayer(st.players, selfId.value);
        if client.Some? && views.playerName {
          name := Some(client.value.name);
        }
      }
      var assignedIds: set<string> := {};
      var panels: seq<Option<PanelView>> := [];
      for i := 0 to 2
        invariant |panels| == i
        invariant forall k :: 0 <= k < i ==> panels[k] == PanelOut(st, views, k)
        invariant assignedIds == AssignedIds(st, views, i)
        invariant state == s && calls == old(calls)
      {
        if i < |st.submarines| && PanelPresent(views, i) {
          var slots, seated := UpdatePanel(st, i);
          panels := panels + [Some(PanelView(PanelName(st.submarines[i], i), slots))];
          assignedIds := assignedIds + seated;
        } else {
          panels := panels + [None];
        }
      }
      assert panels == [PanelOut(st, views, 0), PanelOut(st, views, 1)];
      var listed := if views.unassigned then Some(UnassignedList(st, assignedIds)) else None;
      render := Some(LobbyRender(name, panels, listed));
    }

    method RequestRoleSelection(subId: string, roleName: string)
      modifies this
      ensures state == old(state)
      ensures calls == old(calls) + match RoleRequest(old(state), subId, roleName)
                                    case Some(c) => [c]
                                    case None => []
    {
      if state.Some? {
        var subIndex := if subId == "A" then 0 else 1;
        var internalRole := DisplayToInternal(roleName);
        if subIndex < |state.value.submarines| && FieldTruthy(state.value.submarines[subIndex], internalRole) {
          return;
        }
      }
      calls := calls + [SelectRoleCall(subId, DisplayToInternal(roleName))];
    }

    method RequestVacate()
      modifies this
      ensures state == old(state) && calls == old(calls) + [LeaveRoleCall]
    {
      calls := calls + [LeaveRoleCall];
    }

    method RequestNameChange(newName: Option<string>)
      modifies this
      ensures state == old(state)
      ensures calls == old(calls) + match NameRequest(newName)
                                    case Some(c) => [c]
                                    case None => []
    {
      if newName.None? || newName.value == "" || Trim(newName.value) == "" {
        return;
      }
      calls := calls + [ChangeNameCall(Trim(newName.value))];
    }

    /** requestToggleReady, with socketManager's player id as a parameter. */
    method RequestToggleReady(selfId: Option<string>)
      modifies this
      ensures state == old(state)
      ensures calls == old(calls) + match ToggleRequest(old(state), selfId)
                                    case Some(c) => [c]
                                    case None => []
    {
      if state.None? {
        return;
      }
      var isReady := selfId.Some? && selfId.value in state.value.ready;
      if isReady {
        calls := calls + [NotReadyCall];
      } else {
        calls := calls + [ReadyCall];
      }
    }
  }
}

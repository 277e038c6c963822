/** Maps an interrupt to the options of its overlay: title, message and buttons. */
module InterruptUI {
  import opened Wrappers
  import opened InterruptManager

  datatype ButtonOverride = ButtonOverride(caption: string, color: int)

  datatype UIOptions = UIOptions(
    kind: string,
    title: string,
    message: string,
    availableButtons: seq<string>,
    buttonOverrides: map<string, ButtonOverride>,
    isReady: bool,
    /** Absent unless a specialised configuration sets it. */
    showReadyIndicator: Option<bool>)

  const DefaultMessage: string := "Please wait..."
  const QuitColor: int := 0xdc2626
  const SurrenderColor: int := 0x991b1b

  /** Every '_' replaced by a space. */
  function ReplaceUnderscores(s: string): (r: string)
    ensures |r| == |s|
    ensures forall i :: 0 <= i < |s| ==> r[i] == (if s[i] == '_' then ' ' else s[i])
  {
    if s == [] then [] else [if s[0] == '_' then ' ' else s[0]] + ReplaceUnderscores(s[1..])
  }

  /** After the replacement no underscore is left. */
  lemma {:induction false} NoUnderscoreLeft(s: string)
    ensures '_' !in ReplaceUnderscores(s)
  {
  }

  /** Upper-casing of the ASCII letters. */
  function ToUpper(s: string): (r: string)
    ensures |r| == |s|
    ensures forall i :: 0 <= i < |s| ==>
      r[i] == (if 'a' <= s[i] <= 'z' then (s[i] as int - 32) as char else s[i])
  {
    if s == [] then []
    else [if 'a' <= s[0] <= 'z' then (s[0] as int - 32) as char else s[0]] + ToUpper(s[1..])
  }

  /** The payload's message, or the default when it is missing or empty (falsy). */
  function MessageOf(payload: map<string, string>): string {
    if "message" in payload && payload["message"] != "" then payload["message"] else DefaultMessage
  }

  /** A text containing a pattern is at least as long as the pattern. */
  lemma {:induction false} ContainsNotShorter(s: string, sub: string)
    requires Contains(s, sub)
    ensures |sub| <= |s|
    decreases |s|
  {
    if !(sub <= s) {
      ContainsNotShorter(s[1..], sub);
    }
  }

  /**
   * The pause test of getInterruptUIOptions: the PAUSE type itself, or a title that
   * mentions PAUSE once upper-cased, which takes at least five characters.
   */
  function IsPauseLike(kind: string): (r: bool)
    ensures kind == "PAUSE" ==> r
    ensures r ==> |kind| >= 5
  {
    var upper := ToUpper(ReplaceUnderscores(kind));
    if Contains(upper, "PAUSE") then ContainsNotShorter(upper, "PAUSE"); true
    else kind == "PAUSE"
  }

  function GetInterruptUIOptions(interrupt: Interrupt, isReady: bool, textColor: int): (o: UIOptions)
    ensures o.kind == interrupt.kind && o.isReady == isReady
    ensures IsPauseLike(interrupt.kind) ==>
      o.title == "GAME PAUSED" && o.message == "Click ready to resume..." &&
      o.availableButtons == ["pause", "abort", "surrender"] &&
      o.showReadyIndicator == Some(true) &&
      o.buttonOverrides == map["pause" := ButtonOverride("READY", textColor),
                               "abort" := ButtonOverride("QUIT", QuitColor),
                               "surrender" := ButtonOverride("SURRENDER", SurrenderColor)]
    ensures !IsPauseLike(interrupt.kind) && interrupt.kind == "PLAYER_DISCONNECT" ==>
      o.title == "PLAYER DISCONNECT" && o.message == "Waiting for reconnection..." &&
      o.availableButtons == [] && o.buttonOverrides == map[] && o.showReadyIndicator == Some(true)
    ensures !IsPauseLike(interrupt.kind) && interrupt.kind != "PLAYER_DISCONNECT" ==>
      o.title == ReplaceUnderscores(interrupt.kind) && o.message == MessageOf(interrupt.payload) &&
      o.availableButtons == [] && o.buttonOverrides == map[] && o.showReadyIndicator == None
  {
    var kind := interrupt.kind;
    var defaults := UIOptions(kind, ReplaceUnderscores(kind), MessageOf(interrupt.payload),
                              [], map[], isReady, None);
    if kind == "PAUSE" || Contains(ToUpper(defaults.title), "PAUSE") then
      defaults.(title := "GAME PAUSED", message := "Click ready to resume...",
                availableButtons := ["pause", "abort", "surrender"],
                showReadyIndicator := Some(true),
                buttonOverrides := map["pause" := ButtonOverride("READY", textColor),
                                       "abort" := ButtonOverride("QUIT", QuitColor),
                                       "surrender" := ButtonOverride("SURRENDER", SurrenderColor)])
    else if kind == "PLAYER_DISCONNECT" then
      defaults.(title := "PLAYER DISCONNECT", message := "Waiting for reconnection...",
                showReadyIndicator := Some(true))
    else defaults
  }

  /** A text lacking one of the pattern's characters cannot contain it. */
  lemma {:induction false} MissingCharNoContains(s: string, sub: string, c: char)
    requires c in sub && c !in s
    ensures !Contains(s, sub)
  {
    if s != [] {
      MissingCharNoContains(s[1..], sub, c);
    }
  }

  /** A type without the letter U (either case) is never taken for a pause. */
  lemma {:induction false} NoUNoPause(k: string)
    requires 'U' !in k && 'u' !in k
    ensures !IsPauseLike(k)
  {
    var pause := "PAUSE";
    assert pause == ['P', 'A', 'U', 'S', 'E'];
    assert pause[2] == 'U';
    var t := ToUpper(ReplaceUnderscores(k));
    assert 'U' !in t by {
      forall i | 0 <= i < |t|
        ensures t[i] != 'U'
      {
        assert k[i] in k;
      }
    }
    MissingCharNoContains(t, pause, 'U');
  }

  /** PLAYER_DISCONNECT is not mistaken for a pause, so it gets its own overlay. */
  lemma {:induction false} DisconnectIsNotPause()
    ensures !IsPauseLike("PLAYER_DISCONNECT")
  {
    NoUNoPause("PLAYER_DISCONNECT");
  }

  /** A pattern found at position i of a text is contained in it. */
  lemma {:induction false} ContainsAt(s: string, i: nat, sub: string)
    requires i <= |s| && sub <= s[i..]
    ensures Contains(s, sub)
  {
    if i > 0 {
      assert s[1..][i - 1..] == s[i..];
      ContainsAt(s[1..], i - 1, sub);
    }
  }

  /** A type with PAUSE written in it at position i is taken for a pause. */
  lemma {:induction false} PauseWrittenAt(k: string, i: nat)
    requires i + 5 <= |k| && k[i..i + 5] == "PAUSE"
    ensures IsPauseLike(k)
  {
    var t := ToUpper(ReplaceUnderscores(k));
    var pause := "PAUSE";
    forall j | 0 <= j < 5
      ensures t[i..][j] == pause[j]
    {
      assert k[i + j] == k[i..i + 5][j] == pause[j];
    }
    ContainsAt(t, i, pause);
  }

  /** Any type whose title mentions PAUSE, such as GAME_PAUSE, gets the pause overlay. */
  lemma {:induction false} GamePauseIsPause()
    ensures IsPauseLike("GAME_PAUSE")
  {
    PauseWrittenAt("GAME_PAUSE", 5);
  }
}

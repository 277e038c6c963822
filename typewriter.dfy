/** The typewriter text effect: a cursor over the full text, a per-character timer and line-break pauses. */
module Typewriter {
  import opened Wrappers

  /** A call on the audio manager: start the looping teletype sound, or stop it. */
  datatype AudioCall = PlayTeletypeLoop | StopTeletype

  /** The fields update, start, pause and clear work on; `shown` is the Text object's text. */
  datatype TypeVars = TypeVars(
    index: nat, timer: int, isDone: bool, isPlaying: bool,
    isPaused: bool, pauseTimer: int, shown: string, audio: seq<AudioCall>)

  /** The text shown is the revealed prefix of the full text, and a finished cursor is at its end. */
  predicate CursorOk(v: TypeVars, fullText: string) {
    v.index <= |fullText| && v.shown == fullText[..v.index] &&
    (v.isDone ==> v.index == |fullText|)
  }

  function Initial(): TypeVars {
    TypeVars(0, 0, false, false, false, 0, "", [])
  }

  /** start: a stopped typewriter starts playing with the looping sound. */
  function Started(v: TypeVars): (r: TypeVars)
    ensures r.isPlaying && r.index == v.index && r.shown == v.shown && r.isDone == v.isDone
    ensures v.isPlaying ==> r == v
  {
    if v.isPlaying then v else v.(isPlaying := true, audio := v.audio + [PlayTeletypeLoop])
  }

  /** pause: a playing typewriter pauses for `duration` and its sound stops. */
  function Paused(v: TypeVars, duration: int): (r: TypeVars)
    ensures !v.isPlaying ==> r == v
    ensures v.isPlaying ==> r.isPaused && r.pauseTimer == duration && r.audio == v.audio + [StopTeletype]
    ensures r.index == v.index && r.shown == v.shown && r.isDone == v.isDone && r.isPlaying == v.isPlaying
  {
    if !v.isPlaying then v else v.(isPaused := true, pauseTimer := duration, audio := v.audio + [StopTeletype])
  }

  /**
   * update(deltaMS): nothing when done or stopped; while paused only the
   * pause timer runs down; otherwise, each time the timer reaches `speed`, one
   * more character is revealed (a line break pausing the typing), and once
   * the whole text is out the typewriter finishes.
   */
  function Tick(v: TypeVars, fullText: string, speed: int, lineBreakPause: int, deltaMS: int): (r: TypeVars)
    requires CursorOk(v, fullText)
    ensures CursorOk(r, fullText)
    ensures r.index == v.index || (r.index == v.index + 1 && !v.isPaused)
    ensures v.isDone || !v.isPlaying ==> r == v
    ensures v.isPaused && !v.isDone && v.isPlaying ==>
      r.index == v.index && r.timer == v.timer && r.pauseTimer == v.pauseTimer - deltaMS &&
      (r.isPaused <==> r.pauseTimer > 0) && !r.isDone && r.isPlaying
    ensures !v.isPaused && !v.isDone && v.isPlaying && v.timer + deltaMS < speed ==>
      r == v.(timer := v.timer + deltaMS)
    ensures !v.isPaused && !v.isDone && v.isPlaying && v.timer + deltaMS >= speed ==>
      r.timer == 0 &&
      (v.index < |fullText| ==> r.index == v.index + 1 && (r.isPaused <==> fullText[v.index] == '\n') && !r.isDone) &&
      (v.index < |fullText| && fullText[v.index] == '\n' ==> r.pauseTimer == lineBreakPause && r.audio == v.audio + [StopTeletype]) &&
      (v.index == |fullText| ==> r.isDone && !r.isPlaying && r.audio == v.audio + [StopTeletype])
  {
    if v.isDone || !v.isPlaying then v
    else if v.isPaused then
      var counted := v.(pauseTimer := v.pauseTimer - deltaMS);
      if counted.pauseTimer <= 0 then
        counted.(isPaused := false, audio := counted.audio + [PlayTeletypeLoop])
      else counted
    else
      var timed := v.(timer := v.timer + deltaMS);
      if timed.timer >= speed then
        var reset := timed.(timer := 0);
        if reset.index < |fullText| then
          var ch := fullText[reset.index];
          var afterPause := if ch == '\n' then Paused(reset, lineBreakPause) else reset;
          assert fullText[..afterPause.index + 1] == fullText[..afterPause.index] + [fullText[afterPause.index]];
          afterPause.(index := afterPause.index + 1, shown := fullText[..afterPause.index + 1])
        else
          reset.(isDone := true, isPlaying := false, audio := reset.audio + [StopTeletype])
      else timed
  }

  /** clear: back to an empty, stopped cursor; the character timer is left as it was. */
  function Cleared(v: TypeVars): (r: TypeVars)
    ensures r == Initial().(timer := v.timer, audio := v.audio + [StopTeletype])
  {
    v.(shown := "", index := 0, isDone := false, isPlaying := false, isPaused := false, pauseTimer := 0,
       audio := v.audio + [StopTeletype])
  }

  /** `n` updates of `deltaMS` each. */
  function Ticks(v: TypeVars, fullText: string, speed: int, lineBreakPause: int, deltaMS: int, n: nat): (r: TypeVars)
    requires CursorOk(v, fullText)
    ensures CursorOk(r, fullText)
    decreases n
  {
    if n == 0 then v else Ticks(Tick(v, fullText, speed, lineBreakPause, deltaMS), fullText, speed, lineBreakPause, deltaMS, n - 1)
  }

  predicate NoLineBreak(s: string) {
    forall i :: 0 <= i < |s| ==> s[i] != '\n'
  }

  /**
   * A playing, unpaused typewriter over text without line breaks, updated by
   * steps of at least `speed`, finishes after one update per remaining
   * character and one more.
   */
  lemma {:induction false} TypingCompletes(v: TypeVars, fullText: string, speed: int, lineBreakPause: int, deltaMS: int)
    requires CursorOk(v, fullText) && NoLineBreak(fullText)
    requires v.isPlaying && !v.isPaused && !v.isDone && v.timer >= 0 && 0 <= speed <= deltaMS
    ensures var r := Ticks(v, fullText, speed, lineBreakPause, deltaMS, |fullText| - v.index + 1);
      r.isDone && !r.isPlaying && r.shown == fullText
    decreases |fullText| - v.index
  {
    var w := Tick(v, fullText, speed, lineBreakPause, deltaMS);
    if v.index < |fullText| {
      assert fullText[v.index] != '\n';
      TypingCompletes(w, fullText, speed, lineBreakPause, deltaMS);
    } else {
      assert fullText[..|fullText|] == fullText;
    }
  }

  class TypewriterText {
    const fullText: string
    const speed: int
    const lineBreakPause: int
    var index: nat
    var timer: int
    var isDone: bool
    var isPlaying: bool
    var isPaused: bool
    var pauseTimer: int
    var shown: string
    var audio: seq<AudioCall>

    function Vars(): TypeVars
      reads this
    {
      TypeVars(index, timer, isDone, isPlaying, isPaused, pauseTimer, shown, audio)
    }

    ghost predicate Valid()
      reads this
    {
      CursorOk(Vars(), fullText)
    }

    /** The speed defaults to 40 ms a character and the line-break pause to 1000 ms. */
    constructor(text: string, speed: Option<int>, lineBreakPause: Option<int>)
      ensures Valid() && fullText == text && Vars() == Initial()
      ensures this.speed == (if speed.Some? && speed.value != 0 then speed.value else 40)
      ensures this.lineBreakPause == (if lineBreakPause.Some? && lineBreakPause.value != 0 then lineBreakPause.value else 1000)
    {
      fullText := text;
      this.speed := if speed.Some? && speed.value != 0 then speed.value else 40;
      this.lineBreakPause := if lineBreakPause.Some? && lineBreakPause.value != 0 then lineBreakPause.value else 1000;
      index := 0;
      timer := 0;
      isDone := false;
      isPlaying := false;
      isPaused := false;
      pauseTimer := 0;
      shown := "";
      audio := [];
    }

    method Start()
      requires Valid()
      modifies this
      ensures Valid() && Vars() == Started(old(Vars()))
    {
      if isPlaying {
        return;
      }
      isPlaying := true;
      audio := audio + [PlayTeletypeLoop];
    }

    method Pause(duration: int)
      requires Valid()
      modifies this
      ensures Valid() && Vars() == Paused(old(Vars()), duration)
    {
      if !isPlaying {
        return;
      }
      isPaused := true;
      pauseTimer := duration;
      audio := audio + [StopTeletype];
    }

    method Update(deltaMS: int)
      requires Valid()
      modifies this
      ensures Valid() && Vars() == Tick(old(Vars()), fullText, speed, lineBreakPause, deltaMS)
    {
      if isDone || !isPlaying {
        return;
      }
      if isPaused {
        pauseTimer := pauseTimer - deltaMS;
        if pauseTimer <= 0 {
          isPaused := false;
          if !isDone {
            audio := audio + [PlayTeletypeLoop];
          }
        }
        return;
      }
      timer := timer + deltaMS;
      if timer >= speed {
        timer := 0;
        if index < |fullText| {
          var ch := fullText[index];
          if ch == '\n' {
            Pause(lineBreakPause);
          }
          index := index + 1;
          shown := fullText[..index];
        } else {
          isDone := true;
          isPlaying := false;
          audio := audio + [StopTeletype];
        }
      }
    }

    method Clear()
      requires Valid()
      modifies this
      ensures Valid() && Vars() == Cleared(old(Vars()))
    {
      shown := "";
      index := 0;
      isDone := false;
      isPlaying := false;
      isPaused := false;
      pauseTimer := 0;
      audio := audio + [StopTeletype];
    }
  }
}

/**
 * The Pomodoro timer (frontend/src/components/StopWatch.jsx).  Its state is
 * the remaining time in milliseconds, the three durations, the mode and the
 * running flag, plus what the finish branch shows and how many times it asked
 * the store to count a completed pomodoro.  React runs the timer's effect
 * after every render in which isRunning or time changed; `Render` models one
 * such render, and `Tick` one firing of the one-second interval.
 */
module StopWatch {
  import opened Text

  datatype Mode = Pomodoro | Break | LongBreak

  const PomodoroImage: string := "GoodJob.gif"
  const BreakImage: string := "clockRun.gif"

  /** String(x).padStart(2, '0'). */
  function Pad(x: int): string { PadStart(IntToString(x), 2, '0') }

  /** The whole-millisecond fields formatTime shows: hours, minutes of the hour, seconds of the minute. */
  function Hours(ms: int): int { (ms / 60000) / 60 }
  function Minutes(ms: int): int { JsRem(ms / 60000, 60) }
  function Seconds(ms: int): int { JsRem(ms, 60000) / 1000 }

  /** formatTime: `HH : MM:SS` when there are whole hours, otherwise `MM : SS`. */
  function FormatTime(ms: int): string
  {
    if Hours(ms) > 0 then Pad(Hours(ms)) + " : " + Pad(Minutes(ms)) + ":" + Pad(Seconds(ms))
    else Pad(Minutes(ms)) + " : " + Pad(Seconds(ms))
  }

  /** For a non-negative time the fields are in range and add up to the whole seconds. */
  lemma FormatTimeFields(ms: int)
    requires ms >= 0
    ensures 0 <= Minutes(ms) < 60 && 0 <= Seconds(ms) < 60 && Hours(ms) >= 0
    ensures Hours(ms) * 3600 + Minutes(ms) * 60 + Seconds(ms) == ms / 1000
    ensures Hours(ms) > 0 <==> ms >= 3600000
  {
    var totalMinutes := ms / 60000;
    assert ms == totalMinutes * 60000 + ms % 60000;
    assert totalMinutes == Hours(ms) * 60 + Minutes(ms);
    assert ms / 1000 == totalMinutes * 60 + (ms % 60000) / 1000;
  }

  /** Below an hour every field is two zero-padded digits. */
  lemma FormatTimeUnderAnHour(ms: int)
    requires 0 <= ms < 3600000
    ensures FormatTime(ms) == Pad2(Minutes(ms)) + " : " + Pad2(Seconds(ms))
  {
    FormatTimeFields(ms);
  }

  /** The component's state, as one record. */
  datatype Snapshot = Snapshot(
    time: int, initialTime: int, breakTime: int, longBreakTime: int, mode: Mode, running: bool,
    alarm: bool, showAlert: bool, showFinish: bool, finishImage: string, pomodoroUpdates: nat,
    seenRunning: bool, seenTime: int)

  /** The state on mount: 20 minutes on the clock, though the pomodoro duration is 1 minute. */
  const Initial := Snapshot(20 * 60 * 1000, 1 * 60 * 1000, 5 * 60 * 1000, 15 * 60 * 1000, Pomodoro, false,
                            false, false, false, "", 0, false, 20 * 60 * 1000)

  /** The duration handleReset restores for a mode. */
  function Duration(s: Snapshot, m: Mode): int
  {
    match m
    case Pomodoro => s.initialTime
    case Break => s.breakTime
    case LongBreak => s.longBreakTime
  }

  /** handleReset: the current mode's duration, stopped. */
  function Reset(s: Snapshot): (r: Snapshot)
    ensures r.time == Duration(s, s.mode) && !r.running
    ensures r.(time := s.time, running := s.running) == s
  {
    s.(time := Duration(s, s.mode), running := false)
  }

  /** handleSelectTimer: new durations, the pomodoro one on the clock, pomodoro mode, stopped. */
  function SelectTimer(s: Snapshot, pomodoro: int, short: int, long: int): (r: Snapshot)
    ensures r.initialTime == pomodoro && r.time == pomodoro && r.breakTime == short && r.longBreakTime == long
    ensures r.mode == Pomodoro && !r.running
    ensures r.(time := s.time, initialTime := s.initialTime, breakTime := s.breakTime,
               longBreakTime := s.longBreakTime, mode := s.mode, running := s.running) == s
  {
    s.(initialTime := pomodoro, time := pomodoro, breakTime := short, longBreakTime := long, mode := Pomodoro,
       running := false)
  }

  /**
   * handlePomodoroClick / handleBreaksClick / handleLongBreaksClick as written:
   * the reset they call while running reads the mode from before the click, so
   * its duration is what ends up on the clock.
   */
  function ModeClickAsWritten(s: Snapshot, m: Mode): (r: Snapshot)
    ensures r.mode == m && !r.running
  {
    s.(mode := m, time := if s.running then Duration(s, s.mode) else Duration(s, m), running := false)
  }

  /** Clicking Pomodoro while a break runs leaves the break's duration on the pomodoro clock. */
  lemma ModeClickKeepsOldDuration(s: Snapshot)
    requires s.running && s.mode == Break && s.breakTime != s.initialTime
    ensures ModeClickAsWritten(s, Pomodoro).mode == Pomodoro
    ensures ModeClickAsWritten(s, Pomodoro).time == s.breakTime != Duration(s, Pomodoro)
  {
  }

  /** The corrected mode buttons: the chosen mode, its own duration, stopped. */
  function ModeClick(s: Snapshot, m: Mode): (r: Snapshot)
    ensures r.mode == m && !r.running && r.time == Duration(s, m)
    ensures r.(mode := s.mode, time := s.time, running := s.running) == s
  {
    s.(mode := m, time := Duration(s, m), running := false)
  }

  /** Clicking the same mode button again changes nothing. */
  lemma ModeClickIdempotent(s: Snapshot, m: Mode)
    ensures ModeClick(ModeClick(s, m), m) == ModeClick(s, m)
  {
  }

  /** One firing of the interval: a second less while running with time left. */
  function TickStep(s: Snapshot): (r: Snapshot)
    ensures s.running && s.time > 0 ==> r == s.(time := s.time - 1000)
    ensures !(s.running && s.time > 0) ==> r == s
  {
    if s.running && s.time > 0 then s.(time := s.time - 1000) else s
  }

  /** The finish branch: stop, ring, show the message; a finished pomodoro is counted in the store. */
  function Finish(s: Snapshot): (r: Snapshot)
    ensures !r.running && r.alarm && r.showFinish
    ensures r.pomodoroUpdates == s.pomodoroUpdates + (if s.mode == Pomodoro then 1 else 0)
    ensures r.finishImage == (if s.mode == Pomodoro then PomodoroImage else BreakImage)
  {
    s.(running := false, alarm := true, showFinish := true,
       finishImage := if s.mode == Pomodoro then PomodoroImage else BreakImage,
       pomodoroUpdates := s.pomodoroUpdates + (if s.mode == Pomodoro then 1 else 0))
  }

  /** The halfway alert: pomodoro mode, exactly half the pomodoro duration left, not already shown. */
  function HalfwayCheck(s: Snapshot): (r: Snapshot)
    ensures r.showAlert <==> s.showAlert || (s.mode == Pomodoro && 2 * s.time == s.initialTime)
    ensures r.(showAlert := s.showAlert) == s
  {
    if s.mode == Pomodoro && 2 * s.time == s.initialTime && !s.showAlert then s.(showAlert := true) else s
  }

  /** The timer effect's body as written: at time <= 0 it finishes whether or not the timer was running. */
  function EffectAsWritten(s: Snapshot): (r: Snapshot)
    ensures r.pomodoroUpdates == s.pomodoroUpdates + (if s.time <= 0 && s.mode == Pomodoro then 1 else 0)
    ensures s.time > 0 && !s.running ==> r == s
  {
    if s.running && s.time > 0 then HalfwayCheck(s)
    else if s.time <= 0 then Finish(s)
    else s
  }

  /** The corrected effect body: only a running timer can finish. */
  function Effect(s: Snapshot): (r: Snapshot)
    ensures r.pomodoroUpdates == s.pomodoroUpdates + (if s.running && s.time <= 0 && s.mode == Pomodoro then 1 else 0)
    ensures !s.running ==> r == s
  {
    if s.running && s.time > 0 then HalfwayCheck(s)
    else if s.time <= 0 && s.running then Finish(s)
    else s
  }

  /** Whether the effect's dependencies changed since it last ran. */
  predicate DepsChanged(s: Snapshot) { s.running != s.seenRunning || s.time != s.seenTime }

  /** One render with the effect as written. */
  function RenderAsWritten(s: Snapshot): (r: Snapshot)
    ensures !DepsChanged(s) ==> r == s
    ensures DepsChanged(s) && s.time <= 0 ==> !r.running && r.showFinish
  {
    if DepsChanged(s) then EffectAsWritten(s.(seenRunning := s.running, seenTime := s.time)) else s
  }

  /** One render: the effect runs, with the dependencies recorded, when they changed. */
  function RenderStep(s: Snapshot): (r: Snapshot)
    ensures !DepsChanged(s) ==> r == s
  {
    if DepsChanged(s) then Effect(s.(seenRunning := s.running, seenTime := s.time)) else s
  }

  /** The moment a running pomodoro reaches zero, before the render that sees it. */
  predicate JustRanOut(s: Snapshot)
  {
    s.running && s.time <= 0 && s.mode == Pomodoro && s.seenRunning && s.seenTime > 0
  }

  /**
   * As written, the finish branch stops the timer, which changes isRunning, so
   * the effect runs again, finds time <= 0 and finishes a second time: one
   * pomodoro is counted twice before the renders settle.
   */
  lemma FinishCountsTwiceAsWritten(s: Snapshot)
    requires JustRanOut(s)
    ensures RenderAsWritten(RenderAsWritten(s)).pomodoroUpdates == s.pomodoroUpdates + 2
    ensures RenderAsWritten(RenderAsWritten(RenderAsWritten(s))) == RenderAsWritten(RenderAsWritten(s))
  {
  }

  /** With the corrected effect a pomodoro that runs out is counted once and the renders settle. */
  lemma FinishCountsOnce(s: Snapshot)
    requires JustRanOut(s)
    ensures RenderStep(s).pomodoroUpdates == s.pomodoroUpdates + 1 && !RenderStep(s).running && RenderStep(s).showFinish
    ensures RenderStep(RenderStep(s)).pomodoroUpdates == s.pomodoroUpdates + 1
    ensures RenderStep(RenderStep(RenderStep(s))) == RenderStep(RenderStep(s))
  {
  }

  /** A break never counts a pomodoro, however many renders follow. */
  lemma BreakNeverCounts(s: Snapshot)
    requires s.mode != Pomodoro
    ensures RenderStep(s).pomodoroUpdates == s.pomodoroUpdates && RenderStep(s).mode == s.mode
  {
  }

  class Watch {
    var time: int
    var initialTime: int
    var breakTime: int
    var longBreakTime: int
    var mode: Mode
    var running: bool
    var alarm: bool
    var showAlert: bool
    var showFinish: bool
    var finishImage: string
    var pomodoroUpdates: nat
    var seenRunning: bool
    var seenTime: int

    function State(): Snapshot
      reads this
    {
      Snapshot(time, initialTime, breakTime, longBreakTime, mode, running, alarm, showAlert, showFinish,
               finishImage, pomodoroUpdates, seenRunning, seenTime)
    }

    constructor ()
      ensures State() == Initial
    {
      time, initialTime, breakTime, longBreakTime := 20 * 60 * 1000, 1 * 60 * 1000, 5 * 60 * 1000, 15 * 60 * 1000;
      mode, running, alarm, showAlert, showFinish := Pomodoro, false, false, false, false;
      finishImage, pomodoroUpdates, seenRunning, seenTime := "", 0, false, 20 * 60 * 1000;
    }

    method HandleStart()
      modifies this
      ensures State() == old(State()).(running := true)
    {
      running := true;
    }

    method HandleStop()
      modifies this
      ensures State() == old(State()).(running := false)
    {
      running := false;
    }

    method HandleReset()
      modifies this
      ensures State() == Reset(old(State()))
    {
      match mode {
        case Pomodoro => time := initialTime;
        case Break => time := breakTime;
        case LongBreak => time := longBreakTime;
      }
      running := false;
    }

    /** The three mode buttons, corrected to put the chosen mode's own duration on the clock. */
    method HandleModeClick(m: Mode)
      modifies this
      ensures State() == ModeClick(old(State()), m)
    {
      var wasRunning := running;
      mode := m;
      match m {
        case Pomodoro => time := initialTime;
        case Break => time := breakTime;
        case LongBreak => time := longBreakTime;
      }
      if wasRunning {
        HandleReset();
      }
    }

    method HandleSelectTimer(pomodoro: int, short: int, long: int)
      modifies this
      ensures State() == SelectTimer(old(State()), pomodoro, short, long)
    {
      initialTime := pomodoro;
      time := pomodoro;
      breakTime := short;
      longBreakTime := long;
      mode := Pomodoro;
      running := false;
    }

    /** handleCloseFinishMessage: hide the message and put the pomodoro duration back. */
    method HandleCloseFinishMessage()
      modifies this
      ensures State() == old(State()).(showFinish := false, time := old(initialTime))
    {
      showFinish := false;
      time := initialTime;
    }

    /** The alarm's five-second timeout. */
    method AlarmTimeout()
      modifies this
      ensures State() == old(State()).(alarm := false)
    {
      alarm := false;
    }

    method Tick()
      modifies this
      ensures State() == TickStep(old(State()))
    {
      if running && time > 0 {
        time := time - 1000;
      }
    }

    method Render()
      modifies this
      ensures State() == RenderStep(old(State()))
    {
      if running != seenRunning || time != seenTime {
        seenRunning, seenTime := running, time;
        RunEffect();
      }
    }

    /** The effect's body, with the finish branch only for a running timer. */
    method RunEffect()
      modifies this
      ensures State() == Effect(old(State()))
    {
      if running && time > 0 {
        CheckHalfway();
      } else if time <= 0 && running {
        FinishNow();
      }
    }

    method CheckHalfway()
      modifies this
      ensures State() == HalfwayCheck(old(State()))
    {
      if mode == Pomodoro && 2 * time == initialTime && !showAlert {
        showAlert := true;
      }
    }

    method FinishNow()
      modifies this
      ensures State() == Finish(old(State()))
    {
      running := false;
      alarm := true;
      finishImage := if mode == Pomodoro then PomodoroImage else BreakImage;
      if mode == Pomodoro {
        pomodoroUpdates := pomodoroUpdates + 1;
      }
      showFinish := true;
    }
  }
}

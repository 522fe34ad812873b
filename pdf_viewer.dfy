/**
 * The exam timer of the essay-paper viewer (frontend/src/pages/Adminquiz/PdfViewerPage.jsx):
 * a count of seconds with a running and a paused flag.  The page wires Start,
 * Pause and Reset buttons; `toggleTimer` is defined beside them.
 */
module PdfViewer {
  import opened Text

  /** The full exam time in seconds (3 hours 10 minutes). */
  const ExamSeconds: nat := 11400

  /** formatTime: `h:mm:ss` with unpadded hours when there are any, otherwise `mm:ss`. */
  function FormatTime(seconds: int): string
  {
    var hours := seconds / 3600;
    var mins := JsRem(seconds, 3600) / 60;
    var secs := JsRem(seconds, 60);
    if hours > 0 then IntToString(hours) + ":" + PadStart(IntToString(mins), 2, '0') + ":" + PadStart(IntToString(secs), 2, '0')
    else PadStart(IntToString(mins), 2, '0') + ":" + PadStart(IntToString(secs), 2, '0')
  }

  /** For a non-negative count the fields are in range, give back the count, and hours show iff there are any. */
  lemma FormatTimeFields(seconds: int)
    requires seconds >= 0
    ensures var h, m, s := seconds / 3600, (seconds % 3600) / 60, seconds % 60;
      0 <= m < 60 && 0 <= s < 60 && h * 3600 + m * 60 + s == seconds &&
      FormatTime(seconds) ==
        if h > 0 then NatToString(h) + ":" + Pad2(m) + ":" + Pad2(s) else Pad2(m) + ":" + Pad2(s)
  {
    assert seconds == (seconds / 3600) * 3600 + seconds % 3600;
    assert seconds % 3600 == ((seconds % 3600) / 60) * 60 + (seconds % 3600) % 60;
    assert (seconds % 3600) % 60 == seconds % 60 by {
      ModOfMod(seconds);
    }
  }

  lemma ModOfMod(n: nat)
    ensures (n % 3600) % 60 == n % 60
  {
    var q := n / 3600;
    assert n == q * 3600 + n % 3600;
    assert q * 3600 == (q * 60) * 60;
  }

  datatype Timer = Timer(timeLeft: int, running: bool, paused: bool)

  const Initial := Timer(ExamSeconds, false, false)

  /** toggleTimer: stopped starts, paused resumes, running pauses. */
  function Toggle(t: Timer): (r: Timer)
    ensures !t.running ==> r == t.(running := true, paused := false)
    ensures t.running && t.paused ==> r == t.(paused := false)
    ensures t.running && !t.paused ==> r == t.(paused := true)
  {
    if !t.running then t.(running := true, paused := false)
    else if t.paused then t.(paused := false)
    else t.(paused := true)
  }

  /** resetTimer: stopped, unpaused, the full exam time. */
  function Reset(t: Timer): (r: Timer)
    ensures r == Initial
  {
    Timer(ExamSeconds, false, false)
  }

  /** The Start button: starts a stopped timer, otherwise nothing. */
  function Start(t: Timer): (r: Timer)
    ensures !t.running ==> r == Toggle(t)
    ensures t.running ==> r == t
  {
    if !t.running then t.(running := true, paused := false) else t
  }

  /** The Pause button: pauses a running, unpaused timer, otherwise nothing. */
  function Pause(t: Timer): (r: Timer)
    ensures t.running && !t.paused ==> r == Toggle(t)
    ensures !(t.running && !t.paused) ==> r == t
  {
    if t.running && !t.paused then t.(paused := true) else t
  }

  /**
   * Once paused, neither wired button changes the timer: only Reset, which
   * gives back the full time, clears the pause; toggleTimer would resume it.
   */
  lemma PauseIsPermanent(t: Timer)
    requires t.running && t.paused && t.timeLeft != ExamSeconds
    ensures Start(t) == t && Pause(t) == t
    ensures Reset(t).timeLeft != t.timeLeft
    ensures Toggle(t) == t.(paused := false)
  {
  }

  /** The corrected Start button: it starts a stopped timer and resumes a paused one. */
  function Resume(t: Timer): (r: Timer)
    ensures t.running && t.paused ==> r == t.(paused := false)
    ensures !t.running ==> r == Start(t)
    ensures t.running && !t.paused ==> r == t
  {
    if !t.running || t.paused then t.(running := true, paused := false) else t
  }

  /** With the corrected Start, pausing and resuming keeps the time and leaves the timer running. */
  lemma PauseThenResume(t: Timer)
    requires t.running && !t.paused
    ensures Resume(Pause(t)) == t
  {
  }

  /** One second of the interval, which exists only while running, unpaused and with time left. */
  function Tick(t: Timer): (r: Timer)
    ensures t.running && !t.paused && t.timeLeft > 1 ==> r == t.(timeLeft := t.timeLeft - 1)
    ensures t.running && !t.paused && t.timeLeft == 1 ==> r == t.(timeLeft := 0, running := false)
    ensures !(t.running && !t.paused && t.timeLeft > 0) ==> r == t
  {
    if t.running && !t.paused && t.timeLeft > 0 then
      if t.timeLeft <= 1 then t.(timeLeft := 0, running := false) else t.(timeLeft := t.timeLeft - 1)
    else t
  }

  function Ticks(t: Timer, n: nat): Timer
    decreases n
  {
    if n == 0 then t else Ticks(Tick(t), n - 1)
  }

  /** A running exam counts down one second per tick and stops at exactly zero after timeLeft ticks. */
  lemma {:induction false} RunsOut(t: Timer)
    requires t.running && !t.paused && t.timeLeft > 0
    ensures Ticks(t, t.timeLeft) == t.(timeLeft := 0, running := false)
    decreases t.timeLeft
  {
    if t.timeLeft == 1 {
      assert Ticks(t, 1) == Ticks(Tick(t), 0);
    } else {
      var u := Tick(t);
      RunsOut(u);
    }
  }

  /** Ticking never takes the count below zero and never increases it. */
  lemma {:induction false} TicksStayInRange(t: Timer, n: nat)
    requires 0 <= t.timeLeft
    ensures 0 <= Ticks(t, n).timeLeft <= t.timeLeft
    decreases n
  {
    if n > 0 {
      TicksStayInRange(Tick(t), n - 1);
    }
  }

  class ExamTimer {
    var timeLeft: int
    var running: bool
    var paused: bool

    function State(): Timer
      reads this
    {
      Timer(timeLeft, running, paused)
    }

    constructor ()
      ensures State() == Initial
    {
      timeLeft, running, paused := ExamSeconds, false, false;
    }

    method ToggleTimer()
      modifies this
      ensures State() == Toggle(old(State()))
    {
      if !running {
        running := true;
        paused := false;
      } else if paused {
        paused := false;
      } else {
        paused := true;
      }
    }

    method ResetTimer()
      modifies this
      ensures State() == Initial
    {
      running := false;
      paused := false;
      timeLeft := ExamSeconds;
    }

    /** The Start button, corrected to resume a paused timer. */
    method HandleStart()
      modifies this
      ensures State() == Resume(old(State()))
    {
      if !running || paused {
        running := true;
        paused := false;
      }
    }

    method HandlePause()
      modifies this
      ensures State() == Pause(old(State()))
    {
      if running && !paused {
        paused := true;
      }
    }

    method HandleTick()
      modifies this
      ensures State() == Tick(old(State()))
    {
      if running && !paused && timeLeft > 0 {
        if timeLeft <= 1 {
          running := false;
          timeLeft := 0;
        } else {
          timeLeft := timeLeft - 1;
        }
      }
    }
  }
}

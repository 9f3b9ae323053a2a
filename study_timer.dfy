/**
 * The StudyTimer app: a countdown of study sessions. The screen's state is
 * a class; the once-per-second loop of its `LaunchedEffect` becomes a `Tick`
 * step and a method that runs the loop to its end.
 */
module StudyTimer {

  /** The session lengths, in minutes, offered by the settings row. */
  const SessionOptions: seq<int> := [5, 15, 25, 45]

  /** Kotlin's `Int` division, which truncates toward zero. */
  function TruncDiv(a: int, b: int): int
    requires b > 0
  {
    if a >= 0 then a / b else -((-a) / b)
  }

  /** Kotlin's `%` on `Int`: the remainder takes the sign of the dividend. */
  function TruncRem(a: int, b: int): int
    requires b > 0
  {
    if a >= 0 then a % b else -((-a) % b)
  }

  /** `TimerDisplay`: the minutes and seconds shown for a number of seconds. */
  function Display(timeRemaining: int): (ms: (int, int))
    ensures ms.0 * 60 + ms.1 == timeRemaining
    ensures timeRemaining >= 0 ==> ms.0 >= 0 && 0 <= ms.1 < 60
    ensures timeRemaining < 0 ==> ms.0 <= 0 && -60 < ms.1 <= 0
  {
    (TruncDiv(timeRemaining, 60), TruncRem(timeRemaining, 60))
  }

  class StudyTimer {
    var isRunning: bool
    var timeRemaining: int
    var sessionLength: int
    var completedSessions: int

    /**
     * The session length is one of the options, there is time left, and a
     * stopped timer shows a full session. A running timer may show more than
     * a full session: the length can be shortened while it runs.
     */
    ghost predicate Valid()
      reads this
    {
      && sessionLength in SessionOptions
      && timeRemaining > 0
      && (!isRunning ==> timeRemaining == sessionLength * 60)
      && completedSessions >= 0
    }

    constructor ()
      ensures Valid()
      ensures !isRunning && timeRemaining == 2700 && sessionLength == 45 && completedSessions == 0
    {
      isRunning, timeRemaining, sessionLength, completedSessions := false, 2700, 45, 0;
    }

    /** The Start/Reset button. */
    method Toggle()
      requires Valid()
      modifies this`isRunning, this`timeRemaining
      ensures Valid()
      ensures old(isRunning) ==> !isRunning && timeRemaining == sessionLength * 60
      ensures !old(isRunning) ==> isRunning && timeRemaining == old(timeRemaining)
    {
      if isRunning {
        isRunning := false;
        timeRemaining := sessionLength * 60;
      } else {
        isRunning := true;
      }
    }

    /** A session-length button; a running countdown keeps its time. */
    method ChangeSessionLength(newLength: int)
      requires Valid() && newLength in SessionOptions
      modifies this`sessionLength, this`timeRemaining
      ensures Valid()
      ensures sessionLength == newLength
      ensures timeRemaining == if old(isRunning) then old(timeRemaining) else newLength * 60
    {
      sessionLength := newLength;
      if !isRunning {
        timeRemaining := newLength * 60;
      }
    }

    /** One pass of the countdown loop, one second after the previous one. */
    method Tick()
      requires Valid() && isRunning
      modifies this`isRunning, this`timeRemaining, this`completedSessions
      ensures Valid()
      ensures old(timeRemaining) > 1 ==>
        isRunning && timeRemaining == old(timeRemaining) - 1 && completedSessions == old(completedSessions)
      ensures old(timeRemaining) == 1 ==>
        && !isRunning && timeRemaining == sessionLength * 60
        && completedSessions == old(completedSessions) + 1
    {
      timeRemaining := timeRemaining - 1;
      if timeRemaining == 0 {
        isRunning := false;
        completedSessions := completedSessions + 1;
        timeRemaining := sessionLength * 60;
      }
    }

    /**
     * The countdown loop run to its end with no button pressed meanwhile: a
     * running timer ticks `timeRemaining` times and completes one session.
     */
    method RunSession() returns (ticks: nat)
      requires Valid()
      modifies this`isRunning, this`timeRemaining, this`completedSessions
      ensures Valid() && !isRunning && timeRemaining == sessionLength * 60
      ensures old(isRunning) ==> ticks == old(timeRemaining) && completedSessions == old(completedSessions) + 1
      ensures !old(isRunning) ==> ticks == 0 && completedSessions == old(completedSessions)
    {
      ticks := 0;
      while isRunning && timeRemaining > 0
        invariant Valid()
        invariant old(isRunning) || !isRunning
        invariant isRunning ==> ticks + timeRemaining == old(timeRemaining)
        invariant isRunning ==> completedSessions == old(completedSessions)
        invariant !isRunning ==> ticks == (if old(isRunning) then old(timeRemaining) else 0)
        invariant !isRunning ==> completedSessions == old(completedSessions) + (if old(isRunning) then 1 else 0)
        decreases isRunning, timeRemaining
      {
        Tick();
        ticks := ticks + 1;
      }
    }
  }

  /**
   * A full session is not an upper bound of the time shown: shortening the
   * session while the timer runs leaves more time than the new length.
   */
  method ShortenWhileRunning() returns (remaining: int, fullSession: int)
    ensures remaining == 2700 && fullSession == 300 && remaining > fullSession
  {
    var t := new StudyTimer();
    t.Toggle();
    t.ChangeSessionLength(5);
    remaining, fullSession := t.timeRemaining, t.sessionLength * 60;
  }
}

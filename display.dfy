/**
 * The small decisions of the render loop: the uptime split into hours, minutes and seconds,
 * the colour band of a percentage, what a pending key press does, and the outcome of the
 * kill path.
 */
module Display {
  import opened Common

  /** Integer division as C++ does it: the quotient truncated toward zero. */
  function TruncDiv(a: int, b: int): int
    requires b > 0
  {
    if a >= 0 then a / b else -((-a) / b)
  }

  /** The C++ remainder `%`: it takes the sign of the dividend. */
  function TruncRem(a: int, b: int): int
    requires b > 0
  {
    if a >= 0 then a % b else -((-a) % b)
  }

  datatype Hms = Hms(hrs: int, mins: int, secs: int)

  /** The uptime display: `uptime / 3600`, `(uptime % 3600) / 60` and `uptime % 60`. */
  function SplitUptime(uptime: int): Hms
  {
    Hms(TruncDiv(uptime, 3600), TruncDiv(TruncRem(uptime, 3600), 60), TruncRem(uptime, 60))
  }

  /**
   * The three fields recombine to the uptime; for a non-negative uptime (a steady clock never
   * runs backwards) minutes and seconds lie in [0, 60), and for a negative one in (-60, 0].
   */
  lemma SplitUptimeRecombines(uptime: int)
    ensures var t := SplitUptime(uptime);
            t.hrs * 3600 + t.mins * 60 + t.secs == uptime
    ensures var t := SplitUptime(uptime);
            0 <= uptime ==> 0 <= t.hrs && 0 <= t.mins < 60 && 0 <= t.secs < 60
    ensures var t := SplitUptime(uptime);
            uptime < 0 ==> t.hrs <= 0 && -60 < t.mins <= 0 && -60 < t.secs <= 0
  {
  }

  /** The three colour bands of the CPU and memory figures. */
  datatype Color = Green | Yellow | Red

  function ColorForUsage(value: real): Color
  {
    if value < 50.0 then Green
    else if value < 80.0 then Yellow
    else Red
  }

  function Severity(c: Color): nat
  {
    match c
    case Green => 0
    case Yellow => 1
    case Red => 2
  }

  /** Below 50 is green, from 80 up is red, and in between yellow. */
  lemma ColorBands(value: real)
    ensures ColorForUsage(value) == Green <==> value < 50.0
    ensures ColorForUsage(value) == Yellow <==> 50.0 <= value < 80.0
    ensures ColorForUsage(value) == Red <==> 80.0 <= value
  {
  }

  /** A higher figure is never shown in a milder colour. */
  lemma ColorMonotone(v: real, w: real)
    requires v <= w
    ensures Severity(ColorForUsage(v)) <= Severity(ColorForUsage(w))
  {
  }

  /** What the end of a tick does with the key press, if one is pending. */
  datatype Action = Quit | KillPath | Sleep

  function Dispatch(key: Option<char>): Action
  {
    match key
    case None => Sleep
    case Some(ch) => if ch == 'q' then Quit else if ch == 'k' then KillPath else Sleep
  }

  /** Only `q` quits, only `k` enters the kill path, and everything else (or nothing) sleeps. */
  lemma DispatchCases(key: Option<char>)
    ensures Dispatch(key) == Quit <==> key == Some('q')
    ensures Dispatch(key) == KillPath <==> key == Some('k')
    ensures Dispatch(key) == Sleep <==> key != Some('q') && key != Some('k')
  {
  }

  /**
   * What the operating system and the operator answer along the kill path:
   * the pid read (None when it is not a number), whether SIGTERM was delivered, whether the
   * process was gone one second later (the probe failed with ESRCH), the confirmation
   * character, and whether SIGKILL was delivered.
   */
  datatype KillInput = KillInput(pid: Option<int>, termSent: bool, gone: bool, confirm: char, killSent: bool)

  datatype KillOutcome =
    | InvalidInput      // the pid was not a number
    | TerminateFailed   // SIGTERM could not be sent
    | Terminated        // the process exited within the grace period
    | LeftRunning       // still alive and the operator declined to force it
    | ForceKilled       // still alive, confirmed, SIGKILL sent
    | ForceKillFailed   // still alive, confirmed, SIGKILL could not be sent

  function KillDecision(k: KillInput): KillOutcome
  {
    if k.pid.None? then InvalidInput
    else if !k.termSent then TerminateFailed
    else if k.gone then Terminated
    else if k.confirm == 'y' || k.confirm == 'Y' then
      if k.killSent then ForceKilled else ForceKillFailed
    else LeftRunning
  }

  predicate Escalated(o: KillOutcome)
  {
    o == ForceKilled || o == ForceKillFailed
  }

  /**
   * A single escalation step: SIGKILL is tried exactly when SIGTERM was delivered, the process
   * was still there after the grace period and the operator answered `y` or `Y`.
   */
  lemma KillEscalatesOnlyOnConfirmation(k: KillInput)
    ensures Escalated(KillDecision(k)) <==>
              k.pid.Some? && k.termSent && !k.gone && (k.confirm == 'y' || k.confirm == 'Y')
    ensures KillDecision(k) == Terminated <==> k.pid.Some? && k.termSent && k.gone
    ensures KillDecision(k) == TerminateFailed <==> k.pid.Some? && !k.termSent
    ensures KillDecision(k) == InvalidInput <==> k.pid.None?
  {
  }
}

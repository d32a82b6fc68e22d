/** The workshop's five-minute reply window, one tick per second. */
module Countdown {

  /** Seconds on the clock when the owner enters the waiting screen. */
  const WindowSeconds: nat := 300

  datatype TickResult = TickResult(timer: int, expired: bool)

  /** One tick of the state updater: at one second or less the window closes and
      shows zero; otherwise one second comes off. */
  function Tick(prev: int): TickResult {
    if prev <= 1 then TickResult(0, true) else TickResult(prev - 1, false)
  }

  /** The clock after `k` ticks from `start`; the interval is cleared on expiry,
      so nothing changes after that. */
  function Run(start: int, k: nat): TickResult
    decreases k
  {
    if k == 0 then TickResult(start, false)
    else
      var prev := Run(start, k - 1);
      if prev.expired then prev else Tick(prev.timer)
  }

  /** Before the `start`-th tick the window is open and shows `start - k` seconds. */
  lemma {:induction false} RunBeforeExpiry(start: nat, k: nat)
    requires k < start
    ensures Run(start, k) == TickResult(start - k, false)
    decreases k
  {
    if k > 0 {
      RunBeforeExpiry(start, k - 1);
    }
  }

  /** The window closes on exactly the `start`-th tick and stays closed at zero. */
  lemma {:induction false} RunExpires(start: nat, k: nat)
    requires 1 <= start <= k
    ensures Run(start, k) == TickResult(0, true)
    ensures Run(start, start - 1).expired == false
    decreases k
  {
    RunBeforeExpiry(start, start - 1);
    if k > start {
      RunExpires(start, k - 1);
    }
  }

  /** The workshop has exactly 300 ticks: still open after 299, closed from the 300th on. */
  lemma {:induction false} FiveMinuteWindow()
    ensures Run(WindowSeconds, 299) == TickResult(1, false)
    ensures Run(WindowSeconds, 300) == TickResult(0, true)
  {
    RunBeforeExpiry(WindowSeconds, 299);
  }
}

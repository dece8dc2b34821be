// The timerfd under the event loop: what MultiTimerCallback programs, and when a read succeeds.
module TimerFd {
  datatype Itimerspec = Itimerspec(sec: int, nsec: int)

  // An all-zero setting switches the timer off.
  const DISARMED := Itimerspec(0, 0)

  // The setting made by MultiCurlManager's constructor.
  const FIRST := Itimerspec(1, 0)

  const NANOS_PER_SECOND := 1000000000

  /** The setting for libcurl's request: off exactly for a negative timeout, otherwise the same
      duration to the millisecond in a form the kernel accepts; zero must not become "off". */
  function Spec(timeoutMs: int): (its: Itimerspec)
    ensures its == DISARMED <==> timeoutMs < 0
    ensures 0 <= its.sec && 0 <= its.nsec < NANOS_PER_SECOND
    ensures timeoutMs >= 0 ==> its.sec * 1000 + its.nsec / 1000000 == timeoutMs
    ensures timeoutMs > 0 ==> its.nsec % 1000000 == 0
    ensures timeoutMs == 0 ==> its == Itimerspec(0, 1)
  {
    if timeoutMs > 0 then Itimerspec(timeoutMs / 1000, timeoutMs % 1000 * 1000 * 1000)
    else if timeoutMs == 0 then Itimerspec(0, 1)
    else DISARMED
  }

  // pending: set and not yet expired; ticks: expirations not yet read.
  datatype Timer = Timer(value: Itimerspec, pending: bool, ticks: nat)

  // timerfd_settime: a one-shot setting, which also forgets unread expirations.
  function SetTime(value: Itimerspec): Timer {
    Timer(value, value != DISARMED, 0)
  }

  function Expire(t: Timer): Timer
    requires t.pending
  {
    t.(pending := false, ticks := t.ticks + 1)
  }
}

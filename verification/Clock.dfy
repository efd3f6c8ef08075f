/** internal/controller/maxwindow.go, window_phase.go and requeue.go: the deadline of a
    window and the priority of its phases. Times and durations are nanoseconds. */
module Clock {
  import opened Types

  const SECOND: int := 1_000_000_000
  const REQUEUE_OPEN: int := 15 * SECOND
  const REQUEUE_TOMBSTONE: int := 15 * SECOND

  function WindowOpenedAt(win: Window): Option<int> {
    if win.status.lastScale.Some? then win.status.lastScale else win.meta.created
  }

  predicate MaxWindowExceeded(maxWindow: int, win: Window, now: int) {
    var openedAt := WindowOpenedAt(win);
    maxWindow > 0 && openedAt.Some? && now >= openedAt.value + maxWindow
  }

  function MaxWindowRequeue(maxWindow: int, win: Window, now: int): int {
    var openedAt := WindowOpenedAt(win);
    if maxWindow <= 0 || openedAt.None? then 0
    else
      var left := openedAt.value + maxWindow - now;
      if left <= 0 then SECOND else left
  }

  predicate HoldMaxWindow(maxWindow: int, win: Window, now: int) {
    win.status.forcedCool || win.status.phase == Closed || MaxWindowExceeded(maxWindow, win, now)
  }

  function OpenRequeue(maxWindow: int, win: Window, now: int): int {
    var d := MaxWindowRequeue(maxWindow, win, now);
    if 0 < d < REQUEUE_OPEN then d else REQUEUE_OPEN
  }

  datatype WindowStep = StayOpenVulnerable | StayOpenWaitingSpare | BeginScaleBack | StayCooling | Close

  datatype Decision = Decision(step: WindowStep, phase: Phase, message: Msg, abort: bool, retain: bool)

  function CoolingMessage(forceCool: bool, forcedCool: bool): Msg {
    if forceCool || forcedCool then MaxWindowMsg else CoolingDown
  }

  function DecideWindowStep(liveAtRisk: nat, forceCool: bool, forcedCool: bool, safeReady: int, baseline: int,
                            until: Option<int>, now: int): Decision {
    if liveAtRisk > 0 && !forceCool then Decision(StayOpenVulnerable, Open, NodesVulnerable, true, false)
    else if !forceCool && safeReady < baseline then Decision(StayOpenWaitingSpare, Open, WaitingSpare, true, false)
    else if until.None? then Decision(BeginScaleBack, Unset, NoMsg, false, false)
    else if now < until.value then Decision(StayCooling, Cooling, CoolingMessage(forceCool, forcedCool), false, false)
    else Decision(Close, Closed, if forcedCool then HoldingTombstone else ScaledBack, false, forcedCool)
  }

  /* ---- polling never misses the deadline ---- */

  /** A window that stays open is looked at again soon, and never after its deadline. */
  lemma OpenRequeueWithinDeadline(maxWindow: int, win: Window, now: int)
    requires maxWindow > 0 && WindowOpenedAt(win).Some? && !MaxWindowExceeded(maxWindow, win, now)
    ensures var next := now + OpenRequeue(maxWindow, win, now);
            && now < next <= WindowOpenedAt(win).value + maxWindow
            && (next == now + REQUEUE_OPEN || next == WindowOpenedAt(win).value + maxWindow)
  {
  }

  /** How many polls, 15 seconds apart at most, a remaining time takes. */
  function PollsLeft(left: int): nat
    decreases left
  {
    if left <= 0 then 0 else 1 + PollsLeft(left - REQUEUE_OPEN)
  }

  /** That is ceil(left / 15s). */
  lemma {:induction false} PollsLeftIsCeil(left: int)
    requires left >= 0
    decreases left
    ensures PollsLeft(left) == (left + REQUEUE_OPEN - 1) / REQUEUE_OPEN
  {
    if left > REQUEUE_OPEN {
      PollsLeftIsCeil(left - REQUEUE_OPEN);
      var n := (left - REQUEUE_OPEN + REQUEUE_OPEN - 1) / REQUEUE_OPEN;
      assert (left + REQUEUE_OPEN - 1) / REQUEUE_OPEN == n + 1;
    }
  }
}

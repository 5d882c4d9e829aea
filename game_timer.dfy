/** The per-turn countdown. Its state is the two React cells `seconds` and `isRunning`,
    whether an interval is currently scheduled, and how many `onComplete` calls have
    been scheduled. Each effect run is one step and each interval callback is one tick. */
module GameTimer {

  datatype TimerState = TimerState(seconds: int, isRunning: bool, intervalLive: bool, completions: nat)

  /** An interval is only ever scheduled while the timer is running. */
  predicate Coherent(s: TimerState) {
    s.intervalLive ==> s.isRunning
  }

  /** The state on mount: `useState(initialSeconds)`, `useState(false)`, no interval. */
  function Mounted(initialSeconds: int): (s: TimerState)
    ensures Coherent(s) && !s.isRunning && s.seconds == initialSeconds && s.completions == 0
  {
    TimerState(initialSeconds, false, false, 0)
  }

  /** The interval effect, which depends on `isRunning`: when `isRunning` changes, the
      old interval is cleared and, if now running, a new one is scheduled. */
  function AfterRunningChange(before: TimerState, after: TimerState): (t: TimerState)
    ensures t.seconds == after.seconds && t.isRunning == after.isRunning && t.completions == after.completions
    ensures after.isRunning != before.isRunning ==> (t.intervalLive <==> after.isRunning)
    ensures after.isRunning == before.isRunning ==> t.intervalLive == after.intervalLive
  {
    if after.isRunning != before.isRunning then after.(intervalLive := after.isRunning) else after
  }

  /** The effect on a change of `initialSeconds`: reset the count and stop running. */
  function InitialSecondsChanged(s: TimerState, initialSeconds: int): (t: TimerState)
    requires Coherent(s)
    ensures Coherent(t)
    ensures t.seconds == initialSeconds && !t.isRunning && !t.intervalLive
    ensures t.completions == s.completions
  {
    AfterRunningChange(s, s.(seconds := initialSeconds, isRunning := false))
  }

  /** The effect on `start`, `stop`, `initialSeconds` or `isRunning`: `stop` halts the
      timer; otherwise `start` on a stopped timer starts it from `initialSeconds`. */
  function StartStop(s: TimerState, start: bool, stop: bool, initialSeconds: int): (t: TimerState)
    requires Coherent(s)
    ensures Coherent(t) && t.completions == s.completions
    ensures stop ==> !t.isRunning && !t.intervalLive && t.seconds == s.seconds
    ensures !stop && start && !s.isRunning ==> t.isRunning && t.intervalLive && t.seconds == initialSeconds
    ensures !stop && (!start || s.isRunning) ==> t == s
  {
    if stop then AfterRunningChange(s, s.(isRunning := false))
    else if start && !s.isRunning then AfterRunningChange(s, s.(isRunning := true, seconds := initialSeconds))
    else s
  }

  /** A new `initialSeconds` runs both effects that depend on it, in order: the reset
      stops the timer, and the start/stop effect that follows restarts it from the new
      count when `start && !stop`; otherwise the component is left stopped at that count. */
  lemma NewInitialSeconds(s: TimerState, n: int, start: bool, stop: bool)
    requires Coherent(s)
    ensures var t := StartStop(InitialSecondsChanged(s, n), start, stop, n);
            t.seconds == n && t.completions == s.completions
            && (t.isRunning <==> start && !stop) && (t.intervalLive <==> start && !stop)
  {
  }

  /** The interval effect re-run because the parent passed a new `onComplete`: the old
      interval is cleared and, while `isRunning` holds, a new one is scheduled. */
  function CallbackChanged(s: TimerState): (t: TimerState)
    ensures t.intervalLive <==> s.isRunning
    ensures t.seconds == s.seconds && t.isRunning == s.isRunning && t.completions == s.completions
  {
    s.(intervalLive := s.isRunning)
  }

  /** The `setSeconds` updater one interval callback applies. */
  function NextSeconds(prev: int): (next: int)
    ensures next >= 0
    ensures prev > 1 ==> next == prev - 1
    ensures prev <= 1 ==> next == 0
  {
    if prev <= 1 then 0 else prev - 1
  }

  /** One interval period. Without a scheduled interval nothing happens; otherwise the
      count goes down by one, and on reaching zero the interval clears itself and
      `onComplete` is scheduled. */
  function Tick(s: TimerState): (t: TimerState)
    ensures !s.intervalLive ==> t == s
    ensures s.intervalLive && s.seconds > 1 ==> t == s.(seconds := s.seconds - 1)
    ensures s.intervalLive && s.seconds <= 1 ==>
              t == s.(seconds := 0, intervalLive := false, completions := s.completions + 1)
  {
    if !s.intervalLive then s
    else
      var next := NextSeconds(s.seconds);
      if s.seconds <= 1 then s.(seconds := next, intervalLive := false, completions := s.completions + 1)
      else s.(seconds := next)
  }

  /** `k` interval periods in a row. */
  function Ticks(s: TimerState, k: nat): (t: TimerState)
    ensures Coherent(s) ==> Coherent(t)
    ensures t.isRunning == s.isRunning
    decreases k
  {
    if k == 0 then s else Ticks(Tick(s), k - 1)
  }

  /** While no interval is scheduled (stopped, or already at zero) time passing
      changes nothing, so `onComplete` is never scheduled. */
  lemma {:induction false} NoIntervalNoTicks(s: TimerState, k: nat)
    requires !s.intervalLive
    ensures Ticks(s, k) == s
    decreases k
  {
    if k > 0 {
      NoIntervalNoTicks(Tick(s), k - 1);
    }
  }

  /** A running countdown at `n >= 1` counts down one per period, completes on exactly
      the `n`-th period, and afterwards stays at zero with nothing more scheduled. */
  lemma {:induction false} CountdownCompletesAfterExactlyN(s: TimerState, k: nat)
    requires s.intervalLive && s.seconds >= 1
    ensures k < s.seconds ==> Ticks(s, k) == s.(seconds := s.seconds - k)
    ensures k >= s.seconds ==>
              Ticks(s, k) == s.(seconds := 0, intervalLive := false, completions := s.completions + 1)
    decreases k
  {
    if k > 0 {
      if s.seconds > 1 {
        CountdownCompletesAfterExactlyN(Tick(s), k - 1);
      } else {
        NoIntervalNoTicks(Tick(s), k - 1);
      }
    }
  }

  /** From a fresh start with `initialSeconds = n >= 1`, `onComplete` is scheduled
      exactly once, after exactly `n` periods, however long the timer is then left. */
  lemma FreshStartCompletesOnce(s: TimerState, n: int, k: nat)
    requires Coherent(s) && !s.isRunning && n >= 1
    ensures var started := StartStop(s, true, false, n);
            (k < n ==> Ticks(started, k).completions == s.completions && Ticks(started, k).seconds == n - k)
            && (k >= n ==> Ticks(started, k).completions == s.completions + 1 && Ticks(started, k).seconds == 0)
  {
    CountdownCompletesAfterExactlyN(StartStop(s, true, false, n), k);
  }

  /** Stopping a fresh countdown before it reaches zero means `onComplete` is never
      scheduled, however much time passes afterwards. */
  lemma StopBeforeZeroNeverCompletes(s: TimerState, n: int, k: nat, m: nat)
    requires Coherent(s) && !s.isRunning && k < n
    ensures var started := StartStop(s, true, false, n);
            var stopped := StartStop(Ticks(started, k), true, true, n);
            Ticks(stopped, m).completions == s.completions
  {
    var started := StartStop(s, true, false, n);
    CountdownCompletesAfterExactlyN(started, k);
    var stopped := StartStop(Ticks(started, k), true, true, n);
    NoIntervalNoTicks(stopped, m);
  }

  /** The count never goes negative as long as every `initialSeconds` given is not negative. */
  lemma {:induction false} SecondsStayNonNegative(s: TimerState, k: nat)
    requires s.seconds >= 0
    ensures Ticks(s, k).seconds >= 0
    decreases k
  {
    if k > 0 {
      SecondsStayNonNegative(Tick(s), k - 1);
    }
  }

  /** Once the count has completed, a parent that passes a new `onComplete` while
      `isRunning` is still set re-schedules the interval, and the next period schedules
      `onComplete` again at zero. */
  lemma NewCallbackAfterCompletionFiresAgain(s: TimerState)
    requires s.isRunning && !s.intervalLive && s.seconds == 0
    ensures Tick(CallbackChanged(s)).completions == s.completions + 1
    ensures Tick(CallbackChanged(s)).seconds == 0
  {
  }

  /** The `CountdownTimer` component's state. */
  class CountdownTimer {
    var seconds: int
    var isRunning: bool
    var intervalLive: bool
    var completions: nat

    function State(): TimerState
      reads this
    {
      TimerState(seconds, isRunning, intervalLive, completions)
    }

    constructor (initialSeconds: int)
      ensures State() == Mounted(initialSeconds)
    {
      seconds, isRunning, intervalLive, completions := initialSeconds, false, false, 0;
    }

    /** The interval effect after `isRunning` may have changed from `wasRunning`. */
    method SyncInterval(wasRunning: bool)
      modifies this
      ensures intervalLive == if isRunning != wasRunning then isRunning else old(intervalLive)
      ensures seconds == old(seconds) && isRunning == old(isRunning) && completions == old(completions)
    {
      if isRunning != wasRunning {
        intervalLive := isRunning;
      }
    }

    /** The effect that runs when `initialSeconds` changes. */
    method OnInitialSecondsChange(initialSeconds: int)
      requires Coherent(State())
      modifies this
      ensures State() == InitialSecondsChanged(old(State()), initialSeconds)
    {
      var was := isRunning;
      seconds := initialSeconds;
      isRunning := false;
      SyncInterval(was);
    }

    /** The effect that runs when `start`, `stop`, `initialSeconds` or `isRunning` change. */
    method OnStartStop(start: bool, stop: bool, initialSeconds: int)
      requires Coherent(State())
      modifies this
      ensures State() == StartStop(old(State()), start, stop, initialSeconds)
    {
      var was := isRunning;
      if stop {
        isRunning := false;
      } else if start && !isRunning {
        isRunning := true;
        seconds := initialSeconds;
      }
      SyncInterval(was);
    }

    /** The interval effect re-run for a new `onComplete`. */
    method OnCallbackChange()
      modifies this
      ensures State() == CallbackChanged(old(State()))
    {
      intervalLive := isRunning;
    }

    /** One interval period; `fired` tells whether `onComplete` was scheduled. */
    method OnInterval() returns (fired: bool)
      modifies this
      ensures State() == Tick(old(State()))
      ensures fired <==> old(intervalLive) && old(seconds) <= 1
    {
      fired := false;
      if intervalLive {
        var prev := seconds;
        seconds := NextSeconds(prev);
        if prev <= 1 {
          intervalLive := false;
          completions := completions + 1;
          fired := true;
        }
      }
    }

    /** `k` interval periods of wall-clock time. */
    method Elapse(k: nat)
      modifies this
      ensures State() == Ticks(old(State()), k)
    {
      var i := 0;
      while i < k
        invariant 0 <= i <= k
        invariant Ticks(old(State()), k) == Ticks(State(), k - i)
      {
        var _ := OnInterval();
        i := i + 1;
      }
    }
  }
}

/** The two debounced timers of the editor: auto-run after 1000 ms and auto-complete after
    300 ms of quiet. Time is an abstract clock in milliseconds; a timer is either idle or pending
    with the time it is due. */
module Scheduler {

  /** `autoRunDelay` */
  const AutoRunDelay := 1000
  /** `autoCompleteDelay` */
  const AutoCompleteDelay := 300

  /** A timeout field: no timer, or one timer due at `deadline`. */
  datatype Timer = Idle | Pending(deadline: int)

  /** `schedule…`: any pending timer is cleared and a new one is due `delay` after `now`. */
  function Schedule(now: int, delay: nat): (t: Timer)
    ensures t.Pending? && t.deadline - now == delay
  {
    Pending(now + delay)
  }

  /** Whether the timer's callback runs by time `now`. */
  predicate Due(t: Timer, now: int) {
    t.Pending? && t.deadline <= now
  }

  /** The timer after time `now`: a due timer has run and is gone, any other is unchanged. */
  function Advance(t: Timer, now: int): (r: Timer)
    ensures Due(t, now) ==> r == Idle
    ensures !Due(t, now) ==> r == t
  {
    if Due(t, now) then Idle else t
  }

  // ---------------------------------------------------------------------------------------------
  // A trace of calls on one timer and the times its callback runs.

  /** A call at time `at`: `schedule…` or `clear…`. */
  datatype Event = Call(at: int) | Clear(at: int)

  /** The times the callback runs, for a timer in state `t` receiving `events` in order with
      `delay`: a due timer runs before the next event, and whatever is still pending at the end
      runs at its deadline. */
  function Firings(t: Timer, delay: nat, events: seq<Event>): seq<int>
    decreases |events|
  {
    if events == [] then Outstanding(t)
    else
      var e := events[0];
      var fired := if Due(t, e.at) then [t.deadline] else [];
      var next := if e.Call? then Schedule(e.at, delay) else Idle;
      fired + Firings(next, delay, events[1..])
  }

  /** The run still to come for a timer left alone: its deadline, if it is pending. */
  function Outstanding(t: Timer): (r: seq<int>)
    ensures |r| <= 1
    ensures r == [] <==> t == Idle
  {
    if t.Pending? then [t.deadline] else []
  }

  /** Editor changes at the given times, as calls. */
  function Changes(times: seq<int>): (evs: seq<Event>)
    ensures |evs| == |times|
    ensures forall i | 0 <= i < |times| :: evs[i] == Call(times[i])
  {
    seq(|times|, i requires 0 <= i < |times| => Call(times[i]))
  }

  /** Times collected before a call, then the run due by the call, then the trace of the
      rescheduled timer: the same whole trace. */
  lemma FiringsAccumulate(acc: seq<int>, t: Timer, delay: nat, evs: seq<Event>, i: nat, whole: seq<int>)
    requires i < |evs| && evs[i].Call?
    requires acc + Firings(t, delay, evs[i..]) == whole
    ensures (acc + (if Due(t, evs[i].at) then [t.deadline] else []))
              + Firings(Schedule(evs[i].at, delay), delay, evs[i + 1..]) == whole
  {
    var rest := evs[i..];
    assert rest[0] == evs[i] && rest[1..] == evs[i + 1..];
    var fired := if Due(t, evs[i].at) then [t.deadline] else [];
    assert Firings(t, delay, rest) == fired + Firings(Schedule(evs[i].at, delay), delay, rest[1..]);
  }

  /** Every event is a call and each comes less than `delay` after the one before. */
  predicate Burst(events: seq<Event>, delay: nat) {
    && (forall i | 0 <= i < |events| :: events[i].Call?)
    && (forall i | 0 < i < |events| :: events[i - 1].at <= events[i].at < events[i - 1].at + delay)
  }

  /** A burst arriving while the timer is pending with a deadline after the burst's first call
      runs the callback once, `delay` after the last call. */
  lemma {:induction false} BurstFromPending(d: int, delay: nat, events: seq<Event>)
    requires |events| > 0 && Burst(events, delay)
    requires d > events[0].at
    ensures Firings(Pending(d), delay, events) == [events[|events| - 1].at + delay]
    decreases |events|
  {
    var rest := events[1..];
    if rest != [] {
      assert Burst(rest, delay) by {
        forall i | 0 < i < |rest|
          ensures rest[i - 1].at <= rest[i].at < rest[i - 1].at + delay
        {
          assert rest[i - 1] == events[i] && rest[i] == events[i + 1];
        }
      }
      assert events[1].at < events[0].at + delay;
      BurstFromPending(events[0].at + delay, delay, rest);
    }
  }

  /** Debounce: N calls, each less than `delay` after the previous, on an idle timer run the
      callback exactly once, `delay` after the last call. */
  lemma Debounce(delay: nat, events: seq<Event>)
    requires |events| > 0 && Burst(events, delay)
    ensures Firings(Idle, delay, events) == [events[|events| - 1].at + delay]
  {
    var rest := events[1..];
    if rest != [] {
      assert Burst(rest, delay) by {
        forall i | 0 < i < |rest|
          ensures rest[i - 1].at <= rest[i].at < rest[i - 1].at + delay
        {
          assert rest[i - 1] == events[i] && rest[i] == events[i + 1];
        }
      }
      assert events[1].at < events[0].at + delay;
      BurstFromPending(events[0].at + delay, delay, rest);
    }
  }

  /** A clear before the deadline cancels the pending run: the timer behaves as if idle. */
  lemma ClearCancels(d: int, delay: nat, at: int, rest: seq<Event>)
    requires at < d
    ensures Firings(Pending(d), delay, [Clear(at)] + rest) == Firings(Idle, delay, rest)
  {
    assert ([Clear(at)] + rest)[1..] == rest;
  }

  // ---------------------------------------------------------------------------------------------
  // The timeout fields.

  /** `autoRunTimeout`, `autoCompleteTimeout` and the auto-run checkbox. */
  class Timers {
    var autoRunEnabled: bool
    var autoRun: Timer
    var autoComplete: Timer

    /** With the checkbox off, no auto-run is pending. */
    predicate Valid()
      reads this
    {
      !autoRunEnabled ==> autoRun == Idle
    }

    constructor(enabled: bool)
      ensures Valid()
      ensures autoRunEnabled == enabled && autoRun == Idle && autoComplete == Idle
    {
      autoRunEnabled := enabled;
      autoRun := Idle;
      autoComplete := Idle;
    }

    /** `clearAutoRunTimeout` */
    method ClearAutoRunTimeout()
      modifies this
      ensures autoRun == Idle
      ensures autoRunEnabled == old(autoRunEnabled) && autoComplete == old(autoComplete)
    {
      if autoRun.Pending? {
        autoRun := Idle;
      }
    }

    /** `scheduleAutoRun`: nothing while the checkbox is off; otherwise the pending run is
        replaced by one due `AutoRunDelay` after `now`. */
    method ScheduleAutoRun(now: int)
      requires Valid()
      modifies this
      ensures Valid()
      ensures autoRun == if autoRunEnabled then Schedule(now, AutoRunDelay) else old(autoRun)
      ensures autoRunEnabled == old(autoRunEnabled) && autoComplete == old(autoComplete)
    {
      if !autoRunEnabled {
        return;
      }
      ClearAutoRunTimeout();
      autoRun := Schedule(now, AutoRunDelay);
    }

    /** `clearAutoCompleteTimeout` */
    method ClearAutoCompleteTimeout()
      modifies this
      ensures autoComplete == Idle
      ensures autoRunEnabled == old(autoRunEnabled) && autoRun == old(autoRun)
    {
      if autoComplete.Pending? {
        autoComplete := Idle;
      }
    }

    /** `scheduleAutoComplete`: the pending hint request is replaced by one due
        `AutoCompleteDelay` after `now`. */
    method ScheduleAutoComplete(now: int)
      requires Valid()
      modifies this
      ensures Valid()
      ensures autoComplete == Schedule(now, AutoCompleteDelay)
      ensures autoRunEnabled == old(autoRunEnabled) && autoRun == old(autoRun)
    {
      ClearAutoCompleteTimeout();
      autoComplete := Schedule(now, AutoCompleteDelay);
    }

    /** The checkbox's change handler: unchecking clears a pending run; checking schedules nothing. */
    method SetAutoRun(checked: bool)
      requires Valid()
      modifies this
      ensures Valid()
      ensures autoRunEnabled == checked
      ensures autoRun == if checked then old(autoRun) else Idle
      ensures autoComplete == old(autoComplete)
    {
      autoRunEnabled := checked;
      if !checked {
        ClearAutoRunTimeout();
      }
    }

    /** The editor's change handler: both timers are (re)scheduled. */
    method OnChange(now: int)
      requires Valid()
      modifies this
      ensures Valid()
      ensures autoRun == if autoRunEnabled then Schedule(now, AutoRunDelay) else Idle
      ensures autoComplete == Schedule(now, AutoCompleteDelay)
      ensures autoRunEnabled == old(autoRunEnabled)
    {
      ScheduleAutoRun(now);
      ScheduleAutoComplete(now);
    }

    /** The clock reaches `now`: each due timer runs its callback (`runCode`, resp.
        `showContextualHints`) and is no longer pending. */
    method Elapse(now: int) returns (runFires: bool, hintsFire: bool)
      requires Valid()
      modifies this
      ensures Valid()
      ensures runFires == Due(old(autoRun), now) && hintsFire == Due(old(autoComplete), now)
      ensures autoRun == Advance(old(autoRun), now) && autoComplete == Advance(old(autoComplete), now)
      ensures autoRunEnabled == old(autoRunEnabled)
    {
      runFires := Due(autoRun, now);
      hintsFire := Due(autoComplete, now);
      autoRun := Advance(autoRun, now);
      autoComplete := Advance(autoComplete, now);
    }

    /** Editor changes at `times`, in order: before each change the clock reaches its time and
        the due timers run (`Elapse`), then the change handler reschedules both timers
        (`OnChange`). Returns the deadlines at which `runCode` and `showContextualHints` ran.
        Together with what is still pending, these are exactly the trace semantics `Firings`,
        so a burst of changes on idle timers runs each callback once, after the last change. */
    method ReplayChanges(times: seq<int>) returns (runs: seq<int>, hints: seq<int>)
      requires Valid()
      modifies this
      ensures Valid() && autoRunEnabled == old(autoRunEnabled)
      ensures hints + Outstanding(autoComplete) == Firings(old(autoComplete), AutoCompleteDelay, Changes(times))
      ensures autoRunEnabled ==> runs + Outstanding(autoRun) == Firings(old(autoRun), AutoRunDelay, Changes(times))
      ensures !autoRunEnabled ==> runs == [] && autoRun == Idle
      ensures |times| > 0 && old(autoComplete) == Idle && Burst(Changes(times), AutoCompleteDelay) ==>
                hints == [] && autoComplete == Schedule(times[|times| - 1], AutoCompleteDelay)
      ensures |times| > 0 && autoRunEnabled && old(autoRun) == Idle && Burst(Changes(times), AutoRunDelay) ==>
                runs == [] && autoRun == Schedule(times[|times| - 1], AutoRunDelay)
    {
      ghost var evs := Changes(times);
      runs, hints := [], [];
      var i := 0;
      while i < |times|
        invariant 0 <= i <= |times|
        invariant Valid() && autoRunEnabled == old(autoRunEnabled)
        invariant hints + Firings(autoComplete, AutoCompleteDelay, evs[i..])
               == Firings(old(autoComplete), AutoCompleteDelay, evs)
        invariant autoRunEnabled ==>
                    runs + Firings(autoRun, AutoRunDelay, evs[i..]) == Firings(old(autoRun), AutoRunDelay, evs)
        invariant !autoRunEnabled ==> runs == [] && autoRun == Idle
        invariant i > 0 ==> autoComplete == Schedule(times[i - 1], AutoCompleteDelay)
        invariant i > 0 && autoRunEnabled ==> autoRun == Schedule(times[i - 1], AutoRunDelay)
      {
        assert evs[i] == Call(times[i]);
        ghost var hintsNext := hints + (if Due(autoComplete, times[i]) then [autoComplete.deadline] else []);
        ghost var runsNext := runs + (if Due(autoRun, times[i]) then [autoRun.deadline] else []);
        FiringsAccumulate(hints, autoComplete, AutoCompleteDelay, evs, i, Firings(old(autoComplete), AutoCompleteDelay, evs));
        if autoRunEnabled {
          FiringsAccumulate(runs, autoRun, AutoRunDelay, evs, i, Firings(old(autoRun), AutoRunDelay, evs));
        }
        var runBefore, hintBefore := autoRun, autoComplete;
        var runFires, hintsFire := Elapse(times[i]);
        if runFires {
          runs := runs + [runBefore.deadline];
        }
        if hintsFire {
          hints := hints + [hintBefore.deadline];
        }
        assert hints == hintsNext && runs == runsNext;
        OnChange(times[i]);
        i := i + 1;
      }
      assert evs[i..] == [];
      if |times| > 0 && old(autoComplete) == Idle && Burst(evs, AutoCompleteDelay) {
        Debounce(AutoCompleteDelay, evs);
      }
      if |times| > 0 && autoRunEnabled && old(autoRun) == Idle && Burst(evs, AutoRunDelay) {
        Debounce(AutoRunDelay, evs);
      }
    }
  }
}

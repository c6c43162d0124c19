/** The polling throttle (internal/util/debounce.go): Call raises a flag, and an actor that wakes every
    poll interval, or when it is stopped, runs the callback at most once per interval. */
module ThrottleModel {
  import opened Common

  // Nanoseconds.
  type Time = int

  const MIN_POLL := 5_000_000

  // Go's integer division truncates toward zero.
  function PollInterval(interval: int): int {
    var tenth := if interval >= 0 then interval / 10 else -(-interval / 10);
    if tenth < MIN_POLL then MIN_POLL else tenth
  }

  /** The actor wakes ten times an interval, but no oftener than every five milliseconds. */
  lemma PollsTenTimes(interval: int)
    ensures PollInterval(interval) >= 5_000_000
    ensures interval < 50_000_010 ==> PollInterval(interval) == 5_000_000
    ensures interval >= 50_000_000 ==> 10 * PollInterval(interval) <= interval < 10 * PollInterval(interval) + 10
  {
  }

  datatype Event =
    | Call(at: Time)   // the flag is raised
    | Tick(at: Time)   // the actor wakes on its ticker
    | Stop(at: Time)   // the actor wakes on stopCh, flushes and exits

  // lastFired is None for Go's zero time, which every instant is more than an interval after.
  datatype State = State(pending: bool, lastFired: Option<Time>, stopped: bool)

  const START := State(false, None, false)

  predicate Elapsed(s: State, now: Time, interval: int) {
    s.lastFired.Some? ==> now - s.lastFired.value >= interval
  }

  // Whether the callback runs at this event.
  predicate Fires(s: State, e: Event, interval: int) {
    && !s.stopped
    && s.pending
    && (e.Stop? || (e.Tick? && Elapsed(s, e.at, interval)))
  }

  function Step(s: State, e: Event, interval: int): State {
    match e
    case Call(_) => s.(pending := true)
    case Tick(at) => if Fires(s, e, interval) then s.(pending := false, lastFired := Some(at)) else s
    case Stop(_) => if s.stopped then s else s.(pending := false, stopped := true)
  }

  function Run(es: seq<Event>, interval: int): State {
    if es == [] then START else Step(Run(es[..|es| - 1], interval), es[|es| - 1], interval)
  }

  predicate FiresAt(es: seq<Event>, i: nat, interval: int)
    requires i < |es|
  {
    Fires(Run(es[..i], interval), es[i], interval)
  }

  lemma RunStep(es: seq<Event>, i: nat, interval: int)
    requires i < |es|
    ensures Run(es[..i + 1], interval) == Step(Run(es[..i], interval), es[i], interval)
  {
    assert es[..i + 1][..i] == es[..i];
  }

  // ------------------------------------------------------------------ rate

  // The instants at which the ticker ran the callback.
  function TickerFires(es: seq<Event>, interval: int): seq<Time> {
    if es == [] then []
    else
      var init, e := es[..|es| - 1], es[|es| - 1];
      TickerFires(init, interval) + (if e.Tick? && Fires(Run(init, interval), e, interval) then [e.at] else [])
  }

  lemma {:induction false} LastFiredIsTheLastFire(es: seq<Event>, interval: int)
    ensures var fires := TickerFires(es, interval);
      Run(es, interval).lastFired == if fires == [] then None else Some(fires[|fires| - 1])
  {
    if es != [] {
      LastFiredIsTheLastFire(es[..|es| - 1], interval);
    }
  }

  /** Whatever the clock does, one ticker-driven run of the callback is at least an interval after the
      one before it. */
  lemma {:induction false} FiresAreSpaced(es: seq<Event>, interval: int, i: nat)
    requires i + 1 < |TickerFires(es, interval)|
    ensures TickerFires(es, interval)[i + 1] - TickerFires(es, interval)[i] >= interval
  {
    var init := es[..|es| - 1];
    LastFiredIsTheLastFire(init, interval);
    if i + 1 < |TickerFires(init, interval)| {
      FiresAreSpaced(init, interval, i);
    }
  }

  // ------------------------------------------------------------------ nothing dropped, nothing invented

  function CountCalls(es: seq<Event>): nat {
    if es == [] then 0 else CountCalls(es[..|es| - 1]) + (if es[|es| - 1].Call? then 1 else 0)
  }

  function CountFires(es: seq<Event>, interval: int): nat {
    if es == [] then 0
    else
      CountFires(es[..|es| - 1], interval) +
      (if Fires(Run(es[..|es| - 1], interval), es[|es| - 1], interval) then 1 else 0)
  }

  /** Each run of the callback uses up a Call of its own, and a raised flag is one not yet used. */
  lemma {:induction false} FiresNeverExceedCalls(es: seq<Event>, interval: int)
    ensures CountFires(es, interval) + (if Run(es, interval).pending then 1 else 0) <= CountCalls(es)
  {
    if es != [] {
      FiresNeverExceedCalls(es[..|es| - 1], interval);
    }
  }

  // A flag raised at i is still raised at k unless the callback ran in between.
  lemma {:induction false} PendingUntilFire(es: seq<Event>, i: nat, k: nat, interval: int)
    requires i < k <= |es| && es[i].Call?
    requires forall j :: i < j < k ==> !FiresAt(es, j, interval)
    requires forall j :: i < j < k ==> !es[j].Stop?
    ensures Run(es[..k], interval).pending
  {
    RunStep(es, k - 1, interval);
    if i < k - 1 {
      PendingUntilFire(es, i, k - 1, interval);
      assert !FiresAt(es, k - 1, interval);
      NotStoppedYet(es, k - 1, interval);
    }
  }

  ghost predicate StopFreeUntil(es: seq<Event>, k: nat) {
    forall j :: 0 <= j < k && j < |es| ==> !es[j].Stop?
  }

  lemma {:induction false} NotStoppedYet(es: seq<Event>, k: nat, interval: int)
    requires k <= |es|
    ensures StopFreeUntil(es, k) ==> !Run(es[..k], interval).stopped
  {
    if k > 0 {
      RunStep(es, k - 1, interval);
      NotStoppedYet(es, k - 1, interval);
    }
  }

  /** Every Call made before the stop flush is followed by a run of the callback, at the stop flush if
      not earlier. */
  lemma NoCallIsDropped(es: seq<Event>, i: nat, stop: nat, interval: int)
    requires i < stop < |es| && es[i].Call? && es[stop].Stop?
    requires StopFreeUntil(es, stop)
    ensures exists j :: i < j <= stop && FiresAt(es, j, interval)
  {
    if forall j :: i < j < stop ==> !FiresAt(es, j, interval) {
      PendingUntilFire(es, i, stop, interval);
      NotStoppedYet(es, stop, interval);
      assert FiresAt(es, stop, interval);
    }
  }

  lemma {:induction false} StaysStopped(es: seq<Event>, i: nat, j: nat, interval: int)
    requires i < j <= |es| && es[i].Stop?
    ensures Run(es[..j], interval).stopped
    decreases j
  {
    RunStep(es, j - 1, interval);
    if i < j - 1 {
      StaysStopped(es, i, j - 1, interval);
    }
  }

  /** After the stop flush the callback is never run again. */
  lemma NothingFiresAfterStop(es: seq<Event>, stop: nat, j: nat, interval: int)
    requires stop < j < |es| && es[stop].Stop?
    ensures !FiresAt(es, j, interval)
  {
    StaysStopped(es, stop, j, interval);
  }

  // ------------------------------------------------------------------ latency

  ghost predicate InOrder(es: seq<Event>) {
    forall i, j :: 0 <= i < j < |es| ==> es[i].at <= es[j].at
  }

  ghost predicate WakesWithin(es: seq<Event>, i: nat, poll: int) {
    exists j :: i < j < |es| && !es[j].Call? && es[j].at <= es[i].at + poll
  }

  // Up to `end`, the running actor wakes within one poll interval of any instant.
  ghost predicate OnTime(es: seq<Event>, poll: int, end: Time) {
    forall i: nat :: i < |es| && StopFreeUntil(es, i + 1) && es[i].at + poll <= end ==> WakesWithin(es, i, poll)
  }

  lemma {:induction false} LastFiredIsPast(es: seq<Event>, k: nat, interval: int)
    requires InOrder(es) && k <= |es|
    ensures var last := Run(es[..k], interval).lastFired;
      last.Some? ==> k > 0 && last.value <= es[k - 1].at
  {
    if k > 0 {
      RunStep(es, k - 1, interval);
      LastFiredIsPast(es, k - 1, interval);
    }
  }

  lemma {:induction false} LastFiredUnchanged(es: seq<Event>, i: nat, k: nat, interval: int)
    requires i <= k <= |es|
    requires forall j :: i <= j < k ==> !FiresAt(es, j, interval)
    ensures Run(es[..k], interval).lastFired == Run(es[..i], interval).lastFired
  {
    if i < k {
      RunStep(es, k - 1, interval);
      LastFiredUnchanged(es, i, k - 1, interval);
      assert !FiresAt(es, k - 1, interval);
    }
  }

  function Max(a: int, b: int): int {
    if a < b then b else a
  }

  ghost predicate Served(es: seq<Event>, i: nat, j: nat, interval: int)
    requires j < |es|
  {
    exists f :: i < f <= j && FiresAt(es, f, interval)
  }

  // Each wake-up after a call either follows a run of the callback, or is a tick before the interval
  // is over.
  lemma WakeServesOrIsEarly(es: seq<Event>, i: nat, j: nat, interval: int)
    requires InOrder(es) && i < j < |es| && es[i].Call? && !es[j].Call? && StopFreeUntil(es, i + 1)
    ensures Served(es, i, j, interval) || (StopFreeUntil(es, j + 1) && es[j].at < es[i].at + interval)
  {
    if s :| 0 <= s <= j && es[s].Stop? {
      var stop := FirstStop(es, s);
      NoCallIsDropped(es, i, stop, interval);
    } else if !Served(es, i, j, interval) {
      assert forall f :: i < f <= j ==> !FiresAt(es, f, interval);
      PendingUntilFire(es, i, j, interval);
      NotStoppedYet(es, j, interval);
      assert !FiresAt(es, j, interval) && !FiresAt(es, i, interval);
      LastFiredUnchanged(es, i, j, interval);
      LastFiredIsPast(es, i, interval);
    }
  }

  ghost predicate ServedBy(es: seq<Event>, i: nat, interval: int, deadline: Time) {
    exists j :: i < j < |es| && FiresAt(es, j, interval) && es[j].at <= deadline
  }

  lemma InTime(es: seq<Event>, i: nat, j: nat, interval: int, deadline: Time)
    requires InOrder(es) && j < |es| && Served(es, i, j, interval) && es[j].at <= deadline
    ensures ServedBy(es, i, interval, deadline)
  {
    var f :| i < f <= j && FiresAt(es, f, interval);
    assert es[f].at <= es[j].at;
  }

  // From wake-up k on: k is no later than the interval allows, so a wake-up that serves comes in time.
  lemma {:induction false} ServedFrom(es: seq<Event>, i: nat, k: nat, interval: int, poll: int, end: Time)
    requires InOrder(es) && i <= k < |es| && es[i].Call? && StopFreeUntil(es, k + 1)
    requires OnTime(es, poll, end) && es[i].at + Max(interval, 0) + poll <= end
    requires es[k].at <= es[i].at + Max(interval, 0)
    ensures ServedBy(es, i, interval, es[i].at + Max(interval, 0) + poll)
    decreases |es| - k
  {
    assert WakesWithin(es, k, poll);
    var j :| k < j < |es| && !es[j].Call? && es[j].at <= es[k].at + poll;
    WakeServesOrIsEarly(es, i, j, interval);
    if Served(es, i, j, interval) {
      InTime(es, i, j, interval, es[i].at + Max(interval, 0) + poll);
    } else {
      ServedFrom(es, i, j, interval, poll, end);
    }
  }

  lemma {:induction false} FirstStop(es: seq<Event>, s: nat) returns (stop: nat)
    requires s < |es| && es[s].Stop?
    ensures stop <= s && es[stop].Stop? && StopFreeUntil(es, stop)
  {
    if t :| 0 <= t < s && es[t].Stop? {
      stop := FirstStop(es, t);
    } else {
      stop := s;
    }
  }

  /** With a ticker that is on time, a Call is served within one interval plus one poll. */
  lemma CallIsServedInTime(es: seq<Event>, i: nat, interval: int, end: Time)
    requires InOrder(es) && i < |es| && es[i].Call? && StopFreeUntil(es, i + 1)
    requires OnTime(es, PollInterval(interval), end)
    requires es[i].at + Max(interval, 0) + PollInterval(interval) <= end
    ensures ServedBy(es, i, interval, es[i].at + Max(interval, 0) + PollInterval(interval))
  {
    ServedFrom(es, i, i, interval, PollInterval(interval), end);
  }
}

/** The flag and the actor's loop body. `fired` stands for the callback. */
module Throttle {
  import opened Common
  import opened ThrottleModel

  class Throttle {
    const interval: int
    const pollInterval: int
    var pending: bool
    var lastFired: Option<Time>
    var done: bool

    ghost function View(): State
      reads this
    {
      State(pending, lastFired, done)
    }

    constructor (interval: int)
      ensures View() == START && this.interval == interval && pollInterval == PollInterval(interval)
    {
      this.interval := interval;
      var poll := if interval >= 0 then interval / 10 else -(-interval / 10);
      if poll < MIN_POLL {
        poll := MIN_POLL;
      }
      pollInterval := poll;
      pending, lastFired, done := false, None, false;
    }

    method Call(ghost at: Time)
      modifies this
      ensures View() == Step(old(View()), Event.Call(at), interval)
    {
      pending := true;
    }

    // pending.Swap(false)
    method SwapPending() returns (was: bool)
      modifies this
      ensures was == old(pending)
      ensures View() == old(View()).(pending := false)
    {
      was := pending;
      pending := false;
    }

    method ActorTick(now: Time) returns (fired: bool)
      requires !done
      modifies this
      ensures fired == Fires(old(View()), Tick(now), interval)
      ensures View() == Step(old(View()), Tick(now), interval)
    {
      fired := false;
      if lastFired.None? || now - lastFired.value >= interval {
        fired := SwapPending();
        if fired {
          lastFired := Some(now);
        }
      }
    }

    method ActorStop(now: Time) returns (fired: bool)
      requires !done
      modifies this
      ensures fired == Fires(old(View()), Stop(now), interval)
      ensures View() == Step(old(View()), Stop(now), interval)
    {
      fired := SwapPending();
      done := true;
    }
  }
}

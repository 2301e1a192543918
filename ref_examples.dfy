/**
 * The useRef page: a timer whose interval handle lives in a ref, so that starting and
 * stopping are idempotent, and a counter whose previous committed value lives in a ref.
 * Interval handles are supplied by the caller and stand for what `window.setInterval`
 * returns; the browser's handles are positive, and the one returned is not already live.
 */
module RefExamples {
  import opened Wrappers
  import opened Intervals

  /**
   * The timer card: the `timer` cell, the `intervalRef` ref, and the set of intervals the
   * browser is running for this card.
   */
  datatype TimerState = TimerState(timer: int, intervalRef: Option<int>, live: set<int>)

  /** One interval runs exactly while the ref holds a handle, and that handle names it. */
  predicate TimerInv(s: TimerState) {
    && s.live == HandleSet(s.intervalRef)
    && (s.intervalRef.Some? ==> s.intervalRef.value > 0)
  }

  const TimerInit := TimerState(0, None, {})

  /** `startTimer`: creates an interval (`handle`) only when the ref is empty. */
  function Start(s: TimerState, handle: int): (r: TimerState)
    ensures r.timer == s.timer
    ensures Truthy(s.intervalRef) ==> r == s
    ensures !Truthy(s.intervalRef) ==> r.intervalRef == Some(handle) && handle in r.live
    ensures TimerInv(s) && handle > 0 && handle !in s.live ==> TimerInv(r)
  {
    if !Truthy(s.intervalRef) then s.(intervalRef := Some(handle), live := s.live + {handle}) else s
  }

  /** The Stop button: clears the interval the ref names and empties the ref; nothing when empty. */
  function Stop(s: TimerState): (r: TimerState)
    ensures r.timer == s.timer
    ensures Truthy(s.intervalRef) ==> r.intervalRef == None
    ensures TimerInv(s) ==> TimerInv(r) && r.intervalRef == None && r.live == {}
  {
    if Truthy(s.intervalRef) then s.(intervalRef := None, live := s.live - {s.intervalRef.value}) else s
  }

  /** The Reset button: `setTimer(0)`; the ref and the running interval are untouched. */
  function ResetTimer(s: TimerState): (r: TimerState)
    ensures r.timer == 0 && r.intervalRef == s.intervalRef && r.live == s.live
    ensures TimerInv(s) ==> TimerInv(r)
  {
    s.(timer := 0)
  }

  /** A firing of interval `handle`: `setTimer(prev => prev + 1)`, counted only while it is live. */
  function Tick(s: TimerState, handle: int): (r: TimerState)
    ensures r.intervalRef == s.intervalRef && r.live == s.live
    ensures r.timer == s.timer + 1 <==> handle in s.live
    ensures r.timer != s.timer + 1 ==> r.timer == s.timer
    ensures TimerInv(s) ==> TimerInv(r)
  {
    if handle in s.live then s.(timer := s.timer + 1) else s
  }

  /** A tick of the live interval adds exactly one second and changes nothing else. */
  lemma TickAddsOne(s: TimerState)
    requires TimerInv(s) && s.intervalRef.Some?
    ensures Tick(s, s.intervalRef.value) == TimerState(s.timer + 1, s.intervalRef, s.live)
  {
  }

  /**
   * Each operation keeps the invariant, given a positive, not yet live handle to start with;
   * a tick keeps it whichever interval fires.
   */
  lemma TimerOpsKeepInv(s: TimerState, handle: int, fired: int)
    requires TimerInv(s) && handle > 0 && handle !in s.live
    ensures TimerInv(Start(s, handle)) && TimerInv(Stop(s)) && TimerInv(ResetTimer(s))
    ensures TimerInv(Tick(s, fired))
  {
  }

  /** A second Start is a no-op: the first one's interval keeps running alone. */
  lemma {:induction false} StartIdempotent(s: TimerState, h1: int, h2: int)
    requires TimerInv(s) && h1 > 0
    ensures Start(Start(s, h1), h2) == Start(s, h1)
    ensures |Start(s, h1).live| == 1
  {
    var t := Start(s, h1);
    assert t.intervalRef.Some? && t.intervalRef.value > 0;
    assert t.live == {t.intervalRef.value};
  }

  /** A second Stop is a no-op, and after a Stop no interval runs. */
  lemma StopIdempotent(s: TimerState)
    requires TimerInv(s)
    ensures Stop(Stop(s)) == Stop(s)
    ensures Stop(s).live == {} && Stop(s).intervalRef == None
  {
  }

  /** After Stop, Start creates a new interval again. */
  lemma StartAfterStop(s: TimerState, handle: int)
    requires TimerInv(s)
    ensures Start(Stop(s), handle).intervalRef == Some(handle)
    ensures Start(Stop(s), handle).live == {handle}
  {
  }

  /** Reset keeps a running timer running, and the next tick counts from 0. */
  lemma ResetKeepsRunning(s: TimerState)
    requires TimerInv(s) && s.intervalRef.Some?
    ensures Tick(ResetTimer(s), s.intervalRef.value).timer == 1
    ensures ResetTimer(s).live == s.live
  {
  }

  /** What the previous-value card shows in a render: "Current" and "Previous". */
  datatype View = View(current: int, previous: Option<int>)

  /**
   * The whole useRef page, one component: the input card's `inputValue` cell, the timer
   * card's `timer` cell, `intervalRef` ref and live intervals, the counter card's `count`
   * cell and `prevCountRef.current`, and what the counter card showed in the latest render.
   * Every commit of a changed cell re-renders the whole page, and the render reads
   * `prevCountRef.current` before the `[count]` effect updates it.
   */
  class UseRefPage {
    var inputValue: string
    var timer: int
    var intervalRef: Option<int>
    var live: set<int>
    var count: int
    var prevCount: Option<int>
    var shown: View

    ghost function Timer(): TimerState
      reads this
    {
      TimerState(timer, intervalRef, live)
    }

    /** The timer invariant, and the ref has caught up with `count` after every commit. */
    ghost predicate Valid()
      reads this
    {
      TimerInv(Timer()) && prevCount == Some(count)
    }

    /** Mount: the first render shows count 0 and an undefined previous value; the effect then records 0. */
    constructor ()
      ensures Timer() == TimerInit && inputValue == "" && count == 0
      ensures shown == View(0, None) && Valid()
    {
      inputValue := "";
      timer := 0;
      intervalRef := None;
      live := {};
      count := 0;
      prevCount := None;
      shown := View(count, prevCount);
      prevCount := Some(count);
    }

    /** The page re-renders: the counter card reads `count` and the ref. */
    method Render()
      modifies this
      ensures shown == View(count, prevCount)
      ensures inputValue == old(inputValue) && Timer() == old(Timer())
      ensures count == old(count) && prevCount == old(prevCount)
    {
      shown := View(count, prevCount);
    }

    /**
     * The text input's onChange, `setInputValue(value)`. The `[inputValue]` effect measures a
     * ref that no rendered element carries, so it writes nothing.
     */
    method EditInput(value: string)
      requires Valid()
      modifies this
      ensures inputValue == value && Timer() == old(Timer()) && Valid()
      ensures count == old(count)
      ensures value != old(inputValue) ==> shown == View(count, Some(count))
      ensures value == old(inputValue) ==> shown == old(shown)
    {
      if value != inputValue {
        inputValue := value;
        Render();
      }
    }

    /** `startTimer`; `handle` is what `window.setInterval` returns if it is called. Refs do not re-render. */
    method StartTimer(handle: int)
      requires Valid() && handle > 0 && handle !in live
      modifies this
      ensures Timer() == Start(old(Timer()), handle) && Valid()
      ensures inputValue == old(inputValue) && count == old(count) && shown == old(shown)
    {
      if !Truthy(intervalRef) {
        live := live + {handle};
        intervalRef := Some(handle);
      }
    }

    /** The Stop button's handler; it changes refs only, so nothing re-renders. */
    method StopTimer()
      requires Valid()
      modifies this
      ensures Timer() == Stop(old(Timer())) && Valid()
      ensures inputValue == old(inputValue) && count == old(count) && shown == old(shown)
    {
      if Truthy(intervalRef) {
        live := live - {intervalRef.value};
        intervalRef := None;
      }
    }

    /** The Reset button's `setTimer(0)`; the page re-renders unless `timer` was already 0. */
    method ResetClick()
      requires Valid()
      modifies this
      ensures Timer() == ResetTimer(old(Timer())) && Valid()
      ensures inputValue == old(inputValue) && count == old(count)
      ensures old(timer) != 0 ==> shown == View(count, Some(count))
      ensures old(timer) == 0 ==> shown == old(shown)
    {
      if timer != 0 {
        timer := 0;
        Render();
      }
    }

    /**
     * The interval `handle` fires and the page re-renders: the counter card now shows its
     * committed count as both "Current" and "Previous".
     */
    method TickEvent(handle: int)
      requires Valid() && handle in live
      modifies this
      ensures Timer() == Tick(old(Timer()), handle) && Valid()
      ensures timer == old(timer) + 1
      ensures inputValue == old(inputValue) && count == old(count)
      ensures shown == View(count, Some(count))
    {
      timer := timer + 1;
      Render();
    }

    /**
     * The Increment button: `setCount(c => c + 1)`, the re-render, which shows the count
     * committed before as "Previous", then the effect.
     */
    method Increment()
      requires Valid()
      modifies this
      ensures count == old(count) + 1 && Valid()
      ensures inputValue == old(inputValue) && Timer() == old(Timer())
      ensures shown == View(old(count) + 1, Some(old(count)))
    {
      count := count + 1;
      Render();
      prevCount := Some(count);
    }
  }
}

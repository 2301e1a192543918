/**
 * The useEffect page: a user fetch re-run on every `userId` change with an `isMounted`
 * guard, a global keydown listener, and a timer whose interval lives as long as the
 * `[isTimerRunning]` effect that created it. React re-runs an effect only when one of its
 * dependencies changed, and an update to an equal value changes nothing.
 */
module EffectExamples {
  import opened Wrappers
  import opened Intervals

  // ---------------------------------------------------------------- user fetch

  datatype UserData = UserData(name: string, email: string)

  /**
   * How one `fetchUser` call ends: its response parsed as JSON (the page does not check
   * `response.ok`, so any parsed body counts), or a throw from `fetch` or `json()`.
   */
  datatype UserOutcome = Parsed(name: string, email: string) | Failed

  /**
   * The user card: its three cells, the `isMounted` flag of every effect run so far
   * (`runs[i]` for the i-th run; only the latest can still be set), and the runs settled.
   */
  datatype UserCardState = UserCardState(
    userId: int, loading: bool, userData: Option<UserData>, runs: seq<bool>, settled: set<nat>)

  const UserCardInit := UserCardState(1, true, None, [true], {})

  predicate UserCardInv(s: UserCardState) {
    && s.userId >= 1
    && |s.runs| >= 1
    && (forall i :: 0 <= i < |s.runs| - 1 ==> !s.runs[i])
  }

  /** The card is on screen: the latest run's cleanup has not happened. */
  predicate Mounted(s: UserCardState)
    requires |s.runs| >= 1
  {
    s.runs[|s.runs| - 1]
  }

  /** `userId` changed to `id`: the cleanup clears the old run's flag, the new run sets `loading`. */
  function Refetch(s: UserCardState, id: int): (r: UserCardState)
    requires |s.runs| >= 1
    ensures r.userId == id && r.loading && r.userData == s.userData && r.settled == s.settled
    ensures |r.runs| == |s.runs| + 1 && Mounted(r)
    ensures forall i :: 0 <= i < |s.runs| - 1 ==> r.runs[i] == s.runs[i]
    ensures !r.runs[|s.runs| - 1]
  {
    s.(userId := id, loading := true, runs := s.runs[|s.runs| - 1 := false] + [true])
  }

  /** The "Previous User" button: `setUserId(prev => Math.max(1, prev - 1))`. */
  function PreviousUser(s: UserCardState): (r: UserCardState)
    requires |s.runs| >= 1
    ensures s.userId >= 1 ==> r.userId == if s.userId > 1 then s.userId - 1 else 1
    ensures s.userId == 1 ==> r == s
    ensures s.userId > 1 ==> r == Refetch(s, s.userId - 1)
  {
    var id := if 1 > s.userId - 1 then 1 else s.userId - 1;
    if id == s.userId then s else Refetch(s, id)
  }

  /** The "Next User" button: `setUserId(prev => prev + 1)`. */
  function NextUser(s: UserCardState): (r: UserCardState)
    requires |s.runs| >= 1
    ensures r.userId == s.userId + 1 && r.loading
    ensures r == Refetch(s, s.userId + 1)
  {
    Refetch(s, s.userId + 1)
  }

  /** Run `run`'s `fetchUser` settles with `outcome`; a run whose flag is down writes nothing. */
  function Settle(s: UserCardState, run: nat, outcome: UserOutcome): (r: UserCardState)
    requires run < |s.runs|
    ensures r.userId == s.userId && r.runs == s.runs && r.settled == s.settled + {run}
    ensures s.runs[run] ==> !r.loading
    ensures s.runs[run] && outcome.Parsed? ==> r.userData == Some(UserData(outcome.name, outcome.email))
    ensures !(s.runs[run] && outcome.Parsed?) ==> r.userData == s.userData
    ensures !s.runs[run] ==> r.loading == s.loading
  {
    var data := if s.runs[run] && outcome.Parsed? then Some(UserData(outcome.name, outcome.email)) else s.userData;
    var loading := if s.runs[run] then false else s.loading;
    s.(userData := data, loading := loading, settled := s.settled + {run})
  }

  /** The page unmounts: the latest run's cleanup sets its `isMounted` to false. */
  function Unmount(s: UserCardState): (r: UserCardState)
    requires |s.runs| >= 1
    ensures |r.runs| == |s.runs| && !Mounted(r) && r.runs[..|s.runs| - 1] == s.runs[..|s.runs| - 1]
    ensures r.(runs := s.runs) == s
  {
    s.(runs := s.runs[|s.runs| - 1 := false])
  }

  datatype UserCardEvent = PrevPressed | NextPressed | FetchSettled(run: nat, outcome: UserOutcome) | CardUnmounted

  /** One event; the buttons exist only while the card is mounted, and each run settles once. */
  function UserCardStep(s: UserCardState, e: UserCardEvent): (r: UserCardState)
    requires |s.runs| >= 1
    ensures UserCardInv(s) ==> UserCardInv(r)
    ensures |r.runs| >= |s.runs|
    ensures !Mounted(s) ==> r.userId == s.userId && r.runs == s.runs
  {
    match e
    case PrevPressed => if Mounted(s) then PreviousUser(s) else s
    case NextPressed => if Mounted(s) then NextUser(s) else s
    case FetchSettled(run, outcome) =>
      if run < |s.runs| && run !in s.settled then Settle(s, run, outcome) else s
    case CardUnmounted => Unmount(s)
  }

  function UserCardRun(s: UserCardState, events: seq<UserCardEvent>): (r: UserCardState)
    requires UserCardInv(s)
    ensures UserCardInv(r)
    decreases |events|
  {
    if events == [] then s
    else
      UserCardRun(UserCardStep(s, events[0]), events[1..])
  }

  /** The initial state satisfies the invariant, so `userId >= 1` holds after any history. */
  lemma UserIdAlwaysPositive(events: seq<UserCardEvent>)
    ensures UserCardRun(UserCardInit, events).userId >= 1
  {
  }

  /** A result of a superseded run, or one arriving after unmount, changes neither data nor loading. */
  lemma StaleResultIgnored(s: UserCardState, run: nat, outcome: UserOutcome)
    requires UserCardInv(s) && run < |s.runs| && run !in s.settled
    requires run < |s.runs| - 1 || !Mounted(s)
    ensures var r := UserCardStep(s, FetchSettled(run, outcome));
      r.userData == s.userData && r.loading == s.loading
  {
  }

  /** A failed fetch of the live run ends loading and keeps the previous user data. */
  lemma FailedFetchKeepsData(s: UserCardState)
    requires UserCardInv(s) && Mounted(s) && |s.runs| - 1 !in s.settled
    ensures var r := UserCardStep(s, FetchSettled(|s.runs| - 1, Failed));
      r.userData == s.userData && !r.loading
  {
  }

  /** The user card's cells, as the component holds them. */
  class UserCard {
    var userId: int
    var loading: bool
    var userData: Option<UserData>
    var runs: seq<bool>
    var settled: set<nat>

    ghost function Model(): UserCardState
      reads this
    {
      UserCardState(userId, loading, userData, runs, settled)
    }

    ghost predicate Valid()
      reads this
    {
      UserCardInv(Model())
    }

    /** Mount: `userId` 1, `loading` true, no data, and the first effect run under way. */
    constructor ()
      ensures Model() == UserCardInit && Valid()
    {
      userId, loading, userData := 1, true, None;
      runs, settled := [true], {};
    }

    method PreviousClick()
      requires Valid() && Mounted(Model())
      modifies this
      ensures Model() == UserCardStep(old(Model()), PrevPressed) && Valid()
    {
      var id := if 1 > userId - 1 then 1 else userId - 1;
      if id != userId {
        runs := runs[|runs| - 1 := false] + [true];
        userId := id;
        loading := true;
      }
    }

    method NextClick()
      requires Valid() && Mounted(Model())
      modifies this
      ensures Model() == UserCardStep(old(Model()), NextPressed) && Valid()
    {
      runs := runs[|runs| - 1 := false] + [true];
      userId := userId + 1;
      loading := true;
    }

    /** The body of run `run`'s `fetchUser` after its `await`s: the try, catch and finally. */
    method Resolve(run: nat, outcome: UserOutcome)
      requires Valid() && run < |runs| && run !in settled
      modifies this
      ensures Model() == UserCardStep(old(Model()), FetchSettled(run, outcome)) && Valid()
    {
      var isMounted := runs[run];
      if outcome.Parsed? && isMounted {
        userData := Some(UserData(outcome.name, outcome.email));
      }
      if isMounted {
        loading := false;
      }
      settled := settled + {run};
    }

    /** The effect's cleanup on unmount. */
    method Cleanup()
      requires Valid()
      modifies this
      ensures Model() == UserCardStep(old(Model()), CardUnmounted) && Valid()
    {
      runs := runs[|runs| - 1 := false];
    }
  }

  // ---------------------------------------------------------------- keydown listener

  /** `keyPressed` after the keydown events `keys`, starting from `start`. */
  function AfterKeys(start: Option<string>, keys: seq<string>): Option<string>
    decreases |keys|
  {
    if keys == [] then start else AfterKeys(Some(keys[0]), keys[1..])
  }

  /** The last key pressed wins. */
  lemma {:induction false} LastKeyWins(start: Option<string>, keys: seq<string>)
    requires keys != []
    ensures AfterKeys(start, keys) == Some(keys[|keys| - 1])
    decreases |keys|
  {
    if |keys| > 1 {
      LastKeyWins(Some(keys[0]), keys[1..]);
    }
  }

  /** The keyboard card's `keyPressed` cell. */
  class KeyListener {
    var keyPressed: Option<string>

    constructor ()
      ensures keyPressed == None
    {
      keyPressed := None;
    }

    /** `handleKeyPress`: `setKeyPressed(e.key)`. */
    method KeyDown(key: string)
      modifies this
      ensures keyPressed == Some(key)
      ensures keyPressed == AfterKeys(old(keyPressed), [key])
    {
      keyPressed := Some(key);
    }
  }

  // ---------------------------------------------------------------- timer

  /** The timer card: `timer`, `isTimerRunning`, the current effect's `intervalId`, the live intervals. */
  datatype TimerState = TimerState(timer: int, running: bool, intervalId: Option<int>, live: set<int>)

  const TimerInit := TimerState(0, false, None, {})

  /** An interval exists exactly while the timer is running, and it is the one the effect holds. */
  predicate TimerInv(s: TimerState) {
    && (s.intervalId.Some? <==> s.running)
    && (s.intervalId.Some? ==> s.intervalId.value > 0)
    && s.live == HandleSet(s.intervalId)
  }

  /**
   * `isTimerRunning` changed to `running`: the old effect's cleanup clears its interval,
   * and the new effect creates interval `handle` if the timer now runs.
   */
  function Rerun(s: TimerState, running: bool, handle: int): (r: TimerState)
    ensures r.timer == s.timer && r.running == running
    ensures running ==> r.intervalId == Some(handle) && handle in r.live
    ensures !running ==> r.intervalId == None
    ensures TimerInv(s) && (running ==> handle > 0) ==> TimerInv(r)
    ensures TimerInv(s) && !running ==> r.live == {}
  {
    var cleaned := if Truthy(s.intervalId) then s.live - {s.intervalId.value} else s.live;
    if running then TimerState(s.timer, true, Some(handle), cleaned + {handle})
    else TimerState(s.timer, false, None, cleaned)
  }

  /** The Start/Pause button: `setIsTimerRunning(!isTimerRunning)`. */
  function StartPause(s: TimerState, handle: int): (r: TimerState)
    ensures r.running == !s.running && r.timer == s.timer
    ensures TimerInv(s) && handle > 0 ==> TimerInv(r)
  {
    Rerun(s, !s.running, handle)
  }

  /** The Reset button: stop and zero; the effect re-runs only if the timer was running. */
  function ResetTimer(s: TimerState): (r: TimerState)
    ensures r.timer == 0 && !r.running
    ensures !s.running ==> r == s.(timer := 0)
    ensures TimerInv(s) ==> TimerInv(r) && r.live == {}
  {
    var stopped := if s.running then Rerun(s, false, 0) else s;
    stopped.(timer := 0)
  }

  /** Interval `handle` fires: `setTimer(prev => prev + 1)`, if it is still live. */
  function Tick(s: TimerState, handle: int): (r: TimerState)
    ensures r.(timer := s.timer) == s
    ensures r.timer == s.timer + 1 <==> handle in s.live
    ensures r.timer != s.timer + 1 ==> r.timer == s.timer
    ensures TimerInv(s) ==> (r.timer == s.timer + 1 <==> s.running && Some(handle) == s.intervalId)
  {
    if handle in s.live then s.(timer := s.timer + 1) else s
  }

  datatype TimerEvent = StartPausePressed(handle: int) | ResetPressed | IntervalFired(handle: int)

  function TimerStep(s: TimerState, e: TimerEvent): TimerState {
    match e
    case StartPausePressed(handle) => StartPause(s, handle)
    case ResetPressed => ResetTimer(s)
    case IntervalFired(handle) => Tick(s, handle)
  }

  /** The browser hands out positive interval handles. */
  predicate PositiveHandles(events: seq<TimerEvent>) {
    forall i :: 0 <= i < |events| ==> (events[i].StartPausePressed? ==> events[i].handle > 0)
  }

  function TimerRun(s: TimerState, events: seq<TimerEvent>): TimerState
    decreases |events|
  {
    if events == [] then s else TimerRun(TimerStep(s, events[0]), events[1..])
  }

  /** Start/Pause flips `isTimerRunning`; Reset stops the timer and zeroes it; a live tick adds one. */
  lemma TimerStepEffects(s: TimerState, handle: int)
    requires TimerInv(s)
    ensures StartPause(s, handle).running == !s.running && StartPause(s, handle).timer == s.timer
    ensures !ResetTimer(s).running && ResetTimer(s).timer == 0 && ResetTimer(s).live == {}
    ensures s.running ==> Tick(s, s.intervalId.value).timer == s.timer + 1
    ensures !s.running ==> Tick(s, handle) == s
  {
  }

  /** Over any history with browser-issued handles, an interval runs exactly while the timer runs. */
  lemma {:induction false} TimerRunInv(s: TimerState, events: seq<TimerEvent>)
    requires TimerInv(s) && PositiveHandles(events)
    ensures TimerInv(TimerRun(s, events))
    decreases |events|
  {
    if events != [] {
      assert PositiveHandles(events[1..]) by {
        forall i | 0 <= i < |events[1..]| ensures events[1..][i].StartPausePressed? ==> events[1..][i].handle > 0 {
          assert events[1..][i] == events[i + 1];
        }
      }
      TimerRunInv(TimerStep(s, events[0]), events[1..]);
    }
  }

  /** The timer card's cells, as the component holds them. */
  class EffectTimer {
    var timer: int
    var isTimerRunning: bool
    var intervalId: Option<int>
    var live: set<int>

    ghost function Model(): TimerState
      reads this
    {
      TimerState(timer, isTimerRunning, intervalId, live)
    }

    ghost predicate Valid()
      reads this
    {
      TimerInv(Model())
    }

    /** Mount: `timer` 0 and `isTimerRunning` false, so the first effect creates no interval. */
    constructor ()
      ensures Model() == TimerInit && Valid()
    {
      timer, isTimerRunning := 0, false;
      intervalId, live := None, {};
    }

    /** The effect cleanup followed by the new effect, after `isTimerRunning` changed. */
    method RunEffect(handle: int)
      requires isTimerRunning ==> handle > 0
      modifies this
      ensures Model() == Rerun(old(Model()), isTimerRunning, handle)
      ensures timer == old(timer) && isTimerRunning == old(isTimerRunning)
    {
      if Truthy(intervalId) {
        live := live - {intervalId.value};
      }
      intervalId := None;
      if isTimerRunning {
        intervalId := Some(handle);
        live := live + {handle};
      }
    }

    /** The Start/Pause button; `handle` is what `setInterval` returns if the timer starts. */
    method StartPauseClick(handle: int)
      requires Valid() && handle > 0
      modifies this
      ensures Model() == TimerStep(old(Model()), StartPausePressed(handle)) && Valid()
    {
      isTimerRunning := !isTimerRunning;
      RunEffect(handle);
    }

    /** The Reset button: `setIsTimerRunning(false)` and `setTimer(0)`. */
    method ResetClick()
      requires Valid()
      modifies this
      ensures Model() == TimerStep(old(Model()), ResetPressed) && Valid()
    {
      var changed := isTimerRunning;
      isTimerRunning := false;
      timer := 0;
      if changed {
        RunEffect(0);
      }
    }

    /** Interval `handle` fires. */
    method Fire(handle: int)
      requires Valid() && handle in live
      modifies this
      ensures Model() == TimerStep(old(Model()), IntervalFired(handle)) && Valid()
      ensures timer == old(timer) + 1
    {
      timer := timer + 1;
    }
  }
}

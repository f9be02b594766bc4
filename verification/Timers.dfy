/** Timer against the kernel timer behind its descriptor. */
module Timers {
  import opened Basics
  import opened Timespec

  /** milliseconds::max(), the duration of a timer that was never started. */
  const NEVER_SET: int := 0x7FFF_FFFF_FFFF_FFFF

  const NS_PER_MS := 1000000

  /** The duration in nanoseconds fits in 64 bits. */
  predicate InRange(ms: int) {
    -0x8000_0000_0000_0000 <= ms * NS_PER_MS < 0x8000_0000_0000_0000
  }

  /** A timerfd: disarmed, or ticking with an interval. */
  datatype KernelTimer = Disarmed | Ticking(sec: int, nsec: int)

  datatype TimerState = TimerState(isRunning: bool, setDuration: int, kernel: KernelTimer)

  predicate ValidTimespec(sec: int, nsec: int) {
    0 <= sec && 0 <= nsec < NS_PER_SEC
  }

  /** timerfd_settime with this value and interval.  It refuses invalid ones, a zero one
      disarms, and it may fail for other reasons. */
  function AfterSetTime(k: KernelTimer, ts: (int, int), fails: bool): (r: (KernelTimer, bool)) {
    if !ValidTimespec(ts.0, ts.1) || fails then (k, false)
    else if ts == (0, 0) then (Disarmed, true)
    else (Ticking(ts.0, ts.1), true)
  }

  function DoStop(s: TimerState): (TimerState, ReturnCode) {
    if !s.isRunning then (s, PASSABLE)
    else (s.(isRunning := false, kernel := AfterSetTime(s.kernel, (0, 0), false).0), OK)
  }

  function DoStart(s: TimerState, ms: int, rnd: real -> real, fails: bool): (TimerState, ReturnCode) {
    var s1 := DoStop(s).0.(setDuration := ms);
    var (k, ok) := AfterSetTime(s1.kernel, ToTimespec(rnd, ms * NS_PER_MS), fails);
    if ok then (s1.(kernel := k, isRunning := true), OK) else (s1.(kernel := k), NOK)
  }

  function DoResume(s: TimerState, rnd: real -> real, fails: bool): (TimerState, ReturnCode) {
    if s.setDuration == NEVER_SET then (s, NOK) else DoStart(s, s.setDuration, rnd, fails)
  }

  // ----------------------------------------------------------- agreement

  /** isRunning() tells the truth about the kernel timer. */
  ghost predicate Agrees(s: TimerState) {
    s.isRunning <==> s.kernel.Ticking?
  }

  /** Half of that, which no call breaks: a ticking kernel timer is reported. */
  ghost predicate Reported(s: TimerState) {
    s.kernel.Ticking? ==> s.isRunning
  }

  /** Nanoseconds of the interval. */
  function Interval(k: KernelTimer): int
    requires k.Ticking?
  {
    k.sec * NS_PER_SEC + k.nsec
  }

  /** A ticking timer ticks with the duration that was set, up to the conversion. */
  ghost predicate Accurate(s: TimerState) {
    s.kernel.Ticking? ==>
      var n := s.setDuration * NS_PER_MS;
      && 0 < n < 0x8000_0000_0000_0000 && 0 < Interval(s.kernel)
      && Abs(Interval(s.kernel) as real - n as real) <= 2.0 + n as real / (TWO_53 / 4.0)
      && (n < 0x10_0000_0000_0000 ==> Interval(s.kernel) == n || Interval(s.kernel) == n - 1)
  }

  /** Only a duration of zero converts to the timespec that disarms. */
  lemma ConversionArms(rnd: real -> real, ms: int)
    requires InRange(ms) && Faithful(rnd, ms * NS_PER_MS)
    ensures var ts := ToTimespec(rnd, ms * NS_PER_MS);
            && (ts == (0, 0) <==> ms == 0)
            && (ValidTimespec(ts.0, ts.1) <==> ms >= 0)
  {
    var n := ms * NS_PER_MS;
    if ms < 0 {
      NegativeConversion(rnd, n);
    } else if n < 0x10_0000_0000_0000 {
      ShortConversion(rnd, n);
    } else {
      LongConversion(rnd, n);
      assert n as real / (TWO_53 / 4.0) <= n as real / 2.0;
    }
  }

  // ------------------------------------------------------ what the calls do

  /** A duration that converts: to 64 bits of nanoseconds, rounded correctly. */
  ghost predicate Convertible(ms: int, rnd: real -> real) {
    InRange(ms) && Faithful(rnd, ms * NS_PER_MS)
  }

  /** s1 and code are what starting with ms leaves: ticking with that duration, up to the
      conversion, and reported so; disarmed and reported stopped when the system refuses,
      as it does negative durations; disarmed and reported running for zero. */
  ghost predicate Started(s1: TimerState, code: ReturnCode, ms: int, fails: bool) {
    var n := ms * NS_PER_MS;
    && s1.setDuration == ms
    && (ms > 0 && !fails ==>
          && code == OK && s1.isRunning && s1.kernel.Ticking?
          && 0 <= s1.kernel.sec && 0 <= s1.kernel.nsec < NS_PER_SEC
          && var ns := s1.kernel.sec * NS_PER_SEC + s1.kernel.nsec;
             && Abs(ns as real - n as real) <= 2.0 + n as real / (TWO_53 / 4.0)
             && (n < 0x10_0000_0000_0000 ==> ns == n || ns == n - 1))
    && (ms < 0 || fails ==> code == NOK && !s1.isRunning && s1.kernel == Disarmed)
    && (ms == 0 && !fails ==> code == OK && s1.isRunning && s1.kernel == Disarmed)
  }

  /** s1 and code are what stopping s leaves. */
  ghost predicate Stopped(s: TimerState, s1: TimerState, code: ReturnCode) {
    && s1 == TimerState(false, s.setDuration, Disarmed)
    && code == if s.isRunning then OK else PASSABLE
  }

  /** Whatever the timer did before, start leaves it so. */
  lemma StartEffect(s: TimerState, ms: int, rnd: real -> real, fails: bool)
    requires Reported(s) && Convertible(ms, rnd)
    ensures var (s1, code) := DoStart(s, ms, rnd, fails); Started(s1, code, ms, fails)
  {
    var n := ms * NS_PER_MS;
    ConversionArms(rnd, ms);
    assert DoStop(s).0.kernel == Disarmed;
    if ms > 0 {
      LongConversion(rnd, n);
      if n < 0x10_0000_0000_0000 {
        ShortConversion(rnd, n);
      }
    }
  }

  lemma StopEffect(s: TimerState)
    requires Reported(s)
    ensures var (s1, code) := DoStop(s); Stopped(s, s1, code)
  {
  }

  /** resume starts again with the duration of the last start, also of one that was
      refused; before the first it is refused and changes nothing. */
  lemma ResumeEffect(s: TimerState, rnd: real -> real, fails: bool)
    requires Reported(s) && (s.setDuration == NEVER_SET || Convertible(s.setDuration, rnd))
    ensures var (s1, code) := DoResume(s, rnd, fails);
            if s.setDuration == NEVER_SET then s1 == s && code == NOK
            else Started(s1, code, s.setDuration, fails)
  {
    if s.setDuration != NEVER_SET {
      StartEffect(s, s.setDuration, rnd, fails);
    }
  }

  /** So a timer that was started, stopped and resumed ticks again as it did. */
  lemma StopResume(s: TimerState, ms: int, rnd: real -> real)
    requires Reported(s) && Convertible(ms, rnd) && ms > 0
    ensures var started := DoStart(s, ms, rnd, false).0;
            DoResume(DoStop(started).0, rnd, false) == (started, OK)
  {
    StartEffect(s, ms, rnd, false);
    assert ms != NEVER_SET;
  }

  /** After start, isRunning is right exactly unless the duration was zero and the
      call succeeded: then it reports a running timer that is disarmed. */
  lemma StartAgreesIff(s: TimerState, ms: int, rnd: real -> real, fails: bool)
    requires Reported(s) && InRange(ms) && Faithful(rnd, ms * NS_PER_MS)
    ensures Agrees(DoStart(s, ms, rnd, fails).0) <==> ms != 0 || fails
    ensures Reported(DoStart(s, ms, rnd, fails).0)
    ensures ms > 0 && !fails ==> DoStart(s, ms, rnd, fails).1 == OK
  {
    ConversionArms(rnd, ms);
  }

  lemma StartAccurate(s: TimerState, ms: int, rnd: real -> real, fails: bool)
    requires Reported(s) && InRange(ms) && Faithful(rnd, ms * NS_PER_MS)
    ensures Accurate(DoStart(s, ms, rnd, fails).0)
  {
    ConversionArms(rnd, ms);
    var n := ms * NS_PER_MS;
    if ms > 0 {
      LongConversion(rnd, n);
      if n < 0x10_0000_0000_0000 {
        ShortConversion(rnd, n);
      }
    }
  }

  datatype TimerCall = Start(ms: int, fails: bool) | Stop | Resume(fails: bool)

  function Do(s: TimerState, c: TimerCall, rnd: real -> real): TimerState {
    match c
    case Start(ms, fails) => DoStart(s, ms, rnd, fails).0
    case Stop => DoStop(s).0
    case Resume(fails) => DoResume(s, rnd, fails).0
  }

  function DoAll(s: TimerState, cs: seq<TimerCall>, rnd: real -> real): TimerState
    decreases |cs|
  {
    if cs == [] then s else DoAll(Do(s, cs[0], rnd), cs[1..], rnd)
  }

  ghost predicate TimerOk(s: TimerState, rnd: real -> real) {
    Reported(s) && Accurate(s) && (s.setDuration == NEVER_SET || Convertible(s.setDuration, rnd))
  }

  /** A start or resume of length zero that succeeds. */
  predicate StartsAtZero(s: TimerState, c: TimerCall) {
    match c
    case Start(ms, fails) => ms == 0 && !fails
    case Stop => false
    case Resume(fails) => s.setDuration == 0 && !fails
  }

  /** isRunning is right after every call. */
  ghost predicate AgreesThroughout(s: TimerState, cs: seq<TimerCall>, rnd: real -> real)
    decreases |cs|
  {
    cs != [] ==> Agrees(Do(s, cs[0], rnd)) && AgreesThroughout(Do(s, cs[0], rnd), cs[1..], rnd)
  }

  ghost predicate NeverAtZero(s: TimerState, cs: seq<TimerCall>, rnd: real -> real)
    decreases |cs|
  {
    cs != [] ==> !StartsAtZero(s, cs[0]) && NeverAtZero(Do(s, cs[0], rnd), cs[1..], rnd)
  }

  /** After any one call isRunning is right exactly unless that was a start of length zero;
      only a resume before the first start leaves things as they were. */
  lemma CallTimerIff(s: TimerState, c: TimerCall, rnd: real -> real)
    requires TimerOk(s, rnd) && (c.Start? ==> Convertible(c.ms, rnd))
    ensures TimerOk(Do(s, c, rnd), rnd)
    ensures Agrees(Do(s, c, rnd)) <==>
            if c.Resume? && s.setDuration == NEVER_SET then Agrees(s) else !StartsAtZero(s, c)
  {
    hide Faithful, ToTimespec;
    match c
    case Start(ms, fails) =>
      StartAgreesIff(s, ms, rnd, fails);
      StartAccurate(s, ms, rnd, fails);
    case Stop =>
    case Resume(fails) =>
      if s.setDuration != NEVER_SET {
        StartAgreesIff(s, s.setDuration, rnd, fails);
        StartAccurate(s, s.setDuration, rnd, fails);
      }
  }

  /** Over every run of start, stop and resume, with any durations and with arming allowed
      to fail: a ticking kernel timer has the interval that was set, up to the conversion;
      and isRunning is right after every call exactly when no start or resume of length
      zero succeeds. */
  lemma {:induction false} RunTimerIff(s: TimerState, cs: seq<TimerCall>, rnd: real -> real)
    requires TimerOk(s, rnd) && forall c :: c in cs && c.Start? ==> Convertible(c.ms, rnd)
    ensures TimerOk(DoAll(s, cs, rnd), rnd)
    ensures Agrees(s) ==> (AgreesThroughout(s, cs, rnd) <==> NeverAtZero(s, cs, rnd))
    decreases |cs|
  {
    hide TimerOk, Agrees, Do, Convertible;
    if cs != [] {
      CallTimerIff(s, cs[0], rnd);
      RunTimerIff(Do(s, cs[0], rnd), cs[1..], rnd);
      ResumeUnset(s, cs[0]);
    }
  }

  lemma ResumeUnset(s: TimerState, c: TimerCall)
    ensures c.Resume? && s.setDuration == NEVER_SET ==> !StartsAtZero(s, c)
  {
  }

  /** Where every timer starts. */
  lemma NewTimerOk(rnd: real -> real)
    ensures TimerOk(TimerState(false, NEVER_SET, Disarmed), rnd) && Agrees(TimerState(false, NEVER_SET, Disarmed))
  {
  }

  // -------------------------------------------------------------- the object

  class TimerFd {
    var timer: KernelTimer

    constructor ()
      ensures timer == Disarmed
    {
      timer := Disarmed;
    }

    method SetTime(sec: int, nsec: int, fails: bool) returns (ok: bool)
      modifies this
      ensures (timer, ok) == AfterSetTime(old(timer), (sec, nsec), fails)
    {
      ok := ValidTimespec(sec, nsec) && !fails;
      if ok {
        timer := if sec == 0 && nsec == 0 then Disarmed else Ticking(sec, nsec);
      }
    }
  }

  class Timer {
    const fd: TimerFd
    var isRunning: bool
    var setDuration: int

    constructor ()
      ensures State() == TimerState(false, NEVER_SET, Disarmed)
    {
      fd := new TimerFd();
      isRunning, setDuration := false, NEVER_SET;
    }

    ghost function State(): TimerState
      reads this, fd
    {
      TimerState(isRunning, setDuration, fd.timer)
    }

    method StopTimer() returns (code: ReturnCode)
      modifies this, fd
      ensures (State(), code) == DoStop(old(State()))
      ensures old(Reported(State())) ==> Stopped(old(State()), State(), code)
    {
      if !isRunning {
        return PASSABLE;
      }
      isRunning := false;
      var _ := fd.SetTime(0, 0, false);
      return OK;
    }

    method StartTimer(ms: int, rnd: real -> real, fails: bool) returns (code: ReturnCode)
      requires InRange(ms)
      modifies this, fd
      ensures (State(), code) == DoStart(old(State()), ms, rnd, fails)
      ensures old(Reported(State())) && Convertible(ms, rnd) ==> Started(State(), code, ms, fails)
    {
      if Reported(State()) && Convertible(ms, rnd) {
        StartEffect(State(), ms, rnd, fails);
      }
      if isRunning {
        var _ := StopTimer();
      }
      setDuration := ms;
      var (sec, nsec) := ToTimespec(rnd, ms * NS_PER_MS);
      var ok := fd.SetTime(sec, nsec, fails);
      if !ok {
        return NOK;
      }
      isRunning := true;
      return OK;
    }

    method ResumeTimer(rnd: real -> real, fails: bool) returns (code: ReturnCode)
      requires setDuration == NEVER_SET || InRange(setDuration)
      modifies this, fd
      ensures (State(), code) == DoResume(old(State()), rnd, fails)
      ensures old(Reported(State())) && old(setDuration) != NEVER_SET && Convertible(old(setDuration), rnd) ==>
                Started(State(), code, old(setDuration), fails)
      ensures old(setDuration) == NEVER_SET ==> State() == old(State()) && code == NOK
    {
      if setDuration == NEVER_SET {
        return NOK;
      }
      code := StartTimer(setDuration, rnd, fails);
    }
  }
}

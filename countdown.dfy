/** `useCountdown`: a seconds counter with an on/off flag. A timer effect removes one
    second per tick while the counter is on and above zero; reaching zero switches it off.
    The hook's state is the class `Countdown`; every method is specified by a pure
    function on the value `Timer`, and what several ticks do is proved on those functions. */
module CountdownHook {
  import opened Text

  datatype Timer = Timer(countdown: nat, isActive: bool)

  /** The state every render settles on: a zero counter is never left running,
      because the effect answers `countdown === 0` with `setIsActive(false)`. */
  predicate Settled(t: Timer)
  {
    t.countdown == 0 ==> !t.isActive
  }

  function Settle(t: Timer): (r: Timer)
    ensures Settled(r)
    ensures r.countdown == t.countdown
    ensures Settled(t) ==> r == t
  {
    if t.countdown == 0 then Timer(0, false) else t
  }

  /** `useState(initialTime)`, `useState(false)`. */
  function Initial(initialTime: nat): (t: Timer)
    ensures t.countdown == initialTime && !t.isActive
  {
    Timer(initialTime, false)
  }

  /** `start(time)`: the counter is set and switched on; a start at zero is switched
      off again by the effect. */
  function StartAt(time: nat): (t: Timer)
    ensures t.countdown == time
    ensures t.isActive <==> time > 0
    ensures Settled(t)
  {
    Settle(Timer(time, true))
  }

  /** One elapsed second of the effect's `setTimeout`. */
  function Step(t: Timer): (r: Timer)
    ensures t.isActive && t.countdown > 0 ==> r.countdown == t.countdown - 1
    ensures !(t.isActive && t.countdown > 0) ==> r.countdown == t.countdown
    ensures !t.isActive ==> r.isActive == t.isActive
    ensures r.countdown <= t.countdown
    ensures Settled(r)
    ensures t.isActive && r.isActive <==> t.isActive && t.countdown > 1
  {
    if t.isActive && t.countdown > 0 then Settle(Timer(t.countdown - 1, true)) else Settle(t)
  }

  /** `n` elapsed seconds with no `start` or `reset` in between. */
  function Steps(t: Timer, n: nat): Timer
    decreases n
  {
    if n == 0 then t else Steps(Step(t), n - 1)
  }

  function Max0(a: int): nat { if a < 0 then 0 else a }

  /** A running counter loses exactly one second per tick until it reaches zero, and
      stays on exactly while time is left. */
  lemma {:induction false} StepsRunning(t: Timer, n: nat)
    requires Settled(t) && t.isActive
    ensures Steps(t, n).countdown == Max0(t.countdown - n)
    ensures Steps(t, n).isActive <==> n < t.countdown
    decreases n
  {
    if n > 0 {
      var s := Step(t);
      if s.isActive {
        StepsRunning(s, n - 1);
      } else {
        StepsIdle(s, n - 1);
      }
    }
  }

  /** A counter that is off changes nothing, however many seconds pass. */
  lemma {:induction false} StepsIdle(t: Timer, n: nat)
    requires Settled(t) && !t.isActive
    ensures Steps(t, n) == t
    decreases n
  {
    if n > 0 {
      StepsIdle(Step(t), n - 1);
    }
  }

  /** Between `start`/`reset` calls the counter never goes up. */
  lemma {:induction false} StepsNonIncreasing(t: Timer, m: nat, n: nat)
    requires m <= n
    ensures Steps(t, n).countdown <= Steps(t, m).countdown
    decreases n
  {
    if m > 0 {
      StepsNonIncreasing(Step(t), m - 1, n - 1);
    } else if n > 0 {
      StepsNonIncreasing(Step(t), 0, n - 1);
    }
  }

  /** A start at `time` expires after exactly `time` seconds and is off from then on. */
  lemma ExpiresAfterItsTime(time: nat)
    ensures Steps(StartAt(time), time) == Timer(0, false)
    ensures forall n: nat :: n < time ==> Steps(StartAt(time), n).countdown > 0
  {
    if time > 0 {
      forall n: nat | n <= time
        ensures Steps(StartAt(time), n).countdown == time - n
      {
        StepsRunning(StartAt(time), n);
      }
      StepsRunning(StartAt(time), time);
    }
  }

  /** `formatTime`: whole minutes, a colon, and the remaining seconds padded to two digits. */
  lemma ColonSplit(mins: string, secs: string)
    requires |secs| == 2
    ensures var r := mins + ":" + secs;
            r[|r| - 3] == ':' && r[..|r| - 3] == mins && r[|r| - 2..] == secs
  {
  }

  function FormatTime(seconds: nat): (r: string)
    ensures |r| >= 4 && r[|r| - 3] == ':'
    ensures AllDigits(r[..|r| - 3]) && AllDigits(r[|r| - 2..])
    ensures DecimalValue(r[|r| - 2..]) == seconds % 60
    ensures DecimalValue(r[..|r| - 3]) == seconds / 60
    // `${mins}` has no leading zero: a lone "0" or a first digit other than '0'
    ensures |r| == 4 || r[0] != '0'
  {
    var m, s := seconds / 60, seconds % 60;
    DecimalRoundTrip(m);
    var mins := NatToString(m);
    var secs := Pad2(s);
    ColonSplit(mins, secs);
    mins + ":" + secs
  }

  /** Reading a formatted time back gives the seconds it was made from. */
  lemma FormatTimeRoundTrip(seconds: nat)
    ensures var r := FormatTime(seconds);
            DecimalValue(r[..|r| - 3]) * 60 + DecimalValue(r[|r| - 2..]) == seconds
            && DecimalValue(r[|r| - 2..]) < 60
  {
  }

  /** The hook's state: `countdown`, `isActive` and the `initialTime` argument. */
  class Countdown {
    const initialTime: nat
    var countdown: nat
    var isActive: bool

    function State(): Timer
      reads this
    {
      Timer(countdown, isActive)
    }

    constructor (initialTime: nat)
      ensures this.initialTime == initialTime
      ensures State() == Initial(initialTime)
    {
      this.initialTime := initialTime;
      countdown := initialTime;
      isActive := false;
    }

    /** `start(time = initialTime)`, followed by the render's effect. */
    method Start(time: Option<nat>)
      modifies this
      ensures State() == StartAt(if time.Some? then time.value else initialTime)
    {
      countdown := if time.Some? then time.value else initialTime;
      isActive := true;
      if countdown == 0 {
        isActive := false;
      }
    }

    /** `reset()`. */
    method Reset()
      modifies this
      ensures State() == Initial(initialTime)
    {
      countdown := initialTime;
      isActive := false;
    }

    /** One second of the timer effect. */
    method Tick()
      modifies this
      ensures State() == Step(old(State()))
    {
      if isActive && countdown > 0 {
        countdown := countdown - 1;
      }
      if countdown == 0 {
        isActive := false;
      }
    }

    /** `isExpired`. */
    function IsExpired(): (b: bool)
      reads this
      ensures b <==> countdown == 0
    {
      countdown == 0
    }

    /** `formatted`. */
    function Formatted(): (r: string)
      reads this
      ensures r == FormatTime(countdown)
    {
      FormatTime(countdown)
    }
  }
}

/**
 The room timer of backend/state.py.

 `Clock` holds the timer fields of the state dictionary and `State` the whole dictionary.
 `Second` is the simple clock, one second at a time; `TimerState.Advance` is the jump the
 program takes after a gap of any length, and it is proved to be exactly that many seconds of
 the simple clock. `HandleClock` says what a user message does to the timer fields.
 */
module Timer {
  import opened Common

  const BREAK_SECONDS := 600
  const MAX_MINUTES := 120

  /** The provider's answer about the sky; the timer never looks inside it. */
  type Sky = int

  datatype Clock = Clock(
    focus: bool,
    paused: bool,
    remaining: int,
    duration: int,
    onBreak: bool,
    breakRemaining: int,
    breakDuration: int,
    sessions: int,
    reward: int)

  datatype State = State(
    clock: Clock,
    sky: Sky,
    timeOverride: Option<string>,
    stamp: Option<int>,
    revision: int)

  /** A browser message. Answers of foreign calls (date parsing, the sky) travel with it. */
  datatype Message =
    | TimeOverride(iso: Option<string>, parses: bool, newSky: Sky)
    | FocusToggle
    | FocusPause
    | FocusCancel
    | SetDuration(minutes: Option<int>)
    | SkipBreak
    | Location(lat: Option<real>, lon: Option<real>, newSky: Sky)
    | Unknown

  function InitialClock(): Clock {
    Clock(false, false, 3000, 3000, false, 0, BREAK_SECONDS, 0, 0)
  }

  function InitialState(sky: Sky): State {
    State(InitialClock(), sky, None, None, 0)
  }

  predicate Advancing(c: Clock) {
    c.onBreak || (c.focus && !c.paused)
  }

  // ---------------------------------------------------------------- the simple clock

  /** A focus session completes and its break begins. */
  function StartBreak(c: Clock): Clock {
    c.(focus := false, paused := false, sessions := c.sessions + 1, reward := c.reward + 1,
       breakDuration := BREAK_SECONDS, onBreak := true, breakRemaining := BREAK_SECONDS,
       remaining := c.duration)
  }

  /** One second of wall time. A session with nothing left completes at once, so the second
      is already the first of its break. */
  function Second(c: Clock): Clock {
    if c.focus && !c.paused then
      if c.remaining > 1 then c.(remaining := c.remaining - 1)
      else if c.remaining == 1 then StartBreak(c)
      else StartBreak(c).(breakRemaining := BREAK_SECONDS - 1)
    else if c.onBreak then
      if c.breakRemaining > 1 then c.(breakRemaining := c.breakRemaining - 1)
      else c.(onBreak := false, breakRemaining := Min(0, c.breakRemaining))
    else c
  }

  /** `n` seconds, one after another. */
  function Run(c: Clock, n: nat): Clock
    decreases n
  {
    if n == 0 then c else Run(Second(c), n - 1)
  }

  lemma {:induction false} RunAdds(c: Clock, a: nat, b: nat)
    ensures Run(c, a + b) == Run(Run(c, a), b)
    decreases a
  {
    if a > 0 { RunAdds(Second(c), a - 1, b); }
  }

  lemma {:induction false} IdleStands(c: Clock, n: nat)
    requires !Advancing(c)
    ensures Run(c, n) == c
  {
    if n > 0 { IdleStands(c, n - 1); }
  }

  /** Within one focus session the seconds only count down. */
  lemma {:induction false} FocusRuns(c: Clock, n: nat)
    requires c.focus && !c.paused && n < c.remaining
    ensures Run(c, n) == c.(remaining := c.remaining - n)
    decreases n
  {
    if n > 0 { FocusRuns(Second(c), n - 1); }
  }

  lemma {:induction false} BreakRuns(c: Clock, n: nat)
    requires c.onBreak && !(c.focus && !c.paused) && n < c.breakRemaining
    ensures Run(c, n) == c.(breakRemaining := c.breakRemaining - n)
    decreases n
  {
    if n > 0 { BreakRuns(Second(c), n - 1); }
  }

  lemma FocusEnds(c: Clock)
    requires c.focus && !c.paused && c.remaining > 0
    ensures Run(c, c.remaining) == StartBreak(c)
  {
    var n := c.remaining - 1;
    FocusRuns(c, n);
    RunAdds(c, n, 1);
    assert Run(Run(c, n), 1) == Run(Second(Run(c, n)), 0);
  }

  lemma BreakEnds(c: Clock)
    requires c.onBreak && !(c.focus && !c.paused) && c.breakRemaining > 0
    ensures Run(c, c.breakRemaining) == c.(onBreak := false, breakRemaining := 0)
  {
    var n := c.breakRemaining - 1;
    BreakRuns(c, n);
    RunAdds(c, n, 1);
    assert Run(Run(c, n), 1) == Run(Second(Run(c, n)), 0);
  }

  /** What is left of the session, or the whole break that follows it. */
  lemma FocusRound(c: Clock, n: nat)
    requires c.focus && !c.paused && n > 0
    ensures n < c.remaining ==> Run(c, n) == c.(remaining := c.remaining - n)
    ensures n >= c.remaining ==> Run(c, n) == Run(StartBreak(c), n - Max(0, c.remaining))
  {
    if n < c.remaining {
      FocusRuns(c, n);
    } else if c.remaining > 0 {
      FocusEnds(c);
      RunAdds(c, c.remaining, n - c.remaining);
    } else {
      assert Second(c) == Second(StartBreak(c));
    }
  }

  lemma BreakRound(c: Clock, n: nat)
    requires c.onBreak && !(c.focus && !c.paused) && n > 0
    ensures n < c.breakRemaining ==> Run(c, n) == c.(breakRemaining := c.breakRemaining - n)
    ensures n >= c.breakRemaining ==>
              Run(c, n) == c.(onBreak := false, breakRemaining := Min(0, c.breakRemaining))
  {
    if n < c.breakRemaining {
      BreakRuns(c, n);
    } else if c.breakRemaining > 0 {
      BreakEnds(c);
      RunAdds(c, c.breakRemaining, n - c.breakRemaining);
      IdleStands(c.(onBreak := false, breakRemaining := 0), n - c.breakRemaining);
    } else {
      IdleStands(Second(c), n - 1);
    }
  }

  // ---------------------------------------------------------------- the mutable state

  /** The state dictionary, updated field by field as the program does. */
  class TimerState {
    var focus: bool
    var paused: bool
    var remaining: int
    var duration: int
    var onBreak: bool
    var breakRemaining: int
    var breakDuration: int
    var sessions: int
    var reward: int
    var sky: Sky
    var timeOverride: Option<string>
    var stamp: Option<int>
    var revision: int

    function View(): State
      reads this
    {
      State(ViewClock(), sky, timeOverride, stamp, revision)
    }

    function ViewClock(): Clock
      reads this
    {
      Clock(focus, paused, remaining, duration, onBreak, breakRemaining, breakDuration, sessions, reward)
    }

    constructor Decode(s: State)
      ensures View() == s
    {
      focus, paused, remaining, duration := s.clock.focus, s.clock.paused, s.clock.remaining, s.clock.duration;
      onBreak, breakRemaining, breakDuration := s.clock.onBreak, s.clock.breakRemaining, s.clock.breakDuration;
      sessions, reward := s.clock.sessions, s.clock.reward;
      sky, timeOverride, stamp, revision := s.sky, s.timeOverride, s.stamp, s.revision;
    }

    method CompleteSession()
      modifies this
      ensures View() == old(View()).(clock := StartBreak(old(ViewClock())))
    {
      focus := false;
      paused := false;
      sessions := sessions + 1;
      reward := reward + 1;
      breakDuration := BREAK_SECONDS;
      onBreak := true;
      breakRemaining := BREAK_SECONDS;
      remaining := duration;
    }

    /** The jump: any number of seconds in at most three rounds of the loop. */
    method Advance(seconds: int) returns (changed: bool, ghost rounds: nat)
      modifies this
      ensures View() == old(View()).(clock := Run(old(ViewClock()), Max(0, seconds)))
      ensures changed <==> seconds > 0 && old(Advancing(ViewClock()))
      ensures rounds <= 3
    {
      ghost var start, total := ViewClock(), Max(0, seconds);
      ghost var goal := Run(start, total);
      var elapsed := Max(0, seconds);
      changed := false;
      rounds := 0;
      while elapsed > 0
        invariant elapsed >= 0
        invariant Run(ViewClock(), elapsed) == goal
        invariant unchanged(`sky) && unchanged(`timeOverride) && unchanged(`stamp) && unchanged(`revision)
        invariant rounds + Stage(ViewClock()) <= 2
        invariant rounds == 0 ==> !changed && ViewClock() == start && elapsed == total
        invariant rounds > 0 ==> changed && Advancing(start) && seconds > 0
        decreases Stage(ViewClock())
      {
        ghost var c := ViewClock();
        rounds := rounds + 1;
        if focus && !paused {
          FocusRound(c, elapsed);
          var step := Min(elapsed, Max(0, remaining));
          if step != 0 {
            remaining := remaining - step;
            elapsed := elapsed - step;
            changed := true;
          }
          if remaining > 0 { break; }
          CompleteSession();
          changed := true;
          continue;
        }
        if onBreak {
          BreakRound(c, elapsed);
          var step := Min(elapsed, Max(0, breakRemaining));
          if step != 0 {
            breakRemaining := breakRemaining - step;
            elapsed := elapsed - step;
            changed := true;
          }
          if breakRemaining > 0 { break; }
          onBreak := false;
          changed := true;
          IdleStands(ViewClock(), elapsed);
          continue;
        }
        IdleStands(c, elapsed);
        break;
      }
    }

    /** One user message. `raised` is the date parser's exception: nothing has been written then. */
    method Handle(m: Message) returns (raised: bool)
      modifies this
      ensures raised <==> Raises(m)
      ensures View() == if raised then old(View()) else HandleState(old(View()), m)
    {
      raised := false;
      match m
      case TimeOverride(iso, parses, newSky) =>
        if iso.Some? && iso.value != "" && !parses { return true; }
        timeOverride := iso;
        sky := newSky;
      case FocusToggle =>
        if onBreak {
          onBreak := false;
          breakRemaining := 0;
        }
        focus := !focus;
        paused := false;
        remaining := duration;
        stamp := None;
      case FocusPause =>
        if focus {
          paused := !paused;
          stamp := None;
        }
      case FocusCancel =>
        focus := false;
        paused := false;
        onBreak := false;
        breakRemaining := 0;
        remaining := duration;
        stamp := None;
      case SetDuration(minutes) =>
        if minutes.Some? && 1 <= minutes.value <= MAX_MINUTES {
          duration := minutes.value * 60;
          if !focus {
            remaining := duration;
            stamp := None;
          }
        }
      case SkipBreak =>
        if onBreak {
          focus := false;
          paused := false;
          onBreak := false;
          breakRemaining := 0;
          remaining := duration;
          stamp := None;
        }
      case Location(lat, lon, newSky) =>
        if lat.None? || lon.None? { return; }
        if !(-90.0 <= lat.value <= 90.0 && -180.0 <= lon.value <= 180.0) { return; }
        sky := newSky;
      case Unknown =>
    }
  }

  /** How many phases of the jump can still follow: focus, then its break. */
  function Stage(c: Clock): nat {
    if c.focus && !c.paused then 2 else if c.onBreak then 1 else 0
  }

  // ---------------------------------------------------------------- messages

  predicate Raises(m: Message) {
    m.TimeOverride? && m.iso.Some? && m.iso.value != "" && !m.parses
  }

  /** The timer fields after a message. */
  function HandleClock(c: Clock, m: Message): Clock {
    match m
    case FocusToggle =>
      c.(onBreak := false, breakRemaining := if c.onBreak then 0 else c.breakRemaining,
         focus := !c.focus, paused := false, remaining := c.duration)
    case FocusPause => if c.focus then c.(paused := !c.paused) else c
    case FocusCancel =>
      c.(focus := false, paused := false, onBreak := false, breakRemaining := 0, remaining := c.duration)
    case SetDuration(minutes) =>
      if minutes.Some? && 1 <= minutes.value <= MAX_MINUTES then
        var d := minutes.value * 60;
        c.(duration := d, remaining := if c.focus then c.remaining else d)
      else c
    case SkipBreak =>
      if c.onBreak then
        c.(focus := false, paused := false, onBreak := false, breakRemaining := 0, remaining := c.duration)
      else c
    case _ => c
  }

  /** Whether the message forgets the last accounted second. */
  predicate ClearsStamp(c: Clock, m: Message) {
    match m
    case FocusToggle => true
    case FocusPause => c.focus
    case FocusCancel => true
    case SetDuration(minutes) => minutes.Some? && 1 <= minutes.value <= MAX_MINUTES && !c.focus
    case SkipBreak => c.onBreak
    case _ => false
  }

  function HandleSky(s: State, m: Message): Sky {
    match m
    case TimeOverride(_, _, newSky) => newSky
    case Location(lat, lon, newSky) =>
      if lat.Some? && lon.Some? && -90.0 <= lat.value <= 90.0 && -180.0 <= lon.value <= 180.0
      then newSky else s.sky
    case _ => s.sky
  }

  function HandleState(s: State, m: Message): State {
    State(HandleClock(s.clock, m), HandleSky(s, m),
          if m.TimeOverride? then m.iso else s.timeOverride,
          if ClearsStamp(s.clock, m) then None else s.stamp,
          s.revision)
  }

  // ---------------------------------------------------------------- reachable clocks

  /** What holds of every clock a room can be in. */
  predicate Sound(c: Clock) {
    && !(c.focus && c.onBreak)
    && (c.paused ==> c.focus)
    && (c.onBreak ==> 1 <= c.breakRemaining <= BREAK_SECONDS)
    && (!c.onBreak ==> c.breakRemaining == 0)
    && (c.focus ==> 1 <= c.remaining <= MAX_MINUTES * 60)
    && (!c.focus ==> c.remaining == c.duration)
    && (exists k :: 1 <= k <= MAX_MINUTES && c.duration == 60 * k)
    && c.breakDuration == BREAK_SECONDS
    && 0 <= c.reward == c.sessions
  }

  datatype Input = Elapse(seconds: nat) | Receive(m: Message)

  function Feed(c: Clock, inputs: seq<Input>): Clock {
    if inputs == [] then c
    else
      var before := Feed(c, inputs[..|inputs| - 1]);
      match inputs[|inputs| - 1]
      case Elapse(n) => Run(before, n)
      case Receive(m) => if Raises(m) then before else HandleClock(before, m)
  }

  lemma {:induction false} RunKeepsSound(c: Clock, n: nat)
    requires Sound(c)
    ensures Sound(Run(c, n))
    decreases n
  {
    if n > 0 { RunKeepsSound(Second(c), n - 1); }
  }

  lemma HandleKeepsSound(c: Clock, m: Message)
    requires Sound(c)
    ensures Sound(HandleClock(c, m))
  {
    if m.SetDuration? && m.minutes.Some? && 1 <= m.minutes.value <= MAX_MINUTES {
      var k := m.minutes.value;
      assert HandleClock(c, m).duration == 60 * k;
    }
  }

  /** Every clock a room reaches, by any messages and any gaps, is sound. */
  lemma {:induction false} ReachableClocksAreSound(inputs: seq<Input>)
    ensures Sound(Feed(InitialClock(), inputs))
  {
    if inputs == [] {
      assert InitialClock().duration == 60 * 50;
    } else {
      var init, last := inputs[..|inputs| - 1], inputs[|inputs| - 1];
      ReachableClocksAreSound(init);
      var before := Feed(InitialClock(), init);
      match last
      case Elapse(n) => RunKeepsSound(before, n);
      case Receive(m) => HandleKeepsSound(before, m);
    }
  }

  // ---------------------------------------------------------------- more time left than the duration

  /** A session with more time left than the duration. */
  predicate Overruns(c: Clock) {
    c.focus && c.remaining > c.duration
  }

  /** Only the duration of a running session is shortened, to less than what is left of it. */
  predicate Shortens(c: Clock, m: Message) {
    && m.SetDuration? && m.minutes.Some? && 1 <= m.minutes.value <= MAX_MINUTES
    && c.focus && m.minutes.value * 60 < c.remaining
  }

  /** Of a clock within its duration, exactly such a message makes one that is not. */
  lemma MessageOverrunsIffShortened(c: Clock, m: Message)
    requires !Overruns(c)
    ensures Overruns(HandleClock(c, m)) <==> Shortens(c, m)
  {
  }

  lemma {:induction false} RunKeepsWithin(c: Clock, n: nat)
    requires !Overruns(c)
    ensures !Overruns(Run(c, n))
    decreases n
  {
    if n > 0 { RunKeepsWithin(Second(c), n - 1); }
  }

  predicate ShortensAt(inputs: seq<Input>, k: nat)
    requires k < |inputs|
  {
    inputs[k].Receive? && Shortens(Feed(InitialClock(), inputs[..k]), inputs[k].m)
  }

  lemma FeedNext(c: Clock, inputs: seq<Input>, k: nat)
    requires k < |inputs|
    ensures Feed(c, inputs[..k + 1]) ==
            match inputs[k]
            case Elapse(n) => Run(Feed(c, inputs[..k]), n)
            case Receive(m) => if Raises(m) then Feed(c, inputs[..k]) else HandleClock(Feed(c, inputs[..k]), m)
  {
    assert inputs[..k + 1][..k] == inputs[..k];
  }

  lemma {:induction false} WithinUntilShortened(inputs: seq<Input>, k: nat)
    requires k <= |inputs| && forall i: nat :: i < k ==> !ShortensAt(inputs, i)
    ensures !Overruns(Feed(InitialClock(), inputs[..k]))
  {
    if k > 0 {
      WithinUntilShortened(inputs, k - 1);
      FeedNext(InitialClock(), inputs, k - 1);
      var before := Feed(InitialClock(), inputs[..k - 1]);
      assert !ShortensAt(inputs, k - 1);
      match inputs[k - 1]
      case Elapse(n) => RunKeepsWithin(before, n);
      case Receive(m) => MessageOverrunsIffShortened(before, m);
    }
  }

  /** Along any run a session ever has more time left than its duration if and only if a message
      has shortened it below what was left. */
  lemma OverrunsIffShortened(inputs: seq<Input>)
    ensures (exists k: nat :: k <= |inputs| && Overruns(Feed(InitialClock(), inputs[..k]))) <==>
            (exists k: nat :: k < |inputs| && ShortensAt(inputs, k))
  {
    if k: nat :| k < |inputs| && ShortensAt(inputs, k) {
      FeedNext(InitialClock(), inputs, k);
      assert k + 1 <= |inputs| && Overruns(Feed(InitialClock(), inputs[..k + 1]));
    } else {
      forall k: nat | k <= |inputs| ensures !Overruns(Feed(InitialClock(), inputs[..k])) {
        WithinUntilShortened(inputs, k);
      }
    }
  }

  /** Start a session of fifty minutes and set the duration to one: fifty minutes stay on the clock. */
  lemma ShortenedSessionOverruns()
    ensures var c := Feed(InitialClock(), [Receive(FocusToggle), Receive(SetDuration(Some(1)))]);
            Overruns(c) && c.remaining == 3000 && c.duration == 60
  {
    var inputs := [Receive(FocusToggle), Receive(SetDuration(Some(1)))];
    assert inputs[..0] == [] && inputs[..2] == inputs;
    FeedNext(InitialClock(), inputs, 0);
    FeedNext(InitialClock(), inputs, 1);
  }

  // ---------------------------------------------------------------- fuel and rewards

  /** Seconds until the timer comes to rest by itself. */
  function Fuel(c: Clock): nat {
    if c.focus && !c.paused then Max(0, c.remaining) + BREAK_SECONDS
    else if c.onBreak then Max(0, c.breakRemaining)
    else 0
  }

  lemma {:induction false} FuelBurns(c: Clock, n: nat)
    ensures Fuel(Run(c, n)) == Max(0, Fuel(c) - n)
    decreases n
  {
    if n > 0 { FuelBurns(Second(c), n - 1); }
  }

  /** A sound clock rests exactly once its fuel is burnt. */
  lemma RestsWhenBurnt(c: Clock, n: nat)
    requires Sound(c)
    ensures Advancing(Run(c, n)) <==> n < Fuel(c)
  {
    FuelBurns(c, n);
    RunKeepsSound(c, n);
  }

  /** A focus session finishes within `n` seconds. */
  predicate Finishes(c: Clock, n: nat) {
    n > 0 && c.focus && !c.paused && c.remaining <= n
  }

  lemma {:induction false} NoFocusNoReward(c: Clock, n: nat)
    requires !(c.focus && !c.paused)
    ensures Run(c, n).reward == c.reward && Run(c, n).sessions == c.sessions
    decreases n
  {
    if n > 0 { NoFocusNoReward(Second(c), n - 1); }
  }

  /** However long the gap, exactly one reward when the running session finishes in it, else none. */
  lemma {:induction false} GapMintsAtMostOne(c: Clock, n: nat)
    ensures Run(c, n).reward == c.reward + (if Finishes(c, n) then 1 else 0)
    ensures Run(c, n).sessions == c.sessions + (if Finishes(c, n) then 1 else 0)
    decreases n
  {
    if n > 0 {
      if c.focus && !c.paused && c.remaining > 1 {
        GapMintsAtMostOne(Second(c), n - 1);
      } else {
        NoFocusNoReward(Second(c), n - 1);
      }
    }
  }

  /** How many sessions finish while the inputs are played. */
  function Completions(c: Clock, inputs: seq<Input>): nat {
    if inputs == [] then 0
    else
      var init, last := inputs[..|inputs| - 1], inputs[|inputs| - 1];
      Completions(c, init)
      + (if last.Elapse? && Finishes(Feed(c, init), last.seconds) then 1 else 0)
  }

  /** Messages neither mint nor revoke: the reward id counts completions and nothing else. */
  lemma {:induction false} RewardCountsCompletions(c: Clock, inputs: seq<Input>)
    ensures Feed(c, inputs).reward == c.reward + Completions(c, inputs)
    ensures Feed(c, inputs).sessions == c.sessions + Completions(c, inputs)
  {
    if inputs != [] {
      var init, last := inputs[..|inputs| - 1], inputs[|inputs| - 1];
      RewardCountsCompletions(c, init);
      if last.Elapse? { GapMintsAtMostOne(Feed(c, init), last.seconds); }
    }
  }
}

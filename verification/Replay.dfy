/**
 The history of one room generation: which ticks and messages were answered, in commit order.

 The stored state is the fold of the history. The theorems say that the ticks in it do not
 matter: the timer is a replay of the user messages alone. The one way a tick can matter is by
 moving the stamp backwards, and then exactly by the number of seconds it moved.
 */
module Replay {
  import opened Common
  import opened Timer
  import opened Steps

  datatype Event =
    | Tick(slot: int, connected: bool, newSky: Sky)
    | Said(slot: int, call: nat, message: Message)

  /** The state after one event; an event with nothing to commit leaves it alone. */
  function Apply(s: State, e: Event): State {
    match e
    case Tick(slot, connected, newSky) =>
      var r := TickState(s, slot, connected, newSky);
      if r.Some? then r.value else s
    case Said(slot, _, m) =>
      var r := MessageState(s, slot, m);
      if r.Changed? then r.state else s
  }

  predicate Commits(s: State, e: Event) {
    match e
    case Tick(slot, connected, newSky) => TickState(s, slot, connected, newSky).Some?
    case Said(slot, _, m) => MessageState(s, slot, m).Changed?
  }

  function Init<T>(s: seq<T>): seq<T>
    requires s != []
  {
    s[..|s| - 1]
  }

  function Last<T>(s: seq<T>): T
    requires s != []
  {
    s[|s| - 1]
  }

  function Fold(s0: State, es: seq<Event>): State {
    if es == [] then s0 else Apply(Fold(s0, Init(es)), Last(es))
  }

  /** The latest second any event was accounted to. */
  function Latest(es: seq<Event>): int {
    if es == [] then 0 else Max(Latest(Init(es)), Last(es).slot)
  }

  /** Messages read the time after their snapshot, so no earlier event has a later second. */
  predicate Ordered(es: seq<Event>) {
    es != [] ==> Ordered(Init(es)) && (Last(es).Said? ==> Latest(Init(es)) <= Last(es).slot)
  }

  /** A stamp is kept exactly while the timer runs. */
  predicate Stamped(s: State) {
    s.stamp.Some? <==> Advancing(s.clock)
  }

  /** A room as it is created: at rest, with no second accounted yet. */
  predicate Resting(s: State) {
    !Advancing(s.clock) && s.stamp.None?
  }

  /** The timer as everybody sees it in second `t`: the stored one plus the seconds since its stamp. */
  function Virtual(s: State, t: int): Clock {
    if s.stamp.Some? then Run(s.clock, Max(0, t - s.stamp.value)) else s.clock
  }

  // ---------------------------------------------------------------- the reference: messages only

  datatype Stamp = At(slot: int, message: Message)

  /** The clock right after the last message, with one jump between consecutive messages. */
  function AfterMessages(c0: Clock, ms: seq<Stamp>): Clock
    decreases |ms|, 0
  {
    if ms == [] then c0
    else
      var before := ReplayAt(c0, Init(ms), Last(ms).slot);
      if Raises(Last(ms).message) then before else HandleClock(before, Last(ms).message)
  }

  function ReplayAt(c0: Clock, ms: seq<Stamp>, t: int): Clock
    decreases |ms|, 1
  {
    if ms == [] then c0
    else Run(AfterMessages(c0, ms), Max(0, t - Last(ms).slot))
  }

  function Messages(es: seq<Event>): seq<Stamp> {
    if es == [] then []
    else Messages(Init(es)) + (match Last(es) case Tick(_, _, _) => [] case Said(t, _, m) => [At(t, m)])
  }

  // ---------------------------------------------------------------- seconds counted twice

  /** How far a committed tick moves the stamp backwards. */
  function StepBack(s: State, e: Event): nat {
    if e.Tick? && Commits(s, e) && Advancing(s.clock) && s.stamp.Some? then Max(0, s.stamp.value - e.slot)
    else 0
  }

  function Regress(s0: State, es: seq<Event>): nat {
    if es == [] then 0 else Regress(s0, Init(es)) + StepBack(Fold(s0, Init(es)), Last(es))
  }

  /** The messages at the seconds the timer had been credited with when they were applied. */
  function Shifted(s0: State, es: seq<Event>): seq<Stamp> {
    if es == [] then []
    else
      Shifted(s0, Init(es))
      + (match Last(es)
         case Tick(_, _, _) => []
         case Said(t, _, m) => [At(t + Regress(s0, Init(es)), m)])
  }

  /** No tick reads a snapshot stamped later than the second it leased. */
  predicate NoStaleLease(s0: State, es: seq<Event>) {
    es != [] ==>
      && NoStaleLease(s0, Init(es))
      && (Last(es).Tick? ==>
            var s := Fold(s0, Init(es));
            s.stamp.Some? ==> s.stamp.value <= Last(es).slot)
  }

  // ---------------------------------------------------------------- the stamp

  lemma {:induction false} StampFollowsTimer(s0: State, es: seq<Event>)
    requires Resting(s0)
    ensures Stamped(Fold(s0, es))
    ensures Fold(s0, es).stamp.Some? ==> Fold(s0, es).stamp.value <= Latest(es)
  {
    if es != [] { StampFollowsTimer(s0, Init(es)); }
  }

  /** A message that does not raise is stored exactly when it leaves another state than the stored one:
      it does something, or seconds are credited on its way. */
  lemma StoredIffItDiffers(s0: State, es: seq<Event>, slot: int, m: Message)
    requires Resting(s0) && Latest(es) <= slot
    ensures var s := Fold(s0, es);
            && (MessageState(s, slot, m).Raised? <==> Raises(m))
            && (MessageState(s, slot, m).Changed? <==>
                !Raises(m) && Restamped(HandleState(Reconciled(s, slot), m), slot) != s)
  {
    StampFollowsTimer(s0, es);
    hide Fold, Resting, HandleClock;
  }

  /** The message path never sees time run backwards. */
  lemma MessageElapsedIsExact(s0: State, es: seq<Event>)
    requires Resting(s0) && Ordered(es) && es != [] && Last(es).Said?
    ensures var s := Fold(s0, Init(es));
            s.stamp.Some? ==> Max(0, Last(es).slot - s.stamp.value) == Last(es).slot - s.stamp.value
  {
    StampFollowsTimer(s0, Init(es));
  }

  // ---------------------------------------------------------------- one event at a time

  lemma RunIdle(c: Clock, a: nat, b: nat)
    requires !Advancing(Run(c, a)) && a <= b
    ensures Run(c, b) == Run(c, a)
  {
    RunAdds(c, a, b - a);
    IdleStands(Run(c, a), b - a);
  }

  /** A tick changes nobody's view, except that stepping back shifts it by as many seconds. */
  lemma TickShifts(s: State, e: Event, t: int)
    requires Stamped(s) && e.Tick? && e.slot <= t && (s.stamp.Some? ==> s.stamp.value <= t)
    ensures Virtual(Apply(s, e), t) == Virtual(s, t + StepBack(s, e))
  {
    if s.stamp.Some? && Commits(s, e) {
      var a := Max(0, e.slot - s.stamp.value);
      RunAdds(s.clock, a, t - Max(e.slot, s.stamp.value));
      if !Advancing(Run(s.clock, a)) { RunIdle(s.clock, a, t - s.stamp.value); }
    }
  }

  /** After a message everybody sees the handled view, and it runs on from there. */
  lemma MessageLands(s: State, e: Event, t: int)
    requires Stamped(s) && e.Said? && e.slot <= t && (s.stamp.Some? ==> s.stamp.value <= e.slot)
    ensures var seen := Virtual(s, e.slot);
            var handled := if Raises(e.message) then seen else HandleClock(seen, e.message);
            Virtual(Apply(s, e), t) == Run(handled, t - e.slot)
  {
    var seen := Virtual(s, e.slot);
    var r := Reconciled(s, e.slot);
    assert r.clock == seen;
    if MessageState(s, e.slot, e.message).Changed? {
      var c := Apply(s, e).clock;
      if !Advancing(c) { IdleStands(c, t - e.slot); }
    } else {
      assert Raises(e.message) || HandleClock(seen, e.message) == seen;
      if s.stamp.Some? {
        RunAdds(s.clock, e.slot - s.stamp.value, t - e.slot);
      } else {
        IdleStands(s.clock, t - e.slot);
      }
    }
  }

  // ---------------------------------------------------------------- the accounting law

  /** On every history: the stored timer is the replay of the messages alone, where exactly the
      seconds a tick stepped back are counted a second time. */
  lemma {:induction false} Accounting(s0: State, es: seq<Event>, t: int)
    requires Resting(s0) && Ordered(es) && Latest(es) <= t
    ensures Virtual(Fold(s0, es), t) == ReplayAt(s0.clock, Shifted(s0, es), t + Regress(s0, es))
    decreases |es|
  {
    if es != [] {
      var init, e := Init(es), Last(es);
      var s := Fold(s0, init);
      StampFollowsTimer(s0, init);
      if e.Tick? {
        TickShifts(s, e, t);
        Accounting(s0, init, t + StepBack(s, e));
        assert Shifted(s0, es) == Shifted(s0, init);
      } else {
        MessageLands(s, e, t);
        Accounting(s0, init, e.slot);
        var shifted := Shifted(s0, es);
        assert Init(shifted) == Shifted(s0, init);
        assert Last(shifted) == At(e.slot + Regress(s0, init), e.message);
        assert AfterMessages(s0.clock, shifted) ==
               if Raises(e.message) then Virtual(s, e.slot) else HandleClock(Virtual(s, e.slot), e.message);
      }
    }
  }

  lemma {:induction false} NothingStaleNothingRegressed(s0: State, es: seq<Event>)
    requires NoStaleLease(s0, es)
    ensures Regress(s0, es) == 0
  {
    if es != [] { NothingStaleNothingRegressed(s0, Init(es)); }
  }

  lemma {:induction false} NothingRegressedNothingShifted(s0: State, es: seq<Event>)
    requires Regress(s0, es) == 0
    ensures Shifted(s0, es) == Messages(es)
  {
    if es != [] { NothingRegressedNothingShifted(s0, Init(es)); }
  }

  /** The payoff: whichever workers ticked, however often and with whatever gaps, two histories of
      the same messages at the same seconds show the same timer. */
  lemma ScheduleIndependence(s0: State, es: seq<Event>, fs: seq<Event>, t: int)
    requires Resting(s0) && Ordered(es) && Ordered(fs) && Latest(es) <= t && Latest(fs) <= t
    requires Regress(s0, es) == 0 && Regress(s0, fs) == 0
    requires Messages(es) == Messages(fs)
    ensures Virtual(Fold(s0, es), t) == Virtual(Fold(s0, fs), t) == ReplayAt(s0.clock, Messages(es), t)
  {
    Accounting(s0, es, t);
    Accounting(s0, fs, t);
    NothingRegressedNothingShifted(s0, es);
    NothingRegressedNothingShifted(s0, fs);
  }

  /** What is stored with stamp `t`, or at rest, is itself the replay at `t`. */
  lemma StoredIsReplay(s0: State, es: seq<Event>, t: int)
    requires Resting(s0) && Ordered(es) && NoStaleLease(s0, es) && Latest(es) <= t
    requires Fold(s0, es).stamp == Some(t) || !Advancing(Fold(s0, es).clock)
    ensures Fold(s0, es).clock == ReplayAt(s0.clock, Messages(es), t)
  {
    NothingStaleNothingRegressed(s0, es);
    StampFollowsTimer(s0, es);
    ScheduleIndependence(s0, es, es, t);
  }

  // ---------------------------------------------------------------- credited seconds

  /** The elapsed seconds an event hands to the timer. */
  function Credit(s: State, e: Event): nat {
    if !Advancing(s.clock) || !Commits(s, e) then 0
    else if s.stamp.None? then (if e.Tick? then 1 else 0)
    else Max(0, e.slot - s.stamp.value)
  }

  function Credits(s0: State, es: seq<Event>): nat {
    if es == [] then 0 else Credits(s0, Init(es)) + Credit(Fold(s0, Init(es)), Last(es))
  }

  predicate AllTicks(es: seq<Event>) {
    forall i :: 0 <= i < |es| ==> es[i].Tick?
  }

  /** While ticks alone keep a timer running, what it is credited with is how far its stamp moved
      plus how far ticks stepped back. */
  lemma {:induction false} CreditIsSlotDifferencePlusRegress(s: State, es: seq<Event>)
    requires Stamped(s) && Advancing(s.clock) && AllTicks(es) && Advancing(Fold(s, es).clock)
    ensures Stamped(Fold(s, es))
    ensures Credits(s, es) == Fold(s, es).stamp.value - s.stamp.value + Regress(s, es)
    ensures Fold(s, es).clock == Run(s.clock, Credits(s, es))
  {
    if es != [] {
      var init, e := Init(es), Last(es);
      assert e.Tick?;
      CreditIsSlotDifferencePlusRegress(s, init);
      RunAdds(s.clock, Credits(s, init), Credit(Fold(s, init), e));
    }
  }

  /** The premise is needed: a celestial refresh by a tick that leased second 30 just before the
      session was stamped 31 hands second 31 to the timer twice. */
  lemma StaleLeaseCountsTwice()
    ensures var s0 := InitialState(0);
            var es := [Said(31, 0, FocusToggle), Tick(30, false, 0), Tick(31, false, 0)];
            && Ordered(es) && !NoStaleLease(s0, es)
            && Regress(s0, es) == 1
            && Fold(s0, es).stamp == Some(31)
            && Fold(s0, es).clock.remaining == 2999
            && ReplayAt(s0.clock, Messages(es), 31).remaining == 3000
  {
    var s0 := InitialState(0);
    var a, b, c := Said(31, 0, FocusToggle), Tick(30, false, 0), Tick(31, false, 0);
    var focus := InitialClock().(focus := true);
    assert Init([a]) == [] && Init([a, b]) == [a] && Init([a, b, c]) == [a, b];
    assert Fold(s0, [a]) == State(focus, 0, None, Some(31), 1);
    assert Fold(s0, [a, b]) == State(focus, 0, None, Some(30), 2);
    assert Fold(s0, [a, b, c]) == Apply(Fold(s0, [a, b]), c);
    assert Run(focus, 1) == Run(Second(focus), 0);
    assert Messages([a, b, c]) == Messages([a, b]) == Messages([a]) == [At(31, FocusToggle)];
    assert AfterMessages(InitialClock(), [At(31, FocusToggle)]) == focus by {
      assert Init([At(31, FocusToggle)]) == [];
    }
    assert Regress(s0, [a]) == 0 && Regress(s0, [a, b]) == 1;
    assert Latest([a]) == 31 && Ordered([a]) && Ordered([a, b]);
    assert !NoStaleLease(s0, [a, b]);
  }

  // ---------------------------------------------------------------- rewards along revisions

  /** Committing raises the reward by at most one, and only when a running session finishes in it. */
  lemma CommitMintsAtMostOne(s: State, e: Event)
    requires Stamped(s)
    ensures var s' := Apply(s, e);
            && s.clock.reward <= s'.clock.reward <= s.clock.reward + 1
            && s'.clock.sessions - s.clock.sessions == s'.clock.reward - s.clock.reward
            && (s'.clock.reward > s.clock.reward <==>
                  s.stamp.Some? && Commits(s, e) && Finishes(s.clock, Max(0, e.slot - s.stamp.value)))
  {
    if s.stamp.Some? { GapMintsAtMostOne(s.clock, Max(0, e.slot - s.stamp.value)); }
  }

  lemma {:induction false} RewardsNeverFall(s0: State, es: seq<Event>, k: nat)
    requires Resting(s0) && k <= |es|
    ensures Fold(s0, es[..k]).clock.reward <= Fold(s0, es).clock.reward <= Fold(s0, es[..k]).clock.reward + |es| - k
    ensures Fold(s0, es).clock.sessions - Fold(s0, es).clock.reward == s0.clock.sessions - s0.clock.reward
  {
    if k < |es| {
      RewardsNeverFall(s0, Init(es), k);
      StampFollowsTimer(s0, Init(es));
      CommitMintsAtMostOne(Fold(s0, Init(es)), Last(es));
      assert Init(es)[..k] == es[..k];
    } else {
      assert es[..k] == es;
      if es != [] {
        RewardsNeverFall(s0, Init(es), |es| - 1);
        StampFollowsTimer(s0, Init(es));
        CommitMintsAtMostOne(Fold(s0, Init(es)), Last(es));
      }
    }
  }

  /** Every stored clock is sound. */
  lemma {:induction false} StoredIsSound(s0: State, es: seq<Event>)
    requires Resting(s0) && Sound(s0.clock)
    ensures Sound(Fold(s0, es).clock)
  {
    if es != [] {
      var s, e := Fold(s0, Init(es)), Last(es);
      StoredIsSound(s0, Init(es));
      var n := if s.stamp.None? then 1 else Max(0, e.slot - s.stamp.value);
      RunKeepsSound(s.clock, n);
      if e.Said? {
        HandleKeepsSound(Reconciled(s, e.slot).clock, e.message);
      }
    }
  }
}

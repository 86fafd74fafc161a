/**
 Exactly when two ticks of a generation can be committed in one Redis second
 (backend/scheduler.py, backend/room_store.py).
 */
module Seconds {
  import opened Common
  import opened Timer
  import opened Steps
  import opened Replay
  import opened RoomStore
  import opened Workers
  import opened Fencing
  import opened Races

  // ---------------------------------------------------------------- a second already accounted for

  /** The state has been brought up to `second`, and at rest it has no second to account for. */
  predicate StateSettled(s: State, r: nat, second: int) {
    s.revision >= r && s.stamp == if Advancing(s.clock) then Some(second) else None
  }

  /** A message computed from revision `r` on has been given this second. */
  predicate PcSettled(pc: Pc, g: Gen, r: nat, second: int) {
    pc.MsgReady? && pc.gen == g && pc.base.revision >= r ==> pc.event.slot == second
  }

  predicate LockSettled(lock: Entry<Lock>, second: int) {
    lock.Held? && lock.value.Running? ==> lock.value.slot == second
  }

  /** Nothing is left to be accounted in this second of generation `g` since its revision `r`. */
  predicate Settled(w: World, g: Gen, r: nat, second: int) {
    && Slot(w.now) == second && LockSettled(w.keys.lock, second)
    && (Alive(w.keys, w.now) && w.keys.meta.value == g ==> StateSettled(w.keys.state.value, r, second))
    && (forall t :: t in w.pcs ==> PcSettled(w.pcs[t], g, r, second))
  }

  /** In a settled second only the sky is left to tick for. */
  lemma TickSettles(s: State, r: nat, second: int, connected: bool, sky: Sky)
    requires StateSettled(s, r, second) && TickState(s, second, connected, sky).Some?
    ensures StateSettled(TickState(s, second, connected, sky).value, r, second) && second % 30 == 0
  {
  }

  lemma MessageSettles(s: State, r: nat, second: int, m: Message)
    requires StateSettled(s, r, second) && MessageState(s, second, m).Changed?
    ensures StateSettled(MessageState(s, second, m).state, r, second)
  {
    assert Reconciled(s, second) == s;
  }

  /** What commits in a settled second was computed for it. */
  lemma CommittedIsSettled(w: World, a: Action, g: Gen, r: nat, second: int)
    requires Good(w) && Settled(w, g, r, second) && Committed(w, a).Some? && Committed(w, a).value.0 == g
    ensures var s, e := w.keys.state.value, Committed(w, a).value.1;
            && w.keys.state.Held? && StateSettled(s, r, second) && e.slot == second && Commits(s, e)
            && (e.Tick? <==> a.TickCommit?)
  {
    CommittedIsReady(w, a);
    hide Fold, Commits, Apply;
    assert PcInv(w, PcOf(w, a.task));
  }

  lemma StateSettles(w: World, a: Action, g: Gen, r: nat, second: int)
    requires Reachable(w) && g in w.logs && Settled(w, g, r, second)
    ensures var w' := Step(w, a);
            Alive(w'.keys, w'.now) && w'.keys.meta.value == g ==> StateSettled(w'.keys.state.value, r, second)
  {
    hide Step, MessageState, TickState, StateSettled;
    StepChain(w, a);
    var c := Committed(w, a);
    if c.Some? && c.value.0 == g {
      ReachableIsGood(w);
      CommittedIsSettled(w, a, g, r, second);
      var s := w.keys.state.value;
      match c.value.1
      case Tick(_, connected, sky) => TickSettles(s, r, second, connected, sky);
      case Said(_, _, m) => MessageSettles(s, r, second, m);
    }
  }

  lemma LockSettles(w: World, a: Action, second: int)
    requires LockSettled(w.keys.lock, second) && Slot(w.now) == second
    ensures LockSettled(Step(w, a).keys.lock, second)
  {
    hide Apply;
  }

  lemma PcSettles(w: World, a: Action, t: nat, g: Gen, r: nat, second: int)
    requires t in Step(w, a).pcs && Slot(w.now) == second && (t in w.pcs ==> PcSettled(w.pcs[t], g, r, second))
    ensures PcSettled(Step(w, a).pcs[t], g, r, second)
  {
    hide Apply;
  }

  lemma StepSettles(w: World, a: Action, g: Gen, r: nat, second: int)
    requires Reachable(w) && g in w.logs && Settled(w, g, r, second) && Slot(Step(w, a).now) == second
    ensures Settled(Step(w, a), g, r, second)
  {
    hide Step;
    StateSettles(w, a, g, r, second);
    LockSettles(w, a, second);
    forall t | t in Step(w, a).pcs ensures PcSettled(Step(w, a).pcs[t], g, r, second) {
      PcSettles(w, a, t, g, r, second);
    }
  }

  lemma {:induction false} RunSettles(w: World, more: seq<Action>, g: Gen, r: nat, second: int)
    requires Reachable(w) && g in w.logs && Settled(w, g, r, second) && Slot(PlayFrom(w, more).now) == second
    ensures Settled(PlayFrom(w, more), g, r, second)
  {
    if more != [] {
      hide Step, Settled;
      var v := PlayFrom(w, Init(more));
      StaysReachable(w, Init(more));
      RunExtends(w, Init(more));
      TimeGoesOn(v, Last(more));
      assert Slot(w.now) == second by { assert Settled(w, g, r, second); }
      RunSettles(w, Init(more), g, r, second);
      StepSettles(v, Last(more), g, r, second);
    }
  }

  /** A tick that leaves the timer at rest settles its second. */
  lemma RestIsSettled(w: World, a: Action)
    requires Reachable(w) && a.TickCommit? && Committed(w, a).Some?
    requires var w' := Step(w, a); w'.keys.state.Held? && !Advancing(w'.keys.state.value.clock)
    ensures var w', g := Step(w, a), Committed(w, a).value.0;
            && Reachable(w') && g in w'.logs && Settled(w', g, |w'.logs[g]|, Slot(w.now))
  {
    var w', g := Step(w, a), Committed(w, a).value.0;
    AfterTick(w, a);
    assert Reachable(w') by {
      assert PlayFrom(w, [a]) == w' by { assert Init([a]) == []; }
      StaysReachable(w, [a]);
    }
    StoredStampAndClock(w');
    ReachableIsGood(w');
    SnapshotIsBase(w');
    forall t | t in w'.pcs ensures PcSettled(w'.pcs[t], g, |w'.logs[g]|, Slot(w.now)) {
      OlderBase(w, a, t);
    }
    hide Step, Committed, Reachable, Good;
  }

  /** No message in flight has read what the tick has just written. */
  lemma OlderBase(w: World, a: Action, t: nat)
    requires Reachable(w) && a.TickCommit? && Committed(w, a).Some? && t in Step(w, a).pcs
    ensures var pc, g := Step(w, a).pcs[t], Committed(w, a).value.0;
            pc.MsgReady? && pc.gen == g ==> g in Step(w, a).logs && pc.base.revision < |Step(w, a).logs[g]|
  {
    hide Apply, Fold;
    ReachableIsGood(w);
    AfterTick(w, a);
    assert t == a.task || (t in w.pcs && Step(w, a).pcs[t] == w.pcs[t]);
    hide Step, Committed;
    if t != a.task { assert PcInv(w, w.pcs[t]); }
  }

  // ---------------------------------------------------------------- a second tick for the sky

  /** After a tick that left the timer at rest only a refresh of the sky can follow in its second. */
  lemma SecondTickNeedsWork(w: World, a: Action, more: seq<Action>)
    requires Reachable(w) && a.TickCommit? && Committed(w, a).Some?
    requires var w' := Step(w, a); w'.keys.state.Held? && !Advancing(w'.keys.state.value.clock)
    requires TicksAgain(Step(w, a), Committed(w, a).value.0, more)
    ensures Slot(w.now) % 30 == 0
  {
    hide Step, Committed, Settled;
    var w', g := Step(w, a), Committed(w, a).value.0;
    var v, second := PlayFrom(w', Init(more)), Slot(w.now);
    RestIsSettled(w, a);
    TimeGoesOn(w, a);
    RunSettles(w', Init(more), g, |w'.logs[g]|, second);
    StaysReachable(w', Init(more));
    ReachableIsGood(v);
    CommittedIsSettled(v, Last(more), g, |w'.logs[g]|, second);
    var e := Committed(v, Last(more)).value.1;
    TickSettles(v.keys.state.value, |w'.logs[g]|, second, e.connected, e.newSky);
  }

  /** The room rests, its last tick was for an earlier second, and `t` is idle. */
  predicate Rests(w: World, t: nat, g: Gen) {
    && PcOf(w, t).Idle? && Alive(w.keys, w.now) && w.keys.meta.value == g && g in w.logs
    && CanAcquire(w.keys, w.now)
  }

  const WATCHED: Message := TimeOverride(None, true, 0)

  /** A page clears the time override. */
  function Clears(t: nat, g: Gen): seq<Action> {
    [MsgArrive(t, WATCHED, g), MsgSnapshot(t), MsgTime(t, 0), MsgCommit(t, 1)]
  }

  /** A worker with a page connected ticks for the sky. */
  function Refreshes(t: nat): seq<Action> {
    [TickBegin(t, true), TickAcquire(t, 0, 1), TickReread(t, true, 0), TickCommit(t, 1, 1)]
  }

  lemma OverrideCleared(w: World, t: nat, g: Gen)
    requires Rests(w, t, g) && w.keys.state.value.timeOverride.Some?
    ensures var v := StepMsgCommit(StepMsgTime(StepMsgSnapshot(StepMsgArrive(w, t, WATCHED, g), t), t, 0), t, 1);
            Rests(v, t, g) && v.keys.state.value.timeOverride.None? && v.now == w.now
  {
    hide Run;
    var w1 := StepMsgArrive(w, t, WATCHED, g);
    var w2 := StepMsgSnapshot(w1, t);
    assert PcOf(w2, t) == MsgRead(w.nextCall, WATCHED, g, 0, w.keys.state.value);
    var e := Said(Slot(w.now), w.nextCall, WATCHED);
    assert Commits(w.keys.state.value, e);
    var w3 := StepMsgTime(w2, t, 0);
    assert PcOf(w3, t) == MsgReady(w.nextCall, WATCHED, g, 0, w.keys.state.value, e);
  }

  lemma RefreshCommits(w: World, t: nat, g: Gen)
    requires Rests(w, t, g) && w.keys.state.value.timeOverride.None? && Slot(w.now) % 30 == 0
    ensures var v := StepTickReread(StepTickAcquire(StepTickBegin(w, t, true), t, 0, 1), t, true, 0);
            Committed(v, TickCommit(t, 1, 1)).Some? && Committed(v, TickCommit(t, 1, 1)).value.0 == g && v.now == w.now
  {
    hide Run;
    var w2 := StepTickAcquire(StepTickBegin(w, t, true), t, 0, 1);
    var lease := LeaseOf(w.now, 0, w.nextNonce);
    assert PcOf(w2, t) == TickLeased(lease) && HoldsLease(w2.keys, w2.now, lease);
    assert Commits(w.keys.state.value, Tick(lease.slot, true, 0));
  }

  lemma ThreeSteps(w: World, a: Action, b: Action, c: Action)
    ensures PlayFrom(w, [a, b, c]) == Step(Step(Step(w, a), b), c)
  {
    hide Step;
    assert Init([a]) == [] && Init([a, b]) == [a] && Init([a, b, c]) == [a, b];
    assert PlayFrom(w, [a]) == Step(w, a) by { assert PlayFrom(w, []) == w; }
    assert PlayFrom(w, [a, b]) == Step(Step(w, a), b);
  }

  lemma {:induction false} PlayJoins(w: World, xs: seq<Action>, ys: seq<Action>)
    ensures PlayFrom(w, xs + ys) == PlayFrom(PlayFrom(w, xs), ys)
  {
    hide Step;
    if ys == [] {
      assert xs + ys == xs;
    } else {
      PlayJoins(w, xs, Init(ys));
      assert Init(xs + ys) == xs + Init(ys) && Last(xs + ys) == Last(ys);
    }
  }

  lemma RefreshTicksAgain(w: World, t: nat, g: Gen)
    requires Rests(w, t, g) && w.keys.state.value.timeOverride.None? && Slot(w.now) % 30 == 0
    ensures TicksAgain(w, g, Refreshes(t))
  {
    RefreshCommits(w, t, g);
    ThreeSteps(w, TickBegin(t, true), TickAcquire(t, 0, 1), TickReread(t, true, 0));
    assert Init(Refreshes(t)) == [TickBegin(t, true), TickAcquire(t, 0, 1), TickReread(t, true, 0)];
    hide StepTickBegin, StepTickAcquire, StepTickReread, Committed;
  }

  lemma ClearingEnds(w: World, t: nat, g: Gen)
    requires Rests(w, t, g) && w.keys.state.value.timeOverride.Some?
    ensures var v := PlayFrom(w, Clears(t, g));
            Rests(v, t, g) && v.keys.state.value.timeOverride.None? && v.now == w.now
  {
    OverrideCleared(w, t, g);
    ThreeSteps(w, MsgArrive(t, WATCHED, g), MsgSnapshot(t), MsgTime(t, 0));
    assert Init(Clears(t, g)) == [MsgArrive(t, WATCHED, g), MsgSnapshot(t), MsgTime(t, 0)];
    hide StepMsgArrive, StepMsgSnapshot, StepMsgTime, StepMsgCommit, Rests;
  }

  lemma JoinedTicksAgain(w: World, g: Gen, xs: seq<Action>, ys: seq<Action>)
    requires TicksAgain(PlayFrom(w, xs), g, ys) && PlayFrom(w, xs).now == w.now
    ensures TicksAgain(w, g, xs + ys)
  {
    hide Committed;
    PlayJoins(w, xs, Init(ys));
    assert Init(xs + ys) == xs + Init(ys) && Last(xs + ys) == Last(ys);
  }

  /** In a second for the sky a free lock is enough. */
  lemma SkyTicksAgain(w: World, t: nat, g: Gen)
    requires Rests(w, t, g) && Slot(w.now) % 30 == 0
    ensures CanTickAgain(w, g)
  {
    assert w.keys.state.Held?;
    hide TicksAgain, Rests;
    if w.keys.state.value.timeOverride.None? {
      RefreshTicksAgain(w, t, g);
    } else {
      ClearingEnds(w, t, g);
      RefreshTicksAgain(PlayFrom(w, Clears(t, g)), t, g);
      JoinedTicksAgain(w, g, Clears(t, g), Refreshes(t));
    }
  }

  /** After any committed tick another one of its generation can be committed before the Redis second
      is over, by some schedule of some workers and pages, if and only if the tick was late, and its
      timer runs on or the second is one for refreshing the sky. */
  lemma SecondTickIff(w: World, t: nat, ttl: Ttl, lockTtl: Ttl)
    requires Reachable(w) && Committed(w, TickCommit(t, ttl, lockTtl)).Some?
    ensures var w', c := StepTickCommit(w, t, ttl, lockTtl), Committed(w, TickCommit(t, ttl, lockTtl)).value;
            && w'.keys.state.Held?
            && (CanTickAgain(w', c.0) <==>
                  c.1.slot < Slot(w.now) && (Advancing(w'.keys.state.value.clock) || Slot(w.now) % 30 == 0))
  {
    hide StepTickCommit, Committed, TicksAgain, Advancing;
    var a := TickCommit(t, ttl, lockTtl);
    var w', g, slot := Step(w, a), Committed(w, a).value.0, Committed(w, a).value.1.slot;
    AfterTick(w, a);
    if Advancing(w'.keys.state.value.clock) {
      SecondTickIffLate(w, t, ttl, lockTtl);
    } else {
      if CanTickAgain(w', g) {
        var more :| TicksAgain(w', g, more);
        NotTwiceInTime(w, t, ttl, lockTtl, more);
        SecondTickNeedsWork(w, a, more);
      }
      if slot < Slot(w.now) && Slot(w.now) % 30 == 0 { SkyTicksAgain(w', t, g); }
    }
  }
}

/**
 What the fences do not promise, shown on runs of the workers: two ticks in one Redis second, a
 second counted twice, and a message that gives up; each with the exact condition.
 */
module Races {
  import opened Common
  import opened Timer
  import opened Steps
  import opened Replay
  import opened RoomStore
  import opened Workers
  import opened Fencing

  // ---------------------------------------------------------------- runs that go on

  function PlayFrom(w: World, more: seq<Action>): World {
    if more == [] then w else Step(PlayFrom(w, Init(more)), Last(more))
  }

  lemma {:induction false} PlayGoesOn(acts: seq<Action>, more: seq<Action>)
    ensures Play(acts + more) == PlayFrom(Play(acts), more)
  {
    hide Step;
    if more == [] {
      assert acts + more == acts;
    } else {
      PlayGoesOn(acts, Init(more));
      assert Init(acts + more) == acts + Init(more);
    }
  }

  lemma StaysReachable(w: World, more: seq<Action>)
    requires Reachable(w)
    ensures Reachable(PlayFrom(w, more))
  {
    var acts :| w == Play(acts);
    PlayGoesOn(acts, more);
  }

  predicate Extends(w: World, w': World) {
    && w.now <= w'.now
    && forall g :: g in w.logs ==> g in w'.logs && w.logs[g] <= w'.logs[g]
  }

  lemma StepExtends(w: World, a: Action)
    requires Reachable(w)
    ensures Extends(w, Step(w, a))
  {
    StepChain(w, a);
    TimeGoesOn(w, a);
  }

  lemma TimeGoesOn(w: World, a: Action)
    ensures w.now <= Step(w, a).now && (!a.Elapse? ==> Step(w, a).now == w.now)
  {
  }

  lemma {:induction false} RunExtends(w: World, more: seq<Action>)
    requires Reachable(w)
    ensures Extends(w, PlayFrom(w, more))
  {
    if more != [] {
      RunExtends(w, Init(more));
      StaysReachable(w, Init(more));
      StepExtends(PlayFrom(w, Init(more)), Last(more));
    }
  }

  // ---------------------------------------------------------------- the second of a commit

  /** A tick committed to generation `gen` for the leased second `slot`, in Redis second `second`. */
  datatype Mark = Mark(gen: Gen, slot: int, second: int)

  function MarkOf(w: World, a: Action): seq<Mark> {
    if a.TickCommit? && Committed(w, a).Some?
    then [Mark(Committed(w, a).value.0, Committed(w, a).value.1.slot, Slot(w.now))] else []
  }

  /** The ticks a run commits, in order. */
  function Marks(acts: seq<Action>): seq<Mark> {
    if acts == [] then [] else Marks(Init(acts)) + MarkOf(Play(Init(acts)), Last(acts))
  }

  predicate Late(m: Mark) { m.slot < m.second }

  predicate InLogOf(w: World, m: Mark) {
    m.gen in w.logs && exists i :: 0 <= i < |w.logs[m.gen]| && w.logs[m.gen][i].Tick? && w.logs[m.gen][i].slot == m.slot
  }

  lemma LogKeepsMark(w: World, w': World, m: Mark)
    requires Extends(w, w') && InLogOf(w, m)
    ensures InLogOf(w', m)
  {
    var i :| 0 <= i < |w.logs[m.gen]| && w.logs[m.gen][i].Tick? && w.logs[m.gen][i].slot == m.slot;
    assert w'.logs[m.gen][i] == w.logs[m.gen][i];
  }

  /** What a committing tick adds: its own second is not over, and all earlier ticks leased before it. */
  lemma NewMark(w: World, a: Action)
    requires Reachable(w) && a.TickCommit? && Committed(w, a).Some?
    ensures var g, e := Committed(w, a).value.0, Committed(w, a).value.1;
            && e.Tick? && e.slot <= Slot(w.now) && g in w.logs && TicksBefore(w.logs[g], e.slot)
            && InLogOf(Step(w, a), Mark(g, e.slot, Slot(w.now)))
  {
    ReachableIsGood(w);
    CommittedIsReady(w, a);
    TickCommitsUnderItsLease(w, a.task, a.ttl, a.lockTtl);
    assert PcInv(w, PcOf(w, a.task));
    CommitAppends(w, a);
    var g, e := Committed(w, a).value.0, Committed(w, a).value.1;
    assert Step(w, a).logs[g][|w.logs[g]|] == e;
  }

  lemma {:induction false} MarksAreLogged(acts: seq<Action>)
    ensures forall i :: 0 <= i < |Marks(acts)| ==>
              && InLogOf(Play(acts), Marks(acts)[i])
              && Marks(acts)[i].slot <= Marks(acts)[i].second <= Slot(Play(acts).now)
  {
    if acts != [] {
      var w, a := Play(Init(acts)), Last(acts);
      MarksAreLogged(Init(acts));
      StepExtends(w, a);
      forall i | 0 <= i < |Marks(Init(acts))| ensures InLogOf(Play(acts), Marks(Init(acts))[i]) {
        LogKeepsMark(w, Play(acts), Marks(Init(acts))[i]);
      }
      if MarkOf(w, a) != [] { NewMark(w, a); }
    }
  }

  /** Along every run the seconds of commits never fall and, within a generation, leased seconds rise. */
  lemma {:induction false} CommitSecondsRise(acts: seq<Action>, i: nat, j: nat)
    requires i < j < |Marks(acts)|
    ensures Marks(acts)[i].second <= Marks(acts)[j].second
    ensures Marks(acts)[i].gen == Marks(acts)[j].gen ==> Marks(acts)[i].slot < Marks(acts)[j].slot
  {
    var before := Marks(Init(acts));
    if j < |before| {
      CommitSecondsRise(Init(acts), i, j);
    } else {
      var w, a := Play(Init(acts)), Last(acts);
      MarksAreLogged(Init(acts));
      assert InLogOf(w, before[i]);
      NewMark(w, a);
    }
  }

  /** Two ticks of a generation commit in the same Redis second only if the earlier one is late: the
      second it leased was over when it committed. */
  lemma SameSecondMeansLate(acts: seq<Action>, i: nat, j: nat)
    requires i < j < |Marks(acts)| && Marks(acts)[i].gen == Marks(acts)[j].gen
    ensures Marks(acts)[i].second == Marks(acts)[j].second ==> Late(Marks(acts)[i])
  {
    CommitSecondsRise(acts, i, j);
    MarksAreLogged(acts);
  }

  // ---------------------------------------------------------------- exactly when a second tick can follow

  /** After its commit the lock is free for another tick exactly when the tick was late. */
  lemma LockIsFreeIffLate(k: Keys, now: nat, lease: Lock, revision: int, gen: Gen, next: State, ttl: Ttl, lockTtl: Ttl)
    requires CanCommitTick(k, now, lease, revision, gen)
    ensures CanAcquire(CommitTick(k, now, lease, revision, gen, next, ttl, lockTtl), now) <==> lease.slot != Slot(now)
  {
  }

  /** The run `more` commits another tick to generation `g` before the current second is over. */
  predicate TicksAgain(w: World, g: Gen, more: seq<Action>) {
    more != [] && Last(more).TickCommit?
    && var v := PlayFrom(w, Init(more));
       && Committed(v, Last(more)).Some? && Committed(v, Last(more)).value.0 == g
       && Slot(v.now) == Slot(w.now)
  }

  ghost predicate CanTickAgain(w: World, g: Gen) {
    exists more :: TicksAgain(w, g, more)
  }

  /** A tick that has left the timer running can be followed by another one in the same Redis second,
      by some schedule of some workers, if and only if it was late. */
  lemma SecondTickIffLate(w: World, t: nat, ttl: Ttl, lockTtl: Ttl)
    requires Reachable(w) && Committed(w, TickCommit(t, ttl, lockTtl)).Some?
    requires var w' := StepTickCommit(w, t, ttl, lockTtl);
             w'.keys.state.Held? && Advancing(w'.keys.state.value.clock)
    ensures var c := Committed(w, TickCommit(t, ttl, lockTtl)).value;
            CanTickAgain(StepTickCommit(w, t, ttl, lockTtl), c.0) <==> c.1.slot < Slot(w.now)
  {
    var a := TickCommit(t, ttl, lockTtl);
    var w', g, e := Step(w, a), Committed(w, a).value.0, Committed(w, a).value.1;
    NewMark(w, a);
    if e.slot < Slot(w.now) {
      AnotherTick(w, t, ttl, lockTtl);
    }
    if CanTickAgain(w', g) {
      var more :| TicksAgain(w', g, more);
      NotTwiceInTime(w, t, ttl, lockTtl, more);
    }
  }

  lemma NotTwiceInTime(w: World, t: nat, ttl: Ttl, lockTtl: Ttl, more: seq<Action>)
    requires Reachable(w) && Committed(w, TickCommit(t, ttl, lockTtl)).Some?
    requires var a := TickCommit(t, ttl, lockTtl); TicksAgain(Step(w, a), Committed(w, a).value.0, more)
    ensures Committed(w, TickCommit(t, ttl, lockTtl)).value.1.slot < Slot(w.now)
  {
    var a := TickCommit(t, ttl, lockTtl);
    var w', m := Step(w, a), MarkOf(w, a)[0];
    NewMark(w, a);
    assert PlayFrom(w, [a]) == w' by { assert Init([a]) == []; }
    StaysReachable(w, [a]);
    var v := PlayFrom(w', Init(more));
    StaysReachable(w', Init(more));
    RunExtends(w', Init(more));
    LogKeepsMark(w', v, m);
    NewMark(v, Last(more));
    TimeGoesOn(w, a);
  }

  /** Any task may be the second ticker; here it is the first one again. */
  function Again(t: nat): seq<Action> {
    [TickBegin(t, false), TickAcquire(t, 0, 1), TickReread(t, false, 0), TickCommit(t, 1, 1)]
  }

  lemma PlayPrefix(w: World, acts: seq<Action>, k: nat)
    requires k < |acts|
    ensures PlayFrom(w, acts[..k + 1]) == Step(PlayFrom(w, acts[..k]), acts[k])
  {
    assert Init(acts[..k + 1]) == acts[..k];
  }

  /** The room and the task right after a tick has been committed. */
  lemma AfterTick(w: World, a: Action)
    requires Reachable(w) && a.TickCommit? && Committed(w, a).Some?
    ensures var w', g, e := Step(w, a), Committed(w, a).value.0, Committed(w, a).value.1;
            && PcOf(w', a.task) == Idle && w'.now == w.now && Alive(w'.keys, w'.now)
            && w'.keys.meta.value == g && g in w'.logs && w'.logs[g] == w.logs[g] + [e]
            && Get(w'.keys.lock, w'.now) == Some(Done(e.slot))
            && (Advancing(w'.keys.state.value.clock) ==> w'.keys.state.value.stamp == Some(e.slot))
  {
    ReachableIsGood(w);
    CommittedIsReady(w, a);
    CommitAppends(w, a);
    assert PcInv(w, PcOf(w, a.task));
  }

  lemma AnotherTick(w: World, t: nat, ttl: Ttl, lockTtl: Ttl)
    requires Reachable(w) && Committed(w, TickCommit(t, ttl, lockTtl)).Some?
    requires var w' := StepTickCommit(w, t, ttl, lockTtl);
             w'.keys.state.Held? && Advancing(w'.keys.state.value.clock)
    requires Committed(w, TickCommit(t, ttl, lockTtl)).value.1.slot < Slot(w.now)
    ensures var w', g := StepTickCommit(w, t, ttl, lockTtl), Committed(w, TickCommit(t, ttl, lockTtl)).value.0;
            && TicksAgain(w', g, Again(t))
            && Committed(PlayFrom(w', Init(Again(t))), Last(Again(t))) == Some((g, Tick(Slot(w.now), false, 0)))
            && PlayFrom(w', Init(Again(t))).logs == w'.logs
  {
    hide StepTickCommit, StepTickBegin, StepTickAcquire, StepTickReread, Committed, Advancing;
    var a := TickCommit(t, ttl, lockTtl);
    var w', more := Step(w, a), Again(t);
    AfterTick(w, a);
    assert more[..0] == [];
    PlayPrefix(w', more, 0);
    PlayPrefix(w', more, 1);
    PlayPrefix(w', more, 2);
    assert more[..3] == Init(more);
    RunningTick(w', t, Committed(w, a).value.0, Committed(w, a).value.1.slot);
  }

  /** A running room whose last tick was for an earlier second, ticked by an idle task. */
  lemma RunningTick(w: World, t: nat, g: Gen, slot: int)
    requires PcOf(w, t).Idle? && Alive(w.keys, w.now) && w.keys.meta.value == g && g in w.logs
    requires Get(w.keys.lock, w.now) == Some(Done(slot)) && slot < Slot(w.now)
    requires w.keys.state.value.stamp == Some(slot) && Advancing(w.keys.state.value.clock)
    ensures var w1 := StepTickBegin(w, t, false);
            var w2 := StepTickAcquire(w1, t, 0, 1);
            var w3 := StepTickReread(w2, t, false, 0);
            && Committed(w3, TickCommit(t, 1, 1)) == Some((g, Tick(Slot(w.now), false, 0)))
            && w3.now == w.now && w3.logs == w.logs
  {
    var w1 := StepTickBegin(w, t, false);
    assert w1 == Goto(w, t, TickWilling);
    var w2 := StepTickAcquire(w1, t, 0, 1);
    var lease := LeaseOf(w.now, 0, w.nextNonce);
    assert PcOf(w2, t) == TickLeased(lease) && HoldsLease(w2.keys, w2.now, lease);
    var w3 := StepTickReread(w2, t, false, 0);
    assert Commits(w.keys.state.value, Tick(lease.slot, false, 0));
    assert PcOf(w3, t) == TickReady(lease, g, w.keys.state.value, Tick(lease.slot, false, 0));
  }

  // ---------------------------------------------------------------- two runs

  const SEED := InitialState(0)
  const FOCUSED := State(InitialClock().(focus := true), 0, None, Some(0), 1)

  /** A session starts at second 0. Second 5 is leased at 5.9 s and committed at 6.0 s. */
  const LATE: seq<Action> := [
    NewRoom(0, 100),
    MsgArrive(0, FocusToggle, 0), MsgSnapshot(0), MsgTime(0, 0), MsgCommit(0, 100),
    Action.Elapse(5900),
    TickBegin(1, false), TickAcquire(1, 1, 2), TickReread(1, false, 0),
    Action.Elapse(100),
    TickCommit(1, 100, 2)]

  lemma Prefix(acts: seq<Action>, k: nat)
    requires k < |acts|
    ensures Play(acts[..k + 1]) == Step(Play(acts[..k]), acts[k])
  {
    assert Init(acts[..k + 1]) == acts[..k];
  }

  lemma Nothing()
    ensures Play([]) == START
  {
  }

  lemma LateRunStarts()
    ensures Play(LATE[..5]) ==
            World(0, Keys(Held(FOCUSED, 100000), Held(0, 100000), Absent, Absent), map[0 := Idle], 1, 0, 1, [],
                  map[0 := [Said(0, 0, FocusToggle)]], map[0 := SEED])
  {
    hide Play;
    assert LATE[..0] == [];
    Nothing();
    Prefix(LATE, 0);
    Prefix(LATE, 1);
    Prefix(LATE, 2);
    Prefix(LATE, 3);
    Prefix(LATE, 4);
    var w1 := World(0, Created(0, 0, SEED, 100), map[], 1, 0, 0, [], map[0 := []], map[0 := SEED]);
    assert Play(LATE[..1]) == w1;
    assert Play(LATE[..2]) == w1.(pcs := map[0 := MsgStart(0, FocusToggle, 0, 0)], nextCall := 1);
    assert Play(LATE[..3]) == w1.(pcs := map[0 := MsgRead(0, FocusToggle, 0, 0, SEED)], nextCall := 1);
    var e := Said(0, 0, FocusToggle);
    assert Apply(SEED, e) == FOCUSED;
    var w4 := w1.(pcs := map[0 := MsgReady(0, FocusToggle, 0, 0, SEED, e)], nextCall := 1);
    assert Play(LATE[..4]) == w4;
    assert Matches(w4.keys, 0, 0, 0) && w4.logs[0] + [e] == [e];
    assert CompareAndSet(w4.keys, 0, 0, 0, FOCUSED, 100)
        == Keys(Held(FOCUSED, 100000), Held(0, 100000), Absent, Absent);
  }

  /** A running timer with plenty left is still running after a tick. */
  lemma StillFocused(s: State, slot: int)
    requires s.clock == FOCUSED.clock && s.stamp.Some? && slot - s.stamp.value < 3000
    ensures Advancing(Apply(s, Tick(slot, false, 0)).clock)
  {
    FocusRuns(s.clock, Max(0, slot - s.stamp.value));
  }

  const LATE_LEASE := Running(5, 1, 0)

  /** Second 5 is leased. */
  function LateLeased(): World {
    World(5900, Keys(Held(FOCUSED, 100000), Held(0, 100000), Absent, Held(LATE_LEASE, 7900)),
          map[0 := Idle, 1 := TickLeased(LATE_LEASE)], 1, 1, 1, [5],
          map[0 := [Said(0, 0, FocusToggle)]], map[0 := SEED])
  }

  lemma LateTickLeases()
    ensures Play(LATE[..8]) == LateLeased()
  {
    hide Play, Apply;
    LateRunStarts();
    Prefix(LATE, 5);
    Prefix(LATE, 6);
    Prefix(LATE, 7);
    var w6 := Play(LATE[..5]).(now := 5900);
    assert Play(LATE[..6]) == w6;
    assert Play(LATE[..7]) == w6.(pcs := map[0 := Idle, 1 := TickWilling]);
  }

  /** Its tick is computed, and waits into second 6. */
  function LateWaiting(): World {
    LateLeased().(pcs := map[0 := Idle, 1 := TickReady(LATE_LEASE, 0, FOCUSED, Tick(5, false, 0))])
  }

  lemma LateTickReady()
    ensures var w := Play(LATE[..10]);
            && w.now == 6000 && Committed(w, LATE[10]) == Some((0, Tick(5, false, 0)))
            && w.keys.state.value == FOCUSED
  {
    hide Play, Apply;
    LateTickWaits();
    var w := LateWaiting().(now := 6000);
    assert PcOf(w, 1) == TickReady(LATE_LEASE, 0, FOCUSED, Tick(5, false, 0));
  }

  lemma LateTickWaits()
    ensures Play(LATE[..10]) == LateWaiting().(now := 6000)
  {
    hide Play, Apply, StepTickReread;
    LateTickLeases();
    LateTickReads();
    Prefix(LATE, 8);
    Prefix(LATE, 9);
  }

  lemma LateTickReads()
    ensures StepTickReread(LateLeased(), 1, false, 0) == LateWaiting()
  {
    hide Apply;
    assert Commits(FOCUSED, Tick(5, false, 0));
  }

  lemma {:induction false} NoTickNoMark(acts: seq<Action>)
    requires forall i :: 0 <= i < |acts| ==> !acts[i].TickCommit?
    ensures Marks(acts) == []
  {
    if acts != [] { NoTickNoMark(Init(acts)); }
  }

  lemma LateTickRunsOn(w: World)
    requires Reachable(w) && Committed(w, LATE[10]) == Some((0, Tick(5, false, 0))) && w.keys.state.value == FOCUSED
    ensures var w' := Step(w, LATE[10]); w'.keys.state.Held? && Advancing(w'.keys.state.value.clock)
  {
    hide Apply, StepTickCommit;
    ReachableIsGood(w);
    CommitAppends(w, LATE[10]);
    StillFocused(FOCUSED, 5);
  }

  lemma LateIsSilent()
    ensures Marks(LATE[..10]) == []
  {
    hide Play, Marks;
    NoTickNoMark(LATE[..10]);
  }

  lemma LateEnds()
    ensures LATE[..11] == LATE && Init(LATE) == LATE[..10] && Play(LATE) == Step(Play(LATE[..10]), LATE[10])
  {
    hide Play, Step;
    assert LATE[..11] == LATE && Init(LATE) == LATE[..10];
    Prefix(LATE, 10);
  }

  lemma MarkIs(v: World, a: Action, g: Gen, slot: int, second: int)
    requires a.TickCommit? && Committed(v, a) == Some((g, Tick(slot, false, 0))) && Slot(v.now) == second
    ensures MarkOf(v, a) == [Mark(g, slot, second)]
  {
  }

  lemma FirstMark(acts: seq<Action>, m: Mark)
    requires acts != []
    ensures Marks(Init(acts)) == [] && MarkOf(Play(Init(acts)), Last(acts)) == [m] ==> Marks(acts) == [m]
  {
    hide Play, MarkOf;
  }

  lemma LateTickIsMarked()
    ensures Play(LATE) == Step(Play(LATE[..10]), LATE[10]) && Marks(LATE) == [Mark(0, 5, 6)]
  {
    hide Play, Apply, Step, Committed, Marks, MarkOf;
    LateTickReady();
    LateIsSilent();
    LateEnds();
    MarkIs(Play(LATE[..10]), LATE[10], 0, 5, 6);
    FirstMark(LATE, Mark(0, 5, 6));
  }

  lemma AgainShape(t: nat)
    ensures Again(t) != [] && Last(Again(t)).TickCommit?
    ensures forall i :: 0 <= i < |Again(t)| - 1 ==> !Again(t)[i].TickCommit?
  {
  }

  /** After a late tick of a timer that runs on, the next one of the same task is in the same second. */
  lemma AgainIsMarked(w: World, acts: seq<Action>, a: Action)
    requires Reachable(w) && a.TickCommit? && Play(acts) == Step(w, a) && Committed(w, a).Some?
    requires var w' := Step(w, a); w'.keys.state.Held? && Advancing(w'.keys.state.value.clock)
    requires Committed(w, a).value.1.slot < Slot(w.now)
    ensures Marks(acts + Again(a.task)) == Marks(acts) + [Mark(Committed(w, a).value.0, Slot(w.now), Slot(w.now))]
  {
    hide Play, Apply, Advancing, Committed, Again, PlayFrom, Marks, MarkOf, Step, StepTickCommit;
    var more := Again(a.task);
    CommitIsAStep(w, a);
    TimeGoesOn(w, a);
    AnotherTick(w, a.task, a.ttl, a.lockTtl);
    AgainShape(a.task);
    MarkIs(PlayFrom(Play(acts), Init(more)), Last(more), Committed(w, a).value.0, Slot(w.now), Slot(w.now));
    MarksGoOn(acts, more);
  }

  /** Two ticks in Redis second 6: the late one for second 5, and the one for second 6 right after. */
  lemma LateTickSharesASecond()
    ensures Marks(LATE + Again(1)) == [Mark(0, 5, 6), Mark(0, 6, 6)]
  {
    hide Play, Apply, Advancing, Committed, Again, PlayFrom, Marks, Step;
    LateTickReady();
    LateTickIsMarked();
    assert Reachable(Play(LATE[..10]));
    LateTickRunsOn(Play(LATE[..10]));
    AgainIsMarked(Play(LATE[..10]), LATE, LATE[10]);
  }

  lemma CommitIsAStep(w: World, a: Action)
    requires a.TickCommit?
    ensures Step(w, a) == StepTickCommit(w, a.task, a.ttl, a.lockTtl)
  {
  }

  /** A continuation that commits one tick, at its end. */
  lemma MarksGoOn(acts: seq<Action>, more: seq<Action>)
    requires more != [] && forall i :: 0 <= i < |more| - 1 ==> !more[i].TickCommit?
    ensures Marks(acts + more) == Marks(acts) + MarkOf(PlayFrom(Play(acts), Init(more)), Last(more))
  {
    PlayGoesOn(acts, Init(more));
    assert Init(acts + more) == acts + Init(more);
    SilentMarks(acts, Init(more));
  }

  lemma {:induction false} SilentMarks(acts: seq<Action>, more: seq<Action>)
    requires forall i :: 0 <= i < |more| ==> !more[i].TickCommit?
    ensures Marks(acts + more) == Marks(acts)
  {
    if more == [] {
      assert acts + more == acts;
    } else {
      SilentMarks(acts, Init(more));
      assert Init(acts + more) == acts + Init(more) && Last(acts + more) == Last(more);
    }
  }

  /** Second 30 is leased before the session starts in second 31, and committed after. */
  const STALE: seq<Action> := [
    NewRoom(0, 100), Action.Elapse(30900),
    TickBegin(1, true), TickAcquire(1, 1, 2), MsgArrive(0, FocusToggle, 0), Action.Elapse(100),
    MsgSnapshot(0), MsgTime(0, 0), MsgCommit(0, 100),
    TickReread(1, false, 0), TickCommit(1, 100, 2)]

  const STARTED := State(InitialClock().(focus := true), 0, None, Some(31), 1)

  const STALE_LEASE := Running(30, 1, 0)

  /** The world when the message has read the room. */
  const ASKED := World(31000, Keys(Held(SEED, 100000), Held(0, 100000), Absent, Held(STALE_LEASE, 32900)),
                       map[1 := TickLeased(STALE_LEASE), 0 := MsgRead(0, FocusToggle, 0, 0, SEED)],
                       1, 1, 1, [30], map[0 := []], map[0 := SEED])

  lemma StaleRunStarts()
    ensures Play(STALE[..7]) == ASKED
  {
    hide Play;
    assert STALE[..0] == [];
    Nothing();
    Prefix(STALE, 0);
    Prefix(STALE, 1);
    Prefix(STALE, 2);
    Prefix(STALE, 3);
    Prefix(STALE, 4);
    Prefix(STALE, 5);
    Prefix(STALE, 6);
    var w2 := World(30900, Created(0, 0, SEED, 100), map[], 1, 0, 0, [], map[0 := []], map[0 := SEED]);
    assert Play(STALE[..1]) == w2.(now := 0);
    assert Play(STALE[..2]) == w2;
    assert Play(STALE[..3]) == w2.(pcs := map[1 := TickWilling]);
    var w4 := w2.(pcs := map[1 := TickLeased(STALE_LEASE)], keys := w2.keys.(lock := Held(STALE_LEASE, 32900)),
                  nextNonce := 1, leases := [30]);
    assert Play(STALE[..4]) == w4;
    var w5 := w4.(pcs := map[1 := TickLeased(STALE_LEASE), 0 := MsgStart(0, FocusToggle, 0, 0)], nextCall := 1);
    assert Play(STALE[..5]) == w5;
    assert Play(STALE[..6]) == w5.(now := 31000);
  }

  function StaleToldKeys(): Keys { Keys(Held(STARTED, 131000), Held(0, 131000), Absent, Held(STALE_LEASE, 32900)) }

  /** The message of second 31 has landed before the tick of second 30. */
  function StaleTold(): World {
    ASKED.(pcs := ASKED.pcs[0 := Idle], keys := StaleToldKeys(), logs := map[0 := [Said(31, 0, FocusToggle)]])
  }

  lemma StaleMessageLands()
    ensures Play(STALE[..9]) == StaleTold()
  {
    hide Play;
    StaleRunStarts();
    Prefix(STALE, 7);
    Prefix(STALE, 8);
    var e := Said(31, 0, FocusToggle);
    assert Apply(SEED, e) == STARTED;
    var w8 := ASKED.(pcs := ASKED.pcs[0 := MsgReady(0, FocusToggle, 0, 0, SEED, e)]);
    assert Play(STALE[..8]) == w8;
    assert Matches(w8.keys, 31000, 0, 0) && w8.logs[0] + [e] == [e];
    assert CompareAndSet(w8.keys, 31000, 0, 0, STARTED, 100) == StaleToldKeys();
    assert Play(STALE[..9]) == StaleTold();
  }

  lemma StaleTickReady()
    ensures var w := Play(STALE[..10]);
            && w.now == 31000 && Committed(w, STALE[10]) == Some((0, Tick(30, false, 0)))
            && w.keys.state.value == STARTED && w.logs == map[0 := [Said(31, 0, FocusToggle)]]
  {
    hide Play, Apply;
    StaleMessageLands();
    Prefix(STALE, 9);
    assert Commits(STARTED, Tick(30, false, 0));
    assert PcOf(Play(STALE[..10]), 1) == TickReady(STALE_LEASE, 0, STARTED, Tick(30, false, 0));
  }

  lemma StaleTickCommits()
    ensures var w, w' := Play(STALE[..10]), Play(STALE);
            && Reachable(w) && w' == Step(w, STALE[10])
            && w'.keys.state.Held? && Advancing(w'.keys.state.value.clock)
            && w'.logs == map[0 := [Said(31, 0, FocusToggle), Tick(30, false, 0)]]
  {
    hide Play, Apply, StepTickCommit;
    var w := Play(STALE[..10]);
    StaleTickReady();
    assert STALE[..11] == STALE;
    Prefix(STALE, 10);
    assert Reachable(w);
    ReachableIsGood(w);
    CommitAppends(w, STALE[10]);
    StillFocused(STARTED, 30);
    assert w.logs[0] + [Tick(30, false, 0)] == [Said(31, 0, FocusToggle), Tick(30, false, 0)];
  }

  /** The history in which second 31 is counted twice is one the workers can make: it passes every
      lease, generation and revision check. */
  lemma StaleLeaseHappens()
    ensures Play(STALE + Again(1)).logs ==
            map[0 := [Said(31, 0, FocusToggle), Tick(30, false, 0), Tick(31, false, 0)]]
  {
    hide Play, PlayFrom, Apply, StepTickCommit, Committed, Again;
    var w, w' := Play(STALE[..10]), Play(STALE);
    StaleTickReady();
    StaleTickCommits();
    AnotherTick(w, 1, 100, 2);
    LastTickLands(w', Again(1), Tick(31, false, 0));
    PlayGoesOn(STALE, Again(1));
    assert w'.logs[0] + [Tick(31, false, 0)] == [Said(31, 0, FocusToggle), Tick(30, false, 0), Tick(31, false, 0)];
  }

  lemma LastTickLands(w: World, more: seq<Action>, e: Event)
    requires Reachable(w) && TicksAgain(w, 0, more) && 0 in w.logs && PlayFrom(w, Init(more)).logs == w.logs
    requires Committed(PlayFrom(w, Init(more)), Last(more)) == Some((0, e))
    ensures PlayFrom(w, more).logs == w.logs[0 := w.logs[0] + [e]]
  {
    var v := PlayFrom(w, Init(more));
    StaysReachable(w, Init(more));
    ReachableIsGood(v);
    CommitAppends(v, Last(more));
  }

  // ---------------------------------------------------------------- giving up

  /** How long the history of its generation was when the call a task is busy with arrived. */
  function Baseline(acts: seq<Action>, t: nat): nat {
    if acts == [] then 0
    else
      var w, a := Play(Init(acts)), Last(acts);
      if a.MsgArrive? && a.task == t && PcOf(w, t).Idle? then (if a.gen in w.logs then |w.logs[a.gen]| else 0)
      else Baseline(Init(acts), t)
  }

  /** Every attempt has lost to at least one commit. */
  predicate Outpaced(w: World, t: nat, baseline: nat) {
    var pc := PcOf(w, t);
    && (pc.MsgStart? && pc.gen in w.logs ==> |w.logs[pc.gen]| >= baseline + pc.attempt)
    && (pc.MsgStart? && pc.gen !in w.logs ==> pc.attempt == baseline == 0)
    && (pc.MsgRead? || pc.MsgReady? ==> pc.base.revision >= baseline + pc.attempt)
  }

  lemma {:induction false} AttemptsAreOutpaced(acts: seq<Action>, t: nat)
    ensures Outpaced(Play(acts), t, Baseline(acts, t))
  {
    if acts != [] {
      var w, a := Play(Init(acts)), Last(acts);
      AttemptsAreOutpaced(Init(acts), t);
      assert Reachable(w);
      ReachableIsGood(w);
      StepExtends(w, a);
      if Ambient(a) || a.task != t {
        OtherTasksStay(w, a, t);
      } else {
        OwnStepIsOutpaced(w, a, Baseline(Init(acts), t));
      }
    }
  }

  lemma OtherTasksStay(w: World, a: Action, t: nat)
    requires Ambient(a) || a.task != t
    ensures PcOf(Step(w, a), t) == PcOf(w, t)
  {
    if !Ambient(a) { TaskMoves(w, a); }
  }

  lemma OwnStepIsOutpaced(w: World, a: Action, baseline: nat)
    requires Good(w) && !Ambient(a) && Outpaced(w, a.task, baseline) && Extends(w, Step(w, a))
    ensures var t := a.task;
            Outpaced(Step(w, a), t, if a.MsgArrive? && PcOf(w, t).Idle?
                                    then (if a.gen in w.logs then |w.logs[a.gen]| else 0) else baseline)
  {
    if a.MsgCommit? {
      CommitIsOutpaced(w, a.task, a.ttl, baseline);
    } else if a.MsgSnapshot? {
      if w.keys.meta.Held? { SnapshotIsBase(w); }
    } else if a.MsgArrive? || a.MsgTime? {
    } else {
      OtherSteps(w, a);
    }
  }

  /** Steps of a task that is not busy with a call. */
  lemma OtherSteps(w: World, a: Action)
    requires !Ambient(a) && !a.MsgCommit? && !a.MsgSnapshot? && !a.MsgArrive? && !a.MsgTime?
    ensures HasCall(PcOf(Step(w, a), a.task)) ==> Step(w, a) == w
  {
  }

  lemma CommitIsOutpaced(w: World, t: nat, ttl: Ttl, baseline: nat)
    requires Good(w) && Outpaced(w, t, baseline)
    ensures Outpaced(StepMsgCommit(w, t, ttl), t, baseline)
  {
    hide Apply, CompareAndSet, Fold;
    var pc := PcOf(w, t);
    if pc.MsgReady? && pc.gen in w.logs {
      RefusedIsBehind(w, pc);
      hide Good, Matches;
    }
  }

  /** A live room that refuses a snapshot has moved on since. */
  lemma RefusedIsBehind(w: World, pc: Pc)
    requires Good(w) && PcInv(w, pc) && pc.MsgReady?
    ensures Alive(w.keys, w.now) && w.keys.meta.value == pc.gen && !Matches(w.keys, w.now, pc.base.revision, pc.gen)
            ==> pc.base.revision < |w.logs[pc.gen]|
  {
    hide Fold;
    if Alive(w.keys, w.now) { SnapshotIsBase(w); }
  }

  /** The message gives up: its eighth attempt has failed in a live room of its generation. */
  predicate GivesUp(w: World, a: Action) {
    a.MsgCommit?
    && var pc := PcOf(w, a.task);
       && pc.MsgReady? && pc.gen in w.logs && pc.attempt + 1 >= MAX_ATTEMPTS
       && Alive(w.keys, w.now) && w.keys.meta.value == pc.gen && w.keys.state.value.revision != pc.base.revision
  }

  /** A message that gives up has seen at least eight commits since it arrived, none of them its own. */
  lemma GivingUpMeansEightCommits(acts: seq<Action>, a: Action)
    requires GivesUp(Play(acts), a)
    ensures var w := Play(acts);
            var pc := PcOf(w, a.task);
            |w.logs[pc.gen]| >= Baseline(acts, a.task) + MAX_ATTEMPTS && !InLog(w.logs[pc.gen], pc.call)
  {
    var w := Play(acts);
    AttemptsAreOutpaced(acts, a.task);
    assert Reachable(w);
    ReachableIsGood(w);
    assert PcInv(w, PcOf(w, a.task));
    SnapshotIsBase(w);
    NotYetCommitted(w, a.task);
  }

  lemma NotYetCommitted(w: World, t: nat)
    requires CallInv(w) && HasCall(PcOf(w, t)) && PcOf(w, t).gen in w.logs
    ensures !InLog(w.logs[PcOf(w, t).gen], PcOf(w, t).call)
  {
    assert CallFree(w.logs, w.pcs[t].call);
  }
}

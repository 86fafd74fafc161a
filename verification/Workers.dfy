/**
 Any number of coroutines on any number of workers, ticking and answering messages against one
 room (backend/scheduler.py, backend/room_service.py).

 A task stops at every Redis call; anything may happen before its next step, including that it
 never takes one. `logs` and `seeds` are the proof's memory: what each room generation was
 created with and which events were committed to it, in order.
 */
module Workers {
  import opened Common
  import opened Timer
  import opened Steps
  import opened Replay
  import opened RoomStore

  /** Where a coroutine has stopped. */
  datatype Pc =
    | Idle
    | TickWilling
    | TickLeased(lease: Lock)
    | TickReady(lease: Lock, gen: Gen, base: State, event: Event)
    | TickRefreshing(lease: Lock)
    | TickReleasing(lease: Lock)
    | MsgStart(call: nat, message: Message, gen: Gen, attempt: nat)
    | MsgRead(call: nat, message: Message, gen: Gen, attempt: nat, base: State)
    | MsgReady(call: nat, message: Message, gen: Gen, attempt: nat, base: State, event: Event)

  datatype World = World(
    now: nat,
    keys: Keys,
    pcs: map<nat, Pc>,
    nextGen: nat,
    nextNonce: nat,
    nextCall: nat,
    leases: seq<int>,
    logs: map<Gen, seq<Event>>,
    seeds: map<Gen, State>)

  datatype Action =
    | Elapse(ms: nat)
    | NewRoom(newSky: Sky, ttl: Ttl)
    | Visit(op: Op)
    | TickBegin(task: nat, connected: bool)
    | TickAcquire(task: nat, owner: nat, lockTtl: Ttl)
    | TickReread(task: nat, connected: bool, newSky: Sky)
    | TickCommit(task: nat, ttl: Ttl, lockTtl: Ttl)
    | TickRefresh(task: nat, ttl: Ttl)
    | TickRelease(task: nat, lockTtl: Ttl)
    | MsgArrive(task: nat, message: Message, gen: Gen)
    | MsgSnapshot(task: nat)
    | MsgTime(task: nat, newSky: Sky)
    | MsgCommit(task: nat, ttl: Ttl)
    | Stop(task: nat)

  const START := World(0, NO_KEYS, map[], 0, 0, 0, [], map[], map[])

  function PcOf(w: World, t: nat): Pc {
    if t in w.pcs then w.pcs[t] else Idle
  }

  function Goto(w: World, t: nat, pc: Pc): World {
    w.(pcs := w.pcs[t := pc])
  }

  // ---------------------------------------------------------------- the steps

  function StepTickBegin(w: World, t: nat, connected: bool): World {
    if PcOf(w, t).Idle? && Alive(w.keys, w.now) && (connected || Advancing(w.keys.state.value.clock))
    then Goto(w, t, TickWilling) else w
  }

  function StepTickAcquire(w: World, t: nat, owner: nat, lockTtl: Ttl): World {
    if !PcOf(w, t).TickWilling? then w
    else if CanAcquire(w.keys, w.now) then
      Goto(w, t, TickLeased(LeaseOf(w.now, owner, w.nextNonce)))
      .(keys := Acquire(w.keys, w.now, owner, w.nextNonce, lockTtl),
        nextNonce := w.nextNonce + 1,
        leases := w.leases + [Slot(w.now)])
    else Goto(w, t, Idle).(nextNonce := w.nextNonce + 1)
  }

  function StepTickReread(w: World, t: nat, connected: bool, newSky: Sky): World {
    var pc := PcOf(w, t);
    if !pc.TickLeased? then w
    else if !Alive(w.keys, w.now) then Goto(w, t, TickReleasing(pc.lease))
    else
      var s := w.keys.state.value;
      var e := Tick(pc.lease.slot, connected, newSky);
      if Commits(s, e) then Goto(w, t, TickReady(pc.lease, w.keys.meta.value, s, e))
      else if connected || Advancing(s.clock) then Goto(w, t, TickRefreshing(pc.lease))
      else Goto(w, t, TickReleasing(pc.lease))
  }

  /** The store after a commit, and the event it adds to the history of its generation. */
  function Land(w: World, gen: Gen, event: Event, keys: Keys): World
    requires gen in w.logs
  {
    w.(keys := keys, logs := w.logs[gen := w.logs[gen] + [event]])
  }

  function StepTickCommit(w: World, t: nat, ttl: Ttl, lockTtl: Ttl): World {
    var pc := PcOf(w, t);
    if !pc.TickReady? || pc.gen !in w.logs then w
    else if CanCommitTick(w.keys, w.now, pc.lease, pc.base.revision, pc.gen) then
      Land(Goto(w, t, Idle), pc.gen, pc.event,
           CommitTick(w.keys, w.now, pc.lease, pc.base.revision, pc.gen, Apply(pc.base, pc.event), ttl, lockTtl))
    else Goto(w, t, TickReleasing(pc.lease))
  }

  function StepTickRefresh(w: World, t: nat, ttl: Ttl): World {
    var pc := PcOf(w, t);
    if pc.TickRefreshing? then Goto(w, t, TickReleasing(pc.lease)).(keys := Refresh(w.keys, w.now, ttl)) else w
  }

  function StepTickRelease(w: World, t: nat, lockTtl: Ttl): World {
    var pc := PcOf(w, t);
    if pc.TickReleasing? then Goto(w, t, Idle).(keys := CompleteLease(w.keys, w.now, pc.lease, lockTtl)) else w
  }

  function StepMsgArrive(w: World, t: nat, m: Message, gen: Gen): World {
    if PcOf(w, t).Idle? then Goto(w, t, MsgStart(w.nextCall, m, gen, 0)).(nextCall := w.nextCall + 1) else w
  }

  function StepMsgSnapshot(w: World, t: nat): World {
    var pc := PcOf(w, t);
    if !pc.MsgStart? then w
    else if !Alive(w.keys, w.now) || w.keys.meta.value != pc.gen then Goto(w, t, Idle)
    else Goto(w, t, MsgRead(pc.call, pc.message, pc.gen, pc.attempt, w.keys.state.value))
  }

  /** The provider is asked about the sky on every attempt anew. */
  function Asked(m: Message, newSky: Sky): Message {
    match m
    case TimeOverride(iso, parses, _) => TimeOverride(iso, parses, newSky)
    case Location(lat, lon, _) => Location(lat, lon, newSky)
    case _ => m
  }

  function StepMsgTime(w: World, t: nat, newSky: Sky): World {
    var pc := PcOf(w, t);
    if !pc.MsgRead? then w
    else
      var e := Said(Slot(w.now), pc.call, Asked(pc.message, newSky));
      if Commits(pc.base, e) then Goto(w, t, MsgReady(pc.call, pc.message, pc.gen, pc.attempt, pc.base, e))
      else Goto(w, t, Idle)
  }

  function StepMsgCommit(w: World, t: nat, ttl: Ttl): World {
    var pc := PcOf(w, t);
    if !pc.MsgReady? || pc.gen !in w.logs then w
    else if Matches(w.keys, w.now, pc.base.revision, pc.gen) then
      Land(Goto(w, t, Idle), pc.gen, pc.event,
           CompareAndSet(w.keys, w.now, pc.base.revision, pc.gen, Apply(pc.base, pc.event), ttl))
    else if !(Alive(w.keys, w.now) && w.keys.meta.value == pc.gen) then Goto(w, t, Idle)
    else if pc.attempt + 1 < MAX_ATTEMPTS then
      Goto(w, t, MsgStart(pc.call, pc.message, pc.gen, pc.attempt + 1))
    else Goto(w, t, Idle)
  }

  function StepNewRoom(w: World, newSky: Sky, ttl: Ttl): World {
    if Exists(w.keys, w.now) then w
    else
      var seed := InitialState(newSky);
      w.(keys := Created(w.now, w.nextGen, seed, ttl), nextGen := w.nextGen + 1, leases := [],
         logs := w.logs[w.nextGen := []], seeds := w.seeds[w.nextGen := seed])
  }

  /** HTTP joins and socket authorizations. */
  predicate IsVisit(op: Op) {
    op.OpRefresh? || op.OpIssue? || op.OpAuthorize?
  }

  function Step(w: World, a: Action): World {
    match a
    case Elapse(ms) => w.(now := w.now + ms)
    case NewRoom(newSky, ttl) => StepNewRoom(w, newSky, ttl)
    case Visit(op) => if IsVisit(op) then w.(keys := Do(w.keys, w.now, op)) else w
    case TickBegin(t, connected) => StepTickBegin(w, t, connected)
    case TickAcquire(t, owner, lockTtl) => StepTickAcquire(w, t, owner, lockTtl)
    case TickReread(t, connected, newSky) => StepTickReread(w, t, connected, newSky)
    case TickCommit(t, ttl, lockTtl) => StepTickCommit(w, t, ttl, lockTtl)
    case TickRefresh(t, ttl) => StepTickRefresh(w, t, ttl)
    case TickRelease(t, lockTtl) => StepTickRelease(w, t, lockTtl)
    case MsgArrive(t, m, gen) => StepMsgArrive(w, t, m, gen)
    case MsgSnapshot(t) => StepMsgSnapshot(w, t)
    case MsgTime(t, newSky) => StepMsgTime(w, t, newSky)
    case MsgCommit(t, ttl) => StepMsgCommit(w, t, ttl)
    case Stop(t) => Goto(w, t, Idle)
  }

  function Play(acts: seq<Action>): World {
    if acts == [] then START else Step(Play(Init(acts)), Last(acts))
  }

  // ---------------------------------------------------------------- the store's history

  /** Every event of a history is committed, so the revision counts them. */
  predicate Counted(seed: State, log: seq<Event>) {
    forall k :: 0 <= k <= |log| ==> Fold(seed, log[..k]).revision == k
  }

  predicate HistoryOk(w: World, g: Gen)
    requires g in w.logs && g in w.seeds
  {
    && Resting(w.seeds[g]) && w.seeds[g] == InitialState(w.seeds[g].sky)
    && Counted(w.seeds[g], w.logs[g])
    && Ordered(w.logs[g])
    && Latest(w.logs[g]) <= Slot(w.now)
  }

  predicate StoreInv(w: World) {
    && w.logs.Keys == w.seeds.Keys
    && (forall g :: g in w.logs ==> g < w.nextGen && HistoryOk(w, g))
    && Coupled(w.keys)
    && (w.keys.meta.Held? ==>
          && w.keys.meta.value in w.logs
          && w.keys.state.value == Fold(w.seeds[w.keys.meta.value], w.logs[w.keys.meta.value]))
  }

  /** A snapshot in flight is the state its generation had at its revision. */
  predicate BaseOk(w: World, gen: Gen, base: State) {
    && gen in w.logs && gen in w.seeds
    && 0 <= base.revision <= |w.logs[gen]|
    && base == Fold(w.seeds[gen], w.logs[gen][..base.revision])
  }

  predicate PcInv(w: World, pc: Pc) {
    match pc
    case TickLeased(lease) => lease.Running? && lease.slot <= Slot(w.now)
    case TickReady(lease, gen, base, e) =>
      BaseOk(w, gen, base) && e.Tick? && e.slot == lease.slot && e.slot <= Slot(w.now) && Commits(base, e)
    case MsgRead(_, _, gen, _, base) => BaseOk(w, gen, base)
    case MsgReady(call, m, gen, _, base, e) =>
      && BaseOk(w, gen, base) && e.Said? && e.call == call && Asked(e.message, 0) == Asked(m, 0)
      && e.slot <= Slot(w.now)
      && Commits(base, e)
      && Latest(w.logs[gen][..base.revision]) <= e.slot
    case _ => true
  }

  predicate TasksInv(w: World) {
    forall t :: t in w.pcs ==> PcInv(w, w.pcs[t])
  }

  /** Time has passed and histories have grown, nothing else. */
  predicate Grows(w: World, w': World) {
    && w.now <= w'.now
    && (forall g :: g in w.logs ==>
          && g in w'.logs && |w.logs[g]| <= |w'.logs[g]| && w'.logs[g][..|w.logs[g]|] == w.logs[g]
          && (g in w.seeds ==> g in w'.seeds && w'.seeds[g] == w.seeds[g]))
  }

  lemma PcInvGrows(w: World, w': World, pc: Pc)
    requires PcInv(w, pc) && Grows(w, w')
    ensures PcInv(w', pc)
  {
    if pc.TickReady? || pc.MsgRead? || pc.MsgReady? {
      var r := pc.base.revision;
      assert w'.logs[pc.gen][..r] == w'.logs[pc.gen][..|w.logs[pc.gen]|][..r] == w.logs[pc.gen][..r];
    }
  }

  /** A step of task `t` that grows the histories and leaves it at a good place. */
  lemma TasksGrow(w: World, w': World, t: nat, pc: Pc)
    requires TasksInv(w) && Grows(w, w') && w'.pcs == w.pcs[t := pc] && PcInv(w', pc)
    ensures TasksInv(w')
  {
    forall u | u in w'.pcs ensures PcInv(w', w'.pcs[u]) {
      if u != t { PcInvGrows(w, w', w.pcs[u]); }
    }
  }

  lemma {:induction false} PrefixLatest(es: seq<Event>, k: nat)
    requires k <= |es|
    ensures Latest(es[..k]) <= Latest(es)
  {
    if k < |es| {
      PrefixLatest(Init(es), k);
      assert Init(es)[..k] == es[..k];
    } else {
      assert es[..k] == es;
    }
  }

  /** What was read just now is the end of its history. */
  lemma SnapshotIsBase(w: World)
    requires StoreInv(w) && w.keys.meta.Held?
    ensures BaseOk(w, w.keys.meta.value, w.keys.state.value)
    ensures w.keys.state.value.revision == |w.logs[w.keys.meta.value]|
  {
    var log := w.logs[w.keys.meta.value];
    assert log[..|log|] == log;
  }

  /** An in-flight snapshot whose generation and revision still match is the stored state. */
  lemma MatchingSnapshotIsCurrent(w: World, gen: Gen, base: State)
    requires StoreInv(w) && BaseOk(w, gen, base) && Matches(w.keys, w.now, base.revision, gen)
    ensures base == w.keys.state.value && base.revision == |w.logs[gen]|
  {
    SnapshotIsBase(w);
  }

  lemma CommitCounts(s: State, e: Event)
    requires Commits(s, e)
    ensures Apply(s, e).revision == s.revision + 1
  {
  }

  /** A commit appends to the history of the generation it was computed in. */
  lemma LandKeepsStore(w: World, gen: Gen, base: State, e: Event, keys: Keys)
    requires StoreInv(w) && BaseOk(w, gen, base) && Matches(w.keys, w.now, base.revision, gen)
    requires Commits(base, e) && e.slot <= Slot(w.now)
    requires e.Said? ==> Latest(w.logs[gen][..base.revision]) <= e.slot
    requires Coupled(keys) && keys.state.Held? && keys.state.value == Apply(base, e)
    requires keys.meta.Held? && keys.meta.value == gen
    ensures StoreInv(Land(w, gen, e, keys)) && Grows(w, Land(w, gen, e, keys))
  {
    var w' := Land(w, gen, e, keys);
    var log, log' := w.logs[gen], w.logs[gen] + [e];
    MatchingSnapshotIsCurrent(w, gen, base);
    assert log[..base.revision] == log && Init(log') == log && Last(log') == e;
    CommitCounts(base, e);
    forall k | 0 <= k <= |log'| ensures Fold(w.seeds[gen], log'[..k]).revision == k {
      if k <= |log| { assert log'[..k] == log[..k]; } else { assert log'[..k] == log'; }
    }
    assert HistoryOk(w', gen);
    forall g | g in w'.logs ensures g < w'.nextGen && HistoryOk(w', g) {
      if g != gen { assert HistoryOk(w, g); }
    }
  }

  lemma TickCommitKeeps(w: World, t: nat, ttl: Ttl, lockTtl: Ttl)
    requires StoreInv(w) && TasksInv(w)
    ensures var w' := StepTickCommit(w, t, ttl, lockTtl); StoreInv(w') && TasksInv(w')
  {
    var pc, w' := PcOf(w, t), StepTickCommit(w, t, ttl, lockTtl);
    if pc.TickReady? && pc.gen in w.logs {
      assert PcInv(w, pc);
      if CanCommitTick(w.keys, w.now, pc.lease, pc.base.revision, pc.gen) {
        var op := OpCommitTick(pc.lease, pc.base.revision, pc.gen, Apply(pc.base, pc.event), ttl, lockTtl);
        ScriptsKeepCoupled(w.keys, w.now, op);
        LandKeepsStore(w, pc.gen, pc.base, pc.event, w'.keys);
        StoreIgnoresPcs(Land(w, pc.gen, pc.event, w'.keys), w');
        TasksGrow(w, w', t, Idle);
      } else {
        StoreIgnoresPcs(w, w');
        TasksGrow(w, w', t, TickReleasing(pc.lease));
      }
    }
  }

  lemma MsgCommitKeeps(w: World, t: nat, ttl: Ttl)
    requires StoreInv(w) && TasksInv(w)
    ensures var w' := StepMsgCommit(w, t, ttl); StoreInv(w') && TasksInv(w')
  {
    var pc, w' := PcOf(w, t), StepMsgCommit(w, t, ttl);
    if pc.MsgReady? && pc.gen in w.logs {
      assert PcInv(w, pc);
      if Matches(w.keys, w.now, pc.base.revision, pc.gen) {
        var op := OpCompareAndSet(pc.base.revision, pc.gen, Apply(pc.base, pc.event), ttl);
        ScriptsKeepCoupled(w.keys, w.now, op);
        LandKeepsStore(w, pc.gen, pc.base, pc.event, w'.keys);
        StoreIgnoresPcs(Land(w, pc.gen, pc.event, w'.keys), w');
        TasksGrow(w, w', t, Idle);
      } else {
        StoreIgnoresPcs(w, w');
        TasksGrow(w, w', t, PcOf(w', t));
      }
    }
  }

  lemma StoreIgnoresPcs(w: World, w': World)
    requires StoreInv(w) && w' == w.(pcs := w'.pcs, nextCall := w'.nextCall)
    ensures StoreInv(w') && Grows(w, w')
  {
    forall g | g in w'.logs ensures g < w'.nextGen && HistoryOk(w', g) { assert HistoryOk(w, g); }
  }

  /** Scripts that keep the stored value and the generation. */
  lemma StoreKeepsValues(w: World, w': World)
    requires StoreInv(w)
    requires w' == w.(pcs := w'.pcs, keys := w'.keys, nextNonce := w'.nextNonce, leases := w'.leases)
    requires Coupled(w'.keys)
    requires w'.keys.meta.Held? ==>
               w.keys.meta.Held? && w'.keys.meta.value == w.keys.meta.value && w'.keys.state.value == w.keys.state.value
    ensures StoreInv(w') && Grows(w, w')
  {
    forall g | g in w'.logs ensures g < w'.nextGen && HistoryOk(w', g) { assert HistoryOk(w, g); }
  }

  lemma NewRoomKeeps(w: World, newSky: Sky, ttl: Ttl)
    requires StoreInv(w) && TasksInv(w)
    ensures var w' := StepNewRoom(w, newSky, ttl); StoreInv(w') && TasksInv(w')
  {
    var w' := StepNewRoom(w, newSky, ttl);
    if !Exists(w.keys, w.now) {
      assert w.nextGen !in w.logs;
      forall g | g in w'.logs ensures g < w'.nextGen && HistoryOk(w', g) {
        if g in w.logs { assert HistoryOk(w, g); }
      }
      forall t | t in w'.pcs ensures PcInv(w', w'.pcs[t]) { PcInvGrows(w, w', w.pcs[t]); }
    }
  }

  lemma ElapseKeeps(w: World, ms: nat)
    requires StoreInv(w) && TasksInv(w)
    ensures var w' := w.(now := w.now + ms); StoreInv(w') && TasksInv(w')
  {
    var w' := w.(now := w.now + ms);
    forall g | g in w'.logs ensures g < w'.nextGen && HistoryOk(w', g) { assert HistoryOk(w, g); }
    forall t | t in w'.pcs ensures PcInv(w', w'.pcs[t]) { PcInvGrows(w, w', w.pcs[t]); }
  }

  lemma TickReadKeeps(w: World, a: Action)
    requires StoreInv(w) && TasksInv(w) && (a.TickBegin? || a.TickReread?)
    ensures StoreInv(Step(w, a)) && TasksInv(Step(w, a))
  {
    var w', t := Step(w, a), a.task;
    StoreIgnoresPcs(w, w');
    if w' != w {
      if Alive(w.keys, w.now) { SnapshotIsBase(w); }
      TasksGrow(w, w', t, PcOf(w', t));
    }
  }

  lemma TickWriteKeeps(w: World, a: Action)
    requires StoreInv(w) && TasksInv(w) && (a.TickAcquire? || a.TickRefresh? || a.TickRelease?)
    ensures StoreInv(Step(w, a)) && TasksInv(Step(w, a))
  {
    var w', t := Step(w, a), a.task;
    var pc := PcOf(w, t);
    if a.TickAcquire? { ScriptsKeepCoupled(w.keys, w.now, OpAcquire(a.owner, w.nextNonce, a.lockTtl)); }
    if a.TickRefresh? { ScriptsKeepCoupled(w.keys, w.now, OpRefresh(a.ttl)); }
    if a.TickRelease? && pc.TickReleasing? { ScriptsKeepCoupled(w.keys, w.now, OpComplete(pc.lease, a.lockTtl)); }
    StoreKeepsValues(w, w');
    hide StoreInv, Coupled;
    if w' != w { TasksGrow(w, w', t, PcOf(w', t)); }
  }

  lemma TickStepKeeps(w: World, a: Action)
    requires StoreInv(w) && TasksInv(w)
    requires a.TickBegin? || a.TickAcquire? || a.TickReread? || a.TickRefresh? || a.TickRelease?
    ensures StoreInv(Step(w, a)) && TasksInv(Step(w, a))
  {
    hide Step, StoreInv, TasksInv;
    if a.TickBegin? || a.TickReread? { TickReadKeeps(w, a); } else { TickWriteKeeps(w, a); }
  }

  lemma MsgStepKeeps(w: World, a: Action)
    requires StoreInv(w) && TasksInv(w)
    requires a.MsgArrive? || a.MsgSnapshot? || a.MsgTime?
    ensures StoreInv(Step(w, a)) && TasksInv(Step(w, a))
  {
    var w', t := Step(w, a), a.task;
    StoreIgnoresPcs(w, w');
    if w' != w {
      if a.MsgSnapshot? && Alive(w.keys, w.now) { SnapshotIsBase(w); }
      if a.MsgTime? {
        var pc := PcOf(w, t);
        assert PcInv(w, pc);
        assert HistoryOk(w, pc.gen);
        PrefixLatest(w.logs[pc.gen], pc.base.revision);
      }
      TasksGrow(w, w', t, PcOf(w', t));
    }
  }

  lemma StepKeepsStore(w: World, a: Action)
    requires StoreInv(w) && TasksInv(w)
    ensures StoreInv(Step(w, a)) && TasksInv(Step(w, a))
  {
    match a
    case Elapse(ms) => ElapseKeeps(w, ms);
    case NewRoom(newSky, ttl) => NewRoomKeeps(w, newSky, ttl);
    case Visit(op) =>
      var w' := Step(w, a);
      ScriptsKeepCoupled(w.keys, w.now, op);
      StoreKeepsValues(w, w');
      forall t | t in w'.pcs ensures PcInv(w', w'.pcs[t]) { PcInvGrows(w, w', w.pcs[t]); }
    case TickCommit(t, ttl, lockTtl) => TickCommitKeeps(w, t, ttl, lockTtl);
    case MsgCommit(t, ttl) => MsgCommitKeeps(w, t, ttl);
    case Stop(t) =>
      StoreIgnoresPcs(w, Step(w, a));
      TasksGrow(w, Step(w, a), t, Idle);
    case MsgArrive(_, _, _) => MsgStepKeeps(w, a);
    case MsgSnapshot(_) => MsgStepKeeps(w, a);
    case MsgTime(_, _) => MsgStepKeeps(w, a);
    case _ => TickStepKeeps(w, a);
  }
}

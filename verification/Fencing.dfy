/**
 What the tick lease and the revision check buy, in every world the workers can reach.
 */
module Fencing {
  import opened Common
  import opened Timer
  import opened Steps
  import opened Replay
  import opened RoomStore
  import opened Workers

  // ---------------------------------------------------------------- leases

  predicate Ascending(slots: seq<int>) {
    forall i, j :: 0 <= i < j < |slots| ==> slots[i] < slots[j]
  }

  /** The lock key remembers the last leased second at least until that second is over. */
  predicate LockInv(w: World) {
    && Ascending(w.leases)
    && (w.leases == [] ==> w.keys.lock.Absent?)
    && (w.leases != [] ==>
          && w.keys.lock.Held? && w.keys.lock.value.slot == Last(w.leases) && 0 <= Last(w.leases) <= Slot(w.now)
          && w.keys.lock.expiry >= 1000 * (Last(w.leases) + 1))
  }

  lemma SlotRounds(now: nat, s: nat)
    ensures now >= 1000 * (s + 1) ==> Slot(now) > s
    ensures now >= 1000 * Slot(now) && now < 1000 * (Slot(now) + 1)
  {
  }

  /** Taking a lease: its second is later than every second leased before in this generation. */
  lemma AcquireAdvances(w: World)
    requires LockInv(w) && CanAcquire(w.keys, w.now)
    ensures w.leases != [] ==> Last(w.leases) < Slot(w.now)
  {
    if w.leases != [] { SlotRounds(w.now, Last(w.leases)); }
  }

  /** Leases are told apart by their nonces. */
  predicate NonceInv(w: World) {
    && (forall t :: t in w.pcs && HasLease(w.pcs[t]) ==>
          w.pcs[t].lease.Running? && w.pcs[t].lease.nonce < w.nextNonce)
    && (forall t, u :: t in w.pcs && u in w.pcs && t != u && HasLease(w.pcs[t]) && HasLease(w.pcs[u]) ==>
          w.pcs[t].lease.nonce != w.pcs[u].lease.nonce)
  }

  predicate HasLease(pc: Pc) {
    pc.TickLeased? || pc.TickReady? || pc.TickRefreshing? || pc.TickReleasing?
  }

  lemma TaskKeepsNonces(w: World, w': World, t: nat, pc: Pc)
    requires NonceInv(w) && w'.pcs == w.pcs[t := pc] && w.nextNonce <= w'.nextNonce
    requires HasLease(pc) ==>
               || (t in w.pcs && HasLease(w.pcs[t]) && pc.lease == w.pcs[t].lease)
               || (pc.lease.Running? && pc.lease.nonce == w.nextNonce < w'.nextNonce)
    ensures NonceInv(w')
  {
  }

  /** Actions that are not the step of a task. */
  predicate Ambient(a: Action) {
    a.Elapse? || a.NewRoom? || a.Visit?
  }

  /** Steps that touch the lock. */
  predicate Locking(a: Action) {
    a.TickAcquire? || a.TickCommit? || a.TickRelease? || a.NewRoom?
  }

  lemma TaskMoves(w: World, a: Action)
    requires !Ambient(a)
    ensures Step(w, a) == w || Step(w, a).pcs == w.pcs[a.task := PcOf(Step(w, a), a.task)]
  {
  }

  lemma StepKeepsNonces(w: World, a: Action)
    requires NonceInv(w)
    ensures NonceInv(Step(w, a))
  {
    var w' := Step(w, a);
    if Ambient(a) {
      assert w'.pcs == w.pcs && w'.nextNonce == w.nextNonce;
    } else if w' != w {
      TaskMoves(w, a);
      LeaseMoves(w, a);
      TaskKeepsNonces(w, w', a.task, PcOf(w', a.task));
    }
  }

  lemma LeaseMoves(w: World, a: Action)
    requires !Ambient(a)
    ensures w.nextNonce <= Step(w, a).nextNonce
    ensures var t, w' := a.task, Step(w, a);
            HasLease(PcOf(w', t)) ==>
              || (t in w.pcs && HasLease(w.pcs[t]) && PcOf(w', t).lease == w.pcs[t].lease)
              || (PcOf(w', t).lease.Running? && PcOf(w', t).lease.nonce == w.nextNonce < w'.nextNonce)
  {
  }

  lemma OthersLeaveLock(w: World, a: Action)
    requires !Locking(a)
    ensures Step(w, a).keys.lock == w.keys.lock && Step(w, a).leases == w.leases && Step(w, a).now >= w.now
  {
  }

  lemma StepKeepsLock(w: World, a: Action)
    requires LockInv(w)
    ensures LockInv(Step(w, a))
  {
    if !Locking(a) {
      OthersLeaveLock(w, a);
    } else if a.TickAcquire? {
      LockAfterAcquire(w, a.task, a.owner, a.lockTtl);
    } else if a.TickCommit? {
      LockAfterCommit(w, a.task, a.ttl, a.lockTtl);
    } else if a.TickRelease? {
      LockAfterRelease(w, a.task, a.lockTtl);
    }
  }

  lemma LockAfterAcquire(w: World, t: nat, owner: nat, lockTtl: Ttl)
    requires LockInv(w)
    ensures LockInv(StepTickAcquire(w, t, owner, lockTtl))
  {
    if PcOf(w, t).TickWilling? && CanAcquire(w.keys, w.now) {
      AcquireAdvances(w);
      SlotRounds(w.now, 0);
    }
  }

  lemma LockAfterRelease(w: World, t: nat, lockTtl: Ttl)
    requires LockInv(w)
    ensures LockInv(StepTickRelease(w, t, lockTtl))
  {
    SlotRounds(w.now, 0);
  }

  lemma LockAfterCommit(w: World, t: nat, ttl: Ttl, lockTtl: Ttl)
    requires LockInv(w)
    ensures LockInv(StepTickCommit(w, t, ttl, lockTtl))
  {
    var pc, w' := PcOf(w, t), StepTickCommit(w, t, ttl, lockTtl);
    SlotRounds(w.now, 0);
    assert w'.leases == w.leases && w'.now == w.now;
    if pc.TickReady? && pc.gen in w.logs && CanCommitTick(w.keys, w.now, pc.lease, pc.base.revision, pc.gen) {
      assert w'.keys.lock == Put(Done(pc.lease.slot), w.now, lockTtl);
    } else {
      assert w'.keys == w.keys;
    }
  }

  // ---------------------------------------------------------------- ticks in the history

  /** Ticks of a history lease ever later seconds. */
  predicate TicksAscend(es: seq<Event>) {
    forall i, j :: 0 <= i < j < |es| && es[i].Tick? && es[j].Tick? ==> es[i].slot < es[j].slot
  }

  predicate TicksBefore(es: seq<Event>, bound: int) {
    forall i :: 0 <= i < |es| && es[i].Tick? ==> es[i].slot < bound
  }

  /** The first second a tick of the stored generation may still commit for. */
  function Frontier(w: World): int {
    if w.leases == [] then 0
    else if w.keys.lock.Held? && w.keys.lock.value.Running? then Last(w.leases)
    else Last(w.leases) + 1
  }

  predicate TickInv(w: World) {
    && (forall g :: g in w.logs ==> TicksAscend(w.logs[g]))
    && (w.keys.meta.Held? && w.keys.meta.value in w.logs ==> TicksBefore(w.logs[w.keys.meta.value], Frontier(w)))
  }

  lemma AppendTick(log: seq<Event>, e: Event)
    requires TicksAscend(log) && (e.Tick? ==> TicksBefore(log, e.slot))
    ensures TicksAscend(log + [e])
  {
    var log' := log + [e];
    forall i, j | 0 <= i < j < |log'| && log'[i].Tick? && log'[j].Tick? ensures log'[i].slot < log'[j].slot {
      assert log'[i] == log[i];
      if j < |log| { assert log'[j] == log[j]; }
    }
  }

  lemma TickCommitKeepsTicks(w: World, t: nat, ttl: Ttl, lockTtl: Ttl)
    requires TickInv(w) && LockInv(w) && TasksInv(w)
    ensures TickInv(StepTickCommit(w, t, ttl, lockTtl))
  {
    var pc, w' := PcOf(w, t), StepTickCommit(w, t, ttl, lockTtl);
    if pc.TickReady? && pc.gen in w.logs && CanCommitTick(w.keys, w.now, pc.lease, pc.base.revision, pc.gen) {
      assert PcInv(w, pc);
      var log, log' := w.logs[pc.gen], w.logs[pc.gen] + [pc.event];
      AppendTick(log, pc.event);
      assert w'.logs == w.logs[pc.gen := log'];
      assert Frontier(w') == pc.event.slot + 1;
      forall i | 0 <= i < |log'| && log'[i].Tick? ensures log'[i].slot < pc.event.slot + 1 {
        if i < |log| { assert log'[i] == log[i]; }
      }
    } else {
      assert w'.logs == w.logs && w'.keys == w.keys;
    }
  }

  lemma MsgCommitKeepsTicks(w: World, t: nat, ttl: Ttl)
    requires TickInv(w) && TasksInv(w)
    ensures TickInv(StepMsgCommit(w, t, ttl))
  {
    var pc, w' := PcOf(w, t), StepMsgCommit(w, t, ttl);
    if pc.MsgReady? && pc.gen in w.logs && Matches(w.keys, w.now, pc.base.revision, pc.gen) {
      assert PcInv(w, pc);
      var log, log' := w.logs[pc.gen], w.logs[pc.gen] + [pc.event];
      AppendTick(log, pc.event);
      assert w'.logs == w.logs[pc.gen := log'];
      assert Frontier(w') == Frontier(w);
      forall i | 0 <= i < |log'| && log'[i].Tick? ensures log'[i].slot < Frontier(w) {
        assert log'[i] == log[i];
      }
    } else {
      assert w'.logs == w.logs && w'.keys == w.keys;
    }
  }

  lemma StepKeepsTicks(w: World, a: Action)
    requires TickInv(w) && LockInv(w) && TasksInv(w) && StoreInv(w)
    ensures TickInv(Step(w, a))
  {
    if a.TickCommit? {
      TickCommitKeepsTicks(w, a.task, a.ttl, a.lockTtl);
    } else if a.MsgCommit? {
      MsgCommitKeepsTicks(w, a.task, a.ttl);
    } else if a.NewRoom? {
      NewRoomKeepsTicks(w, a.newSky, a.ttl);
    } else {
      OthersLeaveHistory(w, a);
      if a.TickAcquire? {
        if CanAcquire(w.keys, w.now) { AcquireAdvances(w); }
      } else if !a.TickRelease? {
        OthersLeaveLock(w, a);
      }
      FrontierAdvances(w, Step(w, a));
    }
  }

  /** All but the two commits and room creation leave the histories and the stored value alone. */
  lemma OthersLeaveHistory(w: World, a: Action)
    requires !a.TickCommit? && !a.MsgCommit? && !a.NewRoom?
    ensures var w' := Step(w, a);
            && w'.logs == w.logs && w'.seeds == w.seeds
            && (w'.keys.meta.Held? <==> w.keys.meta.Held?) && (w'.keys.state.Held? <==> w.keys.state.Held?)
            && (w.keys.meta.Held? ==> w'.keys.meta.value == w.keys.meta.value)
            && (w.keys.state.Held? ==> w'.keys.state.value == w.keys.state.value)
            && (Alive(w'.keys, w'.now) ==> Alive(w.keys, w.now))
  {
  }

  lemma NewRoomKeepsTicks(w: World, newSky: Sky, ttl: Ttl)
    requires TickInv(w)
    ensures TickInv(StepNewRoom(w, newSky, ttl))
  {
  }

  lemma FrontierAdvances(w: World, w': World)
    requires TickInv(w) && w'.logs == w.logs && Frontier(w) <= Frontier(w')
    requires w'.keys.meta.Held? ==> w.keys.meta.Held? && w'.keys.meta.value == w.keys.meta.value
    ensures TickInv(w')
  {
  }

  // ---------------------------------------------------------------- each message once

  predicate HasCall(pc: Pc) {
    pc.MsgStart? || pc.MsgRead? || pc.MsgReady?
  }

  predicate InLog(es: seq<Event>, call: nat) {
    exists i :: 0 <= i < |es| && es[i].Said? && es[i].call == call
  }

  /** No message occurs at two places of the histories of all generations. */
  predicate OnceEach(logs: map<Gen, seq<Event>>) {
    forall g, h, i, j ::
      && g in logs && h in logs && 0 <= i < |logs[g]| && 0 <= j < |logs[h]|
      && logs[g][i].Said? && logs[h][j].Said? && logs[g][i].call == logs[h][j].call
      ==> g == h && i == j
  }

  predicate CallFree(logs: map<Gen, seq<Event>>, call: nat) {
    forall g :: g in logs ==> !InLog(logs[g], call)
  }

  ghost predicate CallInv(w: World) {
    && (forall t :: t in w.pcs && HasCall(w.pcs[t]) ==> w.pcs[t].call < w.nextCall && CallFree(w.logs, w.pcs[t].call))
    && (forall t, u :: t in w.pcs && u in w.pcs && t != u && HasCall(w.pcs[t]) && HasCall(w.pcs[u]) ==>
          w.pcs[t].call != w.pcs[u].call)
    && (forall call :: call >= w.nextCall ==> CallFree(w.logs, call))
    && OnceEach(w.logs)
  }

  lemma AppendKeepsFree(logs: map<Gen, seq<Event>>, gen: Gen, e: Event, call: nat)
    requires CallFree(logs, call) && gen in logs && (e.Said? ==> e.call != call)
    ensures CallFree(logs[gen := logs[gen] + [e]], call)
  {
    assert !InLog(logs[gen], call);
    forall i | 0 <= i < |logs[gen] + [e]| && (logs[gen] + [e])[i].Said?
      ensures (logs[gen] + [e])[i].call != call
    {
      if i < |logs[gen]| { assert (logs[gen] + [e])[i] == logs[gen][i]; }
    }
  }

  lemma AppendKeepsOnce(logs: map<Gen, seq<Event>>, gen: Gen, e: Event)
    requires OnceEach(logs) && gen in logs && (e.Said? ==> CallFree(logs, e.call))
    ensures OnceEach(logs[gen := logs[gen] + [e]])
  {
    var logs': map<Gen, seq<Event>> := logs[gen := logs[gen] + [e]];
    forall g: Gen, h: Gen, i: int, j: int |
      && g in logs' && h in logs' && 0 <= i < |logs'[g]| && 0 <= j < |logs'[h]|
      && logs'[g][i].Said? && logs'[h][j].Said? && logs'[g][i].call == logs'[h][j].call
      ensures g == h && i == j
    {
      var oldI, oldJ := i < |logs[g]|, j < |logs[h]|;
      if oldI { assert logs'[g][i] == logs[g][i]; }
      if oldJ { assert logs'[h][j] == logs[h][j]; }
      if oldI && !oldJ { assert !InLog(logs[g], e.call); }
      if !oldI && oldJ { assert !InLog(logs[h], e.call); }
    }
  }

  lemma LandKeepsCalls(w: World, w': World, t: nat, gen: Gen, e: Event)
    requires CallInv(w) && gen in w.logs && t in w.pcs
    requires w'.pcs == w.pcs[t := Idle] && w'.nextCall == w.nextCall && w'.logs == w.logs[gen := w.logs[gen] + [e]]
    requires e.Said? ==> HasCall(w.pcs[t]) && w.pcs[t].call == e.call
    ensures CallInv(w')
  {
    AppendKeepsOnce(w.logs, gen, e);
    forall u | u in w'.pcs && HasCall(w'.pcs[u])
      ensures w'.pcs[u].call < w'.nextCall && CallFree(w'.logs, w'.pcs[u].call)
    {
      AppendKeepsFree(w.logs, gen, e, w.pcs[u].call);
    }
    forall call | call >= w'.nextCall ensures CallFree(w'.logs, call) {
      AppendKeepsFree(w.logs, gen, e, call);
    }
  }

  lemma CommitKeepsCalls(w: World, a: Action)
    requires CallInv(w) && TasksInv(w) && Committed(w, a).Some?
    ensures CallInv(Step(w, a))
  {
    var pc := PcOf(w, a.task);
    assert PcInv(w, pc);
    LandKeepsCalls(w, Step(w, a), a.task, pc.gen, pc.event);
  }

  lemma NewLogKeepsCalls(w: World, w': World)
    requires CallInv(w) && w'.pcs == w.pcs && w'.nextCall == w.nextCall
    requires w.nextGen !in w.logs && w'.logs == w.logs[w.nextGen := []]
    ensures CallInv(w')
  {
    forall call | CallFree(w.logs, call) ensures CallFree(w'.logs, call) {
      forall g | g in w'.logs ensures !InLog(w'.logs[g], call) {
        if g != w.nextGen { assert !InLog(w.logs[g], call); }
      }
    }
  }

  lemma TaskKeepsCalls(w: World, w': World, t: nat)
    requires CallInv(w) && w'.logs == w.logs && w'.nextCall == w.nextCall
    requires t in w'.pcs && w'.pcs == w.pcs[t := w'.pcs[t]]
    requires HasCall(w'.pcs[t]) ==> t in w.pcs && HasCall(w.pcs[t]) && w'.pcs[t].call == w.pcs[t].call
    ensures CallInv(w')
  {
  }

  lemma CallMoves(w: World, a: Action)
    requires !Ambient(a) && !a.MsgArrive?
    ensures Step(w, a).nextCall == w.nextCall
    ensures Committed(w, a).None? ==> Step(w, a).logs == w.logs
    ensures HasCall(PcOf(Step(w, a), a.task)) ==>
              && a.task in w.pcs && HasCall(w.pcs[a.task])
              && PcOf(Step(w, a), a.task).call == w.pcs[a.task].call
  {
  }

  lemma ArriveKeepsCalls(w: World, t: nat, m: Message, gen: Gen)
    requires CallInv(w)
    ensures CallInv(StepMsgArrive(w, t, m, gen))
  {
    assert CallFree(w.logs, w.nextCall);
  }

  lemma StepKeepsCalls(w: World, a: Action)
    requires CallInv(w) && TasksInv(w) && StoreInv(w)
    ensures CallInv(Step(w, a))
  {
    var w' := Step(w, a);
    if Committed(w, a).Some? {
      CommitKeepsCalls(w, a);
    } else if a.NewRoom? {
      assert w.nextGen !in w.logs;
      if w' != w { NewLogKeepsCalls(w, w'); }
    } else if a.MsgArrive? {
      ArriveKeepsCalls(w, a.task, a.message, a.gen);
    } else if Ambient(a) {
      assert w'.logs == w.logs && w'.pcs == w.pcs && w'.nextCall == w.nextCall;
    } else if w' != w {
      TaskMoves(w, a);
      CallMoves(w, a);
      TaskKeepsCalls(w, w', a.task);
    }
  }

  // ---------------------------------------------------------------- every reachable world

  ghost predicate Reachable(w: World) {
    exists acts :: w == Play(acts)
  }

  ghost predicate Good(w: World) {
    StoreInv(w) && TasksInv(w) && NonceInv(w) && LockInv(w) && TickInv(w) && CallInv(w)
  }

  lemma StepKeepsGood(w: World, a: Action)
    requires Good(w)
    ensures Good(Step(w, a))
  {
    StepKeepsStore(w, a);
    StepKeepsNonces(w, a);
    StepKeepsLock(w, a);
    StepKeepsTicks(w, a);
    StepKeepsCalls(w, a);
  }

  lemma {:induction false} GoodAlways(acts: seq<Action>)
    ensures Good(Play(acts))
  {
    if acts != [] {
      GoodAlways(Init(acts));
      StepKeepsGood(Play(Init(acts)), Last(acts));
    }
  }

  lemma ReachableIsGood(w: World)
    requires Reachable(w)
    ensures Good(w)
  {
    var acts :| w == Play(acts);
    GoodAlways(acts);
  }

  /** The event a step commits, if it commits one. */
  function Committed(w: World, a: Action): Option<(Gen, Event)> {
    match a
    case TickCommit(t, _, _) =>
      var pc := PcOf(w, t);
      if pc.TickReady? && pc.gen in w.logs && CanCommitTick(w.keys, w.now, pc.lease, pc.base.revision, pc.gen)
      then Some((pc.gen, pc.event)) else None
    case MsgCommit(t, _) =>
      var pc := PcOf(w, t);
      if pc.MsgReady? && pc.gen in w.logs && Matches(w.keys, w.now, pc.base.revision, pc.gen)
      then Some((pc.gen, pc.event)) else None
    case _ => None
  }

  // ---------------------------------------------------------------- no lost update

  /** The states of a history: one revision per event, each computed from the one before. */
  predicate Chain(seed: State, log: seq<Event>) {
    forall k :: 0 <= k < |log| ==>
      && Fold(seed, log[..k]).revision == k
      && Commits(Fold(seed, log[..k]), log[k])
      && Fold(seed, log[..k + 1]) == Apply(Fold(seed, log[..k]), log[k])
  }

  lemma CountedIsChain(seed: State, log: seq<Event>)
    requires Counted(seed, log)
    ensures Chain(seed, log)
  {
    forall k | 0 <= k < |log|
      ensures Commits(Fold(seed, log[..k]), log[k])
      ensures Fold(seed, log[..k + 1]) == Apply(Fold(seed, log[..k]), log[k])
    {
      assert Init(log[..k + 1]) == log[..k] && Last(log[..k + 1]) == log[k];
      assert Fold(seed, log[..k + 1]).revision == k + 1;
    }
  }

  /** A live room stores the end of the chain of its generation: revision k+1 is one tick or one
      message applied to revision k, and nothing is missing. */
  lemma StoredIsHistory(w: World)
    requires Reachable(w) && Alive(w.keys, w.now)
    ensures var g := w.keys.meta.value;
            && g in w.logs && g in w.seeds
            && w.keys.state.value == Fold(w.seeds[g], w.logs[g])
            && w.keys.state.value.revision == |w.logs[g]|
            && Chain(w.seeds[g], w.logs[g])
            && Ordered(w.logs[g]) && Latest(w.logs[g]) <= Slot(w.now)
  {
    ReachableIsGood(w);
    assert HistoryOk(w, w.keys.meta.value);
    SnapshotIsBase(w);
    CountedIsChain(w.seeds[w.keys.meta.value], w.logs[w.keys.meta.value]);
  }

  /** A snapshot held across any interference is the stored state whenever its commit would succeed. */
  lemma InFlightMatchesStored(w: World, t: nat)
    requires Reachable(w) && (PcOf(w, t).TickReady? || PcOf(w, t).MsgReady?)
    requires Matches(w.keys, w.now, PcOf(w, t).base.revision, PcOf(w, t).gen)
    ensures PcOf(w, t).base == w.keys.state.value
  {
    ReachableIsGood(w);
    assert PcInv(w, PcOf(w, t));
    MatchingSnapshotIsCurrent(w, PcOf(w, t).gen, PcOf(w, t).base);
  }

  /** The step committed event `e` to the state that the live room of generation `g` had. */
  predicate Appended(w: World, w': World, g: Gen, e: Event) {
    && Alive(w.keys, w.now) && w.keys.meta.value == g && g in w.logs
    && w'.keys.meta.Held? && w'.keys.meta.value == g
    && w'.keys.state.Held? && w'.keys.state.value == Apply(w.keys.state.value, e)
    && w'.keys.state.value.revision == w.keys.state.value.revision + 1
    && w'.logs == w.logs[g := w.logs[g] + [e]]
  }

  /** The step kept every history and the stored value, unless it made a new generation. */
  predicate Kept(w: World, a: Action, w': World) {
    if a.NewRoom? && !Exists(w.keys, w.now) then
      && w'.keys.meta.Held? && w'.keys.meta.value !in w.logs
      && w'.keys.state.Held? && w'.keys.state.value.revision == 0
      && w'.logs == w.logs[w'.keys.meta.value := []]
    else
      && w'.logs == w.logs
      && (Alive(w'.keys, w'.now) ==>
            && Alive(w.keys, w.now)
            && w'.keys.meta.value == w.keys.meta.value && w'.keys.state.value == w.keys.state.value)
  }

  lemma CommitAppends(w: World, a: Action)
    requires Good(w) && Committed(w, a).Some?
    ensures Appended(w, Step(w, a), Committed(w, a).value.0, Committed(w, a).value.1)
  {
    hide Apply, Commits, Fold;
    var pc := PcOf(w, a.task);
    ReadyBase(w, pc);
    hide Good, PcInv;
    CommitWrites(w, a);
  }

  /** A commit that goes through was computed from the stored state. */
  lemma ReadyBase(w: World, pc: Pc)
    requires Good(w) && (pc.TickReady? || pc.MsgReady?) && PcInv(w, pc)
    requires Matches(w.keys, w.now, pc.base.revision, pc.gen)
    ensures pc.base == w.keys.state.value && Commits(pc.base, pc.event)
    ensures Apply(pc.base, pc.event).revision == pc.base.revision + 1
    ensures pc.event.Tick? <==> pc.TickReady?
  {
    MatchingSnapshotIsCurrent(w, pc.gen, pc.base);
    CommitCounts(pc.base, pc.event);
  }

  lemma CommitWrites(w: World, a: Action)
    requires Committed(w, a).Some? && PcOf(w, a.task).base == w.keys.state.value
    requires var s, e := w.keys.state.value, PcOf(w, a.task).event; Apply(s, e).revision == s.revision + 1
    ensures Appended(w, Step(w, a), Committed(w, a).value.0, Committed(w, a).value.1)
  {
    hide Apply;
  }

  /** Every step either commits one event to the state the live room has right now, or leaves the
      stored value and every history as they are, or makes a room of a generation never used
      before. Nothing computed in an older generation ever lands. */
  lemma StepChain(w: World, a: Action)
    requires Reachable(w)
    ensures var c := Committed(w, a);
            if c.Some? then Appended(w, Step(w, a), c.value.0, c.value.1) else Kept(w, a, Step(w, a))
  {
    ReachableIsGood(w);
    if Committed(w, a).Some? {
      CommitAppends(w, a);
    } else {
      KeptOtherwise(w, a);
    }
  }

  lemma KeptOtherwise(w: World, a: Action)
    requires StoreInv(w) && Committed(w, a).None?
    ensures Kept(w, a, Step(w, a))
  {
    if a.NewRoom? {
      assert w.nextGen !in w.logs;
    } else if a.TickCommit? || a.MsgCommit? {
      assert Step(w, a).keys == w.keys && Step(w, a).logs == w.logs;
    } else {
      OthersLeaveHistory(w, a);
    }
  }

  /** However often it retries, a message is committed at most once, in one generation. */
  lemma MessagesCommitAtMostOnce(w: World)
    requires Reachable(w)
    ensures OnceEach(w.logs)
  {
    ReachableIsGood(w);
  }

  // ---------------------------------------------------------------- the timer of a live room

  /** The stamp of a live room is kept exactly while its timer runs and is never ahead of Redis
      time, and its clock is sound. */
  lemma StoredStampAndClock(w: World)
    requires Reachable(w) && Alive(w.keys, w.now)
    ensures var s := w.keys.state.value;
            && (s.stamp.Some? <==> Advancing(s.clock))
            && (s.stamp.Some? ==> s.stamp.value <= Slot(w.now))
            && Sound(s.clock)
  {
    StoredIsHistory(w);
    ReachableIsGood(w);
    var g := w.keys.meta.value;
    assert HistoryOk(w, g);
    StampFollowsTimer(w.seeds[g], w.logs[g]);
    assert InitialClock().duration == 60 * 50;
    StoredIsSound(w.seeds[g], w.logs[g]);
  }

  /** The timer of the live room, seen in second `t`, is the replay of the messages committed to
      its generation, with the seconds ticks stepped back counted again. */
  predicate ShowsReplay(w: World, t: int)
    requires Alive(w.keys, w.now)
  {
    var g := w.keys.meta.value;
    && g in w.logs && g in w.seeds
    && Virtual(w.keys.state.value, t)
       == ReplayAt(InitialClock(), Shifted(w.seeds[g], w.logs[g]), t + Regress(w.seeds[g], w.logs[g]))
  }

  lemma GoodTimerIsReplay(w: World, t: int)
    requires StoreInv(w) && Alive(w.keys, w.now) && Slot(w.now) <= t
    ensures ShowsReplay(w, t)
  {
    var g := w.keys.meta.value;
    assert HistoryOk(w, g);
    Accounting(w.seeds[g], w.logs[g], t);
  }

  /** So it is under every interleaving. */
  lemma ReachableTimerIsReplay(w: World, t: int)
    requires Reachable(w) && Alive(w.keys, w.now) && Slot(w.now) <= t
    ensures ShowsReplay(w, t)
  {
    ReachableIsGood(w);
    GoodTimerIsReplay(w, t);
  }

  /** Nothing a tick did to the live room moved its stamp backwards. */
  predicate Steady(w: World) {
    Alive(w.keys, w.now) && w.keys.meta.value in w.logs && w.keys.meta.value in w.seeds
    && Regress(w.seeds[w.keys.meta.value], w.logs[w.keys.meta.value]) == 0
  }

  /** The payoff. Two runs of the workers, scheduled in any two ways, that committed the same
      messages in the same seconds show the same timer: the replay of those messages. */
  lemma RunsAgree(v: World, w: World, t: int)
    requires Reachable(v) && Reachable(w) && Steady(v) && Steady(w)
    requires Slot(v.now) <= t && Slot(w.now) <= t
    requires Messages(v.logs[v.keys.meta.value]) == Messages(w.logs[w.keys.meta.value])
    ensures Virtual(v.keys.state.value, t) == Virtual(w.keys.state.value, t)
            == ReplayAt(InitialClock(), Messages(w.logs[w.keys.meta.value]), t)
  {
    ReachableTimerIsReplay(v, t);
    ReachableTimerIsReplay(w, t);
    NothingRegressedNothingShifted(v.seeds[v.keys.meta.value], v.logs[v.keys.meta.value]);
    NothingRegressedNothingShifted(w.seeds[w.keys.meta.value], w.logs[w.keys.meta.value]);
  }

  /** A stamp steps back exactly when a tick commits for a second that a message has overtaken, which
      takes a celestial refresh: the second is a multiple of 30. */
  lemma OnlyOvertakenLeasesStepBack(w: World, a: Action)
    requires Reachable(w) && Committed(w, a).Some?
    ensures var s, e := w.keys.state.value, Committed(w, a).value.1;
            StepBack(s, e) > 0 <==> a.TickCommit? && s.stamp.Some? && e.slot < s.stamp.value
    ensures var s, e := w.keys.state.value, Committed(w, a).value.1;
            StepBack(s, e) > 0 ==> e.slot % 30 == 0 && s.stamp.value <= Slot(w.now)
  {
    ReachableIsGood(w);
    CommitAppends(w, a);
    StoredStampAndClock(w);
    CommittedIsReady(w, a);
    hide Good, Step, Apply, Sound, StepBack, Commits, Advancing, Committed, Appended, Reachable;
    SteppingBack(w.keys.state.value, Committed(w, a).value.1);
  }

  lemma SteppingBack(s: State, e: Event)
    requires Commits(s, e) && (s.stamp.Some? <==> Advancing(s.clock))
    ensures StepBack(s, e) > 0 <==> e.Tick? && s.stamp.Some? && e.slot < s.stamp.value
    ensures StepBack(s, e) > 0 ==> e.slot % 30 == 0
  {
  }

  /** What is committed is computed from what is stored. */
  lemma CommittedIsReady(w: World, a: Action)
    requires Good(w) && Committed(w, a).Some?
    ensures var e := Committed(w, a).value.1;
            (e.Tick? <==> a.TickCommit?) && Commits(w.keys.state.value, e)
  {
    hide Apply, Fold, Commits;
    ReadyBase(w, PcOf(w, a.task));
    hide Good, PcInv;
  }

  // ---------------------------------------------------------------- lease fencing

  /** The seconds leased in a generation strictly increase, so do those of its committed ticks, and
      no two tasks ever hold the lease that is out. */
  lemma LeasesFence(acts: seq<Action>, t: nat, u: nat)
    ensures var w := Play(acts);
            && Ascending(w.leases)
            && (forall g :: g in w.logs ==> TicksAscend(w.logs[g]))
            && (t != u && HasLease(PcOf(w, t)) && HasLease(PcOf(w, u)) ==>
                  !(HoldsLease(w.keys, w.now, PcOf(w, t).lease) && HoldsLease(w.keys, w.now, PcOf(w, u).lease)))
  {
    GoodAlways(acts);
  }

  /** A tick that commits still holds an unexpired lease, and nobody has leased since. */
  lemma TickCommitsUnderItsLease(w: World, t: nat, ttl: Ttl, lockTtl: Ttl)
    requires Reachable(w) && Committed(w, TickCommit(t, ttl, lockTtl)).Some?
    ensures var pc := PcOf(w, t);
            && w.keys.lock.Held? && w.now <= w.keys.lock.expiry
            && w.leases != [] && Last(w.leases) == pc.lease.slot == pc.event.slot
            && TicksBefore(w.logs[pc.gen], pc.event.slot)
  {
    ReachableIsGood(w);
    assert PcInv(w, PcOf(w, t));
  }
}

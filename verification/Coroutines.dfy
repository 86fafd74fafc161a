/**
 The two coroutines that write a room, as one caller runs them: tick_room of backend/scheduler.py
 and mutate_room_state of backend/room_service.py.

 Between two Redis calls anything may happen to the room; `Meanwhile` is that anything. Every call
 reports the whole time it took as a chain of spans, its own Redis calls and what happened in
 between, so that nothing it writes goes unrecorded. What every interleaving of such calls adds up
 to is the subject of Workers and Fencing.
 */
module Coroutines {
  import opened Common
  import opened Timer
  import opened Steps
  import opened RoomStore

  datatype Reply =
    | GenerationChanged
    | Exception
    | Conflict
    | NotChanged(state: State)
    | Committed(state: State)

  /** A stretch of time: one Redis call of this coroutine, or whatever happened in between. */
  datatype Span = Span(mine: bool, before: Keys, after: Keys, now: nat)

  /** The spans follow each other without a gap, from one view of the room to another. */
  predicate Chained(spans: seq<Span>, first: Keys, last: Keys) {
    if spans == [] then first == last
    else Chained(spans[..|spans| - 1], first, spans[|spans| - 1].before) && spans[|spans| - 1].after == last
  }

  lemma ChainGrows(spans: seq<Span>, first: Keys, s: Span)
    requires Chained(spans, first, s.before)
    ensures Chained(spans + [s], first, s.after)
  {
    assert (spans + [s])[..|spans|] == spans;
  }

  /** Other workers, visitors and expiry, for as long as they like. */
  method Meanwhile(redis: RedisRoom) returns (ghost span: Span)
    modifies redis
    ensures old(redis.now) <= redis.now
    ensures span == Span(false, old(redis.View()), redis.View(), redis.now)
  {
    ghost var before := redis.View();
    var ms: int := *;
    redis.now := redis.now + Max(0, ms);
    redis.index := *;
    redis.state, redis.meta, redis.tokens, redis.lock := *, *, *, *;
    span := Span(false, before, redis.View(), redis.now);
  }

  // ---------------------------------------------------------------- a message

  predicate OnlyReads(spans: seq<Span>) {
    spans != [] ==>
      var s := spans[|spans| - 1];
      OnlyReads(spans[..|spans| - 1]) && (s.mine ==> s.after == s.before)
  }

  /** Span number `i` is this coroutine's own reading of that state in that generation. */
  predicate Reads(spans: seq<Span>, i: nat, base: State, gen: Gen) {
    && i < |spans| && spans[i].mine
    && Alive(spans[i].before, spans[i].now) && spans[i].before.state.value == base && spans[i].before.meta.value == gen
  }

  /** Span number `i` is its own question to Redis for the time. */
  predicate Times(spans: seq<Span>, i: nat, slot: nat) {
    i < |spans| && spans[i].mine && spans[i].after == spans[i].before && slot == Slot(spans[i].now)
  }

  /** The span that writes the effect of the message on `base`, in a room still at its revision. */
  predicate Writes(s: Span, base: State, slot: nat, m: Message, gen: Gen, state: State, ttl: Ttl) {
    && s.mine && Changed(state) == MessageState(base, slot, m) && slot <= Slot(s.now)
    && Matches(s.before, s.now, base.revision, gen)
    && s.after == Written(s.before, s.now, state, ttl)
  }

  /** An attempt that was refused: snapshot, second and try, in this order, each a span of its own. */
  datatype Refusal = Refusal(readAt: nat, base: State, timedAt: nat, slot: nat, triedAt: nat)

  /** It had something to write, and the room had moved on from its snapshot by then. */
  predicate Refused(spans: seq<Span>, r: Refusal, m: Message, gen: Gen) {
    && Reads(spans, r.readAt, r.base, gen) && Times(spans, r.timedAt, r.slot)
    && r.readAt < r.timedAt < r.triedAt < |spans|
    && MessageState(r.base, r.slot, m).Changed?
    && spans[r.triedAt].mine
    && !Matches(spans[r.triedAt].before, spans[r.triedAt].now, r.base.revision, gen)
  }

  predicate AllRefused(spans: seq<Span>, rs: seq<Refusal>, m: Message, gen: Gen) {
    && (forall i :: 0 <= i < |rs| ==> Refused(spans, rs[i], m, gen))
    && (forall i :: 0 < i < |rs| ==> rs[i - 1].triedAt < rs[i].readAt)
  }

  lemma StillRefused(spans: seq<Span>, longer: seq<Span>, rs: seq<Refusal>, m: Message, gen: Gen)
    requires AllRefused(spans, rs, m, gen) && spans <= longer
    ensures AllRefused(longer, rs, m, gen)
  {
    hide MessageState, Matches;
    forall i | 0 <= i < |rs| ensures Refused(longer, rs[i], m, gen) { assert Refused(spans, rs[i], m, gen); }
  }

  lemma RefusedAgain(spans: seq<Span>, rs: seq<Refusal>, r: Refusal, m: Message, gen: Gen)
    requires AllRefused(spans, rs, m, gen) && Refused(spans, r, m, gen)
    requires rs != [] ==> rs[|rs| - 1].triedAt < r.readAt
    ensures AllRefused(spans, rs + [r], m, gen)
  {
    hide Refused;
  }

  lemma Nothing(k: Keys, m: Message, gen: Gen)
    ensures Chained([], k, k) && OnlyReads([]) && AllRefused([], [], m, gen)
  {
  }

  lemma RaisedByParser(s: State, slot: int, m: Message)
    ensures MessageState(s, slot, m).Raised? <==> Raises(m)
  {
  }

  /** At most eight attempts. All Redis calls but the last one of a success leave the room alone, and
      that one writes the message's effect on the snapshot read by span `readAt`, for the second
      asked for by the later span `timedAt`. */
  method MutateRoomState(redis: RedisRoom, m: Message, expected: Gen, ttl: Ttl)
    returns (reply: Reply, ghost spans: seq<Span>, ghost attempts: nat, ghost base: State, ghost slot: nat,
             ghost readAt: nat, ghost timedAt: nat, ghost refusals: seq<Refusal>)
    modifies redis
    ensures old(redis.now) <= redis.now && attempts <= MAX_ATTEMPTS
    ensures Chained(spans, old(redis.View()), redis.View())
    ensures reply.Committed? ==>
              && spans != [] && OnlyReads(spans[..|spans| - 1])
              && Writes(spans[|spans| - 1], base, slot, m, expected, reply.state, ttl)
    ensures !reply.Committed? ==> OnlyReads(spans)
    ensures reply.Committed? || reply.NotChanged? || reply.Exception? ==>
              Reads(spans, readAt, base, expected) && readAt < timedAt && Times(spans, timedAt, slot)
    ensures reply.Committed? ==> timedAt < |spans| - 1
    ensures reply.GenerationChanged? ==> !(Alive(redis.View(), redis.now) && redis.meta.value == expected)
    ensures reply.NotChanged? ==> MessageState(base, slot, m).Unchanged?
    ensures reply.Exception? <==> Raises(m) && attempts > 0 && !reply.GenerationChanged?
    ensures reply.Conflict? ==> attempts == MAX_ATTEMPTS == |refusals|
    ensures !reply.Conflict? ==> attempts == |refusals| + 1
    ensures AllRefused(spans, refusals, m, expected)
  {
    hide Written, MessageState, Matches, Chained, OnlyReads, AllRefused, Reads, Times, Writes;
    Nothing(redis.View(), m, expected);
    attempts, slot, spans, base, readAt, timedAt, refusals := 0, 0, [], InitialState(0), 0, 0, [];
    ghost var start := redis.View();
    var attempt := 0;
    while attempt < MAX_ATTEMPTS
      invariant 0 <= attempt <= MAX_ATTEMPTS && attempts == attempt
      invariant old(redis.now) <= redis.now
      invariant Chained(spans, start, redis.View()) && OnlyReads(spans)
      invariant attempt > 0 ==> !Raises(m)
      invariant |refusals| == attempt && AllRefused(spans, refusals, m, expected)
      invariant refusals != [] ==> refusals[|refusals| - 1].triedAt < |spans|
    {
      ghost var was := spans;
      attempt, attempts := attempt + 1, attempts + 1;
      var done;
      done, spans, base, slot, readAt, timedAt := Attempt(redis, m, expected, ttl, start, spans);
      StillRefused(was, spans, refusals, m, expected);
      if done.Some? { return done.value, spans, attempts, base, slot, readAt, timedAt, refusals; }
      ghost var refusal := Refusal(readAt, base, timedAt, slot, |spans| - 1);
      RefusedAgain(spans, refusals, refusal, m, expected);
      refusals := refusals + [refusal];
    }
    reply := Conflict;
  }

  /** One attempt. It ends the call unless Redis refuses what it has to write. */
  method Attempt(redis: RedisRoom, m: Message, expected: Gen, ttl: Ttl, ghost start: Keys, ghost soFar: seq<Span>)
    returns (done: Option<Reply>, ghost spans: seq<Span>, ghost base: State, ghost slot: nat, ghost readAt: nat, ghost timedAt: nat)
    requires Chained(soFar, start, redis.View()) && OnlyReads(soFar)
    modifies redis
    ensures old(redis.now) <= redis.now && soFar <= spans && done != Some(Conflict)
    ensures Chained(spans, start, redis.View())
    ensures done.Some? && done.value.Committed? ==>
              && spans != [] && OnlyReads(spans[..|spans| - 1]) && timedAt < |spans| - 1
              && Writes(spans[|spans| - 1], base, slot, m, expected, done.value.state, ttl)
    ensures !(done.Some? && done.value.Committed?) ==> OnlyReads(spans)
    ensures done != Some(GenerationChanged) ==>
              && |soFar| <= readAt < timedAt && Reads(spans, readAt, base, expected) && Times(spans, timedAt, slot)
              && (done == Some(Exception) <==> Raises(m))
    ensures done == Some(GenerationChanged) ==> !(Alive(redis.View(), redis.now) && redis.meta.value == expected)
    ensures done.Some? && done.value.NotChanged? ==> MessageState(base, slot, m).Unchanged?
    ensures done.None? ==>
              spans != [] && Refused(spans, Refusal(readAt, base, timedAt, slot, |spans| - 1), m, expected)
  {
    hide Written, MessageState, Matches, Chained, OnlyReads;
    base, slot, readAt, timedAt := InitialState(0), 0, 0, 0;
    ghost var gap := Meanwhile(redis);
    spans := Extend(soFar, start, gap);
    var snapshot := redis.GetRoomSnapshot();
    readAt, spans := |spans|, Extend(spans, start, Span(true, gap.after, redis.View(), redis.now));
    if snapshot.None? || snapshot.value.1 != expected {
      return Some(GenerationChanged), spans, base, slot, readAt, timedAt;
    }
    var state := new TimerState.Decode(snapshot.value.0);
    base := snapshot.value.0;
    var expectedRevision := state.revision;
    gap := Meanwhile(redis);
    spans := Extend(spans, start, gap);
    var currentSlot := Slot(redis.now);
    timedAt, spans := |spans|, Extend(spans, start, Span(true, gap.after, redis.View(), redis.now));
    slot := currentSlot;
    var raised, changed := ApplyMessage(state, currentSlot, m);
    RaisedByParser(base, currentSlot, m);
    if raised { return Some(Exception), spans, base, slot, readAt, timedAt; }
    if !changed { return Some(NotChanged(state.View())), spans, base, slot, readAt, timedAt; }
    gap := Meanwhile(redis);
    spans := Extend(spans, start, gap);
    var result := redis.CompareAndSetState(expectedRevision, expected, state.View(), ttl);
    spans := Extend(spans, start, Span(true, gap.after, redis.View(), redis.now));
    if result == 1 { return Some(Committed(state.View())), spans, base, slot, readAt, timedAt; }
    done := if result == -1 then Some(GenerationChanged) else None;
  }

  ghost function Extend(spans: seq<Span>, first: Keys, s: Span): (r: seq<Span>)
    requires Chained(spans, first, s.before)
    ensures |r| == |spans| + 1 && r[..|r| - 1] == spans && r[|r| - 1] == s
    ensures Chained(r, first, s.after)
    ensures OnlyReads(spans) && (s.mine ==> s.after == s.before) ==> OnlyReads(r)
  {
    ChainGrows(spans, first, s);
    assert (spans + [s])[..|spans|] == spans;
    spans + [s]
  }

  // ---------------------------------------------------------------- a tick

  /** Under what a tick works: who it is, its lease and the lifetimes it hands out. */
  datatype Grant = Grant(owner: nat, nonce: nat, lease: Lock, ttl: Ttl, lockTtl: Ttl)

  /** What a tick does to the room without a broadcast: read, extend lifetimes, take or close its lease. */
  predicate Harmless(s: Span, g: Grant) {
    || s.after == s.before
    || s.after == Refresh(s.before, s.now, g.ttl)
    || s.after == Acquire(s.before, s.now, g.owner, g.nonce, g.lockTtl)
    || s.after == CompleteLease(s.before, s.now, g.lease, g.lockTtl)
  }

  predicate AllHarmless(spans: seq<Span>, g: Grant) {
    spans != [] ==>
      var s := spans[|spans| - 1];
      && AllHarmless(spans[..|spans| - 1], g)
      && (s.mine ==> Harmless(s, g))
  }

  lemma {:induction false} ReadsAreHarmless(spans: seq<Span>, g: Grant)
    requires OnlyReads(spans)
    ensures AllHarmless(spans, g)
  {
    if spans != [] { ReadsAreHarmless(spans[..|spans| - 1], g); }
  }

  /** One more span, somebody else's or harmless. */
  ghost function ExtendHarmless(spans: seq<Span>, first: Keys, s: Span,
                                g: Grant): (r: seq<Span>)
    requires Chained(spans, first, s.before) && AllHarmless(spans, g)
    requires s.mine ==> Harmless(s, g)
    ensures Chained(r, first, s.after) && AllHarmless(r, g)
    ensures |r| == |spans| + 1 && r[..|r| - 1] == spans && r[|r| - 1] == s
  {
    Extend(spans, first, s)
  }

  /** None of these touches a stored value, the generation, or another task's lock. */
  lemma HarmlessKeepsRoom(s: Span, g: Grant)
    requires Harmless(s, g)
    ensures Get(s.after.state, s.now) == Get(s.before.state, s.now)
    ensures Get(s.after.meta, s.now) == Get(s.before.meta, s.now)
    ensures Members(s.after, s.now) == Members(s.before, s.now)
    ensures s.after.lock != s.before.lock ==>
              CanAcquire(s.before, s.now) || HoldsLease(s.before, s.now, g.lease)
  {
  }

  /** The span of a fenced commit: the lease was still the tick's own, and is closed with it. */
  predicate Ticks(s: Span, base: State, lease: Lock, connected: bool, sky: Sky, gen: Gen, state: State,
                  ttl: Ttl, lockTtl: Ttl)
  {
    && s.mine && lease.Running? && Some(state) == TickState(base, lease.slot, connected, sky)
    && CanCommitTick(s.before, s.now, lease, base.revision, gen)
    && s.after == CommitTick(s.before, s.now, lease, base.revision, gen, state, ttl, lockTtl)
  }

  /** The last thing done was to give the lease back. */
  predicate GivesBack(spans: seq<Span>, lease: Lock, lockTtl: Ttl) {
    spans != [] && var s := spans[|spans| - 1]; s.mine && s.after == CompleteLease(s.before, s.now, lease, lockTtl)
  }

  /** Span number `i` is where the tick took that lease. */
  predicate Takes(spans: seq<Span>, i: nat, lease: Lock, owner: nat, nonce: nat, lockTtl: Ttl) {
    && i < |spans| && spans[i].mine && CanAcquire(spans[i].before, spans[i].now)
    && lease == LeaseOf(spans[i].now, owner, nonce)
    && spans[i].after == Acquire(spans[i].before, spans[i].now, owner, nonce, lockTtl)
  }

  /** Why a tick broadcasts nothing. */
  datatype Quiet =
    | Vanished
    | Unwanted
    | Busy
    | Settled
    | Overtaken

  /** Span number `at` shows it: the room was gone when it was read, nobody wanted an idle room ticked, no
      lease was to be had, the snapshot had nothing to broadcast, or the fenced commit was refused. */
  predicate Shows(spans: seq<Span>, at: nat, why: Quiet, lease: Option<Lock>, base: State, gen: Gen,
                  wanted: bool, connected: bool, sky: Sky)
  {
    at < |spans| && spans[at].mine &&
    var s := spans[at];
    match why
    case Vanished => !Alive(s.before, s.now)
    case Unwanted => lease.None? && !wanted && Alive(s.before, s.now) && !Advancing(s.before.state.value.clock)
    case Busy => lease.None? && !CanAcquire(s.before, s.now)
    case Settled => lease.Some? && Reads(spans, at, base, gen) && TickState(base, lease.value.slot, connected, sky).None?
    case Overtaken =>
      && lease.Some? && TickState(base, lease.value.slot, connected, sky).Some?
      && !CanCommitTick(s.before, s.now, lease.value, base.revision, gen)
  }

  /** Where somebody still wants the room, a quiet tick extends its life after looking at it. */
  predicate Prolongs(spans: seq<Span>, at: nat, ttl: Ttl) {
    exists i: nat :: at < i < |spans| && spans[i].mine && spans[i].after == Refresh(spans[i].before, spans[i].now, ttl)
  }

  /** The finally clause: give the lease back if it is still held. */
  method Release(redis: RedisRoom, lease: Lock, lockTtl: Ttl, ghost spans: seq<Span>, ghost start: Keys, ghost g: Grant)
    returns (ghost longer: seq<Span>)
    requires Chained(spans, start, redis.View()) && AllHarmless(spans, g) && g.lease == lease && g.lockTtl == lockTtl
    modifies redis
    ensures old(redis.now) <= redis.now && Chained(longer, start, redis.View())
    ensures GivesBack(longer, lease, lockTtl) && AllHarmless(longer, g)
    ensures |spans| <= |longer| && longer[..|spans|] == spans
  {
    ghost var gap := Meanwhile(redis);
    longer := ExtendHarmless(spans, start, gap, g);
    var done := redis.CompleteTickLease(lease, lockTtl);
    longer := ExtendHarmless(longer, start, Span(true, gap.after, redis.View(), redis.now), g);
  }

  /** A fenced commit, and the lease back if it is refused. */
  method CommitOrRelease(redis: RedisRoom, lease: Lock, base: State, gen: Gen, state: State, ttl: Ttl, lockTtl: Ttl,
                         ghost soFar: seq<Span>, ghost start: Keys, ghost g: Grant)
    returns (ok: bool, ghost spans: seq<Span>, ghost at: nat)
    requires Chained(soFar, start, redis.View()) && AllHarmless(soFar, g) && lease.Running?
    requires g.lease == lease && g.ttl == ttl && g.lockTtl == lockTtl
    modifies redis
    ensures old(redis.now) <= redis.now && Chained(spans, start, redis.View()) && soFar <= spans
    ensures ok ==>
              && |soFar| < |spans| && AllHarmless(spans[..|spans| - 1], g)
              && var s := spans[|spans| - 1];
                 && s.mine && CanCommitTick(s.before, s.now, lease, base.revision, gen)
                 && s.after == CommitTick(s.before, s.now, lease, base.revision, gen, state, ttl, lockTtl)
    ensures !ok ==> AllHarmless(spans, g) && GivesBack(spans, lease, lockTtl)
    ensures !ok ==> |soFar| <= at < |spans| && spans[at].mine
                    && !CanCommitTick(spans[at].before, spans[at].now, lease, base.revision, gen)
  {
    hide Chained, AllHarmless, GivesBack;
    ghost var gap := Meanwhile(redis);
    spans := ExtendHarmless(soFar, start, gap, g);
    at := |spans|;
    var result := redis.CommitTickState(lease, base.revision, gen, state, ttl, lockTtl);
    ghost var span := Span(true, gap.after, redis.View(), redis.now);
    ok := result == 1;
    if ok {
      spans := Extend(spans, start, span);
    } else {
      spans := ExtendHarmless(spans, start, span, g);
      spans := Release(redis, lease, lockTtl, spans, start, g);
    }
  }

  /** The lifetimes extended where somebody still wants the room, and the lease back. */
  method RefreshAndRelease(redis: RedisRoom, lease: Lock, wanted: bool, ttl: Ttl, lockTtl: Ttl,
                           ghost soFar: seq<Span>, ghost start: Keys, ghost g: Grant)
    returns (ghost spans: seq<Span>)
    requires Chained(soFar, start, redis.View()) && AllHarmless(soFar, g)
    requires g.lease == lease && g.ttl == ttl && g.lockTtl == lockTtl
    modifies redis
    ensures old(redis.now) <= redis.now && Chained(spans, start, redis.View()) && soFar <= spans
    ensures AllHarmless(spans, g) && GivesBack(spans, lease, lockTtl)
    ensures wanted && soFar != [] ==> Prolongs(spans, |soFar| - 1, ttl)
  {
    hide Chained, AllHarmless, GivesBack;
    spans := soFar;
    ghost var i := 0;
    if wanted {
      ghost var gap := Meanwhile(redis);
      spans := ExtendHarmless(spans, start, gap, g);
      i := |spans|;
      var refreshed := redis.RefreshRoomTtl(ttl);
      spans := ExtendHarmless(spans, start, Span(true, gap.after, redis.View(), redis.now), g);
    }
    ghost var before := spans;
    spans := Release(redis, lease, lockTtl, spans, start, g);
    assert wanted ==> spans[i] == before[i];
  }

  /** What a tick does once it holds its lease, up to giving it back. */
  method TickUnderLease(redis: RedisRoom, lease: Lock, connected: bool, sky: Sky, ttl: Ttl, lockTtl: Ttl,
                        ghost soFar: seq<Span>, ghost start: Keys, ghost g: Grant)
    returns (ok: bool, broadcast: Option<State>,
             ghost spans: seq<Span>, ghost base: State, ghost gen: Gen, ghost readAt: nat, ghost why: Quiet, ghost at: nat)
    requires Chained(soFar, start, redis.View()) && AllHarmless(soFar, g) && lease.Running?
    requires g.lease == lease && g.ttl == ttl && g.lockTtl == lockTtl
    modifies redis
    ensures old(redis.now) <= redis.now && (broadcast.Some? ==> ok)
    ensures Chained(spans, start, redis.View()) && soFar <= spans
    ensures broadcast.Some? ==>
              && |soFar| <= readAt < |spans| - 1 && Reads(spans, readAt, base, gen)
              && AllHarmless(spans[..|spans| - 1], g)
              && Ticks(spans[|spans| - 1], base, lease, connected, sky, gen, broadcast.value, ttl, lockTtl)
    ensures broadcast.None? ==> AllHarmless(spans, g) && GivesBack(spans, lease, lockTtl)
    ensures ok <==> broadcast.Some? || why.Settled?
    ensures broadcast.None? ==> Shows(spans, at, why, Some(lease), base, gen, true, connected, sky)
    ensures broadcast.None? && !why.Vanished? ==> |soFar| <= readAt <= at && Reads(spans, readAt, base, gen)
    ensures broadcast.None? && why.Settled? && (connected || Advancing(base.clock)) ==> Prolongs(spans, readAt, ttl)
  {
    hide Chained, AllHarmless, GivesBack, TickState, CommitTick, CanCommitTick;
    base, gen, spans, readAt, why, at := InitialState(0), 0, soFar, 0, Vanished, 0;
    ok, broadcast := false, None;
    ghost var gap := Meanwhile(redis);
    spans := ExtendHarmless(spans, start, gap, g);
    var snapshot := redis.GetRoomSnapshot();
    readAt, spans := |spans|, ExtendHarmless(spans, start, Span(true, gap.after, redis.View(), redis.now), g);
    at := readAt;
    ghost var soRead := spans;
    if snapshot.None? {
      spans := Release(redis, lease, lockTtl, spans, start, g);
      assert spans[at] == soRead[at];
      return;
    }
    var state := new TimerState.Decode(snapshot.value.0);
    base, gen := snapshot.value.0, snapshot.value.1;
    var advancing := Advancing(state.ViewClock());
    var needsBroadcast := ApplyTick(state, lease.slot, connected, sky);
    if needsBroadcast {
      var next := state.View();
      ok, spans, at :=
        CommitOrRelease(redis, lease, snapshot.value.0, snapshot.value.1, next, ttl, lockTtl, spans, start, g);
      broadcast, why := if ok then Some(next) else None, Overtaken;
    } else {
      spans := RefreshAndRelease(redis, lease, connected || advancing, ttl, lockTtl, spans, start, g);
      ok, why := true, Settled;
    }
    assert spans[readAt] == soRead[readAt];
  }

  /** One tick. A broadcast follows exactly one commit, of the effect on the snapshot read by span
      `readAt` under the lease taken by the earlier span `takenAt`; every other Redis call is
      harmless; a lease that was taken is closed by the commit or given back. */
  method TickRoom(redis: RedisRoom, connectedAtFirst: bool, connected: bool, sky: Sky,
                  owner: nat, nonce: nat, ttl: Ttl, lockTtl: Ttl)
    returns (ok: bool, broadcast: Option<State>,
             ghost spans: seq<Span>, ghost base: State, ghost lease: Option<Lock>, ghost gen: Gen,
             ghost takenAt: nat, ghost readAt: nat, ghost why: Quiet, ghost at: nat)
    modifies redis
    ensures old(redis.now) <= redis.now && (broadcast.Some? ==> ok && lease.Some?)
    ensures Chained(spans, old(redis.View()), redis.View())
    ensures lease.Some? ==> Takes(spans, takenAt, lease.value, owner, nonce, lockTtl)
    ensures broadcast.Some? ==>
              && takenAt < readAt < |spans| - 1 && Reads(spans, readAt, base, gen)
              && AllHarmless(spans[..|spans| - 1], Grant(owner, nonce, lease.value, ttl, lockTtl))
              && Ticks(spans[|spans| - 1], base, lease.value, connected, sky, gen, broadcast.value, ttl, lockTtl)
    ensures broadcast.None? && lease.Some? ==>
              && AllHarmless(spans, Grant(owner, nonce, lease.value, ttl, lockTtl))
              && GivesBack(spans, lease.value, lockTtl)
    ensures lease.None? ==> OnlyReads(spans)
    ensures ok <==> broadcast.Some? || why.Unwanted? || why.Settled?
    ensures broadcast.None? ==> Shows(spans, at, why, lease, base, gen, connectedAtFirst, connected, sky)
    ensures broadcast.None? && (why.Settled? || why.Overtaken?) ==>
              takenAt < readAt <= at && Reads(spans, readAt, base, gen)
    ensures broadcast.None? && why.Settled? && (connected || Advancing(base.clock)) ==> Prolongs(spans, readAt, ttl)
  {
    base, lease, gen, spans, takenAt, readAt, why, at := InitialState(0), None, 0, [], 0, 0, Vanished, 0;
    ok, broadcast := false, None;
    ghost var start := redis.View();
    ghost var gap := Meanwhile(redis);
    spans := Extend(spans, start, gap);
    var preliminary := redis.GetRoomSnapshot();
    at, spans := |spans|, Extend(spans, start, Span(true, gap.after, redis.View(), redis.now));
    if preliminary.None? { return; }
    if !connectedAtFirst && !Advancing(preliminary.value.0.clock) { ok, why := true, Unwanted; return; }
    gap := Meanwhile(redis);
    spans := Extend(spans, start, gap);
    var tickLease := redis.AcquireTickLease(owner, nonce, lockTtl);
    ghost var soFar := spans;
    at, why, spans := |spans|, Busy, Extend(spans, start, Span(true, gap.after, redis.View(), redis.now));
    if tickLease.None? { return; }
    hide Chained, AllHarmless, OnlyReads, Ticks, GivesBack;
    lease := tickLease;
    ghost var grant := Grant(owner, nonce, lease.value, ttl, lockTtl);
    ReadsAreHarmless(soFar, grant);
    takenAt, spans := |soFar|, ExtendHarmless(soFar, start, Span(true, gap.after, redis.View(), redis.now), grant);
    ok, broadcast, spans, base, gen, readAt, why, at :=
      TickUnderLease(redis, tickLease.value, connected, sky, ttl, lockTtl, spans, start, grant);
  }
}

/**
 The Redis keys of a room and the Lua scripts of backend/room_store.py.

 Every script is one atomic step. `Keys` holds the four keys of one room, each with its expiry
 in milliseconds; `RedisRoom` runs the scripts on them command by command and is proved to do
 what the functions on `Keys` say. The theorems are about any run of those functions.
 */
module RoomStore {
  import opened Common
  import opened Timer

  const MAX_ROOM_TOKENS := 256

  type RoomId = string
  type Gen = nat
  type Ttl = n: nat | n >= 1 witness 1

  /** A token hash is scoped by the room generation it was issued for. */
  datatype Token = Token(gen: Gen, secret: nat)

  datatype Lock = Running(slot: int, owner: nat, nonce: nat) | Done(slot: int)

  datatype Entry<+T> = Absent | Held(value: T, expiry: nat)

  datatype Keys = Keys(state: Entry<State>, meta: Entry<Gen>, tokens: Entry<set<Token>>, lock: Entry<Lock>)

  const NO_KEYS := Keys(Absent, Absent, Absent, Absent)

  /** GET: a key is gone once the clock has passed its expiry. */
  function Get<T>(e: Entry<T>, now: nat): Option<T> {
    if e.Held? && now <= e.expiry then Some(e.value) else None
  }

  /** SET ... EX. */
  function Put<T>(v: T, now: nat, ttl: Ttl): Entry<T> {
    Held(v, now + 1000 * ttl)
  }

  /** EXPIRE, which leaves a missing key missing. */
  function Expire<T>(e: Entry<T>, now: nat, ttl: Ttl): Entry<T> {
    if Get(e, now).Some? then Held(e.value, now + 1000 * ttl) else e
  }

  function Slot(now: nat): nat { now / 1000 }

  predicate Alive(k: Keys, now: nat) {
    Get(k.state, now).Some? && Get(k.meta, now).Some?
  }

  // ---------------------------------------------------------------- scripts on one room

  function LeaseOf(now: nat, owner: nat, nonce: nat): Lock { Running(Slot(now), owner, nonce) }

  predicate CanAcquire(k: Keys, now: nat) {
    var current := Get(k.lock, now);
    current.None? || (current.value.Done? && current.value.slot != Slot(now))
  }

  function Acquire(k: Keys, now: nat, owner: nat, nonce: nat, ttl: Ttl): Keys {
    if CanAcquire(k, now) then k.(lock := Put(LeaseOf(now, owner, nonce), now, ttl)) else k
  }

  predicate HoldsLease(k: Keys, now: nat, lease: Lock) {
    lease.Running? && Get(k.lock, now) == Some(lease)
  }

  function CompleteLease(k: Keys, now: nat, lease: Lock, ttl: Ttl): Keys {
    if HoldsLease(k, now, lease) then k.(lock := Put(Done(lease.slot), now, ttl)) else k
  }

  /** The room is alive, of this generation and at this revision. */
  predicate Matches(k: Keys, now: nat, revision: int, gen: Gen) {
    Alive(k, now) && k.meta.value == gen && k.state.value.revision == revision
  }

  predicate CanCommitTick(k: Keys, now: nat, lease: Lock, revision: int, gen: Gen) {
    HoldsLease(k, now, lease) && Matches(k, now, revision, gen)
  }

  function Written(k: Keys, now: nat, state: State, ttl: Ttl): Keys {
    k.(state := Put(state, now, ttl), meta := Expire(k.meta, now, ttl), tokens := Expire(k.tokens, now, ttl))
  }

  function CommitTick(k: Keys, now: nat, lease: Lock, revision: int, gen: Gen, state: State, ttl: Ttl,
                      lockTtl: Ttl): Keys {
    if CanCommitTick(k, now, lease, revision, gen)
    then Written(k, now, state, ttl).(lock := Put(Done(lease.slot), now, lockTtl))
    else k
  }

  function CompareAndSet(k: Keys, now: nat, revision: int, gen: Gen, state: State, ttl: Ttl): Keys {
    if Matches(k, now, revision, gen) then Written(k, now, state, ttl) else k
  }

  function Refresh(k: Keys, now: nat, ttl: Ttl): Keys {
    if Alive(k, now)
    then k.(state := Expire(k.state, now, ttl), meta := Expire(k.meta, now, ttl), tokens := Expire(k.tokens, now, ttl))
    else k
  }

  function Members(k: Keys, now: nat): set<Token> {
    Get(k.tokens, now).GetOr({})
  }

  predicate CanIssue(k: Keys, now: nat, gen: Gen, token: Token) {
    && Alive(k, now) && k.meta.value == gen
    && (token in Members(k, now) || |Members(k, now)| < MAX_ROOM_TOKENS)
  }

  function Issue(k: Keys, now: nat, gen: Gen, token: Token, ttl: Ttl): Keys {
    if CanIssue(k, now, gen, token)
    then k.(state := Expire(k.state, now, ttl), meta := Expire(k.meta, now, ttl),
            tokens := Put(Members(k, now) + {token}, now, ttl))
    else k
  }

  predicate CanAuthorize(k: Keys, now: nat, gen: Gen, token: Token) {
    Alive(k, now) && k.meta.value == gen && token in Members(k, now)
  }

  function Authorize(k: Keys, now: nat, gen: Gen, token: Token, ttl: Ttl): Keys {
    if CanAuthorize(k, now, gen, token) then Refresh(k, now, ttl) else k
  }

  /** Creating a room drops the tokens and the tick lock of whatever had its name before. */
  function Created(now: nat, gen: Gen, state: State, ttl: Ttl): Keys {
    Keys(Put(state, now, ttl), Put(gen, now, ttl), Absent, Absent)
  }

  // ---------------------------------------------------------------- the scripts, command by command

  /** Redis as the scripts of one room see it: the shared index and the four keys of the room. */
  class RedisRoom {
    const id: RoomId
    var now: nat
    var index: set<RoomId>
    var state: Entry<State>
    var meta: Entry<Gen>
    var tokens: Entry<set<Token>>
    var lock: Entry<Lock>

    constructor (id: RoomId, now: nat, index: set<RoomId>, k: Keys)
      ensures this.id == id && this.now == now && this.index == index && View() == k
    {
      this.id, this.now, this.index := id, now, index;
      state, meta, tokens, lock := k.state, k.meta, k.tokens, k.lock;
    }

    function View(): Keys
      reads this
    {
      Keys(state, meta, tokens, lock)
    }

    method AcquireTickLease(owner: nat, nonce: nat, ttl: Ttl) returns (lease: Option<Lock>)
      modifies this`lock
      ensures View() == Acquire(old(View()), now, owner, nonce, ttl)
      ensures lease == if CanAcquire(old(View()), now) then Some(LeaseOf(now, owner, nonce)) else None
    {
      var slot := Slot(now);
      var current := Get(lock, now);
      if current.Some? {
        if current.value.slot == slot || current.value.Running? { return None; }
        lock := Absent;
      }
      if Get(lock, now).Some? { return None; }
      lock := Put(Running(slot, owner, nonce), now, ttl);
      return Some(Running(slot, owner, nonce));
    }

    method CompleteTickLease(lease: Lock, ttl: Ttl) returns (done: bool)
      modifies this`lock
      ensures View() == CompleteLease(old(View()), now, lease, ttl)
      ensures done <==> HoldsLease(old(View()), now, lease)
    {
      if Get(lock, now) != Some(lease) { return false; }
      if !lease.Running? { return false; }
      lock := Put(Done(lease.slot), now, ttl);
      return true;
    }

    /** 1: committed, 0: the lease or the revision has moved on, -1: another generation. */
    method CommitTickState(lease: Lock, revision: int, gen: Gen, next: State, ttl: Ttl, lockTtl: Ttl)
      returns (result: int)
      modifies this`state, this`meta, this`tokens, this`lock
      ensures View() == CommitTick(old(View()), now, lease, revision, gen, next, ttl, lockTtl)
      ensures result == 1 <==> CanCommitTick(old(View()), now, lease, revision, gen)
      ensures result == -1 <==>
              && Get(old(lock), now) == Some(lease)
              && !(Alive(old(View()), now) && old(meta).value == gen)
    {
      if Get(lock, now) != Some(lease) { return 0; }
      var encodedState, encodedMeta := Get(state, now), Get(meta, now);
      if encodedState.None? || encodedMeta.None? { return -1; }
      if encodedMeta.value != gen { return -1; }
      if encodedState.value.revision != revision { return 0; }
      if !lease.Running? { return 0; }
      state := Put(next, now, ttl);
      meta := Expire(meta, now, ttl);
      if Get(tokens, now).Some? { tokens := Expire(tokens, now, ttl); }
      lock := Put(Done(lease.slot), now, lockTtl);
      return 1;
    }

    method CompareAndSetState(revision: int, gen: Gen, next: State, ttl: Ttl) returns (result: int)
      modifies this`state, this`meta, this`tokens
      ensures View() == CompareAndSet(old(View()), now, revision, gen, next, ttl)
      ensures result == 1 <==> Matches(old(View()), now, revision, gen)
      ensures result == -1 <==> !(Alive(old(View()), now) && old(meta).value == gen)
    {
      var encodedState, encodedMeta := Get(state, now), Get(meta, now);
      if encodedState.None? || encodedMeta.None? { return -1; }
      if encodedMeta.value != gen { return -1; }
      if encodedState.value.revision != revision { return 0; }
      state := Put(next, now, ttl);
      meta := Expire(meta, now, ttl);
      if Get(tokens, now).Some? { tokens := Expire(tokens, now, ttl); }
      return 1;
    }

    method RefreshRoomTtl(ttl: Ttl) returns (refreshed: bool)
      modifies this`state, this`meta, this`tokens
      ensures View() == Refresh(old(View()), now, ttl)
      ensures refreshed <==> Alive(old(View()), now)
    {
      if Get(state, now).None? || Get(meta, now).None? { return false; }
      state := Expire(state, now, ttl);
      meta := Expire(meta, now, ttl);
      if Get(tokens, now).Some? { tokens := Expire(tokens, now, ttl); }
      return true;
    }

    /** 1: created, -1: the room exists, -2: the index is full. */
    method CreateRoom(gen: Gen, initial: State, ttl: Ttl, maxRooms: nat) returns (result: int)
      modifies this`index, this`state, this`meta, this`tokens, this`lock
      ensures result == -1 <==> Get(old(state), now).Some? || Get(old(meta), now).Some?
      ensures result == -1 ==> View() == old(View()) && index == old(index)
      ensures result == -2 ==> View() == old(View()) && index == old(index) - {id} && |index| >= maxRooms
      ensures result in {1, -1, -2}
      ensures result == 1 ==>
                && View() == Created(now, gen, initial, ttl)
                && index == old(index) + {id} && |old(index) - {id}| < maxRooms
    {
      if Get(state, now).Some? || Get(meta, now).Some? { return -1; }
      index := index - {id};
      if |index| >= maxRooms { return -2; }
      tokens := Absent;
      lock := Absent;
      state := Put(initial, now, ttl);
      meta := Put(gen, now, ttl);
      index := index + {id};
      return 1;
    }

    method PruneExpired() returns (pruned: bool)
      modifies this`index
      ensures pruned <==> Get(state, now).None? && Get(meta, now).None?
      ensures index == if pruned then old(index) - {id} else old(index)
    {
      if Get(state, now).None? && Get(meta, now).None? {
        index := index - {id};
        return true;
      }
      return false;
    }

    /** 1: issued, -1: another generation, -2: too many tokens. */
    method IssueRoomToken(gen: Gen, token: Token, ttl: Ttl) returns (result: int)
      modifies this`state, this`meta, this`tokens
      ensures View() == Issue(old(View()), now, gen, token, ttl)
      ensures result == 1 <==> CanIssue(old(View()), now, gen, token)
      ensures result == -1 <==> !(Alive(old(View()), now) && old(meta).value == gen)
    {
      if Get(meta, now).None? || Get(state, now).None? { return -1; }
      if meta.value != gen { return -1; }
      var members := Members(View(), now);
      if token !in members {
        if |members| >= MAX_ROOM_TOKENS { return -2; }
        tokens := Held(members + {token}, if Get(tokens, now).Some? then tokens.expiry else now);
      }
      assert Members(View(), now) == members + {token};
      meta := Expire(meta, now, ttl);
      state := Expire(state, now, ttl);
      tokens := Expire(tokens, now, ttl);
      return 1;
    }

    method AuthorizeRoomToken(gen: Gen, token: Token, ttl: Ttl) returns (found: Option<State>)
      modifies this`state, this`meta, this`tokens
      ensures View() == Authorize(old(View()), now, gen, token, ttl)
      ensures found == if CanAuthorize(old(View()), now, gen, token) then Some(old(state).value) else None
    {
      if Get(meta, now).None? || Get(state, now).None? { return None; }
      if meta.value != gen { return None; }
      if token !in Members(View(), now) { return None; }
      found := Some(state.value);
      meta := Expire(meta, now, ttl);
      state := Expire(state, now, ttl);
      tokens := Expire(tokens, now, ttl);
    }

    method GetRoomSnapshot() returns (snapshot: Option<(State, Gen)>)
      ensures snapshot.Some? <==> Alive(View(), now)
      ensures snapshot.Some? ==> snapshot.value == (state.value, meta.value)
    {
      var encodedState, encodedMeta := Get(state, now), Get(meta, now);
      if encodedState.None? || encodedMeta.None? { return None; }
      return Some((encodedState.value, encodedMeta.value));
    }
  }

  // ---------------------------------------------------------------- coupled lifetimes

  /** State and metadata live and die together, and so does a token set, whose tokens all belong
      to the generation in the metadata. */
  predicate Coupled(k: Keys) {
    && (k.state.Held? <==> k.meta.Held?)
    && (k.state.Held? ==> k.state.expiry == k.meta.expiry)
    && (k.tokens.Held? ==>
          && k.state.Held? && k.tokens.expiry == k.state.expiry
          && 1 <= |k.tokens.value| <= MAX_ROOM_TOKENS
          && forall t :: t in k.tokens.value ==> t.gen == k.meta.value)
  }

  /** Whatever the clock says, no half of a room is left, and no credential outlives it. */
  lemma NoHalfRoom(k: Keys, now: nat)
    requires Coupled(k)
    ensures Get(k.state, now).Some? <==> Get(k.meta, now).Some?
    ensures Members(k, now) != {} ==> Alive(k, now)
    ensures Alive(k, now) && k.tokens.Held? ==> Members(k, now) == k.tokens.value
  {
  }

  // ---------------------------------------------------------------- every room, any interleaving

  datatype Db = Db(now: nat, index: set<RoomId>, rooms: map<RoomId, Keys>)

  datatype Op =
    | OpAcquire(owner: nat, nonce: nat, lockTtl: Ttl)
    | OpComplete(lease: Lock, lockTtl: Ttl)
    | OpCommitTick(lease: Lock, revision: int, gen: Gen, next: State, ttl: Ttl, lockTtl: Ttl)
    | OpCompareAndSet(revision: int, gen: Gen, next: State, ttl: Ttl)
    | OpRefresh(ttl: Ttl)
    | OpIssue(gen: Gen, secret: nat, ttl: Ttl)
    | OpAuthorize(gen: Gen, secret: nat, ttl: Ttl)

  datatype Command =
    | Wait(ms: nat)
    | Create(room: RoomId, gen: Gen, initial: State, ttl: Ttl)
    | Prune(room: RoomId)
    | On(room: RoomId, op: Op)

  function Do(k: Keys, now: nat, op: Op): Keys {
    match op
    case OpAcquire(owner, nonce, lockTtl) => Acquire(k, now, owner, nonce, lockTtl)
    case OpComplete(lease, lockTtl) => CompleteLease(k, now, lease, lockTtl)
    case OpCommitTick(lease, rev, gen, next, ttl, lockTtl) => CommitTick(k, now, lease, rev, gen, next, ttl, lockTtl)
    case OpCompareAndSet(rev, gen, next, ttl) => CompareAndSet(k, now, rev, gen, next, ttl)
    case OpRefresh(ttl) => Refresh(k, now, ttl)
    case OpIssue(gen, secret, ttl) => Issue(k, now, gen, Token(gen, secret), ttl)
    case OpAuthorize(gen, secret, ttl) => Authorize(k, now, gen, Token(gen, secret), ttl)
  }

  function KeysOf(d: Db, room: RoomId): Keys {
    if room in d.rooms then d.rooms[room] else NO_KEYS
  }

  predicate Exists(k: Keys, now: nat) {
    Get(k.state, now).Some? || Get(k.meta, now).Some?
  }

  function Execute(d: Db, c: Command, maxRooms: nat): Db {
    match c
    case Wait(ms) => d.(now := d.now + ms)
    case Create(room, gen, initial, ttl) =>
      if Exists(KeysOf(d, room), d.now) then d
      else if |d.index - {room}| >= maxRooms then d.(index := d.index - {room})
      else d.(index := d.index + {room}, rooms := d.rooms[room := Created(d.now, gen, initial, ttl)])
    case Prune(room) =>
      if Exists(KeysOf(d, room), d.now) then d else d.(index := d.index - {room})
    case On(room, op) => d.(rooms := d.rooms[room := Do(KeysOf(d, room), d.now, op)])
  }

  function ExecuteAll(d: Db, cs: seq<Command>, maxRooms: nat): Db {
    if cs == [] then d
    else Execute(ExecuteAll(d, cs[..|cs| - 1], maxRooms), cs[|cs| - 1], maxRooms)
  }

  predicate Healthy(d: Db, maxRooms: nat) {
    && |d.index| <= maxRooms
    && (forall r :: r in d.rooms ==> Coupled(d.rooms[r]))
    && (forall r :: r in d.rooms && Exists(d.rooms[r], d.now) ==> r in d.index)
  }

  lemma ScriptsKeepCoupled(k: Keys, now: nat, op: Op)
    requires Coupled(k)
    ensures Coupled(Do(k, now, op))
    ensures Exists(Do(k, now, op), now) ==> Exists(k, now)
  {
    if op.OpIssue? && CanIssue(k, now, op.gen, Token(op.gen, op.secret)) {
      var members, t := Members(k, now), Token(op.gen, op.secret);
      if t in members {
        assert members + {t} == members;
      } else {
        assert |members + {t}| == |members| + 1;
      }
    }
  }

  lemma CreateKeepsHealthy(d: Db, c: Command, maxRooms: nat)
    requires Healthy(d, maxRooms) && c.Create?
    ensures Healthy(Execute(d, c, maxRooms), maxRooms)
  {
    Shrinks(d.index, c.room);
    var d' := Execute(d, c, maxRooms);
    if !Exists(KeysOf(d, c.room), d.now) && |d.index - {c.room}| < maxRooms {
      assert d'.index == (d.index - {c.room}) + {c.room};
      assert |d'.index| == |d.index - {c.room}| + 1;
      forall r | r in d'.rooms
        ensures Coupled(d'.rooms[r]) && (Exists(d'.rooms[r], d'.now) ==> r in d'.index)
      {
        assert r != c.room ==> r in d.rooms;
      }
    }
  }

  lemma ScriptKeepsHealthy(d: Db, c: Command, maxRooms: nat)
    requires Healthy(d, maxRooms) && c.On?
    ensures Healthy(Execute(d, c, maxRooms), maxRooms)
  {
    var d' := Execute(d, c, maxRooms);
    ScriptsKeepCoupled(KeysOf(d, c.room), d.now, c.op);
    forall r | r in d'.rooms
      ensures Coupled(d'.rooms[r]) && (Exists(d'.rooms[r], d'.now) ==> r in d'.index)
    {
      assert r != c.room ==> r in d.rooms;
    }
  }

  lemma CommandKeepsHealthy(d: Db, c: Command, maxRooms: nat)
    requires Healthy(d, maxRooms)
    ensures Healthy(Execute(d, c, maxRooms), maxRooms)
  {
    match c
    case Wait(ms) =>
      forall r | r in d.rooms && Exists(d.rooms[r], d.now + ms) ensures Exists(d.rooms[r], d.now) {}
    case Create(_, _, _, _) => CreateKeepsHealthy(d, c, maxRooms);
    case Prune(room) => Shrinks(d.index, room);
    case On(_, _) => ScriptKeepsHealthy(d, c, maxRooms);
  }

  lemma Shrinks(s: set<RoomId>, r: RoomId)
    ensures |s - {r}| <= |s|
  {
    if r in s { assert s == (s - {r}) + {r}; } else { assert s - {r} == s; }
  }

  /** From an empty Redis, whatever creates, prunes, scripts and expiries race: the index is never
      over capacity, every live room is in it, state, metadata and tokens of a room expire as one,
      and a room holds at most 256 tokens, all of its own generation. */
  lemma {:induction false} CapacityAndLifetimes(cs: seq<Command>, maxRooms: nat, room: RoomId)
    ensures var d := ExecuteAll(Db(0, {}, map[]), cs, maxRooms);
            var k := KeysOf(d, room);
            && Healthy(d, maxRooms)
            && (Get(k.state, d.now).Some? <==> Get(k.meta, d.now).Some?)
            && (Alive(k, d.now) ==> room in d.index && k.state.expiry == k.meta.expiry)
            && (Members(k, d.now) != {} ==> Alive(k, d.now) && k.tokens.expiry == k.state.expiry)
            && |Members(k, d.now)| <= MAX_ROOM_TOKENS
            && (forall t :: t in Members(k, d.now) ==> t.gen == k.meta.value)
  {
    HealthyAlways(cs, maxRooms);
    var db := ExecuteAll(Db(0, {}, map[]), cs, maxRooms);
    NoHalfRoom(KeysOf(db, room), db.now);
  }

  lemma {:induction false} HealthyAlways(cs: seq<Command>, maxRooms: nat)
    ensures Healthy(ExecuteAll(Db(0, {}, map[]), cs, maxRooms), maxRooms)
  {
    if cs != [] {
      HealthyAlways(cs[..|cs| - 1], maxRooms);
      CommandKeepsHealthy(ExecuteAll(Db(0, {}, map[]), cs[..|cs| - 1], maxRooms), cs[|cs| - 1], maxRooms);
    }
  }

  // ---------------------------------------------------------------- counting rooms

  function LiveIndex(d: Db, index: set<RoomId>): set<RoomId> {
    set r | r in index && Exists(KeysOf(d, r), d.now)
  }

  lemma OneMoreVisited(d: Db, members: set<RoomId>, room: RoomId)
    requires members <= d.index && room in members
    ensures LiveIndex(d, d.index - (members - {room}))
         == LiveIndex(d, d.index - members) + if Exists(KeysOf(d, room), d.now) then {room} else {}
  {
  }

  lemma PruneDead(d: Db, room: RoomId, maxRooms: nat)
    requires !Exists(KeysOf(d, room), d.now)
    ensures Execute(d, Prune(room), maxRooms) == d.(index := d.index - {room})
  {
  }

  lemma Moved<T>(a: set<T>, b: set<T>, x: T)
    requires a !! b && x in b
    ensures a + b - {x} == a + (b - {x}) && a + b == a + {x} + (b - {x})
    ensures a !! (b - {x}) && a + {x} !! (b - {x}) && |a + {x}| == |a| + 1
    ensures a + {} == a
  {
  }

  /** room_count: prunes every expired member it meets and counts the rest. */
  method RoomCount(d: Db, maxRooms: nat) returns (count: nat, after: Db)
    ensures after == d.(index := LiveIndex(d, d.index)) && count == |LiveIndex(d, d.index)|
  {
    after, count := d, 0;
    var members := d.index;
    ghost var counted: set<RoomId> := {};
    while members != {}
      invariant members <= d.index && after == d.(index := counted + members)
      invariant counted == LiveIndex(d, d.index - members) && counted !! members && count == |counted|
    {
      hide LiveIndex, Exists, Execute;
      var room :| room in members;
      OneMoreVisited(d, members, room);
      Moved(counted, members, room);
      if !Exists(KeysOf(after, room), after.now) { PruneDead(after, room, maxRooms); }
      members := members - {room};
      if !Exists(KeysOf(after, room), after.now) {
        after := Execute(after, Prune(room), maxRooms);
      } else {
        count := count + 1;
        counted := counted + {room};
      }
    }
    assert d.index - members == d.index;
  }

  /** In a healthy store that is the number of live rooms, neither more nor less. */
  lemma CountIsLiveRooms(d: Db, maxRooms: nat)
    requires Healthy(d, maxRooms)
    ensures LiveIndex(d, d.index) == set r | r in d.rooms && Alive(d.rooms[r], d.now)
    ensures Healthy(d.(index := LiveIndex(d, d.index)), maxRooms)
  {
    forall r ensures r in LiveIndex(d, d.index) <==> r in d.rooms && Alive(d.rooms[r], d.now) {
      if r in d.rooms { NoHalfRoom(d.rooms[r], d.now); }
    }
    Fewer(LiveIndex(d, d.index), d.index);
  }

  lemma Fewer(a: set<RoomId>, b: set<RoomId>)
    requires a <= b
    ensures |a| <= |b|
  {
    assert b == a + (b - a);
    assert |b| == |a| + |b - a|;
  }
}

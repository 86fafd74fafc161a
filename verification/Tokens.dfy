/**
 Who may enter a room, and how long a room lasts, read off the commands a Redis has executed since
 it was empty (the scripts of backend/room_store.py).
 */
module Tokens {
  import opened Common
  import opened Timer
  import opened RoomStore

  const EMPTY := Db(0, {}, map[])

  function After(cs: seq<Command>, maxRooms: nat): Db { ExecuteAll(EMPTY, cs, maxRooms) }

  function Init(cs: seq<Command>): seq<Command>
    requires cs != []
  {
    cs[..|cs| - 1]
  }

  function Last(cs: seq<Command>): Command
    requires cs != []
  {
    cs[|cs| - 1]
  }

  function Room(cs: seq<Command>, room: RoomId, maxRooms: nat): Keys { KeysOf(After(cs, maxRooms), room) }

  predicate Lives(cs: seq<Command>, room: RoomId, maxRooms: nat) {
    Alive(Room(cs, room, maxRooms), After(cs, maxRooms).now)
  }

  /** The generation of a live room. */
  function GenerationOf(cs: seq<Command>, room: RoomId, maxRooms: nat): Gen
    requires Lives(cs, room, maxRooms)
  {
    Room(cs, room, maxRooms).meta.value
  }

  /** The last command created the room: it was not there before, and is now. */
  predicate Creates(cs: seq<Command>, room: RoomId, maxRooms: nat)
    requires cs != []
  {
    && Last(cs).Create? && Last(cs).room == room
    && !Lives(Init(cs), room, maxRooms) && Lives(cs, room, maxRooms)
  }

  lemma StepIs(cs: seq<Command>, maxRooms: nat)
    requires cs != []
    ensures After(cs, maxRooms) == Execute(After(Init(cs), maxRooms), Last(cs), maxRooms)
  {
  }

  lemma CoupledAlways(cs: seq<Command>, room: RoomId, maxRooms: nat)
    ensures Coupled(Room(cs, room, maxRooms))
  {
    HealthyAlways(cs, maxRooms);
  }

  // ---------------------------------------------------------------- the tokens issued so far

  /** The tokens issued to a room since it was created. Issuing needs a live room of the token's
      generation, and a token not issued yet needs fewer than 256 issued ones. */
  function Issued(cs: seq<Command>, room: RoomId, maxRooms: nat): set<Token> {
    if cs == [] then {}
    else if Creates(cs, room, maxRooms) then {}
    else
      var before := Issued(Init(cs), room, maxRooms);
      before + (if Issues(cs, room, maxRooms, before) then {TokenOf(Last(cs))} else {})
  }

  predicate IsIssue(c: Command, room: RoomId) { c.On? && c.room == room && c.op.OpIssue? }

  function TokenOf(c: Command): Token
    requires c.On? && c.op.OpIssue?
  {
    Token(c.op.gen, c.op.secret)
  }

  predicate Issues(cs: seq<Command>, room: RoomId, maxRooms: nat, before: set<Token>)
    requires cs != []
  {
    && IsIssue(Last(cs), room)
    && Lives(Init(cs), room, maxRooms) && GenerationOf(Init(cs), room, maxRooms) == Last(cs).op.gen
    && (TokenOf(Last(cs)) in before || |before| < 256)
  }

  /** A live room admits exactly the tokens issued to it. */
  lemma {:induction false} MembersAreIssued(cs: seq<Command>, room: RoomId, maxRooms: nat)
    requires Lives(cs, room, maxRooms)
    ensures Members(Room(cs, room, maxRooms), After(cs, maxRooms).now) == Issued(cs, room, maxRooms)
    ensures forall t :: t in Issued(cs, room, maxRooms) ==> t.gen == GenerationOf(cs, room, maxRooms)
  {
    CoupledAlways(cs, room, maxRooms);
    if cs != [] {
      StepIs(cs, maxRooms);
      CoupledAlways(Init(cs), room, maxRooms);
      var d := After(Init(cs), maxRooms);
      StepMembers(d, Last(cs), room, maxRooms);
      hide ExecuteAll, After, Execute, Coupled, Members;
      if Lives(Init(cs), room, maxRooms) { MembersAreIssued(Init(cs), room, maxRooms); }
    }
  }

  /** One script: the members grow by an issued token, whoever else acts. */
  lemma ScriptMembers(k: Keys, now: nat, op: Op)
    requires Coupled(k) && Alive(Do(k, now, op), now)
    ensures Alive(k, now) && Do(k, now, op).meta.value == k.meta.value
    ensures Members(Do(k, now, op), now)
         == Members(k, now)
            + if op.OpIssue? && CanIssue(k, now, op.gen, Token(op.gen, op.secret)) then {Token(op.gen, op.secret)} else {}
  {
  }

  /** One command, on a room that is alive after it. */
  lemma StepMembers(d: Db, c: Command, room: RoomId, maxRooms: nat)
    requires Coupled(KeysOf(d, room)) && Alive(KeysOf(Execute(d, c, maxRooms), room), Execute(d, c, maxRooms).now)
    ensures var d' := Execute(d, c, maxRooms);
            var k, k' := KeysOf(d, room), KeysOf(d', room);
            if !Alive(k, d.now) then c.Create? && c.room == room && Members(k', d'.now) == {}
            else
              && k'.meta.value == k.meta.value
              && Members(k', d'.now) == Members(k, d.now)
                 + if IsIssue(c, room) && CanIssue(k, d.now, c.op.gen, TokenOf(c)) then {TokenOf(c)} else {}
  {
    var d' := Execute(d, c, maxRooms);
    if c.On? && c.room == room {
      hide Do, CanIssue, Coupled, Members;
      ScriptMembers(KeysOf(d, room), d.now, c.op);
    } else if c.Wait? {
      Older(KeysOf(d, room), d.now, c.ms);
    } else if !(c.Create? && c.room == room) {
      assert KeysOf(d', room) == KeysOf(d, room);
    }
  }

  lemma Older(k: Keys, now: nat, ms: nat)
    requires Coupled(k) && Alive(k, now + ms)
    ensures Alive(k, now) && Members(k, now + ms) == Members(k, now)
  {
  }

  // ---------------------------------------------------------------- who may enter

  /** Command number `i` issued this token. */
  predicate IssuedAt(cs: seq<Command>, i: nat, room: RoomId, token: Token, maxRooms: nat)
    requires i < |cs|
  {
    && IsIssue(cs[i], room) && TokenOf(cs[i]) == token
    && Issues(cs[..i + 1], room, maxRooms, Issued(cs[..i], room, maxRooms))
  }

  /** Command number `i` created the room. */
  predicate CreatedAt(cs: seq<Command>, i: nat, room: RoomId, maxRooms: nat)
    requires i < |cs|
  {
    Creates(cs[..i + 1], room, maxRooms)
  }

  predicate SameRoomSince(cs: seq<Command>, i: nat, room: RoomId, maxRooms: nat) {
    forall j: nat :: i <= j < |cs| ==> !CreatedAt(cs, j, room, maxRooms)
  }

  ghost predicate WasIssued(cs: seq<Command>, room: RoomId, token: Token, maxRooms: nat) {
    exists i: nat :: i < |cs| && IssuedAt(cs, i, room, token, maxRooms) && SameRoomSince(cs, i, room, maxRooms)
  }

  lemma EarlierCommands(cs: seq<Command>, i: nat, room: RoomId, token: Token, maxRooms: nat)
    requires cs != [] && i < |cs| - 1
    ensures IssuedAt(Init(cs), i, room, token, maxRooms) <==> IssuedAt(cs, i, room, token, maxRooms)
    ensures CreatedAt(Init(cs), i, room, maxRooms) <==> CreatedAt(cs, i, room, maxRooms)
  {
    assert Init(cs)[..i + 1] == cs[..i + 1] && Init(cs)[..i] == cs[..i];
  }

  lemma EarlierSameRoom(cs: seq<Command>, i: nat, room: RoomId, token: Token, maxRooms: nat)
    requires cs != [] && !Creates(cs, room, maxRooms) && i < |cs| - 1
    ensures SameRoomSince(Init(cs), i, room, maxRooms) <==> SameRoomSince(cs, i, room, maxRooms)
  {
    hide CreatedAt;
    forall j: nat | i <= j < |cs|
      ensures CreatedAt(cs, j, room, maxRooms) <==> j < |cs| - 1 && CreatedAt(Init(cs), j, room, maxRooms)
    {
      if j < |cs| - 1 {
        EarlierCommands(cs, j, room, token, maxRooms);
      } else {
        assert !CreatedAt(cs, j, room, maxRooms) by { assert cs[..j + 1] == cs; LastCreates(cs, room, maxRooms); }
      }
    }
  }

  lemma LastCreates(cs: seq<Command>, room: RoomId, maxRooms: nat)
    requires cs != []
    ensures CreatedAt(cs, |cs| - 1, room, maxRooms) <==> Creates(cs, room, maxRooms)
  {
    assert cs[..|cs|] == cs;
  }

  lemma IssuedEarlier(cs: seq<Command>, room: RoomId, token: Token, maxRooms: nat)
    requires cs != [] && !Creates(cs, room, maxRooms) && WasIssued(Init(cs), room, token, maxRooms)
    ensures WasIssued(cs, room, token, maxRooms)
  {
    hide IssuedAt, SameRoomSince, Creates;
    var i: nat :| i < |cs| - 1 && IssuedAt(Init(cs), i, room, token, maxRooms)
                  && SameRoomSince(Init(cs), i, room, maxRooms);
    EarlierCommands(cs, i, room, token, maxRooms);
    EarlierSameRoom(cs, i, room, token, maxRooms);
  }

  /** The last command matters only by creating the room or by issuing the token. */
  lemma WasIssuedNext(cs: seq<Command>, room: RoomId, token: Token, maxRooms: nat)
    requires cs != []
    ensures WasIssued(cs, room, token, maxRooms) <==>
            && !Creates(cs, room, maxRooms)
            && (WasIssued(Init(cs), room, token, maxRooms) || IssuedAt(cs, |cs| - 1, room, token, maxRooms))
  {
    hide IssuedAt, Creates, CreatedAt;
    var n := |cs| - 1;
    LastCreates(cs, room, maxRooms);
    if WasIssued(cs, room, token, maxRooms) {
      var i: nat :| i < |cs| && IssuedAt(cs, i, room, token, maxRooms) && SameRoomSince(cs, i, room, maxRooms);
      assert !CreatedAt(cs, n, room, maxRooms);
      if i < n {
        EarlierCommands(cs, i, room, token, maxRooms);
        EarlierSameRoom(cs, i, room, token, maxRooms);
      }
    } else if !Creates(cs, room, maxRooms) {
      if WasIssued(Init(cs), room, token, maxRooms) { IssuedEarlier(cs, room, token, maxRooms); }
      assert SameRoomSince(cs, n, room, maxRooms);
    }
  }

  lemma {:induction false} IssuedIff(cs: seq<Command>, room: RoomId, token: Token, maxRooms: nat)
    ensures token in Issued(cs, room, maxRooms) <==> WasIssued(cs, room, token, maxRooms)
  {
    if cs != [] {
      hide WasIssued, Creates, Issues;
      IssuedIff(Init(cs), room, token, maxRooms);
      WasIssuedNext(cs, room, token, maxRooms);
      assert cs[..|cs|] == cs;
    }
  }

  /** A token opens a room if and only if the room is alive in the generation asked for and some
      command has issued that very token since the room was created. */
  lemma OpensIffIssued(cs: seq<Command>, room: RoomId, gen: Gen, token: Token, maxRooms: nat)
    ensures CanAuthorize(Room(cs, room, maxRooms), After(cs, maxRooms).now, gen, token) <==>
            Lives(cs, room, maxRooms) && GenerationOf(cs, room, maxRooms) == gen && WasIssued(cs, room, token, maxRooms)
  {
    hide WasIssued, Issued, ExecuteAll;
    if Lives(cs, room, maxRooms) { MembersAreIssued(cs, room, maxRooms); }
    IssuedIff(cs, room, token, maxRooms);
  }

  /** Issuing succeeds if and only if the room is alive in that generation and the token is issued
      already or fewer than 256 are. */
  lemma IssueSucceedsIff(cs: seq<Command>, maxRooms: nat)
    requires cs != [] && Last(cs).On? && Last(cs).op.OpIssue?
    ensures var d, room := After(Init(cs), maxRooms), Last(cs).room;
            CanIssue(KeysOf(d, room), d.now, Last(cs).op.gen, TokenOf(Last(cs))) <==>
            Issues(cs, room, maxRooms, Issued(Init(cs), room, maxRooms))
  {
    hide Issued, ExecuteAll;
    if Lives(Init(cs), Last(cs).room, maxRooms) { MembersAreIssued(Init(cs), Last(cs).room, maxRooms); }
  }

  /** No command revokes a token of a room that stays alive. */
  lemma NothingRevokes(cs: seq<Command>, c: Command, room: RoomId, gen: Gen, token: Token, maxRooms: nat)
    requires CanAuthorize(Room(cs, room, maxRooms), After(cs, maxRooms).now, gen, token)
    requires Lives(cs + [c], room, maxRooms)
    ensures CanAuthorize(Room(cs + [c], room, maxRooms), After(cs + [c], maxRooms).now, gen, token)
  {
    assert Init(cs + [c]) == cs && Last(cs + [c]) == c;
    CoupledAlways(cs, room, maxRooms);
    StepIs(cs + [c], maxRooms);
    hide ExecuteAll, After, Execute, Alive;
    StepMembers(After(cs, maxRooms), c, room, maxRooms);
  }

  /** Credentials belong to one generation, and a new room has none. */
  lemma OldTokensAreRefused(cs: seq<Command>, room: RoomId, gen: Gen, token: Token, maxRooms: nat)
    ensures var k, now := Room(cs, room, maxRooms), After(cs, maxRooms).now;
            && (CanAuthorize(k, now, gen, token) ==> token.gen == gen)
            && (cs != [] && Creates(cs, room, maxRooms) ==> !CanAuthorize(k, now, gen, token))
  {
    hide ExecuteAll;
    if Lives(cs, room, maxRooms) { MembersAreIssued(cs, room, maxRooms); }
  }

  // ---------------------------------------------------------------- how long a room lasts

  /** The command extended the room's life: a write, an issue or an entry that went through, or a
      refresh. Tick leases do not. */
  predicate Touches(k: Keys, now: nat, op: Op) {
    match op
    case OpAcquire(_, _, _) => false
    case OpComplete(_, _) => false
    case OpCommitTick(lease, revision, gen, _, _, _) => CanCommitTick(k, now, lease, revision, gen)
    case OpCompareAndSet(revision, gen, _, _) => Matches(k, now, revision, gen)
    case OpRefresh(_) => Alive(k, now)
    case OpIssue(gen, secret, _) => CanIssue(k, now, gen, Token(gen, secret))
    case OpAuthorize(gen, secret, _) => CanAuthorize(k, now, gen, Token(gen, secret))
  }

  /** The last millisecond of the room, by the last command that created it or extended its life. */
  function Deadline(cs: seq<Command>, room: RoomId, maxRooms: nat): Option<nat> {
    if cs == [] then None
    else
      var d, c := After(Init(cs), maxRooms), Last(cs);
      if Creates(cs, room, maxRooms) then Some(d.now + 1000 * c.ttl)
      else if c.On? && c.room == room && Touches(KeysOf(d, room), d.now, c.op)
      then Some(d.now + 1000 * TtlOf(c.op))
      else Deadline(Init(cs), room, maxRooms)
  }

  function TtlOf(op: Op): Ttl {
    match op
    case OpAcquire(_, _, lockTtl) => lockTtl
    case OpComplete(_, lockTtl) => lockTtl
    case OpCommitTick(_, _, _, _, ttl, _) => ttl
    case OpCompareAndSet(_, _, _, ttl) => ttl
    case OpRefresh(ttl) => ttl
    case OpIssue(_, _, ttl) => ttl
    case OpAuthorize(_, _, ttl) => ttl
  }

  /** The expiry both keys of a room carry. */
  function ExpiryOf(k: Keys): Option<nat> {
    if k.state.Held? && k.meta.Held? then Some(k.state.expiry) else None
  }

  lemma ScriptExpiry(k: Keys, now: nat, op: Op)
    requires Coupled(k)
    ensures ExpiryOf(Do(k, now, op)) == if Touches(k, now, op) then Some(now + 1000 * TtlOf(op)) else ExpiryOf(k)
  {
  }

  lemma StepExpiry(d: Db, c: Command, room: RoomId, maxRooms: nat)
    requires Coupled(KeysOf(d, room))
    ensures var d' := Execute(d, c, maxRooms);
            var k, k' := KeysOf(d, room), KeysOf(d', room);
            ExpiryOf(k')
            == if c.Create? && c.room == room && !Alive(k, d.now) && Alive(k', d'.now) then Some(d.now + 1000 * c.ttl)
               else if c.On? && c.room == room && Touches(k, d.now, c.op) then Some(d.now + 1000 * TtlOf(c.op))
               else ExpiryOf(k)
  {
    if c.On? && c.room == room {
      hide Do, Touches, Coupled;
      ScriptExpiry(KeysOf(d, room), d.now, c.op);
    }
  }

  lemma {:induction false} DeadlineIsExpiry(cs: seq<Command>, room: RoomId, maxRooms: nat)
    ensures ExpiryOf(Room(cs, room, maxRooms)) == Deadline(cs, room, maxRooms)
  {
    if cs != [] {
      DeadlineIsExpiry(Init(cs), room, maxRooms);
      CoupledAlways(Init(cs), room, maxRooms);
      StepIs(cs, maxRooms);
      hide ExecuteAll, After, Execute, Touches, ExpiryOf;
      StepExpiry(After(Init(cs), maxRooms), Last(cs), room, maxRooms);
    }
  }

  /** A room is alive up to the deadline its last touch has set, to the millisecond. */
  lemma LivesIffBeforeDeadline(cs: seq<Command>, room: RoomId, maxRooms: nat)
    ensures Lives(cs, room, maxRooms) <==>
            && Deadline(cs, room, maxRooms).Some?
            && After(cs, maxRooms).now <= Deadline(cs, room, maxRooms).value
  {
    CoupledAlways(cs, room, maxRooms);
    DeadlineIsExpiry(cs, room, maxRooms);
    hide ExecuteAll, Deadline;
  }
}

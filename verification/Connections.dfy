/**
 The connection manager of one worker (backend/connection_manager.py).

 Between two awaits its methods run alone. `Hub` is what its dictionaries hold, and each of
 those stretches is a function on it; the class performs them on its own dictionaries.
 */
module Connections {
  import opened Common

  type Room = string
  type Gen = nat
  type Socket = nat

  /** `locks` names the send lock of a socket; `nextLock` is the next lock object to be made. */
  datatype Hub = Hub(
    rooms: map<Room, map<Socket, Gen>>,
    mark: map<(Room, Gen), int>,
    seen: map<Socket, int>,
    locks: map<Socket, nat>,
    nextLock: nat)

  const EMPTY_HUB := Hub(map[], map[], map[], map[], 0)

  function Sockets(h: Hub, room: Room): map<Socket, Gen> {
    if room in h.rooms then h.rooms[room] else map[]
  }

  /** The lock of a socket, made on first use. */
  function WithLock(h: Hub, s: Socket): Hub {
    if s in h.locks then h else h.(locks := h.locks[s := h.nextLock], nextLock := h.nextLock + 1)
  }

  function Connect(h: Hub, room: Room, s: Socket, gen: Gen): Hub {
    WithLock(h.(rooms := h.rooms[room := Sockets(h, room)[s := gen]], seen := h.seen - {s}), s)
  }

  /** A watermark lives as long as a socket of its generation is connected. */
  function Disconnect(h: Hub, room: Room, s: Socket): Hub {
    if room !in h.rooms then h
    else
      var left := h.rooms[room] - {s};
      var orphan := s in h.rooms[room] && h.rooms[room][s] !in left.Values;
      var mark := if orphan then h.mark - {(room, h.rooms[room][s])} else h.mark;
      h.(rooms := if left == map[] then h.rooms - {room} else h.rooms[room := left],
         mark := if left == map[] then map k | k in mark && k.0 != room :: mark[k] else mark,
         seen := h.seen - {s},
         locks := h.locks - {s})
  }

  function Note(h: Hub, room: Room, gen: Gen, revision: int): Hub {
    var k := (room, gen);
    h.(mark := h.mark[k := if k in h.mark then Max(revision, h.mark[k]) else revision])
  }

  /** A broadcast older than the watermark is dropped; any other one raises it. */
  predicate Outdated(h: Hub, room: Room, gen: Gen, revision: int) {
    (room, gen) in h.mark && revision < h.mark[(room, gen)]
  }

  datatype Entry = Absent | Mismatch | Wait(bound: Gen, lock: nat)

  /** send_json up to its first await. */
  function SendEntry(h: Hub, room: Room, s: Socket, expected: Gen): Entry {
    if s !in Sockets(h, room) then Absent
    else if Sockets(h, room)[s] != expected then Mismatch
    else Wait(Sockets(h, room)[s], WithLock(h, s).locks[s])
  }

  datatype Verdict = Gone | Duplicate | Transmit

  /** send_json once it holds the socket's lock. */
  function SendLocked(h: Hub, room: Room, s: Socket, bound: Gen, revision: int): Verdict {
    if !(s in Sockets(h, room) && Sockets(h, room)[s] == bound) then Gone
    else if s in h.seen && revision <= h.seen[s] then Duplicate
    else Transmit
  }

  /** send_json after the frame went out. */
  function SendDone(h: Hub, room: Room, s: Socket, gen: Gen, revision: int): Hub {
    Note(h.(seen := h.seen[s := revision]), room, gen, revision)
  }

  class LocalConnectionManager {
    var connections: map<Room, map<Socket, Gen>>
    var lastStateRevision: map<(Room, Gen), int>
    var socketStateRevision: map<Socket, int>
    var socketSendLocks: map<Socket, nat>
    var nextLock: nat

    constructor ()
      ensures View() == EMPTY_HUB
    {
      connections, lastStateRevision, socketStateRevision, socketSendLocks, nextLock := map[], map[], map[], map[], 0;
    }

    function View(): Hub
      reads this
    {
      Hub(connections, lastStateRevision, socketStateRevision, socketSendLocks, nextLock)
    }

    /** setdefault on the lock dictionary. */
    method LockOf(s: Socket) returns (lock: nat)
      modifies this`socketSendLocks, this`nextLock
      ensures View() == WithLock(old(View()), s)
      ensures s in socketSendLocks && lock == socketSendLocks[s]
    {
      if s !in socketSendLocks {
        socketSendLocks := socketSendLocks[s := nextLock];
        nextLock := nextLock + 1;
      }
      lock := socketSendLocks[s];
    }

    method Join(room: Room, s: Socket, gen: Gen)
      modifies this
      ensures View() == Connect(old(View()), room, s, gen)
    {
      if room !in connections { connections := connections[room := map[]]; }
      var sockets: map<Socket, Gen> := connections[room][s := gen];
      connections := connections[room := sockets];
      socketStateRevision := socketStateRevision - {s};
      var _ := LockOf(s);
    }

    method DropMarks(room: Room)
      modifies this`lastStateRevision
      ensures lastStateRevision == map k | k in old(lastStateRevision) && k.0 != room :: old(lastStateRevision)[k]
    {
      var keys, kept := lastStateRevision.Keys, lastStateRevision;
      while keys != {}
        invariant keys <= lastStateRevision.Keys && kept.Keys <= lastStateRevision.Keys
        invariant forall k :: k in lastStateRevision ==> (k in kept <==> k in keys || k.0 != room)
        invariant forall k :: k in kept ==> kept[k] == lastStateRevision[k]
        decreases |keys|
      {
        var k :| k in keys;
        if k.0 == room { kept := kept - {k}; }
        keys := keys - {k};
      }
      lastStateRevision := kept;
    }

    /** True when the room has no socket left on this worker. */
    method Leave(room: Room, s: Socket) returns (empty: bool)
      modifies this
      ensures View() == Disconnect(old(View()), room, s)
      ensures room in old(connections) ==> (empty <==> old(connections)[room] - {s} == map[])
      ensures room !in old(connections) ==> empty
    {
      if room !in connections { return true; }
      var sockets := connections[room];
      var left: map<Socket, Gen> := sockets - {s};
      connections := connections[room := left];
      socketStateRevision := socketStateRevision - {s};
      socketSendLocks := socketSendLocks - {s};
      if s in sockets && sockets[s] !in left.Values {
        lastStateRevision := lastStateRevision - {(room, sockets[s])};
      }
      if left == map[] {
        connections := connections - {room};
        DropMarks(room);
        return true;
      }
      return false;
    }

    /** Any socket of the room, or of one generation of it. */
    method HasConnections(room: Room, gen: Option<Gen>) returns (found: bool)
      ensures found <==> exists s ::
                s in Sockets(View(), room) && (gen.Some? ==> Sockets(View(), room)[s] == gen.value)
    {
      if room !in connections || connections[room] == map[] { return false; }
      if gen.None? {
        ghost var s :| s in connections[room];
        assert s in Sockets(View(), room);
        return true;
      }
      found := gen.value in connections[room].Values;
      if found {
        ghost var s :| s in connections[room] && connections[room][s] == gen.value;
        assert s in Sockets(View(), room);
      }
    }

    method NoteStateRevision(room: Room, gen: Gen, revision: int)
      modifies this`lastStateRevision
      ensures View() == Note(old(View()), room, gen, revision)
    {
      var k := (room, gen);
      var previous := if k in lastStateRevision then lastStateRevision[k] else revision;
      lastStateRevision := lastStateRevision[k := Max(revision, previous)];
    }

    method BeginSend(room: Room, s: Socket, expected: Gen) returns (entry: Entry)
      modifies this`socketSendLocks, this`nextLock
      ensures entry == SendEntry(old(View()), room, s, expected)
      ensures View() == if entry.Wait? then WithLock(old(View()), s) else old(View())
    {
      if room !in connections || s !in connections[room] { return Absent; }
      var bound := connections[room][s];
      if bound != expected { return Mismatch; }
      var lock := LockOf(s);
      return Wait(bound, lock);
    }

    method FinishSend(room: Room, s: Socket, gen: Gen, revision: int)
      modifies this`socketStateRevision, this`lastStateRevision
      ensures View() == SendDone(old(View()), room, s, gen, revision)
    {
      socketStateRevision := socketStateRevision[s := revision];
      NoteStateRevision(room, gen, revision);
    }

    /** broadcast_json between the sweep and the first send: whom to send to, if anybody. */
    method BeginBroadcast(room: Room, gen: Gen, revision: int) returns (targets: Option<set<Socket>>)
      modifies this`lastStateRevision
      ensures targets ==
              if room in old(connections) && !Outdated(old(View()), room, gen, revision)
              then Some(old(connections)[room].Keys) else None
      ensures View() == if targets.Some? then Note(old(View()), room, gen, revision) else old(View())
    {
      if room !in connections { return None; }
      var k := (room, gen);
      if k in lastStateRevision && revision < lastStateRevision[k] { return None; }
      lastStateRevision := lastStateRevision[k := revision];
      return Some(connections[room].Keys);
    }
  }
}

/**
 What a send leaves behind that returns after its socket has left (backend/connection_manager.py):
 a record of the socket, and a watermark of its generation.
 */
module LateSends {
  import opened Common
  import opened Connections
  import opened Delivery

  /** A revision is recorded for a socket that is not connected. */
  predicate Leftover(n: Net, s: Socket) {
    s in n.hub.seen && s !in Here(n)
  }

  /** A watermark is kept for a generation without a socket. */
  predicate Stranded(n: Net, gen: Gen) {
    (n.room, gen) in n.hub.mark && !GenerationPresent(n, gen)
  }

  /** A transmission to `s` returns, and well, when `s` has left. */
  predicate ReturnsLate(n: Net, a: Action, s: Socket) {
    && a.SendReturns? && a.ok && a.job in n.jobs && n.jobs[a.job].at.Transmitting?
    && n.jobs[a.job].at.socket == s && s !in Here(n)
  }

  /** A broadcast raises the watermark of a generation that has no socket left here. */
  predicate RaisesForNobody(n: Net, a: Action, gen: Gen) {
    && a.SweepOver? && a.job in n.jobs && n.jobs[a.job].at.Sweeping? && n.jobs[a.job].todo == {}
    && n.jobs[a.job].first.None? && n.jobs[a.job].gen == gen && n.room in n.hub.rooms
    && !Outdated(n.hub, n.room, gen, n.jobs[a.job].revision) && !GenerationPresent(n, gen)
  }

  predicate ReturnsToNobody(n: Net, a: Action, gen: Gen) {
    && a.SendReturns? && a.ok && a.job in n.jobs && n.jobs[a.job].at.Transmitting?
    && n.jobs[a.job].gen == gen && !GenerationPresent(n, gen)
  }

  // ---------------------------------------------------------------- records

  lemma DropLeavesNothing(n: Net, u: Socket, s: Socket)
    requires !Leftover(n, s)
    ensures !Leftover(Drop(n, u), s)
  {
    DropHere(n, u);
  }

  /** What is neither a transmission's end nor a departure touches no record but a newcomer's. */
  lemma OthersLeaveNothing(n: Net, a: Action, s: Socket)
    requires !Leftover(n, s) && !a.SendReturns? && !a.Leave?
    ensures !Leftover(Step(n, a), s)
  {
    if a.SweepClosed? && a.job in n.jobs && n.jobs[a.job].at.SweepClosing? {
      DropLeavesNothing(n, n.jobs[a.job].at.socket, s);
    } else if a.Rejected? && a.job in n.jobs && n.jobs[a.job].at.Rejecting? {
      DropLeavesNothing(n, n.jobs[a.job].at.socket, s);
    }
    hide Disconnect, SendEntry, SendLocked, Outdated, Mismatched;
  }

  /** A record is left behind by exactly one kind of step. */
  lemma LeavesRecordIffLate(n: Net, a: Action, s: Socket)
    requires !Leftover(n, s)
    ensures Leftover(Step(n, a), s) <==> ReturnsLate(n, a, s)
  {
    if a.Leave? {
      DropLeavesNothing(n, a.socket, s);
    } else if !a.SendReturns? {
      OthersLeaveNothing(n, a, s);
    } else if a.job in n.jobs && n.jobs[a.job].at.Transmitting? && !a.ok {
      DropLeavesNothing(n, n.jobs[a.job].at.socket, s);
    }
    hide Disconnect, SendEntry, SendLocked, Outdated, Mismatched;
    if !a.SendReturns? { hide Step; }
  }

  predicate EverLate(room: Room, acts: seq<Action>, s: Socket) {
    acts != [] &&
      (EverLate(room, acts[..|acts| - 1], s) || ReturnsLate(Play(room, acts[..|acts| - 1]), acts[|acts| - 1], s))
  }

  predicate EverLeftover(room: Room, acts: seq<Action>, s: Socket) {
    Leftover(Play(room, acts), s) || (acts != [] && EverLeftover(room, acts[..|acts| - 1], s))
  }

  /** Along every run a record outlives its socket if and only if a transmission returned late. */
  lemma {:induction false} LeftoverIffEverLate(room: Room, acts: seq<Action>, s: Socket)
    ensures EverLeftover(room, acts, s) <==> EverLate(room, acts, s)
  {
    if acts != [] {
      hide Step, Leftover, ReturnsLate;
      var before := acts[..|acts| - 1];
      LeftoverIffEverLate(room, before, s);
      if !Leftover(Play(room, before), s) { LeavesRecordIffLate(Play(room, before), acts[|acts| - 1], s); }
      assert Leftover(Play(room, before), s) ==> EverLeftover(room, before, s);
    } else {
      assert !Leftover(Quiet(room), s);
    }
  }

  // ---------------------------------------------------------------- watermarks

  lemma DropStrandsNothing(n: Net, u: Socket, gen: Gen)
    requires !Stranded(n, gen)
    ensures !Stranded(Drop(n, u), gen)
  {
    DropHere(n, u);
    var d := Drop(n, u);
    if n.room in n.hub.rooms && (n.room, gen) in d.hub.mark {
      var left := n.hub.rooms[n.room] - {u};
      assert left != map[] && Here(d) == left;
      var v :| v in Here(n) && Here(n)[v] == gen;
      if v == u {
        assert gen in left.Values;
        var t :| t in left && left[t] == gen;
        assert t in Here(d) && Here(d)[t] == gen;
      } else {
        assert v in Here(d) && Here(d)[v] == gen;
      }
    }
  }

  /** Equal sockets and watermarks are equally stranded. */
  lemma SameMarks(n: Net, n': Net, gen: Gen)
    requires n'.room == n.room && Here(n') == Here(n) && n'.hub.mark == n.hub.mark
    ensures Stranded(n', gen) <==> Stranded(n, gen)
  {
  }

  /** Raising the watermark strands it exactly if nobody is there. */
  lemma NoteStrandsIff(n: Net, n': Net, own: Gen, revision: int, gen: Gen)
    requires !Stranded(n, gen) && n'.room == n.room && Here(n') == Here(n)
    requires n'.hub.mark == Note(n.hub, n.room, own, revision).mark
    ensures Stranded(n', gen) <==> own == gen && !GenerationPresent(n, gen)
  {
  }

  lemma SweepOverStrandsIff(n: Net, j: nat, gen: Gen)
    requires !Stranded(n, gen)
    ensures Stranded(StepSweepOver(n, j), gen) <==> RaisesForNobody(n, SweepOver(j), gen)
  {
    hide Stranded, Mismatched, GenerationPresent;
    var n' := StepSweepOver(n, j);
    if j in n.jobs {
      var job := n.jobs[j];
      if job.at.Sweeping? && job.todo == {} && job.first.None? && n.room in n.hub.rooms
         && !Outdated(n.hub, n.room, job.gen, job.revision) {
        NoteStrandsIff(n, n', job.gen, job.revision, gen);
      } else {
        SameMarks(n, n', gen);
      }
    }
  }

  lemma SweepStrandsIff(n: Net, a: Action, gen: Gen)
    requires !Stranded(n, gen) && Sweeps(a)
    ensures Stranded(Step(n, a), gen) <==> RaisesForNobody(n, a, gen)
  {
    hide Stranded, Disconnect, Mismatched, GenerationPresent;
    if a.SweepOver? {
      SweepOverStrandsIff(n, a.job, gen);
    } else if a.SweepClosed? && a.job in n.jobs && n.jobs[a.job].at.SweepClosing? {
      DropStrandsNothing(n, n.jobs[a.job].at.socket, gen);
      SameMarks(Drop(n, n.jobs[a.job].at.socket), Step(n, a), gen);
    } else {
      SameMarks(n, Step(n, a), gen);
    }
  }

  lemma ReturnStrandsIff(n: Net, j: nat, ok: bool, gen: Gen)
    requires !Stranded(n, gen)
    ensures Stranded(StepSendReturns(n, j, ok), gen) <==> ReturnsToNobody(n, SendReturns(j, ok), gen)
  {
    hide Stranded, Disconnect, GenerationPresent;
    var n' := StepSendReturns(n, j, ok);
    if j in n.jobs && n.jobs[j].at.Transmitting? {
      if ok {
        NoteStrandsIff(n, n', n.jobs[j].gen, n.jobs[j].revision, gen);
      } else {
        DropStrandsNothing(n, n.jobs[j].at.socket, gen);
        SameMarks(Drop(n, n.jobs[j].at.socket), n', gen);
      }
    }
  }

  lemma SendStrandsIff(n: Net, a: Action, gen: Gen)
    requires !Stranded(n, gen) && (a.SendPick? || a.Rejected? || a.SendEnter? || a.SendReturns?)
    ensures Stranded(Step(n, a), gen) <==> ReturnsToNobody(n, a, gen)
  {
    hide Stranded, Disconnect, SendEntry, SendLocked, GenerationPresent;
    if a.SendReturns? {
      ReturnStrandsIff(n, a.job, a.ok, gen);
    } else if a.Rejected? && a.job in n.jobs && n.jobs[a.job].at.Rejecting? {
      DropStrandsNothing(n, n.jobs[a.job].at.socket, gen);
      SameMarks(Drop(n, n.jobs[a.job].at.socket), Step(n, a), gen);
    } else {
      SameMarks(n, Step(n, a), gen);
    }
  }

  /** A watermark is left without a socket by exactly that kind of step too, where the socket was the
      last of its generation, and by a broadcast whose generation has gone while it swept. */
  lemma StrandsMarkIff(n: Net, a: Action, gen: Gen)
    requires HubInv(n) && !Stranded(n, gen)
    ensures Stranded(Step(n, a), gen) <==> RaisesForNobody(n, a, gen) || ReturnsToNobody(n, a, gen)
  {
    if Sweeps(a) { SweepStrandsIff(n, a, gen); }
    else if a.SendPick? || a.Rejected? || a.SendEnter? || a.SendReturns? { SendStrandsIff(n, a, gen); }
    else if a.Leave? { DropStrandsNothing(n, a.socket, gen); }
    else if a.Join? { JoinStrandsNothing(n, a.socket, a.gen, gen); }
    else { SameMarks(n, Step(n, a), gen); }
    hide Stranded, Disconnect, Mismatched, GenerationPresent;
  }

  lemma JoinStrandsNothing(n: Net, s: Socket, own: Gen, gen: Gen)
    requires HubInv(n) && !Stranded(n, gen)
    ensures !Stranded(StepJoin(n, s, own), gen)
  {
    if s !in n.bound {
      JoinedSockets(n, s, own);
      hide StepJoin;
      if GenerationPresent(n, gen) {
        var v :| v in Here(n) && Here(n)[v] == gen;
        assert v in Here(StepJoin(n, s, own)) && Here(StepJoin(n, s, own))[v] == gen;
      }
    }
  }

  lemma JoinedSockets(n: Net, s: Socket, own: Gen)
    requires s !in n.bound
    ensures Here(StepJoin(n, s, own)) == Here(n)[s := own] && StepJoin(n, s, own).hub.mark == n.hub.mark
  {
  }

  // ---------------------------------------------------------------- it does happen

  /** Socket 1 leaves while its first frame is on its way. */
  const LATE: seq<Action> := [
    Join(1, 0), FirstSend(0, 1, 5), SweepOver(0), SendPick(0, 1), SendEnter(0), Leave(1), SendReturns(0, true)]

  const ROOM: Room := "ROOM"

  lemma Prefix(k: nat)
    requires k < |LATE|
    ensures Play(ROOM, LATE[..k + 1]) == Step(Play(ROOM, LATE[..k]), LATE[k])
  {
    assert LATE[..k + 1][..k] == LATE[..k];
  }

  function With(hub: Hub, holder: map<nat, Hold>, job: Job, wire: map<Socket, seq<Frame>>): Net {
    Net(ROOM, hub, map[0 := 1], holder, map[0 := job], wire, map[1 := 0])
  }

  const JOINED := Hub(map[ROOM := map[1 := 0]], map[], map[], map[1 := 0], 1)

  const OUTSIDE := Hub(map[], map[], map[], map[], 1)

  lemma LateSendStarts()
    ensures Play(ROOM, LATE[..3]) == With(JOINED, map[], Job(0, 5, Some(1), {1}, {}, Sending), map[])
  {
    hide Play;
    assert LATE[..0] == [];
    Start();
    Prefix(0);
    Prefix(1);
    Prefix(2);
    assert Play(ROOM, LATE[..1]) == Net(ROOM, JOINED, map[0 := 1], map[], map[], map[], map[1 := 0]);
    assert Mismatched(Play(ROOM, LATE[..1]), 0) == {};
    assert Play(ROOM, LATE[..2]) == With(JOINED, map[], Job(0, 5, Some(1), {}, {}, Sweeping), map[]);
  }

  const IN_FLIGHT := Job(0, 5, Some(1), {}, {}, Transmitting(1, 0))

  lemma LateSendLeaves()
    ensures Play(ROOM, LATE[..5]) == With(JOINED, map[0 := Hold(0, true)], IN_FLIGHT, map[1 := [Frame(0, 5)]])
  {
    hide Play;
    LateSendStarts();
    Prefix(3);
    Prefix(4);
    var n4 := With(JOINED, map[], Job(0, 5, Some(1), {}, {}, SendWaiting(1, 0)), map[]);
    var n3 := Play(ROOM, LATE[..3]);
    assert n3.jobs[0].todo - {1} == {} && Locked(n3, 1) == n3;
    assert SendEntry(n3.hub, ROOM, 1, 0) == Wait(0, 0);
    assert Play(ROOM, LATE[..4]) == n4;
    assert Wire(n4, 1) + [Frame(0, 5)] == [Frame(0, 5)];
  }

  lemma Departs()
    ensures Disconnect(JOINED, ROOM, 1) == OUTSIDE
  {
    assert map[1 := 0] - {1} == map[];
    assert (JOINED.rooms - {ROOM}).Keys == {};
  }

  lemma Start()
    ensures Play(ROOM, []) == Quiet(ROOM)
  {
  }

  /** The room is empty, and yet record and watermark are kept. */
  lemma LateSendHappens()
    ensures var n := Play(ROOM, LATE);
            && n.hub.rooms == map[] && n.hub.seen == map[1 := 5] && n.hub.mark == map[(ROOM, 0) := 5]
            && Leftover(n, 1) && Stranded(n, 0)
  {
    hide Play;
    LateSendLeaves();
    Prefix(5);
    Prefix(6);
    Departs();
    var n5 := With(JOINED, map[0 := Hold(0, true)], IN_FLIGHT, map[1 := [Frame(0, 5)]]);
    assert LATE[5] == Leave(1) && Step(n5, Leave(1)) == Drop(n5, 1);
    assert Drop(n5, 1) == n5.(hub := OUTSIDE);
    assert Play(ROOM, LATE[..6]) == With(OUTSIDE, map[0 := Hold(0, true)], IN_FLIGHT, map[1 := [Frame(0, 5)]]);
    assert LATE[..7] == LATE;
    assert Here(Play(ROOM, LATE)) == map[];
  }
}

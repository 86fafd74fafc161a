/**
 From locked sends to frames: one worker's sending coroutines inside the world of all workers, moving
 together, and what is on the wire when all work is done.
 */
module Wires {
  import opened Common
  import opened Connections
  import opened Atomicity
  import D = Delivery
  import C = Convergence
  import opened Subscriptions

  // ---------------------------------------------------------------- locks are held by somebody

  /** Every lock that is taken is taken by the job that is inside it. */
  predicate HoldersOk(n: D.Net) {
    forall l :: l in n.holder ==>
      var h := n.holder[l];
      && h.job in n.jobs && D.Holds(n.jobs[h.job].at) && n.jobs[h.job].at.lock == l
      && (h.sending <==> n.jobs[h.job].at.Transmitting?)
  }

  lemma SweepPickKeepsHolders(n: D.Net, a: D.Action)
    requires HoldersOk(n) && (a.SweepPick? || a.SweepEnter?)
    ensures HoldersOk(D.Step(n, a))
  {
    hide WithLock, D.Here;
  }

  lemma SweepEndKeepsHolders(n: D.Net, a: D.Action)
    requires HoldersOk(n) && (a.SweepClosed? || a.SweepOver?)
    ensures HoldersOk(D.Step(n, a))
  {
    hide Disconnect, Note, Outdated, D.Here;
  }

  lemma SendKeepsHolders(n: D.Net, a: D.Action)
    requires HoldersOk(n) && OfJob(a) && !D.Sweeps(a)
    ensures HoldersOk(D.Step(n, a))
  {
    hide Disconnect, SendDone, WithLock, SendLocked, SendEntry;
  }

  lemma StepKeepsHolders(n: D.Net, a: D.Action)
    requires HoldersOk(n)
    ensures HoldersOk(D.Step(n, a))
  {
    if OfJob(a) {
      if a.SweepPick? || a.SweepEnter? { SweepPickKeepsHolders(n, a); }
      else if D.Sweeps(a) { SweepEndKeepsHolders(n, a); }
      else { SendKeepsHolders(n, a); }
      hide D.Step, HoldersOk;
    }
    hide Connect, Disconnect, D.Mismatched;
  }

  lemma {:induction false} HoldersAlways(room: Room, acts: seq<D.Action>)
    ensures HoldersOk(D.Play(room, acts))
  {
    if acts != [] {
      hide D.Step, HoldersOk;
      HoldersAlways(room, acts[..|acts| - 1]);
      StepKeepsHolders(D.Play(room, acts[..|acts| - 1]), acts[|acts| - 1]);
    } else {
      assert HoldersOk(D.Quiet(room));
    }
  }

  // ---------------------------------------------------------------- a worker among workers

  /** Worker `k` at its awaits, the world it is part of, and how either came about. */
  datatype System = System(net: D.Net, world: C.World, netRun: seq<D.Action>, worldRun: seq<C.Action>)

  datatype Move =
    | Send(step: D.Action)
    | Begin(job: nat)
    | Admit(task: nat, socket: Socket)
    | Depart(socket: Socket)
    | Elsewhere(other: C.Action)

  const START := System(D.Quiet(C.ROOM), C.BEGIN, [], [])

  predicate Unfinished(job: D.Job) {
    if job.first.Some? then job.first.value !in job.served
    else job.at.Sweeping? || Pending(job.at) || (job.at.Sending? && job.todo != {})
  }

  /** The step is none of the sends of worker `k`. */
  predicate Apart(sys: System, k: C.Worker, c: C.Action) {
    var w, w' := sys.world, C.Step(sys.world, c);
    && C.At(w', k).hub == C.At(w, k).hub
    && (forall j :: j in sys.net.jobs && Unfinished(sys.net.jobs[j]) && j in w.tasks ==>
          j in w'.tasks && w'.tasks[j] == w.tasks[j])
  }

  function Both(sys: System, a: D.Action, c: C.Action): System {
    System(D.Step(sys.net, a), C.Step(sys.world, c), sys.netRun + [a], sys.worldRun + [c])
  }

  function NetOnly(sys: System, a: D.Action): System {
    sys.(net := D.Step(sys.net, a), netRun := sys.netRun + [a])
  }

  function WorldOnly(sys: System, c: C.Action): System {
    sys.(world := C.Step(sys.world, c), worldRun := sys.worldRun + [c])
  }

  function Moved(sys: System, k: C.Worker, m: Move): System {
    var n, w := sys.net, sys.world;
    match m
    case Send(a) =>
      if !OfJob(a) then sys
      else if Linear(n, a).Some? then Both(sys, a, Linear(n, a).value) else NetOnly(sys, a)
    case Begin(j) =>
      if j in n.jobs || j !in w.tasks || w.tasks[j].worker != k then sys
      else if w.tasks[j].Broadcasting? then NetOnly(sys, D.Broadcast(j, C.GEN, w.tasks[j].revision))
      else if w.tasks[j].Greeting? then NetOnly(sys, D.FirstSend(j, w.tasks[j].socket, w.tasks[j].revision))
      else sys
    case Admit(t, s) =>
      if t in n.jobs || t !in w.tasks || w.tasks[t] != C.Admitted(k) || s in n.bound || s in w.home then sys
      else Both(sys, D.Join(s, C.GEN), C.Arrive(t, s))
    case Depart(s) =>
      if s !in w.open || s !in w.home || w.home[s] != k then sys else Both(sys, D.Leave(s), C.Leave(s))
    case Elsewhere(c) => if Apart(sys, k, c) then WorldOnly(sys, c) else sys
  }

  function Reached(k: C.Worker, moves: seq<Move>): System {
    if moves == [] then START else Moved(Reached(k, moves[..|moves| - 1]), k, moves[|moves| - 1])
  }

  /** Both are runs of their own, of one generation, and agree. */
  predicate Together(sys: System, k: C.Worker) {
    && sys.net == D.Play(C.ROOM, sys.netRun) && OneGeneration(sys.netRun)
    && sys.world == C.Play(sys.worldRun)
    && Matches(sys.net, sys.world, k)
  }

  lemma NetGoes(run: seq<D.Action>, a: D.Action)
    requires OneGeneration(run) && OneGeneration([a])
    ensures D.Play(C.ROOM, run + [a]) == D.Step(D.Play(C.ROOM, run), a) && OneGeneration(run + [a])
  {
    hide D.Step;
    assert (run + [a])[..|run|] == run;
    assert [a][0] == a;
  }

  lemma WorldGoes(run: seq<C.Action>, c: C.Action)
    ensures C.Play(run + [c]) == C.Step(C.Play(run), c)
  {
    hide C.Step;
    assert (run + [c])[..|run|] == run;
  }

  lemma SendStaysTogether(sys: System, k: C.Worker, a: D.Action)
    requires Together(sys, k) && OfJob(a)
    ensures Together(Moved(sys, k, Send(a)), k)
  {
    hide D.Step, C.Step, Matches, Linear;
    assert OneGeneration([a]);
    NetGoes(sys.netRun, a);
    SendsAreAtomic(sys.netRun, a, sys.world, k);
    if Linear(sys.net, a).Some? { WorldGoes(sys.worldRun, Linear(sys.net, a).value); }
  }

  lemma BeginStaysTogether(sys: System, k: C.Worker, j: nat)
    requires Together(sys, k)
    ensures Together(Moved(sys, k, Begin(j)), k)
  {
    hide D.Step, C.Step, Matches;
    var n, w := sys.net, sys.world;
    ReadyAlways(sys.netRun);
    if j !in n.jobs && j in w.tasks && w.tasks[j].worker == k {
      if w.tasks[j].Broadcasting? {
        var a := D.Broadcast(j, C.GEN, w.tasks[j].revision);
        assert OneGeneration([a]);
        NetGoes(sys.netRun, a);
        JobMatches(n, w, k, j, w.tasks[j].revision, 0);
        IsStep(n, a);
      } else if w.tasks[j].Greeting? {
        var a := D.FirstSend(j, w.tasks[j].socket, w.tasks[j].revision);
        assert OneGeneration([a]);
        NetGoes(sys.netRun, a);
        JobMatches(n, w, k, j, w.tasks[j].revision, w.tasks[j].socket);
        IsStep(n, a);
      }
    }
  }

  lemma IsStep(n: D.Net, a: D.Action)
    ensures match a
            case Broadcast(j, gen, revision) => D.Step(n, a) == D.StepBroadcast(n, j, gen, revision)
            case FirstSend(j, s, revision) => D.Step(n, a) == D.StepFirstSend(n, j, s, revision)
            case Join(s, gen) => D.Step(n, a) == D.StepJoin(n, s, gen)
            case Leave(s) => D.Step(n, a) == D.Drop(n, s)
            case _ => true
  {
  }

  lemma IsWorldStep(w: C.World, t: nat, s: Socket)
    ensures C.Step(w, C.Arrive(t, s)) == C.StepArrive(w, t, s) && C.Step(w, C.Leave(s)) == C.StepLeave(w, s)
  {
  }

  lemma EndpointStaysTogether(sys: System, k: C.Worker, m: Move)
    requires Together(sys, k) && (m.Admit? || m.Depart?)
    ensures Together(Moved(sys, k, m), k)
  {
    hide D.Step, C.Step, Matches;
    var n, w := sys.net, sys.world;
    ReadyAlways(sys.netRun);
    if Moved(sys, k, m) != sys {
      var a := if m.Admit? then D.Join(m.socket, C.GEN) else D.Leave(m.socket);
      assert OneGeneration([a]);
      NetGoes(sys.netRun, a);
      IsStep(n, a);
      if m.Admit? {
        JoinMatches(n, w, k, m.task, m.socket);
        WorldGoes(sys.worldRun, C.Arrive(m.task, m.socket));
        IsWorldStep(w, m.task, m.socket);
      } else {
        LeaveMatches(n, w, k, m.socket);
        WorldGoes(sys.worldRun, C.Leave(m.socket));
        IsWorldStep(w, 0, m.socket);
      }
    }
  }

  lemma ApartMatches(sys: System, k: C.Worker, c: C.Action)
    requires Matches(sys.net, sys.world, k) && Apart(sys, k, c)
    ensures Matches(sys.net, C.Step(sys.world, c), k)
  {
    hide C.Step;
  }

  lemma {:induction false} AlwaysTogether(k: C.Worker, moves: seq<Move>)
    ensures Together(Reached(k, moves), k)
  {
    if moves == [] {
    } else {
      hide Matches, Apart, D.Step, C.Step, Linear;
      var sys, m := Reached(k, moves[..|moves| - 1]), moves[|moves| - 1];
      AlwaysTogether(k, moves[..|moves| - 1]);
      match m
      case Send(a) => if OfJob(a) { SendStaysTogether(sys, k, a); }
      case Begin(j) => BeginStaysTogether(sys, k, j);
      case Elsewhere(c) => if Apart(sys, k, c) { ApartMatches(sys, k, c); WorldGoes(sys.worldRun, c); }
      case _ => EndpointStaysTogether(sys, k, m);
    }
  }

  // ---------------------------------------------------------------- frames

  lemma HolderHasTask(n: D.Net, w: C.World, k: C.Worker, l: nat)
    requires Matches(n, w, k) && Alike(n) && HoldersOk(n)
    ensures l in n.holder ==> n.holder[l].job in w.tasks
  {
    if l in n.holder {
      var j := n.holder[l].job;
      assert StandsFor(n.jobs[j], w, j, k) && JobAlike(n.jobs[j]);
    }
  }

  /** When the world rests, no lock is taken and no frame is on its way. */
  lemma RestingLocksAreFree(n: D.Net, w: C.World, k: C.Worker)
    requires Matches(n, w, k) && Alike(n) && HoldersOk(n) && w.tasks == map[]
    ensures n.holder == map[]
  {
    forall l ensures l in n.holder ==> n.holder[l].job in w.tasks { HolderHasTask(n, w, k, l); }
  }

  /** Whatever the schedule, inside the worker and outside: once nothing is pending anywhere, the last
      frame sent to every socket of the worker carries the revision the store is at. */
  lemma LastFramesAreCurrent(k: C.Worker, moves: seq<Move>, s: Socket)
    requires ArrivalsFindSubscription(Reached(k, moves).worldRun) && C.Quiescent(Reached(k, moves).world)
    requires s in D.Here(Reached(k, moves).net)
    ensures D.LastRevision(Reached(k, moves).net, s) == Some(Reached(k, moves).world.revision)
  {
    hide Reached, Matches, D.Play, C.Play;
    var sys := Reached(k, moves);
    AlwaysTogether(k, moves);
    ReadyAlways(sys.netRun);
    HoldersAlways(C.ROOM, sys.netRun);
    RestingLocksAreFree(sys.net, sys.world, k);
    SameHub(sys.net, sys.world, k, s);
    QuiescentSocketsAreCurrentIfFound(sys.worldRun, k, s);
    assert !D.InFlight(sys.net, s);
  }

  lemma SameHub(n: D.Net, w: C.World, k: C.Worker, s: Socket)
    requires Matches(n, w, k) && n.room == C.ROOM
    ensures s in D.Here(n) <==> s in C.Live(C.At(w, k))
    ensures C.Sent(C.At(w, k), s) == D.SeenRevision(n, s)
  {
  }
}

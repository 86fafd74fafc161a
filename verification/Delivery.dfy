/**
 The coroutines of one worker that send to its sockets, interleaved at every await
 (backend/connection_manager.py:75-209).

 A job is one broadcast, or the first send to a socket that has just joined. It first sweeps
 away sockets of other generations, then sends. `wire` is what each socket has been sent.
 */
module Delivery {
  import opened Common
  import opened Connections

  datatype Frame = Frame(gen: Gen, revision: int)

  /** Where a job has stopped. */
  datatype At =
    | Sweeping
    | SweepWaiting(socket: Socket, lock: nat)
    | SweepClosing(socket: Socket, lock: nat)
    | Sending
    | SendWaiting(socket: Socket, lock: nat)
    | Transmitting(socket: Socket, lock: nat)
    | Rejecting(socket: Socket)
    | Over

  /** `served` are the targets the job is done with; `first` is the joining socket of a first send. */
  datatype Job = Job(gen: Gen, revision: int, first: Option<Socket>, todo: set<Socket>, served: set<Socket>, at: At)

  /** Who has taken a lock, and whether it is inside send_text. */
  datatype Hold = Hold(job: nat, sending: bool)

  /** One room of the worker. `bound` remembers for ever which generation a socket joined with, and
      `owner` which socket a lock was made for. */
  datatype Net = Net(
    room: Room,
    hub: Hub,
    owner: map<nat, Socket>,
    holder: map<nat, Hold>,
    jobs: map<nat, Job>,
    wire: map<Socket, seq<Frame>>,
    bound: map<Socket, Gen>)

  datatype Action =
    | Join(socket: Socket, gen: Gen)
    | Leave(socket: Socket)
    | Broadcast(job: nat, gen: Gen, revision: int)
    | FirstSend(job: nat, socket: Socket, revision: int)
    | SweepPick(job: nat, socket: Socket)
    | SweepEnter(job: nat)
    | SweepClosed(job: nat)
    | SweepOver(job: nat)
    | SendPick(job: nat, socket: Socket)
    | Rejected(job: nat)
    | SendEnter(job: nat)
    | SendReturns(job: nat, ok: bool)

  function Quiet(room: Room): Net {
    Net(room, EMPTY_HUB, map[], map[], map[], map[], map[])
  }

  function Wire(n: Net, s: Socket): seq<Frame> {
    if s in n.wire then n.wire[s] else []
  }

  function Put(n: Net, j: nat, job: Job): Net {
    n.(jobs := n.jobs[j := job])
  }

  function Here(n: Net): map<Socket, Gen> {
    Sockets(n.hub, n.room)
  }

  // ---------------------------------------------------------------- the steps

  /** Each socket object is connected once. */
  function StepJoin(n: Net, s: Socket, gen: Gen): Net {
    if s in n.bound then n
    else
      var hub := Connect(n.hub, n.room, s, gen);
      n.(hub := hub, bound := n.bound[s := gen], owner := n.owner[hub.locks[s] := s])
  }

  /** The lock of `s` is looked up, and made if need be. */
  function Locked(n: Net, s: Socket): Net {
    var hub := WithLock(n.hub, s);
    n.(hub := hub, owner := n.owner[hub.locks[s] := s])
  }

  function Drop(n: Net, s: Socket): Net {
    n.(hub := Disconnect(n.hub, n.room, s))
  }

  function Mismatched(n: Net, gen: Gen): set<Socket> {
    set s | s in Here(n) && Here(n)[s] != gen
  }

  function StepBroadcast(n: Net, j: nat, gen: Gen, revision: int): Net {
    if j in n.jobs || n.room !in n.hub.rooms then n
    else Put(n, j, Job(gen, revision, None, Mismatched(n, gen), {}, Sweeping))
  }

  function StepFirstSend(n: Net, j: nat, s: Socket, revision: int): Net {
    if j in n.jobs || s !in n.bound then n
    else Put(n, j, Job(n.bound[s], revision, Some(s), Mismatched(n, n.bound[s]), {}, Sweeping))
  }

  function StepSweepPick(n: Net, j: nat, s: Socket): Net {
    if !(j in n.jobs && n.jobs[j].at.Sweeping? && s in n.jobs[j].todo) then n
    else
      var m := Locked(n, s);
      Put(m, j, n.jobs[j].(todo := n.jobs[j].todo - {s}, at := SweepWaiting(s, m.hub.locks[s])))
  }

  function StepSweepEnter(n: Net, j: nat): Net {
    if !(j in n.jobs && n.jobs[j].at.SweepWaiting? && n.jobs[j].at.lock !in n.holder) then n
    else
      var job := n.jobs[j];
      var s := job.at.socket;
      if s !in Here(n) || Here(n)[s] == job.gen then Put(n, j, job.(at := Sweeping))
      else Put(n, j, job.(at := SweepClosing(s, job.at.lock))).(holder := n.holder[job.at.lock := Hold(j, false)])
  }

  function StepSweepClosed(n: Net, j: nat): Net {
    if !(j in n.jobs && n.jobs[j].at.SweepClosing?) then n
    else
      var job := n.jobs[j];
      Put(Drop(n, job.at.socket), j, job.(at := Sweeping)).(holder := n.holder - {job.at.lock})
  }

  /** From the sweep to the sends: a broadcast consults and raises the watermark here. */
  function StepSweepOver(n: Net, j: nat): Net {
    if !(j in n.jobs && n.jobs[j].at.Sweeping? && n.jobs[j].todo == {}) then n
    else
      var job := n.jobs[j];
      if job.first.Some? then Put(n, j, job.(todo := {job.first.value}, at := Sending))
      else if n.room !in n.hub.rooms || Outdated(n.hub, n.room, job.gen, job.revision)
      then Put(n, j, job.(at := Over))
      else
        Put(n, j, job.(todo := Here(n).Keys, at := Sending))
        .(hub := Note(n.hub, n.room, job.gen, job.revision))
  }

  function Served(job: Job, s: Socket): Job {
    job.(served := job.served + {s}, at := Sending)
  }

  function StepSendPick(n: Net, j: nat, s: Socket): Net {
    if !(j in n.jobs && n.jobs[j].at.Sending? && s in n.jobs[j].todo) then n
    else
      var job := n.jobs[j].(todo := n.jobs[j].todo - {s});
      match SendEntry(n.hub, n.room, s, job.gen)
      case Absent => Put(n, j, Served(job, s))
      case Mismatch => Put(n, j, job.(at := Rejecting(s)))
      case Wait(_, lock) => Put(Locked(n, s), j, job.(at := SendWaiting(s, lock)))
  }

  function StepRejected(n: Net, j: nat): Net {
    if !(j in n.jobs && n.jobs[j].at.Rejecting?) then n
    else Put(Drop(n, n.jobs[j].at.socket), j, Served(n.jobs[j], n.jobs[j].at.socket))
  }

  function StepSendEnter(n: Net, j: nat): Net {
    if !(j in n.jobs && n.jobs[j].at.SendWaiting? && n.jobs[j].at.lock !in n.holder) then n
    else
      var job := n.jobs[j];
      var s := job.at.socket;
      match SendLocked(n.hub, n.room, s, job.gen, job.revision)
      case Gone => Put(n, j, Served(job, s))
      case Duplicate => Put(n, j, Served(job, s))
      case Transmit =>
        Put(n, j, job.(at := Transmitting(s, job.at.lock)))
        .(holder := n.holder[job.at.lock := Hold(j, true)],
          wire := n.wire[s := Wire(n, s) + [Frame(job.gen, job.revision)]])
  }

  function StepSendReturns(n: Net, j: nat, ok: bool): Net {
    if !(j in n.jobs && n.jobs[j].at.Transmitting?) then n
    else
      var job := n.jobs[j];
      var s := job.at.socket;
      var hub := if ok then SendDone(n.hub, n.room, s, job.gen, job.revision) else Disconnect(n.hub, n.room, s);
      Put(n, j, Served(job, s)).(hub := hub, holder := n.holder - {job.at.lock})
  }

  function Step(n: Net, a: Action): Net {
    match a
    case Join(s, gen) => StepJoin(n, s, gen)
    case Leave(s) => Drop(n, s)
    case Broadcast(j, gen, revision) => StepBroadcast(n, j, gen, revision)
    case FirstSend(j, s, revision) => StepFirstSend(n, j, s, revision)
    case SweepPick(j, s) => StepSweepPick(n, j, s)
    case SweepEnter(j) => StepSweepEnter(n, j)
    case SweepClosed(j) => StepSweepClosed(n, j)
    case SweepOver(j) => StepSweepOver(n, j)
    case SendPick(j, s) => StepSendPick(n, j, s)
    case Rejected(j) => StepRejected(n, j)
    case SendEnter(j) => StepSendEnter(n, j)
    case SendReturns(j, ok) => StepSendReturns(n, j, ok)
  }

  function Play(room: Room, acts: seq<Action>): Net {
    if acts == [] then Quiet(room) else Step(Play(room, acts[..|acts| - 1]), acts[|acts| - 1])
  }

  // ---------------------------------------------------------------- sockets and their locks

  predicate HubInv(n: Net) {
    && (forall s :: s in Here(n) ==> s in n.bound && n.bound[s] == Here(n)[s] && s in n.hub.locks)
    && (forall s :: s in n.hub.locks ==>
          s in n.bound && n.hub.locks[s] in n.owner && n.owner[n.hub.locks[s]] == s)
    && (forall l :: l in n.owner ==> l < n.hub.nextLock)
    && n.holder.Keys <= n.owner.Keys
  }

  predicate AtLock(at: At) {
    at.SweepWaiting? || at.SweepClosing? || at.SendWaiting? || at.Transmitting?
  }

  predicate Holds(at: At) {
    at.SweepClosing? || at.Transmitting?
  }

  /** A lock in use is the socket's own for as long as the socket is connected. */
  predicate LockOk(n: Net, j: nat, at: At) {
    AtLock(at) ==>
      && at.socket in n.bound
      && at.lock in n.owner && n.owner[at.lock] == at.socket
      && (Holds(at) ==> at.lock in n.holder && n.holder[at.lock] == Hold(j, at.Transmitting?))
      && (at.socket in Here(n) ==> at.socket in n.hub.locks && n.hub.locks[at.socket] == at.lock)
  }

  function LastRevision(n: Net, s: Socket): Option<int> {
    if Wire(n, s) == [] then None else Some(Wire(n, s)[|Wire(n, s)| - 1].revision)
  }

  predicate Reached(n: Net, s: Socket, revision: int) {
    LastRevision(n, s).Some? && LastRevision(n, s).value >= revision
  }

  predicate JobOk(n: Net, j: nat, job: Job) {
    && LockOk(n, j, job.at)
    && job.todo <= n.bound.Keys && job.served <= n.bound.Keys
    && (job.first.Some? ==> job.first.value in n.bound)
    && (job.at.Rejecting? ==> job.at.socket in n.bound)
    && (job.at.SendWaiting? || job.at.Transmitting? ==> n.bound[job.at.socket] == job.gen)
    && (job.at.Transmitting? ==> LastRevision(n, job.at.socket) == Some(job.revision))
    && (forall s :: s in job.served && s in Here(n) ==> Reached(n, s, job.revision))
  }

  predicate JobsInv(n: Net) {
    forall j :: j in n.jobs ==> JobOk(n, j, n.jobs[j])
  }

  // ---------------------------------------------------------------- what has been sent

  predicate Rising(frames: seq<Frame>) {
    forall i, j :: 0 <= i < j < |frames| ==> frames[i].revision < frames[j].revision
  }

  predicate Labelled(frames: seq<Frame>, gen: Gen) {
    forall i :: 0 <= i < |frames| ==> frames[i].gen == gen
  }

  function SeenRevision(n: Net, s: Socket): Option<int> {
    if s in n.hub.seen then Some(n.hub.seen[s]) else None
  }

  predicate InFlight(n: Net, s: Socket) {
    s in n.hub.locks && n.hub.locks[s] in n.holder && n.holder[n.hub.locks[s]].sending
  }

  /** Frames rise and carry the socket's generation; between sends, the recorded revision of a
      connected socket is that of its last frame. */
  predicate WireInv(n: Net) {
    && n.wire.Keys <= n.bound.Keys
    && (forall s :: s in n.wire ==> Rising(n.wire[s]) && Labelled(n.wire[s], n.bound[s]))
    && (forall s :: s in Here(n) && !InFlight(n, s) ==> SeenRevision(n, s) == LastRevision(n, s))
  }

  predicate NetInv(n: Net) {
    HubInv(n) && JobsInv(n) && WireInv(n)
  }

  // ---------------------------------------------------------------- what every step respects

  /** Sockets are never forgotten or revived, locks never change hands, frames are never lost. */
  predicate Evolves(n: Net, n': Net) {
    && n'.room == n.room
    && (forall s :: s in n.bound ==> s in n'.bound && n'.bound[s] == n.bound[s])
    && (forall l :: l in n.owner ==> l in n'.owner && n'.owner[l] == n.owner[l])
    && (forall s :: s in n.bound && s in Here(n') ==>
          s in Here(n) && s in n.hub.locks && s in n'.hub.locks && n'.hub.locks[s] == n.hub.locks[s])
    && (forall s :: s in n.bound && LastRevision(n, s).Some? ==> Reached(n', s, LastRevision(n, s).value))
  }

  lemma JobEvolves(n: Net, n': Net, j: nat, job: Job)
    requires JobOk(n, j, job) && Evolves(n, n')
    requires Holds(job.at) ==> job.at.lock in n'.holder && n'.holder[job.at.lock] == n.holder[job.at.lock]
    requires job.at.Transmitting? ==> LastRevision(n', job.at.socket) == LastRevision(n, job.at.socket)
    ensures JobOk(n', j, job)
  {
  }

  /** All jobs but `j` come through a step that leaves their locks and frames alone. */
  lemma JobsEvolve(n: Net, n': Net, j: nat)
    requires JobsInv(n) && Evolves(n, n') && (j in n'.jobs ==> JobOk(n', j, n'.jobs[j]))
    requires forall i :: i in n'.jobs && i != j ==>
               i in n.jobs && n'.jobs[i] == n.jobs[i] && Untouched(n, n', n.jobs[i].at)
    ensures JobsInv(n')
  {
    forall i | i in n'.jobs ensures JobOk(n', i, n'.jobs[i]) {
      if i != j { JobEvolves(n, n', i, n.jobs[i]); }
    }
  }

  predicate Untouched(n: Net, n': Net, at: At) {
    && (Holds(at) ==> at.lock in n'.holder && at.lock in n.holder && n'.holder[at.lock] == n.holder[at.lock])
    && (at.Transmitting? ==> LastRevision(n', at.socket) == LastRevision(n, at.socket))
  }

  /** What has been sent stays right when nobody's record changes between sends. */
  lemma WireKeeps(n: Net, n': Net)
    requires WireInv(n) && n'.wire == n.wire
    requires forall s :: s in n.bound ==> s in n'.bound && n'.bound[s] == n.bound[s]
    requires forall s :: s in Here(n') && !InFlight(n', s) ==>
               s in Here(n) && !InFlight(n, s) && SeenRevision(n', s) == SeenRevision(n, s)
    ensures WireInv(n')
  {
    forall s | s in Here(n') && !InFlight(n', s) ensures SeenRevision(n', s) == LastRevision(n', s) {
      assert LastRevision(n', s) == LastRevision(n, s);
    }
  }

  lemma JobsHold(n: Net, i: nat)
    requires JobsInv(n) && i in n.jobs && Holds(n.jobs[i].at)
    ensures n.jobs[i].at.lock in n.holder && n.holder[n.jobs[i].at.lock] == Hold(i, n.jobs[i].at.Transmitting?)
  {
    assert JobOk(n, i, n.jobs[i]);
  }

  /** A step that changes only the hub, in ways the wires do not notice. */
  lemma HubKeeps(n: Net, n': Net)
    requires NetInv(n) && n' == n.(hub := n'.hub, owner := n'.owner) && HubInv(n') && Evolves(n, n')
    requires forall s :: s in Here(n') ==> SeenRevision(n', s) == SeenRevision(n, s)
    ensures NetInv(n')
  {
    JobsComeThrough(n, n');
    WireKeeps(n, n');
  }

  /** A step that only moves job `j`, which is not inside send_text, and touches no lock another holds. */
  lemma MoveKeeps(n: Net, n': Net, j: nat, job: Job)
    requires NetInv(n) && n' == n.(jobs := n.jobs[j := job], holder := n'.holder)
    requires j in n.jobs ==> !n.jobs[j].at.Transmitting?
    requires JobOk(n', j, job) && !job.at.Transmitting? && n'.holder.Keys <= n.owner.Keys
    requires forall l :: l in n.holder && n.holder[l].job != j ==> l in n'.holder && n'.holder[l] == n.holder[l]
    requires forall l :: l in n.holder && n.holder[l].sending ==> l in n'.holder && n'.holder[l].sending
    requires forall l :: l in n'.holder && n'.holder[l].sending ==> l in n.holder && n.holder[l].sending
    ensures NetInv(n')
  {
    SameHubEvolves(n, n');
    MoveKeepsJobs(n, n', j, job);
    WireKeeps(n, n');
  }

  lemma SameHubEvolves(n: Net, n': Net)
    requires HubInv(n)
    requires n'.room == n.room && n'.hub == n.hub && n'.owner == n.owner && n'.bound == n.bound && n'.wire == n.wire
    ensures Evolves(n, n') && Here(n') == Here(n)
  {
  }

  lemma MoveKeepsJobs(n: Net, n': Net, j: nat, job: Job)
    requires JobsInv(n) && Evolves(n, n') && n'.wire == n.wire && n'.jobs == n.jobs[j := job] && JobOk(n', j, job)
    requires forall l :: l in n.holder && n.holder[l].job != j ==> l in n'.holder && n'.holder[l] == n.holder[l]
    ensures JobsInv(n')
  {
    forall i | i in n'.jobs && i != j ensures Untouched(n, n', n.jobs[i].at) {
      if Holds(n.jobs[i].at) { JobsHold(n, i); }
    }
    JobsEvolve(n, n', j);
  }

  /** A job moves on without touching any lock. */
  lemma PlaceKeeps(n: Net, j: nat, job: Job)
    requires NetInv(n) && (j in n.jobs ==> !n.jobs[j].at.Transmitting?)
    requires JobOk(n, j, job) && !job.at.Transmitting?
    ensures NetInv(Put(n, j, job))
  {
    var n' := Put(n, j, job);
    SameHubEvolves(n, n');
    if Holds(job.at) { assert n'.holder == n.holder; }
    JobEvolves(n, n', j, job);
    MoveKeeps(n, n', j, job);
  }

  lemma DropHere(n: Net, s: Socket)
    ensures Here(Drop(n, s)) == Here(n) - {s}
  {
  }

  lemma DropKeeps(n: Net, s: Socket)
    requires NetInv(n)
    ensures NetInv(Drop(n, s)) && Evolves(n, Drop(n, s))
  {
    DropEvolves(n, s);
    hide Drop, Evolves, HubInv, WireInv, JobsInv;
    HubKeeps(n, Drop(n, s));
  }

  lemma DropEvolves(n: Net, s: Socket)
    requires HubInv(n)
    ensures var d := Drop(n, s);
            && HubInv(d) && Evolves(n, d) && d == n.(hub := d.hub, owner := d.owner)
            && (forall u :: u in Here(d) ==> SeenRevision(d, u) == SeenRevision(n, u))
  {
    DropHere(n, s);
  }

  lemma LockEvolves(n: Net, s: Socket)
    requires HubInv(n) && s in n.bound
    ensures HubInv(Locked(n, s)) && Evolves(n, Locked(n, s)) && Here(Locked(n, s)) == Here(n)
  {
    var n' := Locked(n, s);
    if s in n.hub.locks {
      assert n' == n;
    } else {
      assert n'.hub.locks == n.hub.locks[s := n.hub.nextLock] && n'.owner == n.owner[n.hub.nextLock := s];
      assert n'.wire == n.wire && Here(n') == Here(n) && s !in Here(n);
    }
    hide Locked, LastRevision, Here;
  }

  lemma LockKeeps(n: Net, s: Socket)
    requires NetInv(n) && s in n.bound
    ensures NetInv(Locked(n, s)) && Evolves(n, Locked(n, s)) && Here(Locked(n, s)) == Here(n)
  {
    LockEvolves(n, s);
    HubKeeps(n, Locked(n, s));
  }

  lemma NoteKeeps(n: Net, gen: Gen, revision: int)
    requires NetInv(n)
    ensures var n' := n.(hub := Note(n.hub, n.room, gen, revision)); NetInv(n') && Evolves(n, n')
  {
    var n' := n.(hub := Note(n.hub, n.room, gen, revision));
    assert Here(n') == Here(n);
    HubKeeps(n, n');
  }

  // ---------------------------------------------------------------- each step keeps it all

  lemma JoinEvolves(n: Net, s: Socket, gen: Gen)
    requires HubInv(n) && n.wire.Keys <= n.bound.Keys && s !in n.bound
    ensures var n' := StepJoin(n, s, gen);
            && HubInv(n') && Evolves(n, n') && Here(n') == Here(n)[s := gen]
            && n'.hub.seen == n.hub.seen - {s} && s !in n.wire && !InFlight(n', s)
            && (forall u :: u in n.hub.locks ==> u in n'.hub.locks && n'.hub.locks[u] == n.hub.locks[u])
  {
    var n' := StepJoin(n, s, gen);
    JoinedHub(n, s, gen);
    hide StepJoin, Connect;
    JoinedHubInv(n, n', s, gen);
    JoinedEvolves(n, n', s, gen);
    hide Evolves, Here;
    assert n.hub.nextLock !in n.holder;
    hide HubInv;
  }

  lemma JoinedHubInv(n: Net, n': Net, s: Socket, gen: Gen)
    requires HubInv(n) && s !in n.bound
    requires n'.hub.locks == n.hub.locks[s := n.hub.nextLock] && n'.hub.nextLock == n.hub.nextLock + 1
    requires Here(n') == Here(n)[s := gen]
    requires n' == n.(hub := n'.hub, bound := n.bound[s := gen], owner := n.owner[n.hub.nextLock := s])
    ensures HubInv(n')
  {
    hide Here;
  }

  lemma JoinedHub(n: Net, s: Socket, gen: Gen)
    requires HubInv(n) && s !in n.bound
    ensures var n' := StepJoin(n, s, gen);
            && n'.hub.locks == n.hub.locks[s := n.hub.nextLock] && n'.hub.nextLock == n.hub.nextLock + 1
            && n'.hub.seen == n.hub.seen - {s} && Here(n') == Here(n)[s := gen]
            && n' == n.(hub := n'.hub, bound := n.bound[s := gen], owner := n.owner[n.hub.nextLock := s])
  {
    assert s !in n.hub.locks;
  }

  lemma JoinedEvolves(n: Net, n': Net, s: Socket, gen: Gen)
    requires HubInv(n) && s !in n.bound
    requires n'.hub.locks == n.hub.locks[s := n.hub.nextLock] && n'.hub.nextLock == n.hub.nextLock + 1
    requires Here(n') == Here(n)[s := gen]
    requires n' == n.(hub := n'.hub, bound := n.bound[s := gen], owner := n.owner[n.hub.nextLock := s])
    ensures Evolves(n, n')
  {
    hide LastRevision;
    forall u | u in n.bound && LastRevision(n, u).Some? ensures Reached(n', u, LastRevision(n, u).value) {
      SameFrames(n, n', u);
    }
  }

  lemma JobsComeThrough(n: Net, n': Net)
    requires JobsInv(n) && Evolves(n, n') && n'.jobs == n.jobs && n'.holder == n.holder && n'.wire == n.wire
    ensures JobsInv(n')
  {
    forall j | j in n'.jobs ensures JobOk(n', j, n'.jobs[j]) {
      if Holds(n.jobs[j].at) { JobsHold(n, j); }
      JobEvolves(n, n', j, n.jobs[j]);
    }
  }

  lemma JoinKeeps(n: Net, s: Socket, gen: Gen)
    requires NetInv(n) && s !in n.bound
    ensures NetInv(StepJoin(n, s, gen))
  {
    var n' := StepJoin(n, s, gen);
    JoinEvolves(n, s, gen);
    assert n'.jobs == n.jobs && n'.holder == n.holder && n'.wire == n.wire && n'.bound == n.bound[s := gen];
    hide StepJoin, Evolves, HubInv;
    JobsComeThrough(n, n');
    hide JobsInv;
    JoinKeepsWire(n, n', s, gen);
  }

  lemma JoinKeepsWire(n: Net, n': Net, s: Socket, gen: Gen)
    requires WireInv(n) && s !in n.bound && n'.wire == n.wire && n'.holder == n.holder && n'.bound == n.bound[s := gen]
    requires Here(n') == Here(n)[s := gen] && n'.hub.seen == n.hub.seen - {s}
    requires forall u :: u in n.hub.locks ==> u in n'.hub.locks && n'.hub.locks[u] == n.hub.locks[u]
    ensures WireInv(n')
  {
    forall u | u in Here(n') && !InFlight(n', u) ensures SeenRevision(n', u) == LastRevision(n', u) {
      SameFrames(n, n', u);
      if u != s { assert u in Here(n) && !InFlight(n, u); }
    }
    hide LastRevision, Here;
  }

  lemma StartKeeps(n: Net, j: nat, job: Job)
    requires NetInv(n) && j !in n.jobs && job.at.Sweeping? && job.served == {} && job.todo <= n.bound.Keys
    requires job.first.Some? ==> job.first.value in n.bound
    ensures NetInv(Put(n, j, job))
  {
    MoveKeeps(n, Put(n, j, job), j, job);
  }

  /** A job takes up a target and queues for its lock. */
  lemma QueueKeeps(n: Net, j: nat, s: Socket, at: At)
    requires NetInv(n) && j in n.jobs && (n.jobs[j].at.Sweeping? || n.jobs[j].at.Sending?) && s in n.bound
    requires at == SweepWaiting(s, Locked(n, s).hub.locks[s])
             || (at == SendWaiting(s, Locked(n, s).hub.locks[s]) && n.bound[s] == n.jobs[j].gen)
    ensures NetInv(Put(Locked(n, s), j, n.jobs[j].(todo := n.jobs[j].todo - {s}, at := at)))
  {
    var m, job := Locked(n, s), n.jobs[j].(todo := n.jobs[j].todo - {s}, at := at);
    assert JobOk(n, j, n.jobs[j]);
    LockKeeps(n, s);
    JobEvolves(n, m, j, n.jobs[j]);
    PlaceKeeps(m, j, job);
  }

  lemma SweepPickKeeps(n: Net, j: nat, s: Socket)
    requires NetInv(n)
    ensures NetInv(StepSweepPick(n, j, s))
  {
    if j in n.jobs && n.jobs[j].at.Sweeping? && s in n.jobs[j].todo {
      assert JobOk(n, j, n.jobs[j]);
      QueueKeeps(n, j, s, SweepWaiting(s, Locked(n, s).hub.locks[s]));
    }
  }

  lemma SweepEnterKeeps(n: Net, j: nat)
    requires NetInv(n)
    ensures NetInv(StepSweepEnter(n, j))
  {
    if j in n.jobs && n.jobs[j].at.SweepWaiting? && n.jobs[j].at.lock !in n.holder {
      assert JobOk(n, j, n.jobs[j]);
      MoveKeeps(n, StepSweepEnter(n, j), j, StepSweepEnter(n, j).jobs[j]);
    }
  }

  lemma SweepClosedKeeps(n: Net, j: nat)
    requires NetInv(n)
    ensures NetInv(StepSweepClosed(n, j))
  {
    if j in n.jobs && n.jobs[j].at.SweepClosing? {
      hide Evolves, Drop, HubInv, JobsInv, WireInv, JobOk;
      DropKeeps(n, n.jobs[j].at.socket);
      DropsOnlyTheHub(n, n.jobs[j].at.socket);
      SweepClosedReleases(Drop(n, n.jobs[j].at.socket), StepSweepClosed(n, j), j);
    }
  }

  lemma DropsOnlyTheHub(n: Net, s: Socket)
    ensures var d := Drop(n, s);
            d.jobs == n.jobs && d.holder == n.holder && d.owner == n.owner && d.wire == n.wire && d.bound == n.bound
  {
  }

  lemma SweepClosedReleases(d: Net, n': Net, j: nat)
    requires NetInv(d) && j in d.jobs && d.jobs[j].at.SweepClosing?
    requires n' == Put(d, j, d.jobs[j].(at := Sweeping)).(holder := d.holder - {d.jobs[j].at.lock})
    ensures NetInv(n')
  {
    var job, next := d.jobs[j], d.jobs[j].(at := Sweeping);
    assert JobOk(d, j, job);
    SameHubEvolves(d, n');
    JobEvolves(d, n', j, next);
    MoveKeeps(d, n', j, next);
  }

  lemma SweepOverKeeps(n: Net, j: nat)
    requires NetInv(n)
    ensures NetInv(StepSweepOver(n, j))
  {
    if j in n.jobs && n.jobs[j].at.Sweeping? && n.jobs[j].todo == {} {
      var job, n' := n.jobs[j], StepSweepOver(n, j);
      assert JobOk(n, j, job);
      if n'.hub == n.hub {
        assert JobOk(n, j, n'.jobs[j]);
        hide JobOk, NetInv;
        PlaceKeeps(n, j, n'.jobs[j]);
      } else {
        BroadcastStarts(n, j);
      }
    }
  }

  lemma BroadcastStarts(n: Net, j: nat)
    requires NetInv(n) && j in n.jobs && n.jobs[j].at.Sweeping? && n.jobs[j].first.None?
    ensures var job, m := n.jobs[j], n.(hub := Note(n.hub, n.room, n.jobs[j].gen, n.jobs[j].revision));
            NetInv(Put(m, j, job.(todo := Here(n).Keys, at := Sending)))
  {
    hide Note, WireInv, Evolves;
    var job, m := n.jobs[j], n.(hub := Note(n.hub, n.room, n.jobs[j].gen, n.jobs[j].revision));
    assert JobOk(n, j, job);
    NoteKeeps(n, job.gen, job.revision);
    JobEvolves(n, m, j, job);
    assert Here(n).Keys <= n.bound.Keys;
    hide HubInv, Here;
    PlaceKeeps(m, j, job.(todo := Here(n).Keys, at := Sending));
  }

  lemma SendPickKeeps(n: Net, j: nat, s: Socket)
    requires NetInv(n)
    ensures NetInv(StepSendPick(n, j, s))
  {
    if j in n.jobs && n.jobs[j].at.Sending? && s in n.jobs[j].todo {
      var n' := StepSendPick(n, j, s);
      assert JobOk(n, j, n.jobs[j]);
      if SendEntry(n.hub, n.room, s, n.jobs[j].gen).Wait? {
        assert s in Here(n) && n.bound[s] == n.jobs[j].gen;
        hide NetInv, JobOk;
        QueueKeeps(n, j, s, SendWaiting(s, Locked(n, s).hub.locks[s]));
      } else {
        assert JobOk(n, j, n'.jobs[j]);
        hide JobOk, NetInv;
        PlaceKeeps(n, j, n'.jobs[j]);
      }
    }
  }

  lemma RejectedKeeps(n: Net, j: nat)
    requires NetInv(n)
    ensures NetInv(StepRejected(n, j))
  {
    if j in n.jobs && n.jobs[j].at.Rejecting? {
      hide Evolves, Drop, HubInv, JobsInv, WireInv, JobOk;
      var s := n.jobs[j].at.socket;
      DropHere(n, s);
      DropKeeps(n, s);
      DropsOnlyTheHub(n, s);
      RejectedIsServed(Drop(n, s), j, s);
      PlaceKeeps(Drop(n, s), j, Served(n.jobs[j], s));
    }
  }

  lemma RejectedIsServed(d: Net, j: nat, s: Socket)
    requires JobsInv(d) && j in d.jobs && d.jobs[j].at == Rejecting(s) && s !in Here(d)
    ensures JobOk(d, j, Served(d.jobs[j], s))
  {
    assert JobOk(d, j, d.jobs[j]);
  }

  lemma AppendFrame(frames: seq<Frame>, f: Frame)
    requires Rising(frames) && Labelled(frames, f.gen)
    requires frames == [] || frames[|frames| - 1].revision < f.revision
    ensures Rising(frames + [f]) && Labelled(frames + [f], f.gen)
    ensures (frames + [f])[|frames + [f]| - 1] == f
  {
    if frames != [] {
      forall i | 0 <= i < |frames| ensures frames[i].revision < f.revision {
        if i < |frames| - 1 { assert frames[i].revision < frames[|frames| - 1].revision; }
      }
    }
  }

  /** The socket is connected and its lock is free, so nobody is inside send_text for it. */
  predicate MayTransmit(n: Net, j: nat) {
    && j in n.jobs && n.jobs[j].at.SendWaiting? && n.jobs[j].at.lock !in n.holder
    && SendLocked(n.hub, n.room, n.jobs[j].at.socket, n.jobs[j].gen, n.jobs[j].revision).Transmit?
  }

  lemma TransmitFrames(n: Net, j: nat)
    requires NetInv(n) && MayTransmit(n, j)
    ensures var n', s := StepSendEnter(n, j), n.jobs[j].at.socket;
            && n'.wire == n.wire[s := n'.wire[s]]
            && Rising(n'.wire[s]) && Labelled(n'.wire[s], n.bound[s])
            && LastRevision(n', s) == Some(n.jobs[j].revision)
            && (LastRevision(n, s).Some? ==> LastRevision(n, s).value <= n.jobs[j].revision)
            && s in Here(n) && !InFlight(n, s)
  {
    var job := n.jobs[j];
    var s := job.at.socket;
    assert JobOk(n, j, job);
    assert !InFlight(n, s);
    assert SeenRevision(n, s) == LastRevision(n, s);
    AppendFrame(Wire(n, s), Frame(job.gen, job.revision));
  }

  lemma FrameEvolves(n: Net, n': Net, s: Socket)
    requires HubInv(n)
    requires n'.room == n.room && n'.hub == n.hub && n'.owner == n.owner && n'.bound == n.bound
    requires s in n'.wire && n'.wire == n.wire[s := n'.wire[s]]
    requires LastRevision(n, s).Some? ==> Reached(n', s, LastRevision(n, s).value)
    ensures Evolves(n, n') && Here(n') == Here(n)
  {
  }

  lemma TransmitEvolves(n: Net, j: nat)
    requires NetInv(n) && MayTransmit(n, j)
    ensures var n', s := StepSendEnter(n, j), n.jobs[j].at.socket;
            && HubInv(n') && Evolves(n, n') && n'.hub == n.hub
            && n'.wire == n.wire[s := n'.wire[s]]
            && Rising(n'.wire[s]) && Labelled(n'.wire[s], n.bound[s])
            && LastRevision(n', s) == Some(n.jobs[j].revision)
            && s in Here(n) && !InFlight(n, s)
  {
    TransmitFrames(n, j);
    FrameEvolves(n, StepSendEnter(n, j), n.jobs[j].at.socket);
    assert JobOk(n, j, n.jobs[j]);
  }

  lemma TransmitKeeps(n: Net, j: nat)
    requires NetInv(n) && MayTransmit(n, j)
    ensures NetInv(StepSendEnter(n, j))
  {
    var n', job := StepSendEnter(n, j), n.jobs[j];
    var s := job.at.socket;
    TransmitEvolves(n, j);
    TransmitKeepsJobs(n, j);
    assert JobOk(n, j, job);
    assert n'.holder == n.holder[job.at.lock := Hold(j, true)] && n'.bound == n.bound && n'.room == n.room;
    hide StepSendEnter, JobsInv, JobOk, HubInv;
    WireAfterTransmit(n, n', s, job.at.lock);
  }

  lemma WireAfterTransmit(n: Net, n': Net, s: Socket, lock: nat)
    requires WireInv(n) && n'.hub == n.hub && n'.bound == n.bound && n'.room == n.room
    requires s in Here(n) && s in n.bound && s in n.hub.locks && n.hub.locks[s] == lock && lock !in n.holder
    requires lock in n'.holder && n'.holder[lock].sending
    requires forall l :: l in n.holder ==> l in n'.holder && n'.holder[l] == n.holder[l]
    requires s in n'.wire && n'.wire == n.wire[s := n'.wire[s]]
    requires Rising(n'.wire[s]) && Labelled(n'.wire[s], n.bound[s])
    ensures WireInv(n')
  {
    assert InFlight(n', s);
    forall u | u in Here(n') && !InFlight(n', u) ensures SeenRevision(n', u) == LastRevision(n', u) {
      assert u in Here(n) && !InFlight(n, u);
      hide InFlight, SeenRevision;
      OtherFrames(n, n', s, u);
    }
    hide LastRevision, InFlight, Here;
  }

  lemma OtherFrames(n: Net, n': Net, s: Socket, u: Socket)
    requires u != s && s in n'.wire && n'.wire == n.wire[s := n'.wire[s]]
    ensures LastRevision(n', u) == LastRevision(n, u)
  {
  }

  lemma TransmitKeepsJobs(n: Net, j: nat)
    requires NetInv(n) && MayTransmit(n, j)
    ensures JobsInv(StepSendEnter(n, j))
  {
    var n', s := StepSendEnter(n, j), n.jobs[j].at.socket;
    TransmitEvolves(n, j);
    assert JobOk(n, j, n.jobs[j]);
    JobEvolves(n, n', j, n.jobs[j]);
    forall i | i in n.jobs && i != j ensures Untouched(n, n', n.jobs[i].at) {
      if Holds(n.jobs[i].at) { OtherUntouched(n, n', s, n.jobs[j].at.lock, i); }
    }
    hide Evolves, HubInv, WireInv, Untouched, LastRevision;
    JobsEvolve(n, n', j);
  }

  lemma OtherUntouched(n: Net, n': Net, s: Socket, lock: nat, i: nat)
    requires JobsInv(n) && i in n.jobs && Holds(n.jobs[i].at)
    requires s in Here(n) && s in n.hub.locks && n.hub.locks[s] == lock && lock !in n.holder
    requires lock in n'.holder && n'.holder == n.holder[lock := n'.holder[lock]]
    requires s in n'.wire && n'.wire == n.wire[s := n'.wire[s]]
    ensures Untouched(n, n', n.jobs[i].at)
  {
    assert JobOk(n, i, n.jobs[i]);
    JobsHold(n, i);
    if n.jobs[i].at.socket != s { OtherFrames(n, n', s, n.jobs[i].at.socket); }
  }

  lemma SendEnterKeeps(n: Net, j: nat)
    requires NetInv(n)
    ensures NetInv(StepSendEnter(n, j))
  {
    if MayTransmit(n, j) {
      TransmitKeeps(n, j);
    } else if j in n.jobs && n.jobs[j].at.SendWaiting? && n.jobs[j].at.lock !in n.holder {
      var job := n.jobs[j];
      var s := job.at.socket;
      assert JobOk(n, j, job);
      if s in Here(n) {
        assert !InFlight(n, s);
        assert SeenRevision(n, s) == LastRevision(n, s);
      }
      assert s in Here(n) ==> Reached(n, s, job.revision);
      MoveKeeps(n, StepSendEnter(n, j), j, Served(job, s));
    }
  }

  lemma ReturnEvolves(n: Net, j: nat, ok: bool)
    requires NetInv(n) && j in n.jobs && n.jobs[j].at.Transmitting?
    ensures var n', s := StepSendReturns(n, j, ok), n.jobs[j].at.socket;
            && HubInv(n') && Evolves(n, n') && n'.wire == n.wire
            && Here(n') == (if ok then Here(n) else Here(n) - {s})
            && (forall u :: u in Here(n') && u != s ==> SeenRevision(n', u) == SeenRevision(n, u))
            && (s in Here(n') ==> SeenRevision(n', s) == Some(n.jobs[j].revision))
  {
    if ok { ReturnOk(n, j); } else { ReturnFailed(n, j); }
  }

  lemma ReturnOk(n: Net, j: nat)
    requires NetInv(n) && j in n.jobs && n.jobs[j].at.Transmitting?
    ensures var n' := StepSendReturns(n, j, true);
            HubInv(n') && Evolves(n, n') && Here(n') == Here(n)
  {
    SameSocketsEvolve(n, StepSendReturns(n, j, true));
  }

  lemma ReturnFailed(n: Net, j: nat)
    requires NetInv(n) && j in n.jobs && n.jobs[j].at.Transmitting?
    ensures var n', s := StepSendReturns(n, j, false), n.jobs[j].at.socket;
            HubInv(n') && Evolves(n, n') && Here(n') == Here(n) - {s}
  {
    var s := n.jobs[j].at.socket;
    DropKeeps(n, s);
    DropHere(n, s);
    LikewiseEvolves(n, Drop(n, s), StepSendReturns(n, j, false));
  }

  /** A net that differs from one already reached only in its jobs and in locks given back. */
  lemma LikewiseEvolves(n: Net, d: Net, n': Net)
    requires Evolves(n, d) && HubInv(d) && n'.holder.Keys <= d.holder.Keys
    requires n'.room == d.room && n'.hub == d.hub && n'.owner == d.owner && n'.bound == d.bound && n'.wire == d.wire
    ensures HubInv(n') && Evolves(n, n') && Here(n') == Here(d)
  {
    SameHubEvolves(d, n');
  }

  lemma SameSocketsEvolve(n: Net, n': Net)
    requires HubInv(n)
    requires n'.room == n.room && n'.hub.rooms == n.hub.rooms && n'.hub.locks == n.hub.locks
    requires n'.hub.nextLock == n.hub.nextLock && n'.holder.Keys <= n.holder.Keys
    requires n'.owner == n.owner && n'.bound == n.bound && n'.wire == n.wire
    ensures HubInv(n') && Evolves(n, n') && Here(n') == Here(n)
  {
    assert Here(n') == Here(n);
  }

  lemma ReturnServes(n: Net, n': Net, j: nat)
    requires JobsInv(n) && j in n.jobs && n.jobs[j].at.Transmitting?
    requires Evolves(n, n') && n'.wire == n.wire
    ensures JobOk(n', j, Served(n.jobs[j], n.jobs[j].at.socket))
  {
    var job, s := n.jobs[j], n.jobs[j].at.socket;
    assert JobOk(n, j, job);
    assert LastRevision(n', s) == LastRevision(n, s);
    forall u | u in job.served && u in Here(n') ensures Reached(n', u, job.revision) {
      assert u in Here(n) && Reached(n, u, job.revision) && LastRevision(n', u) == LastRevision(n, u);
    }
  }

  lemma SendReturnsKeeps(n: Net, j: nat, ok: bool)
    requires NetInv(n) && j in n.jobs && n.jobs[j].at.Transmitting?
    ensures NetInv(StepSendReturns(n, j, ok))
  {
    var n' := StepSendReturns(n, j, ok);
    JobsHold(n, j);
    ReturnEvolves(n, j, ok);
    ReturnServes(n, n', j);
    MoveKeepsJobs(n, n', j, n'.jobs[j]);
    ReturnKeepsWire(n, j, ok);
  }

  lemma ReturnKeepsWire(n: Net, j: nat, ok: bool)
    requires NetInv(n) && j in n.jobs && n.jobs[j].at.Transmitting?
    ensures WireInv(StepSendReturns(n, j, ok))
  {
    var n', job := StepSendReturns(n, j, ok), n.jobs[j];
    var s := job.at.socket;
    ReturnEvolves(n, j, ok);
    assert JobOk(n, j, job);
    hide StepSendReturns, JobsInv;
    forall u | u in Here(n') && u != s && !InFlight(n', u) ensures u in Here(n) && !InFlight(n, u) {
      StillInFlight(n, n', u, s, job.at.lock);
    }
    WireAfterReturn(n, n', s);
  }

  /** Giving back the lock of `s` does not touch another socket's. */
  lemma StillInFlight(n: Net, n': Net, u: Socket, s: Socket, lock: nat)
    requires HubInv(n) && Evolves(n, n') && u in Here(n') && u in n.bound && u != s
    requires lock in n.owner && n.owner[lock] == s && n'.holder == n.holder - {lock}
    ensures u in Here(n) && (InFlight(n, u) ==> InFlight(n', u))
  {
    assert n.owner[n.hub.locks[u]] == u;
  }

  lemma WireAfterReturn(n: Net, n': Net, s: Socket)
    requires WireInv(n) && n'.wire == n.wire && s in n.bound
    requires forall u :: u in n.bound ==> u in n'.bound && n'.bound[u] == n.bound[u]
    requires s in Here(n') ==> SeenRevision(n', s) == LastRevision(n, s)
    requires forall u :: u in Here(n') && u != s && !InFlight(n', u) ==>
               u in Here(n) && !InFlight(n, u) && SeenRevision(n', u) == SeenRevision(n, u)
    ensures WireInv(n')
  {
    hide InFlight, SeenRevision;
    forall u | u in Here(n') && !InFlight(n', u) ensures SeenRevision(n', u) == LastRevision(n', u) {
      SameFrames(n, n', u);
    }
  }

  lemma SameFrames(n: Net, n': Net, u: Socket)
    requires n'.wire == n.wire
    ensures LastRevision(n', u) == LastRevision(n, u)
  {
  }

  lemma StepKeeps(n: Net, a: Action)
    requires NetInv(n)
    ensures NetInv(Step(n, a))
  {
    match a
    case Join(s, gen) => if s !in n.bound { JoinKeeps(n, s, gen); }
    case Leave(s) => DropKeeps(n, s);
    case Broadcast(j, gen, revision) =>
      if !(j in n.jobs || n.room !in n.hub.rooms) {
        StartKeeps(n, j, Job(gen, revision, None, Mismatched(n, gen), {}, Sweeping));
      }
    case FirstSend(j, s, revision) =>
      if !(j in n.jobs || s !in n.bound) {
        StartKeeps(n, j, Job(n.bound[s], revision, Some(s), Mismatched(n, n.bound[s]), {}, Sweeping));
      }
    case SweepPick(j, s) => SweepPickKeeps(n, j, s);
    case SweepEnter(j) => SweepEnterKeeps(n, j);
    case SweepClosed(j) => SweepClosedKeeps(n, j);
    case SweepOver(j) => SweepOverKeeps(n, j);
    case SendPick(j, s) => SendPickKeeps(n, j, s);
    case Rejected(j) => RejectedKeeps(n, j);
    case SendEnter(j) => SendEnterKeeps(n, j);
    case SendReturns(j, ok) => if j in n.jobs && n.jobs[j].at.Transmitting? { SendReturnsKeeps(n, j, ok); }
  }

  lemma {:induction false} NetAlways(room: Room, acts: seq<Action>)
    ensures NetInv(Play(room, acts))
  {
    if acts != [] {
      NetAlways(room, acts[..|acts| - 1]);
      StepKeeps(Play(room, acts[..|acts| - 1]), acts[|acts| - 1]);
    }
  }

  // ---------------------------------------------------------------- theorems

  /** Under any interleaving, what a socket is sent rises strictly and is all of its own generation. */
  lemma SocketsSeeRisingRevisions(room: Room, acts: seq<Action>, s: Socket)
    ensures var n := Play(room, acts);
            s in n.wire ==> s in n.bound && Rising(n.wire[s]) && Labelled(n.wire[s], n.bound[s])
  {
    NetAlways(room, acts);
  }

  /** A finished target is up to date: while it stays connected, its last frame is at least the
      revision of the job that is done with it, whether the job sent it or left it to a newer one. */
  lemma ServedSocketsAreUpToDate(room: Room, acts: seq<Action>, j: nat, s: Socket)
    ensures var n := Play(room, acts);
            j in n.jobs && s in n.jobs[j].served && s in Here(n) ==> Reached(n, s, n.jobs[j].revision)
  {
    NetAlways(room, acts);
    var n := Play(room, acts);
    if j in n.jobs { assert JobOk(n, j, n.jobs[j]); }
  }

  predicate GenerationPresent(n: Net, gen: Gen) {
    exists s :: s in Here(n) && Here(n)[s] == gen
  }

  lemma DropKeepsMark(n: Net, s: Socket, u: Socket)
    requires u in Here(Drop(n, s))
    requires (n.room, Here(Drop(n, s))[u]) in n.hub.mark
    ensures var k := (n.room, Here(Drop(n, s))[u]);
            k in Drop(n, s).hub.mark && Drop(n, s).hub.mark[k] == n.hub.mark[k]
  {
    DropHere(n, s);
    assert (Here(n) - {s})[u] == Here(n)[u];
  }

  /** The watermark is there and no lower. */
  predicate MarkHolds(n: Net, n': Net, gen: Gen) {
    && (n.room, gen) in n.hub.mark && (n.room, gen) in n'.hub.mark
    && n'.hub.mark[(n.room, gen)] >= n.hub.mark[(n.room, gen)]
  }

  predicate Sweeps(a: Action) { a.SweepPick? || a.SweepEnter? || a.SweepClosed? || a.SweepOver? }

  lemma SweepKeepsMark(n: Net, a: Action, gen: Gen)
    requires Sweeps(a) && (n.room, gen) in n.hub.mark && GenerationPresent(Step(n, a), gen)
    ensures MarkHolds(n, Step(n, a), gen)
  {
    var u :| u in Here(Step(n, a)) && Here(Step(n, a))[u] == gen;
    if a.SweepClosed? && a.job in n.jobs && n.jobs[a.job].at.SweepClosing? {
      DropKeepsMark(n, n.jobs[a.job].at.socket, u);
    }
    hide Disconnect, Outdated, Mismatched;
  }

  lemma SendKeepsMark(n: Net, a: Action, gen: Gen)
    requires a.SendPick? || a.Rejected? || a.SendEnter? || a.SendReturns?
    requires (n.room, gen) in n.hub.mark && GenerationPresent(Step(n, a), gen)
    ensures MarkHolds(n, Step(n, a), gen)
  {
    var u :| u in Here(Step(n, a)) && Here(Step(n, a))[u] == gen;
    if a.Rejected? && a.job in n.jobs && n.jobs[a.job].at.Rejecting? {
      DropKeepsMark(n, n.jobs[a.job].at.socket, u);
    } else if a.SendReturns? && a.job in n.jobs && n.jobs[a.job].at.Transmitting? && !a.ok {
      DropKeepsMark(n, n.jobs[a.job].at.socket, u);
    }
    hide Disconnect, SendEntry, SendLocked;
  }

  /** The watermark of a generation never falls, or vanishes, while a socket of it is connected. */
  lemma WatermarkHolds(n: Net, a: Action, gen: Gen)
    requires (n.room, gen) in n.hub.mark && GenerationPresent(Step(n, a), gen)
    ensures MarkHolds(n, Step(n, a), gen)
  {
    if Sweeps(a) { SweepKeepsMark(n, a, gen); }
    else if a.SendPick? || a.Rejected? || a.SendEnter? || a.SendReturns? { SendKeepsMark(n, a, gen); }
    else {
      var u :| u in Here(Step(n, a)) && Here(Step(n, a))[u] == gen;
      if a.Leave? { DropKeepsMark(n, a.socket, u); }
      hide Disconnect, Mismatched;
    }
  }
}

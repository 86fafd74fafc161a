/**
 The locked sends of one worker (`Delivery`) refine the one-step sends of `Convergence`: a send takes
 effect when it returns, or when it finds nothing to do.

 What the endpoints do (joining, leaving, starting a job) is not the sends' business and is the same
 in both. Within one generation nothing is swept.
 */
module Atomicity {
  import opened Common
  import opened Connections
  import D = Delivery
  import C = Convergence

  // ---------------------------------------------------------------- one generation

  /** Every join and every broadcast of the run is of the one generation. */
  predicate OneGeneration(acts: seq<D.Action>) {
    forall i :: 0 <= i < |acts| ==>
      && (acts[i].Join? ==> acts[i].gen == C.GEN)
      && (acts[i].Broadcast? ==> acts[i].gen == C.GEN && acts[i].revision >= 0)
      && (acts[i].FirstSend? ==> acts[i].revision >= 0)
  }

  predicate Pending(at: D.At) { at.SendWaiting? || at.Transmitting? }

  predicate JobAlike(job: D.Job) {
    && job.gen == C.GEN && job.revision >= 0
    && (job.at.Sweeping? || job.at.Sending? || Pending(job.at) || job.at.Over?)
    && (job.at.Sweeping? ==> job.todo == {} && job.served == {})
    && (Pending(job.at) ==> job.at.socket !in job.todo)
    && (job.first.Some? ==> FirstAlike(job, job.first.value))
  }

  /** A first send has its one socket before it, in hand, or behind it. */
  predicate FirstAlike(job: D.Job, s: Socket) {
    && !job.at.Over?
    && (job.at.Sending? ==> (job.todo == {s} && job.served == {}) || (job.todo == {} && job.served == {s}))
    && (Pending(job.at) ==> job.at.socket == s && job.todo == {} && job.served == {})
  }

  predicate Alike(n: D.Net) {
    && (forall s :: s in n.bound ==> n.bound[s] == C.GEN)
    && (forall j :: j in n.jobs ==> JobAlike(n.jobs[j]))
  }

  /** While a frame is on its way nobody else records anything for its socket. */
  predicate FlightOk(n: D.Net, j: nat) {
    j in n.jobs && n.jobs[j].at.Transmitting? && n.jobs[j].at.socket in D.Here(n) ==>
      SendLocked(n.hub, n.room, n.jobs[j].at.socket, n.jobs[j].gen, n.jobs[j].revision).Transmit?
  }

  predicate FlightsOk(n: D.Net) {
    forall j :: j in n.jobs ==> FlightOk(n, j)
  }

  predicate Ready(n: D.Net) {
    D.NetInv(n) && Alike(n) && FlightsOk(n) && n.room == C.ROOM
  }

  // ---------------------------------------------------------------- the simulation

  /** The task that stands for a job, which need not say whether it will publish. */
  predicate StandsFor(job: D.Job, w: C.World, j: nat, k: C.Worker) {
    if job.first.Some? then
      job.first.value !in job.served ==>
        && j in w.tasks && w.tasks[j].Greeting? && w.tasks[j].worker == k
        && w.tasks[j].socket == job.first.value && w.tasks[j].revision == job.revision
    else
      match job.at
      case Sweeping =>
        j in w.tasks && w.tasks[j].Broadcasting? && w.tasks[j].worker == k && w.tasks[j].revision == job.revision
      case Sending => job.todo != {} ==> Tells(w, j, k, job.revision, job.todo)
      case SendWaiting(s, _) => Tells(w, j, k, job.revision, job.todo + {s})
      case Transmitting(s, _) => Tells(w, j, k, job.revision, job.todo + {s})
      case _ => true
  }

  predicate Tells(w: C.World, j: nat, k: C.Worker, revision: int, todo: set<Socket>) {
    && j in w.tasks && w.tasks[j].Telling? && w.tasks[j].worker == k
    && w.tasks[j].revision == revision && w.tasks[j].todo == todo
  }

  /** Worker `k` of the world is this net. */
  predicate Matches(n: D.Net, w: C.World, k: C.Worker) {
    && C.At(w, k).hub == n.hub
    && forall j :: j in n.jobs ==> StandsFor(n.jobs[j], w, j, k)
  }

  predicate OfJob(a: D.Action) {
    !(a.Join? || a.Leave? || a.Broadcast? || a.FirstSend?)
  }

  function Ends(job: D.Job, j: nat, s: Socket, outcome: C.Outcome): C.Action {
    if job.first.Some? then C.Greet(j, outcome) else C.Tell(j, s, outcome)
  }

  /** The step of the world that a step of the net is, if it is one. */
  function Linear(n: D.Net, a: D.Action): Option<C.Action> {
    match a
    case SweepOver(j) =>
      if j in n.jobs && n.jobs[j].at.Sweeping? && n.jobs[j].todo == {} && n.jobs[j].first.None?
      then Some(C.Start(j)) else None
    case SendPick(j, s) =>
      if j in n.jobs && n.jobs[j].at.Sending? && s in n.jobs[j].todo && s !in D.Here(n)
      then Some(Ends(n.jobs[j], j, s, C.Settled)) else None
    case SendEnter(j) =>
      if j in n.jobs && n.jobs[j].at.SendWaiting? && n.jobs[j].at.lock !in n.holder && !D.MayTransmit(n, j)
      then Some(Ends(n.jobs[j], j, n.jobs[j].at.socket, C.Settled)) else None
    case SendReturns(j, ok) =>
      if j in n.jobs && n.jobs[j].at.Transmitting? then
        var s := n.jobs[j].at.socket;
        Some(Ends(n.jobs[j], j, s, if !ok then C.Broken else if s in D.Here(n) then C.Settled else C.Late))
      else None
    case _ => None
  }

  function Follow(w: C.World, n: D.Net, a: D.Action): C.World {
    if Linear(n, a).Some? then C.Step(w, Linear(n, a).value) else w
  }

  // ---------------------------------------------------------------- steps stay alike

  lemma SameGeneration(n: D.Net)
    requires D.HubInv(n) && Alike(n)
    ensures forall gen :: gen == C.GEN ==> D.Mismatched(n, gen) == {}
  {
  }

  lemma StartsAlike(n: D.Net, a: D.Action)
    requires D.HubInv(n) && Alike(n) && OneGeneration([a]) && !OfJob(a)
    ensures Alike(D.Step(n, a))
  {
    SameGeneration(n);
    assert [a][0] == a;
  }

  /** A step of a coroutine moves one job; only entering the lock puts a frame on its way. */
  predicate MovesOne(n: D.Net, n': D.Net, a: D.Action, j: nat) {
    && n'.room == n.room && n'.bound == n.bound
    && (n'.jobs == n.jobs || (j in n.jobs && j in n'.jobs && n'.jobs == n.jobs[j := n'.jobs[j]]))
    && (n'.jobs != n.jobs && n'.jobs[j].at.Transmitting? ==> a == D.SendEnter(j) && D.MayTransmit(n, j))
  }

  lemma SweepPickMovesOne(n: D.Net, a: D.Action)
    requires a.SweepPick? || a.SweepEnter?
    ensures MovesOne(n, D.Step(n, a), a, a.job)
  {
    hide WithLock, D.Here;
  }

  lemma SweepEndMovesOne(n: D.Net, a: D.Action)
    requires a.SweepClosed? || a.SweepOver?
    ensures MovesOne(n, D.Step(n, a), a, a.job)
  {
    hide Disconnect, Note, Outdated, D.Here;
  }

  lemma SweepMovesOne(n: D.Net, a: D.Action)
    requires D.Sweeps(a)
    ensures MovesOne(n, D.Step(n, a), a, a.job)
  {
    hide D.Step, MovesOne;
    if a.SweepPick? || a.SweepEnter? { SweepPickMovesOne(n, a); } else { SweepEndMovesOne(n, a); }
  }

  lemma SendMovesOne(n: D.Net, a: D.Action)
    requires OfJob(a) && !D.Sweeps(a)
    ensures MovesOne(n, D.Step(n, a), a, a.job)
  {
    hide Disconnect, SendDone, WithLock, SendLocked, SendEntry;
  }

  lemma SweepStaysAlike(n: D.Net, a: D.Action)
    requires D.Sweeps(a) && a.job in n.jobs && JobAlike(n.jobs[a.job])
    ensures a.job in D.Step(n, a).jobs ==> JobAlike(D.Step(n, a).jobs[a.job])
  {
    hide Disconnect, Note, WithLock, Outdated, D.Mismatched;
  }

  lemma SendStaysAlike(n: D.Net, a: D.Action)
    requires OfJob(a) && !D.Sweeps(a) && a.job in n.jobs && JobAlike(n.jobs[a.job])
    requires a.SendPick? ==> !SendEntry(n.hub, n.room, a.socket, C.GEN).Mismatch?
    ensures a.job in D.Step(n, a).jobs ==> JobAlike(D.Step(n, a).jobs[a.job])
  {
    hide Disconnect, SendDone, WithLock, SendLocked, SendEntry;
  }

  lemma JobsAlike(n: D.Net, a: D.Action)
    requires D.HubInv(n) && Alike(n) && OfJob(a)
    ensures Alike(D.Step(n, a))
  {
    assert forall s :: s in D.Here(n) ==> D.Here(n)[s] == C.GEN;
    if D.Sweeps(a) {
      SweepMovesOne(n, a);
      if a.job in n.jobs { SweepStaysAlike(n, a); }
    } else {
      SendMovesOne(n, a);
      if a.job in n.jobs { SendStaysAlike(n, a); }
    }
    hide D.Step, D.HubInv, JobAlike;
  }

  // ---------------------------------------------------------------- frames on their way

  /** Two jobs never send to one connected socket at once. */
  lemma OneFlight(n: D.Net, i: nat, j: nat)
    requires D.NetInv(n) && i in n.jobs && j in n.jobs && n.jobs[i].at.Transmitting? && n.jobs[j].at.Transmitting?
    requires n.jobs[i].at.socket == n.jobs[j].at.socket && n.jobs[j].at.socket in D.Here(n)
    ensures i == j
  {
    assert D.JobOk(n, i, n.jobs[i]) && D.JobOk(n, j, n.jobs[j]);
  }

  /** The step records a revision for `s`, or takes it off. */
  predicate Records(n: D.Net, a: D.Action, s: Socket) {
    a.SendReturns? && a.job in n.jobs && n.jobs[a.job].at.Transmitting? && n.jobs[a.job].at.socket == s
  }

  /** Socket and record of `s` are what they were. */
  predicate Undisturbed(n: D.Net, n': D.Net, s: Socket) {
    && s in D.Here(n') && s in D.Here(n) && D.Here(n')[s] == D.Here(n)[s]
    && (s in n'.hub.seen <==> s in n.hub.seen)
    && (s in n.hub.seen ==> n'.hub.seen[s] == n.hub.seen[s])
  }

  lemma RecordStays(n: D.Net, a: D.Action, s: Socket)
    requires s in n.bound && s in D.Here(D.Step(n, a)) && !Records(n, a, s)
    ensures Undisturbed(n, D.Step(n, a), s)
  {
    if OfJob(a) && D.Sweeps(a) { SweepRecords(n, a, s); }
    else if OfJob(a) { SendRecords(n, a, s); }
    else if a.Leave? { DropStays(n, a.socket, s); }
    hide Disconnect, SendDone, SendLocked, SendEntry, Outdated, D.Mismatched, Note;
  }

  lemma SweepRecords(n: D.Net, a: D.Action, s: Socket)
    requires s in n.bound && s in D.Here(D.Step(n, a)) && D.Sweeps(a)
    ensures Undisturbed(n, D.Step(n, a), s)
  {
    if a.SweepClosed? && a.job in n.jobs && n.jobs[a.job].at.SweepClosing? {
      DropStays(n, n.jobs[a.job].at.socket, s);
    }
    hide Disconnect, Outdated, D.Mismatched;
  }

  lemma SendRecords(n: D.Net, a: D.Action, s: Socket)
    requires s in n.bound && s in D.Here(D.Step(n, a)) && OfJob(a) && !D.Sweeps(a) && !Records(n, a, s)
    ensures Undisturbed(n, D.Step(n, a), s)
  {
    if a.Rejected? && a.job in n.jobs && n.jobs[a.job].at.Rejecting? { DropStays(n, n.jobs[a.job].at.socket, s); }
    if a.SendReturns? && a.job in n.jobs && n.jobs[a.job].at.Transmitting? && !a.ok {
      DropStays(n, n.jobs[a.job].at.socket, s);
    }
    hide Disconnect, SendLocked, SendEntry;
  }

  lemma DropStays(n: D.Net, u: Socket, s: Socket)
    requires s in D.Here(D.Drop(n, u))
    ensures s in D.Here(n) && D.Here(D.Drop(n, u))[s] == D.Here(n)[s] && s != u
    ensures D.Drop(n, u).hub.seen == n.hub.seen || D.Drop(n, u).hub.seen == n.hub.seen - {u}
  {
    D.DropHere(n, u);
  }

  lemma ReturnIsOver(n: D.Net, a: D.Action, s: Socket)
    requires Records(n, a, s)
    ensures var n' := D.Step(n, a);
            n'.jobs[a.job].at.Sending? && (s in D.Here(n') ==> s in D.Here(n))
  {
    if !a.ok { D.DropHere(n, s); }
  }

  lemma FlightKept(n: D.Net, a: D.Action, j: nat)
    requires D.NetInv(n) && j in n.jobs && FlightOk(n, j)
    requires j in D.Step(n, a).jobs && D.Step(n, a).jobs[j] == n.jobs[j]
    ensures FlightOk(D.Step(n, a), j)
  {
    var n' := D.Step(n, a);
    if n.jobs[j].at.Transmitting? && n.jobs[j].at.socket in D.Here(n') {
      hide D.Step, D.WireInv, D.HubInv;
      var s := n.jobs[j].at.socket;
      assert s in n.bound by { assert D.JobOk(n, j, n.jobs[j]); }
      hide D.JobsInv;
      if Records(n, a, s) {
        ReturnIsOver(n, a, s);
        OneFlight(n, a.job, j);
      } else {
        RecordStays(n, a, s);
      }
    }
  }

  /** A job takes to the air only with a revision its socket has not seen. */
  lemma TakesOff(n: D.Net, a: D.Action, j: nat)
    requires j in D.Step(n, a).jobs && D.Step(n, a).jobs[j].at.Transmitting?
    requires j !in n.jobs || D.Step(n, a).jobs[j] != n.jobs[j]
    ensures FlightOk(D.Step(n, a), j)
  {
    if OfJob(a) {
      if D.Sweeps(a) { SweepMovesOne(n, a); } else { SendMovesOne(n, a); }
      if D.MayTransmit(n, j) { Entering(n, j); }
      hide D.Step;
    }
    hide Connect, Disconnect, D.Mismatched;
  }

  lemma Entering(n: D.Net, j: nat)
    requires D.MayTransmit(n, j)
    ensures FlightOk(D.StepSendEnter(n, j), j)
  {
  }

  lemma FlightsKept(n: D.Net, a: D.Action)
    requires D.NetInv(n) && FlightsOk(n)
    ensures FlightsOk(D.Step(n, a))
  {
    hide D.Step, D.NetInv;
    var n' := D.Step(n, a);
    forall j | j in n'.jobs ensures FlightOk(n', j) {
      if n'.jobs[j].at.Transmitting? {
        if j in n.jobs && n'.jobs[j] == n.jobs[j] { FlightKept(n, a, j); } else { TakesOff(n, a, j); }
      }
    }
  }

  lemma RoomStays(n: D.Net, a: D.Action)
    ensures D.Step(n, a).room == n.room
  {
    if OfJob(a) {
      if D.Sweeps(a) { SweepMovesOne(n, a); } else { SendMovesOne(n, a); }
      hide D.Step;
    }
    hide Connect, Disconnect, D.Mismatched;
  }

  lemma {:induction false} ReadyAlways(acts: seq<D.Action>)
    requires OneGeneration(acts)
    ensures Ready(D.Play(C.ROOM, acts))
  {
    if acts != [] {
      var before, a := acts[..|acts| - 1], acts[|acts| - 1];
      ReadyAlways(before);
      var n := D.Play(C.ROOM, before);
      assert OneGeneration([a]);
      D.StepKeeps(n, a);
      FlightsKept(n, a);
      RoomStays(n, a);
      if OfJob(a) { JobsAlike(n, a); } else { StartsAlike(n, a); }
      hide D.Step, D.NetInv, Alike, FlightsOk;
    }
  }

  // ---------------------------------------------------------------- each step is simulated

  /** What a step of job `j` may assume of the job and its task. */
  predicate Has(n: D.Net, w: C.World, k: C.Worker, j: nat) {
    && j in n.jobs && JobAlike(n.jobs[j]) && FlightOk(n, j) && n.room == C.ROOM
    && (forall s :: s in D.Here(n) ==> D.Here(n)[s] == C.GEN && s in n.hub.locks)
    && C.At(w, k).hub == n.hub && StandsFor(n.jobs[j], w, j, k)
  }

  lemma HasJob(n: D.Net, w: C.World, k: C.Worker, j: nat)
    requires Ready(n) && Matches(n, w, k) && j in n.jobs
    ensures Has(n, w, k, j)
  {
    assert D.JobOk(n, j, n.jobs[j]);
  }

  /** A step of one job and its task leaves the others alone. */
  lemma OthersStand(n: D.Net, n': D.Net, w: C.World, w': C.World, k: C.Worker, j: nat)
    requires Matches(n, w, k) && C.At(w', k).hub == n'.hub
    requires j in n'.jobs && n'.jobs == n.jobs[j := n'.jobs[j]] && StandsFor(n'.jobs[j], w', j, k)
    requires forall i :: i in w.tasks && i != j ==> i in w'.tasks && w'.tasks[i] == w.tasks[i]
    ensures Matches(n', w', k)
  {
  }

  /** The socket the job has in hand, or is about to pick. */
  predicate InHand(job: D.Job, s: Socket) {
    if Pending(job.at) then job.at.socket == s else job.at.Sending? && s in job.todo
  }

  function Behind(job: D.Job, s: Socket): D.Job {
    job.(todo := job.todo - {s}, served := job.served + {s}, at := D.Sending)
  }

  lemma EndStands(job: D.Job, w: C.World, k: C.Worker, j: nat, s: Socket, outcome: C.Outcome)
    requires JobAlike(job) && InHand(job, s) && StandsFor(job, w, j, k)
    ensures var w' := C.Step(w, Ends(job, j, s, outcome));
            && StandsFor(Behind(job, s), w', j, k)
            && C.At(w', k) == C.Ended(C.At(w, k), s, job.revision, outcome)
            && (forall i :: i in w.tasks && i != j ==> i in w'.tasks && w'.tasks[i] == w.tasks[i])
  {
    hide C.Ended;
    if job.first.None? && Pending(job.at) { assert job.todo + {s} - {s} == job.todo; }
  }

  /** A send that ends in the net ends in the world. */
  lemma EndMatches(n: D.Net, n': D.Net, w: C.World, k: C.Worker, j: nat, s: Socket, outcome: C.Outcome)
    requires Matches(n, w, k) && j in n.jobs && JobAlike(n.jobs[j]) && InHand(n.jobs[j], s)
    requires n'.jobs == n.jobs[j := Behind(n.jobs[j], s)]
    requires n'.hub == C.Ended(C.At(w, k), s, n.jobs[j].revision, outcome).hub
    ensures Matches(n', C.Step(w, Ends(n.jobs[j], j, s, outcome)), k)
  {
    hide C.Step, C.Ended, StandsFor, JobAlike, InHand, Behind;
    EndStands(n.jobs[j], w, k, j, s, outcome);
    OthersStand(n, n', w, C.Step(w, Ends(n.jobs[j], j, s, outcome)), k, j);
  }

  lemma SendReturnsRefines(n: D.Net, w: C.World, k: C.Worker, j: nat, ok: bool)
    requires Ready(n) && Matches(n, w, k)
    ensures Matches(D.StepSendReturns(n, j, ok), Follow(w, n, D.SendReturns(j, ok)), k)
  {
    if j in n.jobs && n.jobs[j].at.Transmitting? {
      HasJob(n, w, k, j);
      hide Ready, Matches, C.Step, StandsFor;
      var n', s := D.StepSendReturns(n, j, ok), n.jobs[j].at.socket;
      assert n'.jobs[j] == Behind(n.jobs[j], s) by { assert n.jobs[j].todo - {s} == n.jobs[j].todo; }
      EndMatches(n, n', w, k, j, s, if !ok then C.Broken else if s in D.Here(n) then C.Settled else C.Late);
    }
  }

  /** A send that finds its socket gone or up to date has ended where it stands. */
  lemma NothingToSend(n: D.Net, o: C.Office, j: nat)
    requires j in n.jobs && JobAlike(n.jobs[j]) && n.jobs[j].at.SendWaiting? && n.room == C.ROOM && o.hub == n.hub
    requires n.jobs[j].at.lock !in n.holder && !D.MayTransmit(n, j)
    ensures var n', s := D.StepSendEnter(n, j), n.jobs[j].at.socket;
            && n'.jobs == n.jobs[j := Behind(n.jobs[j], s)]
            && n'.hub == C.Ended(o, s, n.jobs[j].revision, C.Settled).hub
  {
    var s := n.jobs[j].at.socket;
    assert n.jobs[j].todo - {s} == n.jobs[j].todo;
  }

  lemma SendEnterRefines(n: D.Net, w: C.World, k: C.Worker, j: nat)
    requires Ready(n) && Matches(n, w, k)
    ensures Matches(D.StepSendEnter(n, j), Follow(w, n, D.SendEnter(j)), k)
  {
    if j in n.jobs && n.jobs[j].at.SendWaiting? && n.jobs[j].at.lock !in n.holder {
      HasJob(n, w, k, j);
      hide Ready, Matches, C.Step;
      var n', s := D.StepSendEnter(n, j), n.jobs[j].at.socket;
      if D.MayTransmit(n, j) {
        OthersStand(n, n', w, w, k, j);
      } else {
        NothingToSend(n, C.At(w, k), j);
        hide StandsFor, Has, D.StepSendEnter, C.Ended;
        EndMatches(n, n', w, k, j, s, C.Settled);
      }
    }
  }

  lemma SendPickRefines(n: D.Net, w: C.World, k: C.Worker, j: nat, s: Socket)
    requires Ready(n) && Matches(n, w, k)
    ensures Matches(D.StepSendPick(n, j, s), Follow(w, n, D.SendPick(j, s)), k)
  {
    if j in n.jobs && n.jobs[j].at.Sending? && s in n.jobs[j].todo {
      HasJob(n, w, k, j);
      hide Ready, Matches, C.Step;
      var n' := D.StepSendPick(n, j, s);
      if s in D.Here(n) {
        PickedStands(n.jobs[j], n'.jobs[j], w, k, j, s);
        OthersStand(n, n', w, w, k, j);
      } else {
        hide StandsFor;
        EndMatches(n, n', w, k, j, s, C.Settled);
      }
    }
  }

  lemma PickedStands(job: D.Job, job': D.Job, w: C.World, k: C.Worker, j: nat, s: Socket)
    requires JobAlike(job) && job.at.Sending? && s in job.todo && StandsFor(job, w, j, k)
    requires job'.at.SendWaiting? && job'.at.socket == s && job' == job.(todo := job.todo - {s}, at := job'.at)
    ensures StandsFor(job', w, j, k)
  {
    assert job.todo - {s} + {s} == job.todo;
  }

  lemma SweepOverRefines(n: D.Net, w: C.World, k: C.Worker, j: nat)
    requires Ready(n) && Matches(n, w, k)
    ensures Matches(D.StepSweepOver(n, j), Follow(w, n, D.SweepOver(j)), k)
  {
    if j in n.jobs && n.jobs[j].at.Sweeping? && n.jobs[j].todo == {} {
      HasJob(n, w, k, j);
      hide Ready, Matches, C.Step;
      var n' := D.StepSweepOver(n, j);
      if n.jobs[j].first.Some? {
        OthersStand(n, n', w, w, k, j);
      } else {
        StartStands(n, n', w, k, j);
        hide StandsFor;
        OthersStand(n, n', w, C.StepStart(w, j), k, j);
        StartIsAStep(w, j);
      }
    }
  }

  lemma StartIsAStep(w: C.World, j: nat)
    ensures C.Step(w, C.Start(j)) == C.StepStart(w, j)
  {
  }

  /** Both consult and raise the same watermark, and take the same targets. */
  lemma StartStands(n: D.Net, n': D.Net, w: C.World, k: C.Worker, j: nat)
    requires Has(n, w, k, j) && n.jobs[j].at.Sweeping? && n.jobs[j].todo == {} && n.jobs[j].first.None?
    requires n' == D.StepSweepOver(n, j)
    ensures var w' := C.StepStart(w, j);
            && StandsFor(n'.jobs[j], w', j, k) && C.At(w', k).hub == n'.hub
            && (forall i :: i in w.tasks && i != j ==> i in w'.tasks && w'.tasks[i] == w.tasks[i])
  {
    hide Note, FlightOk;
  }

  /** Nothing is swept, and nobody rejected. */
  lemma NothingToSweep(n: D.Net, a: D.Action)
    requires Alike(n) && (a.SweepPick? || a.SweepEnter? || a.SweepClosed? || a.Rejected?)
    ensures D.Step(n, a) == n && Linear(n, a) == None
  {
  }

  /** Every step a sending coroutine takes, in any reachable state and whatever the others are at, is
      one step of the world or none: the world keeps matching the net. */
  lemma SendsAreAtomic(acts: seq<D.Action>, a: D.Action, w: C.World, k: C.Worker)
    requires OneGeneration(acts) && OfJob(a) && Matches(D.Play(C.ROOM, acts), w, k)
    ensures var n := D.Play(C.ROOM, acts); Matches(D.Step(n, a), Follow(w, n, a), k)
  {
    ReadyAlways(acts);
    hide Ready, Matches, Follow;
    var n := D.Play(C.ROOM, acts);
    match a
    case SweepOver(j) => SweepOverRefines(n, w, k, j);
    case SendPick(j, s) => SendPickRefines(n, w, k, j, s);
    case SendEnter(j) => SendEnterRefines(n, w, k, j);
    case SendReturns(j, ok) => SendReturnsRefines(n, w, k, j, ok);
    case _ => IdleRefines(n, w, k, a);
  }

  lemma IdleRefines(n: D.Net, w: C.World, k: C.Worker, a: D.Action)
    requires Ready(n) && Matches(n, w, k) && (a.SweepPick? || a.SweepEnter? || a.SweepClosed? || a.Rejected?)
    ensures Matches(D.Step(n, a), Follow(w, n, a), k)
  {
    hide Matches;
    NothingToSweep(n, a);
  }

  // ---------------------------------------------------------------- and so are the endpoints

  lemma JoinMatches(n: D.Net, w: C.World, k: C.Worker, t: nat, s: Socket)
    requires Matches(n, w, k) && n.room == C.ROOM && t !in n.jobs && s !in n.bound && s !in w.home
    requires t in w.tasks && w.tasks[t] == C.Admitted(k)
    ensures Matches(D.StepJoin(n, s, C.GEN), C.StepArrive(w, t, s), k)
  {
  }

  lemma LeaveMatches(n: D.Net, w: C.World, k: C.Worker, s: Socket)
    requires Matches(n, w, k) && n.room == C.ROOM && s in w.open && s in w.home && w.home[s] == k
    ensures Matches(D.Drop(n, s), C.StepLeave(w, s), k)
  {
  }

  /** A broadcast starts where the world has a task for it, a first send where it has a greeting. */
  lemma JobMatches(n: D.Net, w: C.World, k: C.Worker, j: nat, revision: nat, s: Socket)
    requires Matches(n, w, k) && n.room == C.ROOM && j in w.tasks
    ensures w.tasks[j].Broadcasting? && w.tasks[j].worker == k && w.tasks[j].revision == revision ==>
              Matches(D.StepBroadcast(n, j, C.GEN, revision), w, k)
    ensures w.tasks[j] == C.Greeting(k, s, revision) ==> Matches(D.StepFirstSend(n, j, s, revision), w, k)
  {
  }
}

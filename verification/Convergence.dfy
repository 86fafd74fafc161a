/**
 Commits, broadcasts and Pub/Sub between workers, for one generation of a room
 (backend/websocket_handler.py, backend/event_bus.py, backend/connection_manager.py).

 Every worker has its hub, its subscription and the events not yet taken from it. A task is a
 coroutine stopped at an await. One send is one step here; `Atomicity` proves that the locked sends
 of `Delivery` are such steps, taken at the moment they return.
 */
module Convergence {
  import opened Common
  import opened Connections
  import opened EventBus

  type Worker = nat

  const ROOM: Room := "ROOM"
  const GEN: Gen := 0
  const RECENT_EVENTS := 256

  datatype Event = Event(id: nat, source: Worker)

  datatype Office = Office(hub: Hub, subscribed: bool, queue: seq<Event>, recent: seq<nat>)

  const CLOSED := Office(EMPTY_HUB, false, [], [])

  datatype Task =
    | Broadcasting(worker: Worker, revision: nat, publish: bool)
    | Telling(worker: Worker, revision: nat, todo: set<Socket>, publish: bool)
    | Publishing(worker: Worker, revision: nat)
    | Reading(worker: Worker)
    | Admitted(worker: Worker)
    | Joining(worker: Worker, socket: Socket)
    | Greeting(worker: Worker, socket: Socket, revision: nat)

  /** `home` remembers at which worker each socket connected, `open` whose endpoint still runs. */
  datatype World = World(
    revision: nat,
    offices: map<Worker, Office>,
    tasks: map<nat, Task>,
    nextEvent: nat,
    home: map<Socket, Worker>,
    open: set<Socket>)

  /** How a send ends: with the socket served or gone, with an error, or, late, with its record
      written for a socket that has left meanwhile. */
  datatype Outcome = Settled | Broken | Late

  datatype Action =
    | Commit(task: nat, worker: Worker)
    | Start(task: nat)
    | Tell(task: nat, socket: Socket, outcome: Outcome)
    | Told(task: nat)
    | Publish(task: nat)
    | Take(task: nat, worker: Worker)
    | Read(task: nat)
    | Subscribe(task: nat, worker: Worker)
    | Ensure(task: nat, worker: Worker)
    | Arrive(task: nat, socket: Socket)
    | Reread(task: nat)
    | Greet(task: nat, outcome: Outcome)
    | Leave(socket: Socket)
    | Cancel(task: nat)

  const BEGIN := World(0, map[], map[], 0, map[], {})

  function At(w: World, k: Worker): Office {
    if k in w.offices then w.offices[k] else CLOSED
  }

  function Live(o: Office): set<Socket> {
    Sockets(o.hub, ROOM).Keys
  }

  function Sent(o: Office, s: Socket): Option<int> {
    if s in o.hub.seen then Some(o.hub.seen[s]) else None
  }

  function MarkOf(o: Office): Option<int> {
    if (ROOM, GEN) in o.hub.mark then Some(o.hub.mark[(ROOM, GEN)]) else None
  }

  // ---------------------------------------------------------------- one worker

  /** A send that gets through, or finds the socket up to date, or finds it gone. */
  function Attempt(o: Office, s: Socket, revision: int, late: bool): Office {
    if SendLocked(o.hub, ROOM, s, GEN, revision).Transmit? || (late && s !in Live(o))
    then o.(hub := SendDone(o.hub, ROOM, s, GEN, revision))
    else o
  }

  function Ended(o: Office, s: Socket, revision: int, outcome: Outcome): Office {
    if outcome.Broken? then Dropped(o, s) else Attempt(o, s, revision, outcome.Late?)
  }

  function Dropped(o: Office, s: Socket): Office {
    o.(hub := Disconnect(o.hub, ROOM, s))
  }

  /** The endpoint's exit: the last socket takes the subscription with it. */
  function Left(o: Office, s: Socket): Office {
    var d := Dropped(o, s);
    if Live(d) == {} then d.(subscribed := false, queue := []) else d
  }

  function Received(o: Office, e: Event): Office {
    if o.subscribed then o.(queue := o.queue + [e]) else o
  }

  // ---------------------------------------------------------------- the steps

  function SetOffice(w: World, k: Worker, o: Office): World {
    w.(offices := w.offices[k := o])
  }

  function SetTask(w: World, t: nat, task: Task): World {
    w.(tasks := w.tasks[t := task])
  }

  function Done(w: World, t: nat): World {
    w.(tasks := w.tasks - {t})
  }

  function After(w: World, t: nat, k: Worker, revision: nat, publish: bool): World {
    if publish then SetTask(w, t, Publishing(k, revision)) else Done(w, t)
  }

  function StepCommit(w: World, t: nat, k: Worker): World {
    if t in w.tasks then w
    else SetTask(w, t, Broadcasting(k, w.revision + 1, true)).(revision := w.revision + 1)
  }

  function StepStart(w: World, t: nat): World {
    if !(t in w.tasks && w.tasks[t].Broadcasting?) then w
    else
      var Broadcasting(k, r, publish) := w.tasks[t];
      var o := At(w, k);
      if ROOM !in o.hub.rooms || Outdated(o.hub, ROOM, GEN, r) then After(w, t, k, r, publish)
      else
        SetOffice(SetTask(w, t, Telling(k, r, Live(o), publish)), k, o.(hub := Note(o.hub, ROOM, GEN, r)))
  }

  function StepTell(w: World, t: nat, s: Socket, outcome: Outcome): World {
    if !(t in w.tasks && w.tasks[t].Telling? && s in w.tasks[t].todo) then w
    else
      var Telling(k, r, todo, publish) := w.tasks[t];
      SetOffice(SetTask(w, t, Telling(k, r, todo - {s}, publish)), k,
                Ended(At(w, k), s, r, outcome))
  }

  function StepTold(w: World, t: nat): World {
    if !(t in w.tasks && w.tasks[t].Telling? && w.tasks[t].todo == {}) then w
    else After(w, t, w.tasks[t].worker, w.tasks[t].revision, w.tasks[t].publish)
  }

  function Broadcasted(w: World, e: Event): map<Worker, Office> {
    map k | k in w.offices.Keys + {e.source} ::
      var o := Received(At(w, k), e);
      if k == e.source then o.(recent := Remember(o.recent, e.id, RECENT_EVENTS)) else o
  }

  function StepPublish(w: World, t: nat): World {
    if !(t in w.tasks && w.tasks[t].Publishing?) then w
    else
      Done(w, t).(offices := Broadcasted(w, Event(w.nextEvent, w.tasks[t].worker)), nextEvent := w.nextEvent + 1)
  }

  function StepTake(w: World, t: nat, k: Worker): World {
    if t in w.tasks || At(w, k).queue == [] then w
    else
      var o, e := At(w, k), At(w, k).queue[0];
      var rest := o.(queue := o.queue[1..]);
      if e.source == k || e.id in o.recent then SetOffice(w, k, rest)
      else SetOffice(SetTask(w, t, Reading(k)), k, rest.(recent := Remember(o.recent, e.id, RECENT_EVENTS)))
  }

  function StepRead(w: World, t: nat): World {
    if t in w.tasks && w.tasks[t].Reading?
    then SetTask(w, t, Broadcasting(w.tasks[t].worker, w.revision, false)) else w
  }

  /** A fresh subscription first catches up with the store. */
  function StepSubscribe(w: World, t: nat, k: Worker): World {
    if t in w.tasks || At(w, k).subscribed then w
    else SetOffice(SetTask(w, t, Reading(k)), k, At(w, k).(subscribed := true))
  }

  /** The endpoint has found the subscription ready; it still has to accept the socket. */
  function StepEnsure(w: World, t: nat, k: Worker): World {
    if t in w.tasks || !At(w, k).subscribed then w else SetTask(w, t, Admitted(k))
  }

  /** The admitted socket is connected, whatever has become of the subscription meanwhile. */
  function StepArrive(w: World, t: nat, s: Socket): World {
    if !(t in w.tasks && w.tasks[t].Admitted?) || s in w.home then w
    else
      var k := w.tasks[t].worker;
      SetOffice(SetTask(w, t, Joining(k, s)), k, At(w, k).(hub := Connect(At(w, k).hub, ROOM, s, GEN)))
      .(home := w.home[s := k], open := w.open + {s})
  }

  function StepReread(w: World, t: nat): World {
    if t in w.tasks && w.tasks[t].Joining?
    then SetTask(w, t, Greeting(w.tasks[t].worker, w.tasks[t].socket, w.revision)) else w
  }

  function StepGreet(w: World, t: nat, outcome: Outcome): World {
    if !(t in w.tasks && w.tasks[t].Greeting?) then w
    else
      var Greeting(k, s, r) := w.tasks[t];
      SetOffice(Done(w, t), k, Ended(At(w, k), s, r, outcome))
  }

  /** The endpoint of a socket ends, once. */
  function StepLeave(w: World, s: Socket): World {
    if s !in w.open || s !in w.home then w
    else SetOffice(w, w.home[s], Left(At(w, w.home[s]), s)).(open := w.open - {s})
  }

  /** What the consumer of a subscription does: catching up, without publishing. */
  predicate Consuming(task: Task) {
    task.Reading? || (task.Broadcasting? && !task.publish) || (task.Telling? && !task.publish)
  }

  /** Stopping a subscription may cancel what its consumer is doing; a socket may go before it is accepted. */
  function StepCancel(w: World, t: nat): World {
    if t in w.tasks && (w.tasks[t].Admitted? || (Consuming(w.tasks[t]) && Live(At(w, w.tasks[t].worker)) == {}))
    then Done(w, t) else w
  }

  function Step(w: World, a: Action): World {
    match a
    case Commit(t, k) => StepCommit(w, t, k)
    case Start(t) => StepStart(w, t)
    case Tell(t, s, outcome) => StepTell(w, t, s, outcome)
    case Told(t) => StepTold(w, t)
    case Publish(t) => StepPublish(w, t)
    case Take(t, k) => StepTake(w, t, k)
    case Read(t) => StepRead(w, t)
    case Subscribe(t, k) => StepSubscribe(w, t, k)
    case Ensure(t, k) => StepEnsure(w, t, k)
    case Arrive(t, s) => StepArrive(w, t, s)
    case Reread(t) => StepReread(w, t)
    case Greet(t, outcome) => StepGreet(w, t, outcome)
    case Leave(s) => StepLeave(w, s)
    case Cancel(t) => StepCancel(w, t)
  }

  function Play(acts: seq<Action>): World {
    if acts == [] then BEGIN else Step(Play(acts[..|acts| - 1]), acts[|acts| - 1])
  }

  // ---------------------------------------------------------------- what is owed to a socket

  predicate Carries(task: Task) {
    task.Broadcasting? || task.Telling? || task.Publishing? || task.Greeting?
  }

  /** Nothing anywhere is newer than the store. */
  predicate Bounded(w: World) {
    && (forall k :: k in w.offices ==> OfficeBounded(w.offices[k], w.revision))
    && (forall t :: t in w.tasks && Carries(w.tasks[t]) ==> w.tasks[t].revision <= w.revision)
  }

  predicate OfficeBounded(o: Office, revision: nat) {
    && (MarkOf(o).Some? ==> MarkOf(o).value <= revision)
    && (forall s :: s in o.hub.seen ==> o.hub.seen[s] <= revision)
    && (forall s :: s in Live(o) ==> Sockets(o.hub, ROOM)[s] == GEN)
  }

  /** Events are taken once: those waiting are distinct, and foreign ones have not been seen. */
  predicate MailOk(o: Office, k: Worker, nextEvent: nat) {
    && (forall i :: 0 <= i < |o.queue| ==> o.queue[i].id < nextEvent)
    && (forall i, j :: 0 <= i < j < |o.queue| ==> o.queue[i].id != o.queue[j].id)
    && (forall i :: 0 <= i < |o.queue| && o.queue[i].source != k ==> o.queue[i].id !in o.recent)
    && (forall id :: id in o.recent ==> id < nextEvent)
  }

  predicate MailInv(w: World) {
    forall k :: k in w.offices ==> MailOk(w.offices[k], k, w.nextEvent)
  }

  /** The task will bring socket `s` of worker `k` up to date, or make some other task do so. */
  predicate Promises(w: World, task: Task, k: Worker, s: Socket) {
    match task
    case Broadcasting(k', r, publish) => r == w.revision && (k' == k || publish)
    case Telling(k', r, todo, publish) => r == w.revision && (if k' == k then s in todo else publish)
    case Publishing(k', r) => r == w.revision && k' != k
    case Reading(k') => k' == k
    case Admitted(k') => false
    case Joining(k', s') => k' == k && s' == s
    case Greeting(k', s', r) => k' == k && s' == s && r == w.revision
  }

  predicate Foreign(o: Office, k: Worker) {
    exists i :: 0 <= i < |o.queue| && o.queue[i].source != k
  }

  predicate Owed(w: World, k: Worker, s: Socket) {
    || Sent(At(w, k), s) == Some(w.revision)
    || Foreign(At(w, k), k)
    || exists t :: t in w.tasks && Promises(w, w.tasks[t], k, s)
  }

  /** Every live socket is up to date or owed an update. */
  predicate NobodyForgotten(w: World) {
    forall k, s :: k in w.offices && s in Live(w.offices[k]) ==> Owed(w, k, s)
  }

  predicate WorldInv(w: World) {
    Bounded(w) && MailInv(w) && NobodyForgotten(w)
  }

  /** The premise: a worker with a connected socket is subscribed. */
  predicate SubscriptionsHeld(w: World) {
    forall k :: k in w.offices && Live(w.offices[k]) != {} ==> w.offices[k].subscribed
  }

  predicate HeldThroughout(acts: seq<Action>) {
    acts != [] ==> HeldThroughout(acts[..|acts| - 1]) && SubscriptionsHeld(Play(acts))
  }

  predicate Quiescent(w: World) {
    w.tasks == map[] && forall k :: k in w.offices ==> w.offices[k].queue == []
  }

  // ---------------------------------------------------------------- what the hub operations do

  lemma AttemptEffect(o: Office, s: Socket, r: nat, late: bool, revision: nat)
    requires OfficeBounded(o, revision) && r <= revision
    ensures var o' := Attempt(o, s, r, late);
            && OfficeBounded(o', revision) && Live(o') == Live(o)
            && o' == o.(hub := o'.hub)
            && (s in Live(o) ==> Sent(o', s).Some? && r <= Sent(o', s).value)
            && (s in Live(o) && Sent(o, s).Some? ==> Sent(o', s).Some? && Sent(o, s).value <= Sent(o', s).value)
            && (forall u :: u != s ==> Sent(o', u) == Sent(o, u))
  {
  }

  lemma DropEffect(o: Office, s: Socket, revision: nat)
    requires OfficeBounded(o, revision)
    ensures var o' := Dropped(o, s);
            && OfficeBounded(o', revision) && Live(o') == Live(o) - {s}
            && o' == o.(hub := o'.hub)
            && (forall u :: u in Live(o') ==> Sent(o', u) == Sent(o, u))
  {
    assert Sockets(Dropped(o, s).hub, ROOM) == Sockets(o.hub, ROOM) - {s};
  }

  /** Whatever its end, a send leaves the socket gone or up to date, and nobody else worse off. */
  lemma EndedEffect(o: Office, s: Socket, r: nat, outcome: Outcome, revision: nat)
    requires OfficeBounded(o, revision) && r <= revision
    ensures var o' := Ended(o, s, r, outcome);
            && OfficeBounded(o', revision) && Live(o') <= Live(o) && o' == o.(hub := o'.hub)
            && (s in Live(o') ==> Sent(o', s).Some? && r <= Sent(o', s).value <= revision)
            && (s in Live(o') && Sent(o, s).Some? ==> Sent(o, s).value <= Sent(o', s).value)
            && (forall u :: u in Live(o') && u != s ==> Sent(o', u) == Sent(o, u))
  {
    hide Attempt, Dropped;
    AttemptEffect(o, s, r, outcome.Late?, revision);
    DropEffect(o, s, revision);
  }

  lemma ConnectEffect(o: Office, s: Socket, revision: nat)
    requires OfficeBounded(o, revision)
    ensures var o' := o.(hub := Connect(o.hub, ROOM, s, GEN));
            && OfficeBounded(o', revision) && Live(o') == Live(o) + {s}
            && (forall u :: u != s ==> Sent(o', u) == Sent(o, u))
  {
  }

  lemma NoteEffect(o: Office, r: nat, revision: nat)
    requires OfficeBounded(o, revision) && r <= revision
    ensures var o' := o.(hub := Note(o.hub, ROOM, GEN, r));
            && OfficeBounded(o', revision) && Live(o') == Live(o)
            && (forall u :: Sent(o', u) == Sent(o, u))
  {
    assert Sockets(Note(o.hub, ROOM, GEN, r), ROOM) == Sockets(o.hub, ROOM);
  }

  lemma OfficeIsBounded(w: World, k: Worker)
    requires Bounded(w)
    ensures OfficeBounded(At(w, k), w.revision)
  {
  }

  // ---------------------------------------------------------------- nobody is forgotten

  /** What was owed before a step is owed after it, if the task that moved sees to its own debts. */
  lemma Carry(w: World, w': World, t: nat, k: Worker, s: Socket)
    requires Owed(w, k, s) && w'.revision == w.revision
    requires Sent(At(w, k), s) == Some(w.revision) ==> Sent(At(w', k), s) == Some(w.revision)
    requires Foreign(At(w, k), k) ==> Foreign(At(w', k), k) || Owed(w', k, s)
    requires forall u :: u in w.tasks && u != t ==> u in w'.tasks && w'.tasks[u] == w.tasks[u]
    requires t in w.tasks && Promises(w, w.tasks[t], k, s) ==> Owed(w', k, s)
    ensures Owed(w', k, s)
  {
    if Sent(At(w, k), s) != Some(w.revision) && !Foreign(At(w, k), k) {
      var u :| u in w.tasks && Promises(w, w.tasks[u], k, s);
      if u != t { assert Promises(w', w'.tasks[u], k, s); }
    }
  }

  /** The new task of a step keeps a promise. */
  lemma Promised(w: World, t: nat, k: Worker, s: Socket)
    requires t in w.tasks && Promises(w, w.tasks[t], k, s)
    ensures Owed(w, k, s)
  {
  }

  lemma CommitRemembers(w: World, t: nat, k0: Worker)
    requires WorldInv(w)
    ensures WorldInv(StepCommit(w, t, k0))
  {
    var w' := StepCommit(w, t, k0);
    if w' != w {
      forall k, s | k in w'.offices && s in Live(w'.offices[k]) ensures Owed(w', k, s) { Promised(w', t, k, s); }
    }
  }

  lemma StartOwes(w: World, t: nat, k: Worker, s: Socket)
    requires WorldInv(w) && t in w.tasks && w.tasks[t].Broadcasting?
    requires k in StepStart(w, t).offices && s in Live(StepStart(w, t).offices[k])
    ensures Owed(StepStart(w, t), k, s)
  {
    var w', k0, r := StepStart(w, t), w.tasks[t].worker, w.tasks[t].revision;
    OfficeIsBounded(w, k0);
    NoteEffect(At(w, k0), r, w.revision);
    assert s in Live(At(w, k));
    if Promises(w, w.tasks[t], k, s) { Promised(w', t, k, s); }
    Carry(w, w', t, k, s);
  }

  lemma StartRemembers(w: World, t: nat)
    requires WorldInv(w) && t in w.tasks && w.tasks[t].Broadcasting?
    ensures WorldInv(StepStart(w, t))
  {
    var w', k0, r := StepStart(w, t), w.tasks[t].worker, w.tasks[t].revision;
    OfficeIsBounded(w, k0);
    NoteEffect(At(w, k0), r, w.revision);
    hide Owed, Promises;
    forall k, s | k in w'.offices && s in Live(w'.offices[k]) ensures Owed(w', k, s) { StartOwes(w, t, k, s); }
  }

  lemma TellOwes(w: World, t: nat, s0: Socket, outcome: Outcome, k: Worker, s: Socket)
    requires WorldInv(w) && t in w.tasks && w.tasks[t].Telling? && s0 in w.tasks[t].todo
    requires k in StepTell(w, t, s0, outcome).offices && s in Live(StepTell(w, t, s0, outcome).offices[k])
    ensures Owed(StepTell(w, t, s0, outcome), k, s)
  {
    hide Ended;
    var w', k0, r := StepTell(w, t, s0, outcome), w.tasks[t].worker, w.tasks[t].revision;
    OfficeIsBounded(w, k0);
    EndedEffect(At(w, k0), s0, r, outcome, w.revision);
    assert s in Live(At(w, k));
    if Promises(w, w.tasks[t], k, s) {
      if k == k0 && s == s0 {
        assert Sent(At(w', k), s).value <= w.revision;
      } else {
        Promised(w', t, k, s);
      }
    }
    Carry(w, w', t, k, s);
  }

  lemma TellRemembers(w: World, t: nat, s0: Socket, outcome: Outcome)
    requires WorldInv(w) && t in w.tasks && w.tasks[t].Telling? && s0 in w.tasks[t].todo
    ensures WorldInv(StepTell(w, t, s0, outcome))
  {
    hide Ended;
    var w', k0, r := StepTell(w, t, s0, outcome), w.tasks[t].worker, w.tasks[t].revision;
    OfficeIsBounded(w, k0);
    EndedEffect(At(w, k0), s0, r, outcome, w.revision);
    hide Owed, Promises;
    forall k, s | k in w'.offices && s in Live(w'.offices[k]) ensures Owed(w', k, s) {
      TellOwes(w, t, s0, outcome, k, s);
    }
  }

  lemma ToldRemembers(w: World, t: nat)
    requires WorldInv(w) && t in w.tasks && w.tasks[t].Telling? && w.tasks[t].todo == {}
    ensures WorldInv(StepTold(w, t))
  {
    var w' := StepTold(w, t);
    forall k, s | k in w'.offices && s in Live(w'.offices[k]) ensures Owed(w', k, s) {
      if Promises(w, w.tasks[t], k, s) { Promised(w', t, k, s); }
      Carry(w, w', t, k, s);
    }
  }

  lemma RememberSubset(recent: seq<nat>, id: nat)
    ensures forall x :: x in Remember(recent, id, RECENT_EVENTS) ==> x in recent || x == id
  {
  }

  lemma PublishKeepsMail(w: World, t: nat)
    requires MailInv(w) && t in w.tasks && w.tasks[t].Publishing?
    ensures MailInv(StepPublish(w, t))
  {
    var w', e := StepPublish(w, t), Event(w.nextEvent, w.tasks[t].worker);
    forall k | k in w'.offices ensures MailOk(w'.offices[k], k, w'.nextEvent) {
      var o := At(w, k);
      assert MailOk(o, k, w.nextEvent);
      RememberSubset(o.recent, e.id);
    }
  }

  lemma PublishKeepsBounded(w: World, t: nat)
    requires Bounded(w) && t in w.tasks && w.tasks[t].Publishing?
    ensures Bounded(StepPublish(w, t))
  {
    var w' := StepPublish(w, t);
    forall k | k in w'.offices ensures OfficeBounded(w'.offices[k], w'.revision) {
      assert w'.offices[k].hub == At(w, k).hub && OfficeBounded(At(w, k), w.revision);
    }
  }

  lemma ReceivedEffect(w: World, e: Event, k: Worker)
    requires k in w.offices && w.offices[k].subscribed
    ensures var o, o' := w.offices[k], Broadcasted(w, e)[k];
            && o'.queue == o.queue + [e] && Live(o') == Live(o) && (forall s :: Sent(o', s) == Sent(o, s))
            && (Foreign(o, k) || e.source != k ==> Foreign(o', k))
  {
    var o, o' := w.offices[k], Broadcasted(w, e)[k];
    if Foreign(o, k) {
      var i :| 0 <= i < |o.queue| && o.queue[i].source != k;
      assert o'.queue[i] == o.queue[i];
    }
    assert o'.queue[|o.queue|] == e;
  }

  lemma PublishOwes(w: World, t: nat, k: Worker, s: Socket)
    requires WorldInv(w) && SubscriptionsHeld(w) && t in w.tasks && w.tasks[t].Publishing?
    requires k in StepPublish(w, t).offices && s in Live(StepPublish(w, t).offices[k])
    ensures Owed(StepPublish(w, t), k, s)
  {
    hide Foreign, Sent, Remember, MailInv, Bounded;
    var w', e := StepPublish(w, t), Event(w.nextEvent, w.tasks[t].worker);
    PublishKeepsMail(w, t);
    PublishKeepsBounded(w, t);
    assert s in Live(w.offices[k]);
    ReceivedEffect(w, e, k);
    Carry(w, w', t, k, s);
  }

  /** Publishing turns the promise to other workers into an event waiting at each of them. */
  lemma PublishRemembers(w: World, t: nat)
    requires WorldInv(w) && SubscriptionsHeld(w) && t in w.tasks && w.tasks[t].Publishing?
    ensures WorldInv(StepPublish(w, t))
  {
    var w', e := StepPublish(w, t), Event(w.nextEvent, w.tasks[t].worker);
    PublishKeepsMail(w, t);
    PublishKeepsBounded(w, t);
    hide Owed, Promises;
    forall k, s | k in w'.offices && s in Live(w'.offices[k]) ensures Owed(w', k, s) { PublishOwes(w, t, k, s); }
  }

  lemma TakeKeepsMail(w: World, t: nat, k0: Worker)
    requires MailInv(w) && t !in w.tasks && At(w, k0).queue != []
    ensures MailInv(StepTake(w, t, k0))
  {
    var w', o := StepTake(w, t, k0), At(w, k0);
    assert MailOk(o, k0, w.nextEvent);
    RememberSubset(o.recent, o.queue[0].id);
    var o' := w'.offices[k0];
    assert forall i :: 0 <= i < |o'.queue| ==> o'.queue[i] == o.queue[i + 1];
    assert MailOk(o', k0, w.nextEvent);
  }

  lemma TakeKeepsBounded(w: World, t: nat, k0: Worker)
    requires Bounded(w) && t !in w.tasks && At(w, k0).queue != []
    ensures Bounded(StepTake(w, t, k0))
  {
    hide Remember;
    OfficeIsBounded(w, k0);
    var w' := StepTake(w, t, k0);
    forall k | k in w'.offices ensures OfficeBounded(w'.offices[k], w'.revision) {
      assert w'.offices[k].hub == At(w, k).hub;
    }
  }

  lemma TakeOwes(w: World, t: nat, k0: Worker, k: Worker, s: Socket)
    requires WorldInv(w) && t !in w.tasks && At(w, k0).queue != []
    requires k in StepTake(w, t, k0).offices && s in Live(StepTake(w, t, k0).offices[k])
    ensures Owed(StepTake(w, t, k0), k, s)
  {
    var w', o := StepTake(w, t, k0), At(w, k0);
    assert MailOk(o, k0, w.nextEvent);
    if k == k0 && Foreign(o, k) {
      if o.queue[0].source != k0 {
        Promised(w', t, k, s);
      } else {
        var i :| 0 <= i < |o.queue| && o.queue[i].source != k;
        assert w'.offices[k].queue[i - 1] == o.queue[i];
      }
    }
    Carry(w, w', t, k, s);
  }

  lemma TakeRemembers(w: World, t: nat, k0: Worker)
    requires WorldInv(w) && t !in w.tasks && At(w, k0).queue != []
    ensures WorldInv(StepTake(w, t, k0))
  {
    var w' := StepTake(w, t, k0);
    TakeKeepsMail(w, t, k0);
    TakeKeepsBounded(w, t, k0);
    hide Owed, Promises, MailInv, Bounded, Remember;
    forall k, s | k in w'.offices && s in Live(w'.offices[k]) ensures Owed(w', k, s) { TakeOwes(w, t, k0, k, s); }
  }

  lemma EnsureRemembers(w: World, t: nat, k0: Worker)
    requires WorldInv(w) && t !in w.tasks
    ensures WorldInv(StepEnsure(w, t, k0))
  {
    var w' := StepEnsure(w, t, k0);
    forall k, s | k in w'.offices && s in Live(w'.offices[k]) ensures Owed(w', k, s) {
      Carry(w, w', t, k, s);
    }
  }

  lemma MoveOwes(w: World, w': World, t: nat, k: Worker, s: Socket)
    requires (w' == StepRead(w, t) || w' == StepReread(w, t) || w' == StepCancel(w, t)) && w' != w
    requires Owed(w, k, s) && k in w.offices && s in Live(w.offices[k])
    ensures Owed(w', k, s)
  {
    if Promises(w, w.tasks[t], k, s) && t in w'.tasks { Promised(w', t, k, s); }
    Carry(w, w', t, k, s);
  }

  lemma MoveRemembers(w: World, w': World, t: nat)
    requires WorldInv(w) && (w' == StepRead(w, t) || w' == StepReread(w, t) || w' == StepCancel(w, t))
    ensures WorldInv(w')
  {
    if w' != w {
      hide Owed, Promises;
      forall k, s | k in w'.offices && s in Live(w'.offices[k]) ensures Owed(w', k, s) { MoveOwes(w, w', t, k, s); }
    }
  }

  lemma SubscribeOwes(w: World, t: nat, k0: Worker, k: Worker, s: Socket)
    requires WorldInv(w) && t !in w.tasks
    requires k in StepSubscribe(w, t, k0).offices && s in Live(StepSubscribe(w, t, k0).offices[k])
    ensures Owed(StepSubscribe(w, t, k0), k, s)
  {
    var w' := StepSubscribe(w, t, k0);
    OfficeIsBounded(w, k0);
    assert s in Live(At(w, k));
    Carry(w, w', t, k, s);
  }

  lemma SubscribeReads(w: World, t: nat, k0: Worker)
    requires t !in w.tasks && !At(w, k0).subscribed
    ensures var w' := StepSubscribe(w, t, k0);
            t in w'.tasks && w'.tasks[t] == Reading(k0) && forall s :: Promises(w', w'.tasks[t], k0, s)
  {
  }

  lemma SubscribeRemembers(w: World, t: nat, k0: Worker)
    requires WorldInv(w) && t !in w.tasks
    ensures WorldInv(StepSubscribe(w, t, k0))
    ensures !At(w, k0).subscribed ==>
              var w' := StepSubscribe(w, t, k0);
              t in w'.tasks && w'.tasks[t] == Reading(k0) && forall s :: Promises(w', w'.tasks[t], k0, s)
  {
    var w' := StepSubscribe(w, t, k0);
    OfficeIsBounded(w, k0);
    if !At(w, k0).subscribed { SubscribeReads(w, t, k0); }
    hide Owed, Promises;
    forall k, s | k in w'.offices && s in Live(w'.offices[k]) ensures Owed(w', k, s) { SubscribeOwes(w, t, k0, k, s); }
  }

  lemma ArriveOwes(w: World, t: nat, s0: Socket, k: Worker, s: Socket)
    requires WorldInv(w) && t in w.tasks && w.tasks[t].Admitted? && s0 !in w.home
    requires k in StepArrive(w, t, s0).offices && s in Live(StepArrive(w, t, s0).offices[k])
    ensures Owed(StepArrive(w, t, s0), k, s)
  {
    var w', k0 := StepArrive(w, t, s0), w.tasks[t].worker;
    OfficeIsBounded(w, k0);
    ConnectEffect(At(w, k0), s0, w.revision);
    if k == k0 && s == s0 {
      Promised(w', t, k, s);
    } else {
      assert s in Live(At(w, k));
      Carry(w, w', t, k, s);
    }
  }

  lemma ArriveKeepsRest(w: World, t: nat, s0: Socket)
    requires Bounded(w) && MailInv(w) && t in w.tasks && w.tasks[t].Admitted? && s0 !in w.home
    ensures Bounded(StepArrive(w, t, s0)) && MailInv(StepArrive(w, t, s0))
  {
    var k0 := w.tasks[t].worker;
    OfficeIsBounded(w, k0);
    ConnectEffect(At(w, k0), s0, w.revision);
    hide Connect, OfficeBounded;
  }

  lemma ArriveRemembers(w: World, t: nat, s0: Socket)
    requires WorldInv(w) && t in w.tasks && w.tasks[t].Admitted? && s0 !in w.home
    ensures WorldInv(StepArrive(w, t, s0))
  {
    var w' := StepArrive(w, t, s0);
    ArriveKeepsRest(w, t, s0);
    hide Owed, Promises, OfficeBounded, Connect, StepArrive, Bounded, MailInv;
    forall k, s | k in w'.offices && s in Live(w'.offices[k]) ensures Owed(w', k, s) { ArriveOwes(w, t, s0, k, s); }
  }

  lemma GreetOwes(w: World, t: nat, outcome: Outcome, k: Worker, s: Socket)
    requires WorldInv(w) && t in w.tasks && w.tasks[t].Greeting?
    requires k in StepGreet(w, t, outcome).offices && s in Live(StepGreet(w, t, outcome).offices[k])
    ensures Owed(StepGreet(w, t, outcome), k, s)
  {
    hide Ended;
    var w', k0, s0, r := StepGreet(w, t, outcome), w.tasks[t].worker, w.tasks[t].socket, w.tasks[t].revision;
    OfficeIsBounded(w, k0);
    EndedEffect(At(w, k0), s0, r, outcome, w.revision);
    assert s in Live(At(w, k));
    if Promises(w, w.tasks[t], k, s) { assert Sent(At(w', k), s).value <= w.revision; }
    Carry(w, w', t, k, s);
  }

  lemma GreetRemembers(w: World, t: nat, outcome: Outcome)
    requires WorldInv(w) && t in w.tasks && w.tasks[t].Greeting?
    ensures WorldInv(StepGreet(w, t, outcome))
  {
    hide Ended;
    var w', k0, s0, r := StepGreet(w, t, outcome), w.tasks[t].worker, w.tasks[t].socket, w.tasks[t].revision;
    OfficeIsBounded(w, k0);
    EndedEffect(At(w, k0), s0, r, outcome, w.revision);
    hide Owed, Promises;
    forall k, s | k in w'.offices && s in Live(w'.offices[k]) ensures Owed(w', k, s) { GreetOwes(w, t, outcome, k, s); }
  }

  lemma LeaveRemembers(w: World, s0: Socket)
    requires WorldInv(w) && s0 in w.open && s0 in w.home
    ensures WorldInv(StepLeave(w, s0))
  {
    var w', k0 := StepLeave(w, s0), w.home[s0];
    OfficeIsBounded(w, k0);
    DropEffect(At(w, k0), s0, w.revision);
    forall k, s | k in w'.offices && s in Live(w'.offices[k]) ensures Owed(w', k, s) {
      assert s in Live(At(w, k));
      assert At(w', k).queue == At(w, k).queue;
      OwedElsewhere(w, w', k, s);
    }
  }

  lemma OwedElsewhere(w: World, w': World, k: Worker, s: Socket)
    requires Owed(w, k, s) && w'.revision == w.revision && w'.tasks == w.tasks
    requires Sent(At(w', k), s) == Sent(At(w, k), s) && At(w', k).queue == At(w, k).queue
    ensures Owed(w', k, s)
  {
    if exists t :: t in w.tasks && Promises(w, w.tasks[t], k, s) {
      var t :| t in w.tasks && Promises(w, w.tasks[t], k, s);
      Promised(w', t, k, s);
    }
  }

  lemma StepRemembers(w: World, a: Action)
    requires WorldInv(w) && SubscriptionsHeld(w)
    ensures WorldInv(Step(w, a))
  {
    if Step(w, a) != w {
      match a
      case Commit(t, k) => CommitRemembers(w, t, k);
      case Start(t) => StartRemembers(w, t);
      case Tell(t, s, outcome) => TellRemembers(w, t, s, outcome);
      case Told(t) => ToldRemembers(w, t);
      case Publish(t) => PublishRemembers(w, t);
      case Take(t, k) => TakeRemembers(w, t, k);
      case Read(t) => MoveRemembers(w, StepRead(w, t), t);
      case Subscribe(t, k) => SubscribeRemembers(w, t, k);
      case Ensure(t, k) => EnsureRemembers(w, t, k);
      case Arrive(t, s) => ArriveRemembers(w, t, s);
      case Reread(t) => MoveRemembers(w, StepReread(w, t), t);
      case Greet(t, outcome) => GreetRemembers(w, t, outcome);
      case Leave(s) => LeaveRemembers(w, s);
      case Cancel(t) => MoveRemembers(w, StepCancel(w, t), t);
    }
  }

  lemma {:induction false} RemembersAlways(acts: seq<Action>)
    requires HeldThroughout(acts)
    ensures WorldInv(Play(acts)) && SubscriptionsHeld(Play(acts))
  {
    if acts != [] {
      RemembersAlways(acts[..|acts| - 1]);
      StepRemembers(Play(acts[..|acts| - 1]), acts[|acts| - 1]);
    }
  }

  /** Nobody is left stale: whenever no work is pending anywhere, every connected socket of every
      worker has last been sent the revision the store is at. */
  lemma QuiescentSocketsAreCurrent(acts: seq<Action>, k: Worker, s: Socket)
    requires HeldThroughout(acts) && Quiescent(Play(acts))
    requires s in Live(At(Play(acts), k))
    ensures Sent(At(Play(acts), k), s) == Some(Play(acts).revision)
  {
    RemembersAlways(acts);
    assert k in Play(acts).offices;
    assert Owed(Play(acts), k, s);
  }
}

/**
 How long a socket stays behind whose worker has lost its subscription (backend/websocket_handler.py,
 backend/event_bus.py): until the worker subscribes again or broadcasts a commit of its own.
 */
module Stragglers {
  import opened Common
  import opened Connections
  import opened EventBus
  import opened Convergence
  import opened Subscriptions

  /** Worker `k` hears of nothing and has nothing to do. */
  predicate Forsaken(w: World, k: Worker) {
    && !At(w, k).subscribed && At(w, k).queue == []
    && (forall t :: t in w.tasks ==> w.tasks[t].worker != k)
  }

  /** A connected socket that has not been sent what the store holds. */
  predicate Behind(w: World, k: Worker, s: Socket) {
    s in Live(At(w, k)) && Sent(At(w, k), s) != Some(w.revision)
  }

  /** The worker subscribes again, for a new visitor, or commits a message of its own. */
  predicate Wakes(w: World, a: Action, k: Worker) {
    (a.Subscribe? || a.Commit?) && a.worker == k && a.task !in w.tasks
  }

  function PlayOn(w: World, more: seq<Action>): World {
    if more == [] then w else Step(PlayOn(w, more[..|more| - 1]), more[|more| - 1])
  }

  predicate WakesIn(w: World, more: seq<Action>, k: Worker) {
    more != [] &&
      (WakesIn(w, more[..|more| - 1], k) || Wakes(PlayOn(w, more[..|more| - 1]), more[|more| - 1], k))
  }

  // ---------------------------------------------------------------- nothing newer than the store

  /** One office and one task have moved, and both are still bounded. */
  lemma MoveStaysBounded(w: World, w': World, k: Worker, t: nat)
    requires Bounded(w) && w'.revision == w.revision
    requires w'.offices == w.offices || (k in w'.offices && w'.offices == w.offices[k := w'.offices[k]])
    requires k in w'.offices ==> OfficeBounded(w'.offices[k], w.revision)
    requires forall u :: u in w'.tasks && u != t ==> u in w.tasks && w'.tasks[u] == w.tasks[u]
    requires t in w'.tasks && Carries(w'.tasks[t]) ==> w'.tasks[t].revision <= w.revision
    ensures Bounded(w')
  {
    hide OfficeBounded;
  }

  lemma SendingStaysBounded(w: World, a: Action)
    requires Bounded(w) && (a.Start? || a.Tell? || a.Greet?)
    ensures Bounded(Step(w, a))
  {
    hide Ended, Note, Bounded, OfficeBounded, Outdated;
    if a.task in w.tasks && Carries(w.tasks[a.task]) {
      var task := w.tasks[a.task];
      var k, r := task.worker, task.revision;
      assert r <= w.revision by { assert Bounded(w); TaskIsBounded(w, a.task); }
      OfficeIsBounded(w, k);
      NoteEffect(At(w, k), r, w.revision);
      if a.Tell? { EndedEffect(At(w, k), a.socket, r, a.outcome, w.revision); }
      if a.Greet? && task.Greeting? { EndedEffect(At(w, k), task.socket, r, a.outcome, w.revision); }
      if k in w.offices { OfficeIsBounded(w, k); }
      MoveStaysBounded(w, Step(w, a), k, a.task);
    }
  }

  lemma TaskIsBounded(w: World, t: nat)
    requires Bounded(w) && t in w.tasks && Carries(w.tasks[t])
    ensures w.tasks[t].revision <= w.revision
  {
  }

  lemma CommitStaysBounded(w: World, a: Action)
    requires Bounded(w) && a.Commit?
    ensures Bounded(Step(w, a))
  {
    var w' := Step(w, a);
    forall k | k in w'.offices ensures OfficeBounded(w'.offices[k], w'.revision) {
      assert OfficeBounded(w.offices[k], w.revision);
    }
  }

  lemma SocketStaysBounded(w: World, a: Action)
    requires Bounded(w) && (a.Arrive? || a.Leave? || a.Subscribe?)
    ensures Bounded(Step(w, a))
  {
    hide Bounded, OfficeBounded, Connect, Disconnect;
    if Step(w, a) != w {
      var k := if a.Arrive? then w.tasks[a.task].worker else if a.Leave? then w.home[a.socket] else a.worker;
      OfficeIsBounded(w, k);
      if a.Arrive? { ConnectEffect(At(w, k), a.socket, w.revision); }
      if a.Leave? { DropEffect(At(w, k), a.socket, w.revision); }
      if a.Leave? { LeftIsBounded(At(w, k), a.socket, w.revision); }
      if a.Subscribe? { SubscribedIsBounded(At(w, k), w.revision); }
      if a.Leave? { LeaveMoves(w, a.socket); } else { MoveStaysBounded(w, Step(w, a), k, a.task); }
    }
  }

  lemma LeftIsBounded(o: Office, s: Socket, revision: nat)
    requires OfficeBounded(o, revision)
    ensures OfficeBounded(Left(o, s), revision)
  {
    DropEffect(o, s, revision);
  }

  lemma SubscribedIsBounded(o: Office, revision: nat)
    requires OfficeBounded(o, revision)
    ensures OfficeBounded(o.(subscribed := true), revision)
  {
  }

  lemma LeaveMoves(w: World, s: Socket)
    requires Bounded(w) && s in w.open && s in w.home
    requires OfficeBounded(Left(At(w, w.home[s]), s), w.revision)
    ensures Bounded(StepLeave(w, s))
  {
    hide OfficeBounded, Left;
  }

  /** Nothing is ever newer than the store, whatever becomes of subscriptions. */
  lemma StepStaysBounded(w: World, a: Action)
    requires Bounded(w)
    ensures Bounded(Step(w, a))
  {
    hide OfficeBounded;
    if a.Start? || a.Tell? || a.Greet? { SendingStaysBounded(w, a); }
    else if a.Commit? { CommitStaysBounded(w, a); }
    else if a.Arrive? || a.Leave? || a.Subscribe? { SocketStaysBounded(w, a); }
    else if a.Publish? && a.task in w.tasks && w.tasks[a.task].Publishing? { PublishKeepsBounded(w, a.task); }
    else if a.Take? && a.task !in w.tasks && At(w, a.worker).queue != [] { TakeKeepsBounded(w, a.task, a.worker); }
    hide StepStart, StepTell, StepGreet, StepCommit, StepArrive, StepLeave, StepSubscribe, Remember;
  }

  lemma {:induction false} BoundedAlways(acts: seq<Action>)
    ensures Bounded(Play(acts))
  {
    if acts != [] {
      hide Step;
      BoundedAlways(acts[..|acts| - 1]);
      StepStaysBounded(Play(acts[..|acts| - 1]), acts[|acts| - 1]);
    }
  }

  // ---------------------------------------------------------------- until it wakes

  lemma StepStaysForsaken(w: World, a: Action, k: Worker, s: Socket)
    requires Forsaken(w, k) && !Wakes(w, a, k)
    ensures var w' := Step(w, a);
            && Forsaken(w', k) && w.revision <= w'.revision
            && (s in Live(At(w', k)) ==> s in Live(At(w, k)) && Sent(At(w', k), s) == Sent(At(w, k), s))
  {
  }

  /** Whatever the others do, such a socket is sent nothing until its worker wakes. */
  lemma {:induction false} StaysForsaken(w: World, more: seq<Action>, k: Worker, s: Socket)
    requires Forsaken(w, k) && !WakesIn(w, more, k)
    ensures var v := PlayOn(w, more);
            && Forsaken(v, k) && w.revision <= v.revision
            && (s in Live(At(v, k)) ==> s in Live(At(w, k)) && Sent(At(v, k), s) == Sent(At(w, k), s))
  {
    if more != [] {
      hide Step, Forsaken, Wakes;
      StaysForsaken(w, more[..|more| - 1], k, s);
      StepStaysForsaken(PlayOn(w, more[..|more| - 1]), more[|more| - 1], k, s);
    }
  }

  lemma SentIsBounded(w: World, k: Worker, s: Socket)
    requires Bounded(w) && Sent(At(w, k), s).Some?
    ensures Sent(At(w, k), s).value <= w.revision
  {
  }

  /** A straggler that is connected and up to date again has been woken for. */
  lemma CaughtUpWasWoken(w: World, more: seq<Action>, k: Worker, s: Socket)
    requires Bounded(w) && Forsaken(w, k) && Behind(w, k, s)
    ensures s in Live(At(PlayOn(w, more), k)) && !Behind(PlayOn(w, more), k, s) ==> WakesIn(w, more, k)
  {
    hide Forsaken, PlayOn, WakesIn, Bounded, Live, Sent, At;
    var v := PlayOn(w, more);
    if !WakesIn(w, more, k) && s in Live(At(v, k)) {
      StaysForsaken(w, more, k, s);
      StaysBehind(w, v, k, s);
    }
  }

  lemma StaysBehind(w: World, v: World, k: Worker, s: Socket)
    requires Bounded(w) && Behind(w, k, s) && w.revision <= v.revision
    requires s in Live(At(v, k)) && Sent(At(v, k), s) == Sent(At(w, k), s)
    ensures Behind(v, k, s)
  {
    hide Live, Bounded;
    if Sent(At(w, k), s).Some? { SentIsBounded(w, k, s); }
  }

  /** And waking is enough: the waking task's own next steps bring the socket up to date. */
  function Work(a: Action, s: Socket): seq<Action>
    requires a.Subscribe? || a.Commit?
  {
    (if a.Subscribe? then [Read(a.task)] else []) + [Start(a.task), Tell(a.task, s, Settled)]
  }

  /** A broadcast of the store's revision reaches a socket that is behind. */
  lemma BroadcastReaches(w: World, t: nat, k: Worker, s: Socket, publish: bool)
    requires t in w.tasks && w.tasks[t] == Broadcasting(k, w.revision, publish)
    requires OfficeBounded(At(w, k), w.revision) && s in Live(At(w, k))
    ensures var v := StepTell(StepStart(w, t), t, s, Settled);
            v.revision == w.revision && s in Live(At(v, k)) && Sent(At(v, k), s) == Some(w.revision)
  {
    hide Ended;
    var o := At(w, k);
    NoteEffect(o, w.revision, w.revision);
    EndedEffect(o.(hub := Note(o.hub, ROOM, GEN, w.revision)), s, w.revision, Settled, w.revision);
    EndedStays(o.(hub := Note(o.hub, ROOM, GEN, w.revision)), s, w.revision, w.revision);
  }

  lemma EndedStays(o: Office, s: Socket, r: nat, revision: nat)
    requires OfficeBounded(o, revision) && r <= revision
    ensures Live(Ended(o, s, r, Settled)) == Live(o)
  {
    AttemptEffect(o, s, r, false, revision);
  }

  lemma TwoSteps(w: World, a: Action, b: Action)
    ensures PlayOn(w, [a, b]) == Step(Step(w, a), b)
  {
    hide Step;
    assert [a, b][..1] == [a] && [a][..0] == [];
    assert PlayOn(w, [a]) == Step(PlayOn(w, []), a);
  }

  lemma ThreeSteps(w: World, a: Action, b: Action, c: Action)
    ensures PlayOn(w, [a, b, c]) == Step(Step(Step(w, a), b), c)
  {
    hide Step;
    assert [a, b, c][..2] == [a, b];
    TwoSteps(w, a, b);
  }

  lemma WakingSuffices(w: World, a: Action, k: Worker, s: Socket)
    requires Bounded(w) && Forsaken(w, k) && Behind(w, k, s) && Wakes(w, a, k)
    ensures var v := PlayOn(Step(w, a), Work(a, s)); s in Live(At(v, k)) && !Behind(v, k, s)
  {
    hide StepStart, StepTell, PlayOn, OfficeBounded, Connect, Sent;
    var t, u := a.task, Step(w, a);
    StepStaysBounded(w, a);
    OfficeIsBounded(u, k);
    if a.Subscribe? {
      ThreeSteps(u, Read(t), Start(t), Tell(t, s, Settled));
      assert Work(a, s) == [Read(t), Start(t), Tell(t, s, Settled)];
      BroadcastReaches(StepRead(u, t), t, k, s, false);
    } else {
      TwoSteps(u, Start(t), Tell(t, s, Settled));
      assert Work(a, s) == [Start(t), Tell(t, s, Settled)];
      BroadcastReaches(u, t, k, s, true);
    }
  }

  /** The socket that missed its subscription is such a straggler: it is behind, and stays so exactly
      until its worker wakes. */
  lemma MissedIsForsaken()
    ensures Bounded(Play(MISSED)) && Forsaken(Play(MISSED), 0) && Behind(Play(MISSED), 0, 2)
  {
    hide Play;
    BoundedAlways(MISSED);
    MissedSubscriptionStaysStale();
  }
}

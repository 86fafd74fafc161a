/**
 When every worker with a connected socket is subscribed (backend/websocket_handler.py,
 backend/room_service.py), and the one way in which that can fail.
 */
module Subscriptions {
  import opened Common
  import opened Connections
  import opened Convergence

  /** The action connects a socket. */
  predicate Connects(w: World, a: Action) {
    a.Arrive? && a.task in w.tasks && w.tasks[a.task].Admitted? && a.socket !in w.home
  }

  /** If it does, its worker is subscribed at that moment. */
  predicate FindsSubscription(w: World, a: Action) {
    Connects(w, a) ==> At(w, w.tasks[a.task].worker).subscribed
  }

  predicate ArrivalsFindSubscription(acts: seq<Action>) {
    acts != [] ==>
      && ArrivalsFindSubscription(acts[..|acts| - 1])
      && FindsSubscription(Play(acts[..|acts| - 1]), acts[|acts| - 1])
  }

  lemma OfficeHeld(w: World, k: Worker)
    requires SubscriptionsHeld(w) && Live(At(w, k)) != {}
    ensures At(w, k).subscribed
  {
  }

  /** Sockets only come by arriving, and a subscription only goes with the last of them. */
  lemma OtherStepsKeepHeld(w: World, a: Action)
    requires SubscriptionsHeld(w) && !a.Arrive?
    ensures SubscriptionsHeld(Step(w, a))
  {
    var w' := Step(w, a);
    forall k | k in w'.offices && Live(w'.offices[k]) != {} ensures w'.offices[k].subscribed {
      StepShrinksLive(w, a, k);
      OfficeHeld(w, k);
    }
  }

  lemma StepShrinksLive(w: World, a: Action, k: Worker)
    requires !a.Arrive? && k in Step(w, a).offices && Live(Step(w, a).offices[k]) != {}
    ensures Live(At(w, k)) != {}
    ensures At(w, k).subscribed ==> Step(w, a).offices[k].subscribed
  {
  }

  lemma ArrivalKeepsHeldIff(w: World, a: Action)
    requires SubscriptionsHeld(w) && a.Arrive?
    ensures SubscriptionsHeld(Step(w, a)) <==> FindsSubscription(w, a)
  {
    if Connects(w, a) {
      var w', k := Step(w, a), w.tasks[a.task].worker;
      assert a.socket in Live(w'.offices[k]);
      forall j | j in w'.offices && j != k && Live(w'.offices[j]) != {} ensures w'.offices[j].subscribed {
        assert w'.offices[j] == w.offices[j];
      }
    }
  }

  /** The premise of convergence holds throughout a run if and only if every socket that connects
      finds its worker subscribed at that moment. */
  lemma {:induction false} HeldIffArrivalsFindSubscription(acts: seq<Action>)
    ensures HeldThroughout(acts) <==> ArrivalsFindSubscription(acts)
    ensures HeldThroughout(acts) ==> SubscriptionsHeld(Play(acts))
  {
    if acts != [] {
      var w, a := Play(acts[..|acts| - 1]), acts[|acts| - 1];
      HeldIffArrivalsFindSubscription(acts[..|acts| - 1]);
      if HeldThroughout(acts[..|acts| - 1]) {
        if a.Arrive? { ArrivalKeepsHeldIff(w, a); } else { OtherStepsKeepHeld(w, a); }
      }
    }
  }

  /** Convergence with its premise spelled out. */
  lemma QuiescentSocketsAreCurrentIfFound(acts: seq<Action>, k: Worker, s: Socket)
    requires ArrivalsFindSubscription(acts) && Quiescent(Play(acts))
    requires s in Live(At(Play(acts), k))
    ensures Sent(At(Play(acts), k), s) == Some(Play(acts).revision)
  {
    HeldIffArrivalsFindSubscription(acts);
    QuiescentSocketsAreCurrent(acts, k, s);
  }

  // ---------------------------------------------------------------- who takes the subscription away

  /** An endpoint ends at worker `k` and leaves no socket there. */
  predicate Closes(w: World, a: Action, k: Worker) {
    a.Leave? && a.socket in w.open && a.socket in w.home && w.home[a.socket] == k && Live(At(Step(w, a), k)) == {}
  }

  /** Between finding the subscription ready and now, somebody else closed it. */
  predicate Overtaken(acts: seq<Action>, t: nat) {
    acts != []
    && var w, a := Play(acts[..|acts| - 1]), acts[|acts| - 1];
       if a.Ensure? && a.task == t && t !in w.tasks then false
       else
         || Overtaken(acts[..|acts| - 1], t)
         || (t in w.tasks && w.tasks[t].Admitted? && Closes(w, a, w.tasks[t].worker))
  }

  lemma SubscriptionStays(w: World, a: Action, k: Worker)
    requires At(w, k).subscribed && !Closes(w, a, k)
    ensures At(Step(w, a), k).subscribed
  {
  }

  lemma AdmittedBefore(w: World, a: Action, t: nat)
    requires t in Step(w, a).tasks && Step(w, a).tasks[t].Admitted?
    ensures (t in w.tasks && w.tasks[t] == Step(w, a).tasks[t])
            || (a == Ensure(t, Step(w, a).tasks[t].worker) && t !in w.tasks && At(w, a.worker).subscribed)
    ensures a.Ensure? && a.task == t && t !in w.tasks ==> At(Step(w, a), a.worker) == At(w, a.worker)
  {
  }

  /** Whoever has been let in and not been overtaken still finds the subscription. */
  lemma {:induction false} AdmittedFindSubscription(acts: seq<Action>, t: nat)
    requires t in Play(acts).tasks && Play(acts).tasks[t].Admitted? && !Overtaken(acts, t)
    ensures At(Play(acts), Play(acts).tasks[t].worker).subscribed
  {
    var w, a := Play(acts[..|acts| - 1]), acts[|acts| - 1];
    AdmittedBefore(w, a, t);
    if t in w.tasks {
      AdmittedFindSubscription(acts[..|acts| - 1], t);
      SubscriptionStays(w, a, w.tasks[t].worker);
    }
  }

  /** The first step after which a worker has a socket and no subscription connects a socket whose
      endpoint was overtaken: after it had found the subscription ready, the last socket left. */
  lemma OnlyOvertakenArrivalsBreakHeld(acts: seq<Action>, a: Action)
    ensures HeldThroughout(acts) && !SubscriptionsHeld(Step(Play(acts), a)) ==>
              Connects(Play(acts), a) && Overtaken(acts, a.task)
  {
    var w := Play(acts);
    HeldIffArrivalsFindSubscription(acts);
    if SubscriptionsHeld(w) {
      if a.Arrive? { ArrivalKeepsHeldIff(w, a); } else { OtherStepsKeepHeld(w, a); }
    }
    if Connects(w, a) && !Overtaken(acts, a.task) { AdmittedFindSubscription(acts, a.task); }
  }

  // ---------------------------------------------------------------- it does happen

  /** Socket 1 leaves between the moment socket 2 finds the subscription and the moment it connects. */
  const MISSED: seq<Action> := [
    Subscribe(0, 0), Read(0), Start(0),
    Ensure(1, 0), Arrive(1, 1), Reread(1), Greet(1, Settled),
    Ensure(2, 0), Leave(1), Arrive(2, 2), Reread(2), Greet(2, Settled),
    Commit(3, 1), Start(3), Publish(3)]

  lemma PlayPrefix(acts: seq<Action>, k: nat)
    requires k < |acts|
    ensures Play(acts[..k + 1]) == Step(Play(acts[..k]), acts[k])
  {
    assert acts[..k + 1][..k] == acts[..k];
  }

  lemma Nothing()
    ensures Play([]) == BEGIN
  {
  }

  const READY := CLOSED.(subscribed := true)

  lemma MissedOpens()
    ensures Play(MISSED[..4]) == World(0, map[0 := READY], map[1 := Admitted(0)], 0, map[], {})
  {
    hide Play;
    assert MISSED[..0] == [];
    Nothing();
    PlayPrefix(MISSED, 0);
    PlayPrefix(MISSED, 1);
    PlayPrefix(MISSED, 2);
    PlayPrefix(MISSED, 3);
    assert Play(MISSED[..1]) == World(0, map[0 := READY], map[0 := Reading(0)], 0, map[], {});
    assert Play(MISSED[..2]) == World(0, map[0 := READY], map[0 := Broadcasting(0, 0, false)], 0, map[], {});
    assert Play(MISSED[..3]) == World(0, map[0 := READY], map[], 0, map[], {});
  }

  lemma Arrived(w: World, t: nat, s: Socket)
    requires w.tasks == map[t := Admitted(0)] && w.offices.Keys == {0} && s !in w.home && Live(w.offices[0]) == {}
    ensures var a := StepArrive(w, t, s);
            && a.tasks == map[t := Joining(0, s)] && a.offices.Keys == {0} && a.revision == w.revision
            && a.home == w.home[s := 0] && a.open == w.open + {s}
            && Live(a.offices[0]) == {s} && Sockets(a.offices[0].hub, ROOM)[s] == GEN && s !in a.offices[0].hub.seen
            && a.offices[0] == w.offices[0].(hub := a.offices[0].hub)
  {
  }

  lemma FirstSent(o: Office, s: Socket)
    requires Live(o) == {s} && Sockets(o.hub, ROOM)[s] == GEN && s !in o.hub.seen
    ensures var o' := Ended(o, s, 0, Settled);
            Live(o') == {s} && Sent(o', s) == Some(0) && o' == o.(hub := o'.hub)
  {
  }

  /** An admitted socket arrives at the only worker, reads the store and is greeted. */
  lemma Greeted(w: World, t: nat, s: Socket)
    requires w.tasks == map[t := Admitted(0)] && w.offices.Keys == {0} && s !in w.home && Live(w.offices[0]) == {}
    requires w.revision == 0
    ensures var w' := StepGreet(StepReread(StepArrive(w, t, s), t), t, Settled);
            && w'.tasks == map[] && w'.offices.Keys == {0} && w'.revision == 0
            && w'.home == w.home[s := 0] && w'.open == w.open + {s}
            && Live(w'.offices[0]) == {s} && Sent(w'.offices[0], s) == Some(0)
            && w'.offices[0].queue == w.offices[0].queue && w'.offices[0].subscribed == w.offices[0].subscribed
  {
    hide Ended, StepArrive, Live, Sent, Sockets;
    var a := StepArrive(w, t, s);
    Arrived(w, t, s);
    var b := StepReread(a, t);
    assert b == a.(tasks := map[t := Greeting(0, s, 0)]);
    FirstSent(a.offices[0], s);
    assert StepGreet(b, t, Settled).tasks == map[];
  }

  lemma MissedFirst()
    ensures var w := Play(MISSED[..7]);
            && w.tasks == map[] && w.offices.Keys == {0} && w.revision == 0
            && w.home == map[1 := 0] && w.open == {1} && Live(w.offices[0]) == {1} && w.offices[0].subscribed
  {
    hide StepArrive, StepReread, StepGreet, Sent, Play;
    MissedOpens();
    PlayPrefix(MISSED, 4);
    PlayPrefix(MISSED, 5);
    PlayPrefix(MISSED, 6);
    Greeted(Play(MISSED[..4]), 1, 1);
  }

  /** The check finds the subscription, then the last socket takes it away. */
  lemma MissedCloses()
    ensures var w := Play(MISSED[..9]);
            && w.tasks == map[2 := Admitted(0)] && w.offices.Keys == {0} && w.revision == 0
            && w.home == map[1 := 0] && Live(w.offices[0]) == {}
            && w.offices[0].queue == [] && !w.offices[0].subscribed
    ensures Overtaken(MISSED[..9], 2)
  {
    hide Play;
    MissedFirst();
    PlayPrefix(MISSED, 7);
    PlayPrefix(MISSED, 8);
    var w7, w8 := Play(MISSED[..7]), Play(MISSED[..8]);
    assert w8 == w7.(tasks := map[2 := Admitted(0)]);
    assert MISSED[..9][..8] == MISSED[..8] && MISSED[..9][8] == Leave(1);
    assert Closes(w8, Leave(1), 0);
  }

  lemma MissedGreets()
    ensures var w := Play(MISSED[..12]);
            && w.tasks == map[] && w.offices.Keys == {0} && w.revision == 0
            && Live(w.offices[0]) == {2} && Sent(w.offices[0], 2) == Some(0)
            && w.offices[0].queue == [] && !w.offices[0].subscribed
  {
    hide StepArrive, StepReread, StepGreet, Sent, Live, Play;
    MissedCloses();
    PlayPrefix(MISSED, 9);
    PlayPrefix(MISSED, 10);
    PlayPrefix(MISSED, 11);
    Greeted(Play(MISSED[..9]), 2, 2);
  }

  /** Then everything comes to rest with socket 2 connected and behind the store. */
  lemma MissedSubscriptionStaysStale()
    ensures var w := Play(MISSED);
            && Quiescent(w) && !SubscriptionsHeld(w)
            && 2 in Live(At(w, 0)) && Sent(At(w, 0), 2) == Some(0) && w.revision == 1 && !At(w, 0).subscribed
  {
    hide Play;
    MissedGreets();
    PlayPrefix(MISSED, 12);
    PlayPrefix(MISSED, 13);
    PlayPrefix(MISSED, 14);
    assert MISSED[..15] == MISSED;
    var w := Play(MISSED[..12]);
    assert Play(MISSED[..13]).tasks == map[3 := Broadcasting(1, 1, true)];
    assert Play(MISSED[..14]).tasks == map[3 := Publishing(1, 1)] && Play(MISSED[..14]).offices == w.offices;
    assert Play(MISSED).tasks == map[];
    assert 0 in Play(MISSED).offices && Play(MISSED).offices[0] == w.offices[0];
  }
}

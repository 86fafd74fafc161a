/**
 The event bus of one worker inside the world of all workers: what `RedisStateEventBus` publishes
 and acts on is what Convergence says of that worker's events.
 */
module Buses {
  import opened Common
  import opened Connections
  import opened EventBus
  import opened Convergence

  /** What travels as the event. */
  function EnvelopeOf(e: Event): Envelope {
    Envelope(EVENT_VERSION, STATE_SNAPSHOT_EVENT, e.source, e.id, ROOM, true)
  }

  /** The bus of worker `k`, with the world's memory of seen events. */
  ghost predicate Serves(bus: RedisStateEventBus, w: World, k: Worker)
    reads bus
  {
    bus.workerId == k && bus.recentEventLimit == RECENT_EVENTS && bus.Recent(ROOM) == At(w, k).recent
  }

  /** Taking the next event in the world is dispatching its envelope: it is turned into a read of the
      store if and only if the envelope is accepted, and is remembered then and only then. */
  lemma TakeIsDispatch(w: World, t: nat, k: Worker)
    requires t !in w.tasks && At(w, k).queue != []
    ensures var w', e := StepTake(w, t, k), EnvelopeOf(At(w, k).queue[0]);
            && (Accepted(k, At(w, k).recent, e) <==> t in w'.tasks && w'.tasks[t] == Reading(k))
            && At(w', k).recent
               == (if Accepted(k, At(w, k).recent, e) then Remember(At(w, k).recent, e.id, RECENT_EVENTS)
                   else At(w, k).recent)
            && At(w', k).queue == At(w, k).queue[1..]
  {
  }

  /** So the bus does, and it stays the bus of its worker. */
  method DispatchNext(bus: RedisStateEventBus, w: World, t: nat, k: Worker) returns (load: bool)
    requires Serves(bus, w, k) && t !in w.tasks && At(w, k).queue != []
    modifies bus
    ensures load <==> t in StepTake(w, t, k).tasks
    ensures Serves(bus, StepTake(w, t, k), k)
  {
    TakeIsDispatch(w, t, k);
    load := bus.DispatchEnvelope(EnvelopeOf(At(w, k).queue[0]));
  }

  /** Publishing puts the bus's envelope into the queue of every subscribed worker, and into no other. */
  method PublishNext(bus: RedisStateEventBus, w: World, t: nat, k: Worker) returns (e: Envelope)
    requires Serves(bus, w, k) && t in w.tasks && w.tasks[t].Publishing? && w.tasks[t].worker == k
    modifies bus
    ensures e == EnvelopeOf(Event(w.nextEvent, k))
    ensures Serves(bus, StepPublish(w, t), k)
    ensures forall j :: At(StepPublish(w, t), j).queue
                     == At(w, j).queue + if At(w, j).subscribed then [Event(w.nextEvent, k)] else []
  {
    e := bus.PublishState(ROOM, w.nextEvent);
  }

  /** What one worker publishes, every other worker that has not seen it acts on, and it itself never. */
  method Deliver(publisher: RedisStateEventBus, receiver: RedisStateEventBus, room: string, id: nat)
    returns (e: Envelope, load: bool)
    modifies publisher, receiver
    ensures load <==> receiver.workerId != publisher.workerId && id !in old(receiver.Recent(room))
    ensures load ==> receiver.Recent(room) == Remember(old(receiver.Recent(room)), id, receiver.recentEventLimit)
  {
    e := publisher.PublishState(room, id);
    load := receiver.DispatchEnvelope(e);
  }

  /** An envelope is acted on if and only if it is one that the bus of another worker publishes, word
      for word, and is not remembered. */
  lemma ActedOnIffPublishedElsewhere(worker: nat, recent: seq<nat>, e: Envelope)
    ensures Accepted(worker, recent, e) <==>
            && e.id !in recent
            && exists other: nat :: other != worker
                 && e == Envelope(EVENT_VERSION, STATE_SNAPSHOT_EVENT, other, e.id, e.room, true)
  {
    if Accepted(worker, recent, e) {
      assert e == Envelope(EVENT_VERSION, STATE_SNAPSHOT_EVENT, e.source, e.id, e.room, true);
    }
  }

  // ---------------------------------------------------------------- along every run

  lemma OfficesKeepMail(w: World, w': World)
    requires MailInv(w) && w'.nextEvent == w.nextEvent
    requires forall k :: k in w'.offices ==>
               && (At(w', k).queue == At(w, k).queue || At(w', k).queue == []) && At(w', k).recent == At(w, k).recent
    ensures MailInv(w')
  {
    forall k | k in w'.offices ensures MailOk(w'.offices[k], k, w'.nextEvent) {
      if k in w.offices { assert MailOk(w.offices[k], k, w.nextEvent); }
    }
  }

  lemma LeaveKeepsMail(w: World, s: Socket)
    requires MailInv(w)
    ensures MailInv(StepLeave(w, s))
  {
    hide MailInv, Disconnect, Live;
    OfficesKeepMail(w, StepLeave(w, s));
  }

  lemma HubStepKeepsMail(w: World, a: Action)
    requires MailInv(w) && !a.Take? && !a.Publish? && !a.Leave?
    ensures MailInv(Step(w, a))
  {
    hide MailInv, Note, Outdated, Live, Disconnect, SendLocked, SendDone, Connect, Consuming;
    OfficesKeepMail(w, Step(w, a));
  }

  lemma StepKeepsMail(w: World, a: Action)
    requires MailInv(w)
    ensures MailInv(Step(w, a))
  {
    match a
    case Take(t, k) => if t !in w.tasks && At(w, k).queue != [] { TakeKeepsMail(w, t, k); }
    case Publish(t) => if t in w.tasks && w.tasks[t].Publishing? { PublishKeepsMail(w, t); }
    case Leave(s) => LeaveKeepsMail(w, s);
    case _ => HubStepKeepsMail(w, a);
  }

  lemma {:induction false} MailAlways(acts: seq<Action>)
    ensures MailInv(Play(acts))
  {
    if acts != [] {
      MailAlways(acts[..|acts| - 1]);
      StepKeepsMail(Play(acts[..|acts| - 1]), acts[|acts| - 1]);
    }
  }

  /** Under every interleaving, subscriptions lost or not: of the events that reach a worker it acts on
      exactly those of the others. None of them has been seen before. */
  lemma OthersAreActedOn(acts: seq<Action>, k: Worker, i: nat)
    requires i < |At(Play(acts), k).queue|
    ensures var o := At(Play(acts), k);
            Accepted(k, o.recent, EnvelopeOf(o.queue[i])) <==> o.queue[i].source != k
  {
    MailAlways(acts);
    assert MailOk(At(Play(acts), k), k, Play(acts).nextEvent);
  }
}

/**
 The part of backend/event_bus.py that keeps state: which Pub/Sub events a worker has seen.
 */
module EventBus {
  import opened Common

  const EVENT_VERSION := 2
  const STATE_SNAPSHOT_EVENT := "state_snapshot"

  /** `shaped` says that the payload has exactly the fields of a state snapshot. */
  datatype Envelope = Envelope(version: int, event: string, source: nat, id: nat, room: string, shaped: bool)

  /** Whether a worker that remembers `recent` acts on the envelope: a snapshot event of its own
      version, from another worker, not seen yet and with a snapshot in it. */
  predicate Accepted(worker: nat, recent: seq<nat>, e: Envelope) {
    && e.version == EVENT_VERSION && e.event == STATE_SNAPSHOT_EVENT
    && e.source != worker && e.id !in recent && e.shaped
  }

  /** Append an event id, keeping only the last `limit`. */
  function Remember(recent: seq<nat>, id: nat, limit: nat): seq<nat> {
    if id in recent then recent
    else
      var longer := recent + [id];
      if |longer| > limit then longer[|longer| - limit..] else longer
  }

  function RememberAll(recent: seq<nat>, ids: seq<nat>, limit: nat): seq<nat> {
    if ids == [] then recent
    else Remember(RememberAll(recent, ids[..|ids| - 1], limit), ids[|ids| - 1], limit)
  }

  predicate Distinct(ids: seq<nat>) {
    forall i, j :: 0 <= i < j < |ids| ==> ids[i] != ids[j]
  }

  lemma RememberKeepsList(recent: seq<nat>, id: nat, limit: nat)
    requires Distinct(recent) && |recent| <= limit && limit >= 1
    ensures var r := Remember(recent, id, limit);
            Distinct(r) && |r| <= limit && id in r && (forall x :: x in r ==> x in recent || x == id)
  {
    var r := Remember(recent, id, limit);
    if id !in recent { assert r[|r| - 1] == id; }
  }

  /** A remembered event stays recognised through fewer than `limit` other events. */
  lemma {:induction false} RememberedLongEnough(recent: seq<nat>, id: nat, others: seq<nat>, limit: nat)
    requires Distinct(recent) && |recent| <= limit && |others| < limit && id !in others
    requires id !in recent
    ensures var r := RememberAll(Remember(recent, id, limit), others, limit);
            && |r| <= limit && Distinct(r)
            && exists i :: 0 <= i < |r| && r[i] == id && |r| - i <= |others| + 1
  {
    var first := Remember(recent, id, limit);
    RememberKeepsList(recent, id, limit);
    if others == [] {
      assert first[|first| - 1] == id;
    } else {
      var init, last := others[..|others| - 1], others[|others| - 1];
      RememberedLongEnough(recent, id, init, limit);
      var q := RememberAll(first, init, limit);
      var i :| 0 <= i < |q| && q[i] == id && |q| - i <= |init| + 1;
      var r := Remember(q, last, limit);
      RememberKeepsList(q, last, limit);
      if last !in q {
        var k := if |q| + 1 > limit then i - 1 else i;
        assert r[k] == id;
      }
    }
  }

  class RedisStateEventBus {
    const workerId: nat
    const recentEventLimit: nat
    var recentEventIds: map<string, seq<nat>>

    constructor (workerId: nat, limit: nat)
      ensures this.workerId == workerId && recentEventLimit == limit && recentEventIds == map[]
    {
      this.workerId, recentEventLimit, recentEventIds := workerId, limit, map[];
    }

    function Recent(room: string): seq<nat>
      reads this
    {
      if room in recentEventIds then recentEventIds[room] else []
    }

    method RememberEvent(room: string, id: nat)
      modifies this
      ensures Recent(room) == Remember(old(Recent(room)), id, recentEventLimit)
      ensures forall r :: r != room ==> Recent(r) == old(Recent(r))
    {
      var recent := if room in recentEventIds then recentEventIds[room] else [];
      if id !in recent {
        recent := recent + [id];
        if |recent| > recentEventLimit { recent := recent[|recent| - recentEventLimit..]; }
      }
      recentEventIds := recentEventIds[room := recent];
    }

    /** Publishing a state, under a fresh event id, which the publisher remembers as seen. */
    method PublishState(room: string, id: nat) returns (e: Envelope)
      modifies this
      ensures e == Envelope(EVENT_VERSION, STATE_SNAPSHOT_EVENT, workerId, id, room, true)
      ensures Recent(room) == Remember(old(Recent(room)), id, recentEventLimit)
      ensures forall r :: r != room ==> Recent(r) == old(Recent(r))
    {
      e := Envelope(EVENT_VERSION, STATE_SNAPSHOT_EVENT, workerId, id, room, true);
      RememberEvent(room, id);
    }

    /** Whether the worker goes on to load and broadcast the canonical snapshot. */
    method DispatchEnvelope(e: Envelope) returns (load: bool)
      modifies this
      ensures load <==> Accepted(workerId, old(Recent(e.room)), e)
      ensures Recent(e.room)
           == if load then Remember(old(Recent(e.room)), e.id, recentEventLimit) else old(Recent(e.room))
      ensures forall r :: r != e.room ==> Recent(r) == old(Recent(r))
    {
      if e.version != EVENT_VERSION { return false; }
      if e.event != STATE_SNAPSHOT_EVENT { return false; }
      if e.source == workerId { return false; }
      if e.id in Recent(e.room) { return false; }
      if !e.shaped { return false; }
      RememberEvent(e.room, e.id);
      return true;
    }
  }
}

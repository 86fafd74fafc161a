/**
 The two fields of a room that are not its timer: the sky and the time override.

 The override in force is read off the messages alone, and the sky is the answer the provider gave
 the last event that asked it.
 */
module Skies {
  import opened Common
  import opened Timer
  import opened Steps
  import opened Replay
  import opened RoomStore
  import opened Workers
  import opened Fencing

  /** An override that the date parser refuses; nothing is parsed for null or an empty text. */
  predicate Refused(iso: Option<string>, parses: bool) {
    iso.Some? && iso.value != "" && !parses
  }

  predicate OnEarth(lat: Option<real>, lon: Option<real>) {
    lat.Some? && lon.Some? && -90.0 <= lat.value <= 90.0 && -180.0 <= lon.value <= 180.0
  }

  /** The override of the last message that set one. */
  function OverrideOf(first: Option<string>, es: seq<Event>): Option<string> {
    if es == [] then first
    else
      match Last(es)
      case Said(_, _, TimeOverride(iso, parses, _)) =>
        if Refused(iso, parses) then OverrideOf(first, Init(es)) else iso
      case _ => OverrideOf(first, Init(es))
  }

  /** The provider's answer to an event that asks it: an override, a place on earth, or a tick of a
      half minute as long as no override is in force. */
  function AnswerTo(e: Event, override: Option<string>): Option<Sky> {
    match e
    case Tick(slot, _, newSky) => if slot % 30 == 0 && override.None? then Some(newSky) else None
    case Said(_, _, TimeOverride(iso, parses, newSky)) => if Refused(iso, parses) then None else Some(newSky)
    case Said(_, _, Location(lat, lon, newSky)) => if OnEarth(lat, lon) then Some(newSky) else None
    case _ => None
  }

  /** The last answer, in a history of which every event counted. */
  function SkyOf(first: State, es: seq<Event>): Sky {
    if es == [] then first.sky
    else AnswerTo(Last(es), OverrideOf(first.timeOverride, Init(es))).GetOr(SkyOf(first, Init(es)))
  }

  /** A tick that finds the room idle and its worker without sockets does not count. */
  function Counting(s0: State, es: seq<Event>): seq<Event> {
    if es == [] then []
    else
      Counting(s0, Init(es))
      + if Counts(s0, es) then [Last(es)] else []
  }

  predicate Counts(s0: State, es: seq<Event>)
    requires es != []
  {
    !Last(es).Tick? || Last(es).connected || Advancing(Fold(s0, Init(es)).clock)
  }

  lemma CountingNext(s0: State, es: seq<Event>)
    requires es != []
    ensures var counting, before := Counting(s0, es), Counting(s0, Init(es));
            if Counts(s0, es) then counting != [] && Init(counting) == before && Last(counting) == Last(es)
            else counting == before
  {
    assert Init(Counting(s0, Init(es)) + [Last(es)]) == Counting(s0, Init(es));
  }

  /** Ticks change no override, so those that do not count can be left out. */
  lemma {:induction false} CountingKeepsOverride(s0: State, es: seq<Event>)
    ensures OverrideOf(s0.timeOverride, Counting(s0, es)) == OverrideOf(s0.timeOverride, es)
  {
    if es != [] {
      CountingKeepsOverride(s0, Init(es));
      CountingNext(s0, es);
    }
  }

  /** One event, at any state. */
  lemma AnswerIsStored(s: State, e: Event)
    ensures Apply(s, e).timeOverride == OverrideOf(s.timeOverride, [e])
    ensures Apply(s, e).sky == if Counts(s, [e]) then AnswerTo(e, s.timeOverride).GetOr(s.sky) else s.sky
  {
    hide Run, HandleClock;
    assert Init([e]) == [];
  }

  /** On every history: the override of the last message that set one, and the answer given to the
      last event that asked. */
  lemma {:induction false} SkyIsLastAnswer(s0: State, es: seq<Event>)
    ensures Fold(s0, es).timeOverride == OverrideOf(s0.timeOverride, es)
    ensures Fold(s0, es).sky == SkyOf(s0, Counting(s0, es))
  {
    if es != [] {
      SkyIsLastAnswer(s0, Init(es));
      CountingKeepsOverride(s0, Init(es));
      CountingNext(s0, es);
      hide Counting, Run, HandleClock;
      AnswerIsStored(Fold(s0, Init(es)), Last(es));
    }
  }

  lemma CommitCounts(s: State, e: Event)
    requires Commits(s, e)
    ensures !e.Tick? || e.connected || Advancing(s.clock)
  {
    hide Run, HandleClock;
  }

  lemma {:induction false} CommittedCount(s0: State, es: seq<Event>)
    requires Chain(s0, es)
    ensures Counting(s0, es) == es
  {
    hide Commits, Fold, Apply;
    if es != [] {
      var k := |es| - 1;
      assert Init(es) == es[..k];
      assert Chain(s0, Init(es)) by {
        forall i | 0 <= i <= k ensures Init(es)[..i] == es[..i] {}
      }
      CommittedCount(s0, Init(es));
      CommitCounts(Fold(s0, es[..k]), es[k]);
      assert Init(es) + [es[k]] == es;
    }
  }

  /** In every live room under every interleaving: whatever the workers tried, the sky is the answer
      to the last committed event that asked, and the override is the last one committed. */
  lemma LiveSkyIsLastAnswer(w: World)
    requires Reachable(w) && Alive(w.keys, w.now)
    ensures var s, g := w.keys.state.value, w.keys.meta.value;
            && g in w.logs && g in w.seeds
            && s.timeOverride == OverrideOf(None, w.logs[g])
            && s.sky == SkyOf(w.seeds[g], w.logs[g])
  {
    hide Apply, Fold;
    StoredIsHistory(w);
    var seed, log := w.seeds[w.keys.meta.value], w.logs[w.keys.meta.value];
    assert seed.timeOverride.None? by {
      ReachableIsGood(w);
      assert HistoryOk(w, w.keys.meta.value);
    }
    SkyIsLastAnswer(seed, log);
    CommittedCount(seed, log);
  }

  /** An override set while the room was asked about the sky stops the refresh unless it is null: an
      empty text, which shows the sky of now, freezes it all the same. */
  lemma RefreshedIffNull(s0: State, es: seq<Event>, said: int, call: nat, iso: Option<string>, parses: bool,
                         before: Sky, slot: int, after: Sky)
    requires !Refused(iso, parses) && slot % 30 == 0 && before != after
    ensures Fold(s0, es + [Said(said, call, TimeOverride(iso, parses, before)), Tick(slot, true, after)]).sky
         == if iso == None then after else before
  {
    var a, b := Said(said, call, TimeOverride(iso, parses, before)), Tick(slot, true, after);
    assert Init(es + [a]) == es && Init(es + [a, b]) == es + [a];
    SkyIsLastAnswer(s0, es + [a, b]);
    assert Init(Counting(s0, es) + [a]) == Counting(s0, es) && Init(Counting(s0, es) + [a] + [b]) == Counting(s0, es) + [a];
  }
}

/**
 What a page makes of the snapshots it is sent: the reveal tracker and rest ritual of
 frontend/src/rest-ritual.js, the acceptance rule of frontend/app.js and the connection guard of
 frontend/src/room-websocket.js.
 */
module Page {
  import opened Common

  const STANDARD_BREAK_SECONDS := 600
  const UNVEILING_SECONDS := 30
  const RETURN_SECONDS := 60

  /** A JSON value where a whole number is hoped for. */
  datatype Field = Whole(n: int) | Other

  datatype Snapshot = Snapshot(revision: Field, reward: Field, onBreak: bool,
                               breakDuration: Option<int>, breakRemaining: Option<int>, pomodoroRemaining: Option<int>)

  datatype Phase = Inactive | Unveiling | Restore | Return

  function Normalized(f: Field): (r: Option<nat>)
    ensures r.Some? <==> f.Whole? && f.n >= 0
  {
    if f.Whole? && f.n >= 0 then Some(f.n) else None
  }

  function FiniteInteger(value: Option<int>, fallback: nat): nat {
    if value.None? then fallback else Max(0, value.value)
  }

  /** deriveRestRitualState, as far as the phase. */
  function PhaseOf(s: Snapshot): Phase {
    var duration := Max(1, FiniteInteger(s.breakDuration, STANDARD_BREAK_SECONDS));
    var raw :=
      if s.breakRemaining.Some? then s.breakRemaining else if s.onBreak then s.pomodoroRemaining else Some(0);
    var remaining := Min(duration, FiniteInteger(raw, 0));
    if !s.onBreak then Inactive
    else if remaining <= RETURN_SECONDS then Return
    else if duration - remaining <= UNVEILING_SECONDS then Unveiling
    else Restore
  }

  /** Fields that are missing count as those of a standard break, in which the clock shows what is left. */
  lemma MissingFieldsAreStandard(s: Snapshot)
    ensures PhaseOf(s.(breakDuration := None)) == PhaseOf(s.(breakDuration := Some(STANDARD_BREAK_SECONDS)))
    ensures s.onBreak ==> PhaseOf(s.(breakRemaining := None)) == PhaseOf(s.(breakRemaining := s.pomodoroRemaining))
    ensures PhaseOf(s.(breakRemaining := None, pomodoroRemaining := None)) == if s.onBreak then Return else Inactive
  {
  }

  /** Where a break has got to. */
  function Course(p: Phase): nat {
    match p
    case Unveiling => 0
    case Restore => 1
    case Return => 2
    case Inactive => 3
  }

  /** Whatever its length, a break goes through its phases in their order, and its last minute is the return. */
  lemma PhasesInOrder(s: Snapshot, earlier: int, later: int)
    requires s.onBreak && later <= earlier
    ensures var p, q := PhaseOf(s.(breakRemaining := Some(earlier))), PhaseOf(s.(breakRemaining := Some(later)));
            Course(p) <= Course(q) < 3 && (later <= RETURN_SECONDS ==> q == Return)
  {
  }

  /** Greater than what has been observed, when something has. */
  predicate Raises(observed: Option<nat>, id: Option<nat>) {
    id.Some? && observed.Some? && id.value > observed.value
  }

  function Observed(observed: Option<nat>, id: Option<nat>): Option<nat> {
    if id.Some? && (observed.None? || id.value > observed.value) then id else observed
  }

  class RewardTracker {
    var observed: Option<nat>

    constructor ()
      ensures observed == None
    {
      observed := None;
    }

    method Observe(value: Field) returns (rewardId: Option<nat>, unveil: bool)
      modifies this
      ensures rewardId == Normalized(value)
      ensures unveil <==> Raises(old(observed), rewardId)
      ensures observed == Observed(old(observed), rewardId)
    {
      rewardId := Normalized(value);
      unveil := rewardId.Some? && observed.Some? && rewardId.value > observed.value;
      if rewardId.Some? && (observed.None? || rewardId.value > observed.value) {
        observed := rewardId;
      }
    }

    method Reset()
      modifies this
      ensures observed == None
    {
      observed := None;
    }
  }

  /** The page, as far as it decides about snapshots and reveals. */
  datatype View = View(accepted: Option<nat>, observed: Option<nat>, unveiled: Option<nat>)

  predicate Accepts(v: View, s: Snapshot, first: bool) {
    var accepted := if first then None else v.accepted;
    var revision := Normalized(s.revision);
    accepted.None? || (revision.Some? && revision.value >= accepted.value)
  }

  predicate Unveils(v: View, s: Snapshot, first: bool) {
    Accepts(v, s, first) && s.onBreak && Raises(if first then None else v.observed, Normalized(s.reward))
  }

  function Next(v: View, s: Snapshot, first: bool): View {
    if !Accepts(v, s, first) then v
    else
      var id, revision := Normalized(s.reward), Normalized(s.revision);
      var accepted, observed := if first then None else v.accepted, if first then None else v.observed;
      View(if revision.Some? then revision else accepted,
           Observed(observed, id),
           if PhaseOf(s) != Unveiling then None else if Unveils(v, s, first) then id else v.unveiled)
  }

  /** The phase on the page after a snapshot has been taken in. */
  function Shown(v: View, s: Snapshot): Phase {
    if PhaseOf(s) == Unveiling && v.unveiled != Normalized(s.reward) then Restore else PhaseOf(s)
  }

  class RoomPage {
    var accepted: Option<nat>
    var unveiled: Option<nat>
    var wasBreak: bool
    const tracker: RewardTracker

    function Looks(): View
      reads this, tracker
    {
      View(accepted, tracker.observed, unveiled)
    }

    constructor ()
      ensures Looks() == View(None, None, None) && fresh(tracker)
    {
      tracker := new RewardTracker();
      accepted, unveiled, wasBreak := None, None, false;
    }

    /** The ritual's update: reset the baseline, observe, decide on the reveal and the phase. */
    method UpdateRitual(s: Snapshot, resetBaseline: bool) returns (unveil: bool, shown: Phase)
      modifies this, tracker
      ensures accepted == old(accepted)
      ensures var observed := if resetBaseline then None else old(tracker.observed);
              && (unveil <==> s.onBreak && Raises(observed, Normalized(s.reward)))
              && tracker.observed == Observed(observed, Normalized(s.reward))
              && unveiled == (if PhaseOf(s) != Unveiling then None else if unveil then Normalized(s.reward)
                              else old(unveiled))
      ensures shown == Shown(Looks(), s) && wasBreak == s.onBreak
    {
      var phase := PhaseOf(s);
      if resetBaseline { tracker.Reset(); }
      var rewardId, raised := tracker.Observe(s.reward);
      unveil := s.onBreak && raised;
      if unveil { unveiled := rewardId; }
      if phase != Unveiling { unveiled := None; }
      shown := if phase == Unveiling && unveiled != rewardId then Restore else phase;
      wasBreak := s.onBreak;
    }

    /** app.js applyState: drop what is older than what was accepted, else take it in. */
    method ApplyState(s: Snapshot, firstSnapshot: bool) returns (unveil: bool)
      modifies this, tracker
      ensures unveil <==> Unveils(old(Looks()), s, firstSnapshot)
      ensures Accepts(old(Looks()), s, firstSnapshot) ==> Looks() == Next(old(Looks()), s, firstSnapshot)
      ensures !Accepts(old(Looks()), s, firstSnapshot) ==> Looks() == old(Looks())
    {
      unveil := false;
      if firstSnapshot { accepted := None; }
      var revision := Normalized(s.revision);
      if revision.None? && accepted.Some? { return; }
      if revision.Some? && accepted.Some? && revision.value < accepted.value { return; }
      if revision.Some? { accepted := revision; }
      var shown: Phase;
      unveil, shown := UpdateRitual(s, firstSnapshot);
    }
  }

  // ---------------------------------------------------------------- one connection

  /** The page after the snapshots of one connection, of which the first resets the baselines. */
  function Seen(v: View, snaps: seq<Snapshot>): View {
    if snaps == [] then v
    else Next(Seen(v, snaps[..|snaps| - 1]), snaps[|snaps| - 1], |snaps| == 1)
  }

  predicate TakenIn(v: View, snaps: seq<Snapshot>, k: nat)
    requires k < |snaps|
  {
    Accepts(Seen(v, snaps[..k]), snaps[k], k == 0)
  }

  predicate UnveilsAt(v: View, snaps: seq<Snapshot>, k: nat)
    requires k < |snaps|
  {
    Unveils(Seen(v, snaps[..k]), snaps[k], k == 0)
  }

  function IdAt(snaps: seq<Snapshot>, k: nat): Option<nat>
    requires k < |snaps|
  {
    Normalized(snaps[k].reward)
  }

  function RevisionAt(snaps: seq<Snapshot>, k: nat): Option<nat>
    requires k < |snaps|
  {
    Normalized(snaps[k].revision)
  }

  /** An accepted snapshot with a valid reward id. */
  predicate Counts(v: View, snaps: seq<Snapshot>, k: nat)
    requires k < |snaps|
  {
    TakenIn(v, snaps, k) && IdAt(snaps, k).Some?
  }

  lemma SeenNext(v: View, snaps: seq<Snapshot>, k: nat)
    requires k < |snaps|
    ensures Seen(v, snaps[..k + 1]) == Next(Seen(v, snaps[..k]), snaps[k], k == 0)
  {
    assert snaps[..k + 1][..k] == snaps[..k];
  }

  lemma ObservedNext(v: View, snaps: seq<Snapshot>, k: nat)
    requires k < |snaps|
    ensures var before, after := Seen(v, snaps[..k]).observed, Seen(v, snaps[..k + 1]).observed;
            && (TakenIn(v, snaps, k) ==> after == Observed(if k == 0 then None else before, IdAt(snaps, k)))
            && (!TakenIn(v, snaps, k) ==> k > 0 && after == before)
  {
    hide PhaseOf, Normalized;
    SeenNext(v, snaps, k);
  }

  /** The tracker holds the greatest valid id among the accepted snapshots, if there is any. */
  lemma {:induction false} ObservedIsGreatest(v: View, snaps: seq<Snapshot>, k: nat)
    requires 0 < k <= |snaps|
    ensures var o := Seen(v, snaps[..k]).observed;
            && (o.Some? <==> exists j: nat :: j < k && Counts(v, snaps, j))
            && (o.Some? ==> exists j: nat :: j < k && Counts(v, snaps, j) && IdAt(snaps, j) == o)
            && (forall j: nat :: j < k && Counts(v, snaps, j) ==> IdAt(snaps, j).value <= o.value)
  {
    hide PhaseOf, Normalized, Seen, Next, Accepts;
    ObservedNext(v, snaps, k - 1);
    if k > 1 {
      ObservedIsGreatest(v, snaps, k - 1);
    }
    var last := k - 1;
    var o := Seen(v, snaps[..k]).observed;
    if o.Some? {
      if k > 1 && o == Seen(v, snaps[..last]).observed {
        var j: nat :| j < last && Counts(v, snaps, j) && IdAt(snaps, j) == o;
        assert j < k && Counts(v, snaps, j) && IdAt(snaps, j) == o;
      } else {
        assert last < k && Counts(v, snaps, last) && IdAt(snaps, last) == o;
      }
    }
  }

  /** A reward is revealed exactly when an accepted snapshot of a break carries an id above every id
      accepted on this connection so far, of which there must be one. */
  lemma RevealedExactlyWhenRaised(v: View, snaps: seq<Snapshot>, k: nat)
    requires k < |snaps|
    ensures UnveilsAt(v, snaps, k) <==>
            && Counts(v, snaps, k) && snaps[k].onBreak
            && (exists j: nat :: j < k && Counts(v, snaps, j))
            && (forall j: nat :: j < k && Counts(v, snaps, j) ==> IdAt(snaps, j).value < IdAt(snaps, k).value)
  {
    if k > 0 {
      ObservedIsGreatest(v, snaps, k);
    }
  }

  /** No reward is revealed twice on a connection, and none at its first snapshot. */
  lemma RevealedAtMostOnce(v: View, snaps: seq<Snapshot>, j: nat, k: nat)
    requires j < k < |snaps| && UnveilsAt(v, snaps, j) && UnveilsAt(v, snaps, k)
    ensures 0 < j && IdAt(snaps, j).value < IdAt(snaps, k).value
  {
    RevealedExactlyWhenRaised(v, snaps, j);
    RevealedExactlyWhenRaised(v, snaps, k);
  }

  /** Snapshots of one room: ids and revisions are there, and later revisions carry no smaller id. */
  ghost predicate FromOneRoom(snaps: seq<Snapshot>) {
    && (forall i: nat :: i < |snaps| ==> IdAt(snaps, i).Some? && RevisionAt(snaps, i).Some?)
    && (forall i: nat, j: nat :: i < |snaps| && j < |snaps| && RevisionAt(snaps, i).value <= RevisionAt(snaps, j).value
          ==> IdAt(snaps, i).value <= IdAt(snaps, j).value)
  }

  /** Of the snapshots of one room, in whatever order they arrive, a reward is revealed exactly when
      the id grows from one accepted snapshot to the next during a break. */
  lemma RevealedWhenNextIsGreater(v: View, snaps: seq<Snapshot>, j: nat, k: nat)
    requires FromOneRoom(snaps) && j < k < |snaps| && TakenIn(v, snaps, j) && TakenIn(v, snaps, k)
    requires forall i: nat :: j < i < k ==> !TakenIn(v, snaps, i)
    ensures UnveilsAt(v, snaps, k) <==> snaps[k].onBreak && IdAt(snaps, j).value < IdAt(snaps, k).value
  {
    RevealedExactlyWhenRaised(v, snaps, k);
    assert Counts(v, snaps, j);
    forall i: nat | i < k && Counts(v, snaps, i) ensures IdAt(snaps, i).value <= IdAt(snaps, j).value {
      if i < j { RevisionsNeverFall(v, snaps, i, j); }
    }
  }

  lemma {:induction false} AcceptedIsLatest(v: View, snaps: seq<Snapshot>, j: nat, k: nat)
    requires j < k <= |snaps| && TakenIn(v, snaps, j) && RevisionAt(snaps, j).Some?
    ensures var a := Seen(v, snaps[..k]).accepted;
            a.Some? && RevisionAt(snaps, j).value <= a.value
  {
    SeenNext(v, snaps, k - 1);
    if j < k - 1 {
      AcceptedIsLatest(v, snaps, j, k - 1);
    }
  }

  /** Revisions taken in on a connection never fall, and once one has been taken in, snapshots
      without one are not. */
  lemma RevisionsNeverFall(v: View, snaps: seq<Snapshot>, j: nat, k: nat)
    requires j < k < |snaps| && TakenIn(v, snaps, j) && TakenIn(v, snaps, k) && RevisionAt(snaps, j).Some?
    ensures RevisionAt(snaps, k).Some? && RevisionAt(snaps, j).value <= RevisionAt(snaps, k).value
  {
    AcceptedIsLatest(v, snaps, j, k);
  }

  /** Snapshots that come with rising revisions are all taken in. */
  lemma {:induction false} RisingAreTakenIn(v: View, snaps: seq<Snapshot>, k: nat)
    requires k < |snaps| && forall i: nat :: i < |snaps| ==> RevisionAt(snaps, i).Some?
    requires forall i: nat :: 0 < i < |snaps| ==> RevisionAt(snaps, i - 1).value <= RevisionAt(snaps, i).value
    ensures TakenIn(v, snaps, k) && Seen(v, snaps[..k + 1]).accepted == RevisionAt(snaps, k)
  {
    if k > 0 {
      RisingAreTakenIn(v, snaps, k - 1);
      assert RevisionAt(snaps, k - 1).value <= RevisionAt(snaps, k).value;
    }
    SeenNext(v, snaps, k);
  }

  /** The celebration is on screen only for a reward that was revealed on this connection, and only
      until the first accepted snapshot past the opening of the break. */
  lemma {:induction false} CelebratedWasRevealed(v: View, snaps: seq<Snapshot>, k: nat) returns (j: nat)
    requires k <= |snaps| && v.unveiled == None && Seen(v, snaps[..k]).unveiled.Some?
    ensures j < k && UnveilsAt(v, snaps, j) && Some(IdAt(snaps, j).value) == Seen(v, snaps[..k]).unveiled
    ensures forall i: nat :: j <= i < k && TakenIn(v, snaps, i) ==> PhaseOf(snaps[i]) == Unveiling
    ensures forall i: nat :: j < i < k ==> !UnveilsAt(v, snaps, i)
  {
    hide PhaseOf, Normalized;
    assert snaps[..0] == [];
    SeenNext(v, snaps, k - 1);
    if UnveilsAt(v, snaps, k - 1) {
      j := k - 1;
    } else {
      assert TakenIn(v, snaps, k - 1) ==> PhaseOf(snaps[k - 1]) == Unveiling;
      assert Seen(v, snaps[..k - 1]).unveiled == Seen(v, snaps[..k]).unveiled;
      hide Seen, Next;
      j := CelebratedWasRevealed(v, snaps, k - 1);
    }
  }

  /** Snapshot `j` reveals a reward, none up to snapshot `k` reveals another, and the break stays in its
      opening all the while. */
  ghost predicate RevealStands(v: View, snaps: seq<Snapshot>, j: nat, k: nat)
    requires k < |snaps|
  {
    && j <= k && UnveilsAt(v, snaps, j)
    && (forall i: nat :: j < i <= k ==> !UnveilsAt(v, snaps, i))
    && (forall i: nat :: j <= i <= k && TakenIn(v, snaps, i) ==> PhaseOf(snaps[i]) == Unveiling)
  }

  lemma {:induction false} StandingReveal(v: View, snaps: seq<Snapshot>, j: nat, k: nat)
    requires k < |snaps| && RevealStands(v, snaps, j, k)
    ensures IdAt(snaps, j).Some? && Seen(v, snaps[..k + 1]).unveiled == IdAt(snaps, j)
  {
    SeenNext(v, snaps, k);
    assert UnveilsAt(v, snaps, k) ==> j == k;
    assert TakenIn(v, snaps, k) ==> PhaseOf(snaps[k]) == Unveiling;
    if j < k { StandingReveal(v, snaps, j, k - 1); }
  }

  /** The page shows the unveiling of snapshot `k` exactly while the reward it carries is the one
      revealed last; a snapshot without a reward id shows it exactly when nothing is revealed. */
  lemma UnveilingShownIff(v: View, snaps: seq<Snapshot>, k: nat)
    requires v.unveiled == None && k < |snaps| && TakenIn(v, snaps, k)
    ensures Shown(Seen(v, snaps[..k + 1]), snaps[k]) == Unveiling <==>
            && PhaseOf(snaps[k]) == Unveiling
            && if IdAt(snaps, k).Some? then exists j: nat :: RevealStands(v, snaps, j, k) && IdAt(snaps, j) == IdAt(snaps, k)
               else forall j: nat :: !RevealStands(v, snaps, j, k)
    ensures var shown := Shown(Seen(v, snaps[..k + 1]), snaps[k]);
            shown == PhaseOf(snaps[k]) || (PhaseOf(snaps[k]) == Unveiling && shown == Restore)
  {
    var unveiled := Seen(v, snaps[..k + 1]).unveiled;
    if unveiled.Some? {
      var j := CelebratedWasRevealed(v, snaps, k + 1);
      assert RevealStands(v, snaps, j, k);
    }
    forall j: nat | RevealStands(v, snaps, j, k) ensures unveiled == IdAt(snaps, j) && unveiled.Some? {
      StandingReveal(v, snaps, j, k);
    }
    hide Seen, PhaseOf, RevealStands;
  }

  /** What was accepted and observed before does not matter once a connection has delivered. */
  lemma {:induction false} ConnectionsStartAfresh(v: View, w: View, snaps: seq<Snapshot>)
    requires snaps != []
    ensures Seen(v, snaps).accepted == Seen(w, snaps).accepted && Seen(v, snaps).observed == Seen(w, snaps).observed
    ensures forall k: nat :: k < |snaps| ==> (UnveilsAt(v, snaps, k) <==> UnveilsAt(w, snaps, k))
  {
    var last := |snaps| - 1;
    var rest := snaps[..last];
    assert snaps[..|snaps|] == snaps;
    SeenNext(v, snaps, last);
    SeenNext(w, snaps, last);
    if rest != [] {
      ConnectionsStartAfresh(v, w, rest);
      forall k: nat | k < last ensures UnveilsAt(v, snaps, k) <==> UnveilsAt(w, snaps, k) {
        assert rest[..k] == snaps[..k];
        assert UnveilsAt(v, rest, k) <==> UnveilsAt(w, rest, k);
      }
    }
  }

  // ---------------------------------------------------------------- all connections

  datatype Event = Connect | Message(socket: nat, data: Option<Snapshot>)

  /** Sockets are numbered as they are opened; `first` says which still wait for their first snapshot. */
  datatype Client = Client(current: nat, first: map<nat, bool>, view: View)

  function Handle(c: Client, e: Event): Client {
    match e
    case Connect => c.(current := c.current + 1, first := c.first[c.current + 1 := true])
    case Message(socket, data) =>
      if socket != c.current || socket !in c.first || data.None? then c
      else c.(first := c.first[socket := false], view := Next(c.view, data.value, c.first[socket]))
  }

  class RoomSocket {
    var connectionGeneration: nat
    var current: nat
    var first: map<nat, bool>
    const page: RoomPage

    ghost predicate Valid()
      reads this
    {
      current == connectionGeneration
    }

    function State(): Client
      reads this, page, page.tracker
    {
      Client(current, first, page.Looks())
    }

    constructor ()
      ensures Valid() && State() == Client(0, map[], View(None, None, None)) && fresh(page) && fresh(page.tracker)
    {
      page := new RoomPage();
      connectionGeneration, current, first := 0, 0, map[];
    }

    /** A new socket takes over; the closures of older sockets live on. */
    method ConnectAgain()
      requires Valid()
      modifies this
      ensures Valid() && State() == Handle(old(State()), Connect)
    {
      connectionGeneration := connectionGeneration + 1;
      first := first[connectionGeneration := true];
      current := connectionGeneration;
    }

    method OnMessage(socket: nat, data: Option<Snapshot>) returns (unveil: bool)
      requires Valid()
      modifies this, page, page.tracker
      ensures Valid() && State() == Handle(old(State()), Message(socket, data))
      ensures unveil <==> socket == current && socket in first && data.Some?
                          && Unveils(old(page.Looks()), data.value, old(first)[socket])
    {
      unveil := false;
      if socket != current || socket !in first { return; }
      if data.Some? {
        unveil := page.ApplyState(data.value, first[socket]);
        first := first[socket := false];
      }
    }
  }

  function Started(): Client { Client(0, map[], View(None, None, None)) }

  function After(events: seq<Event>): Client {
    if events == [] then Started() else Handle(After(events[..|events| - 1]), events[|events| - 1])
  }

  /** What the current socket has delivered since it was opened. */
  function Received(events: seq<Event>): seq<Snapshot> {
    if events == [] then []
    else
      var rest, e := events[..|events| - 1], events[|events| - 1];
      match e
      case Connect => []
      case Message(socket, data) =>
        if socket == After(rest).current && socket != 0 && data.Some? then Received(rest) + [data.value]
        else Received(rest)
  }

  /** The page as it was when the current socket was opened. */
  function AtOpening(events: seq<Event>): View {
    if events == [] then Started().view
    else
      var rest, e := events[..|events| - 1], events[|events| - 1];
      if e.Connect? then After(rest).view else AtOpening(rest)
  }

  /** Messages of superseded sockets have no effect: the page is what the snapshots of the current
      socket alone make of it, the first of them being the one that resets the baselines. */
  lemma {:induction false} OnlyTheCurrentSocketCounts(events: seq<Event>)
    ensures var c := After(events);
            && c.view == Seen(AtOpening(events), Received(events))
            && (c.current == 0 ==> c.first == map[] && Received(events) == [])
            && (c.current > 0 ==> c.current in c.first && (c.first[c.current] <==> Received(events) == []))
            && (forall n :: n in c.first ==> 0 < n <= c.current)
  {
    if events != [] {
      var rest, e := events[..|events| - 1], events[|events| - 1];
      OnlyTheCurrentSocketCounts(rest);
      var got := Received(rest);
      if e.Message? && e.data.Some? {
        assert (got + [e.data.value])[..|got|] == got;
      }
    }
  }
}

/**
 Which broadcasts a worker drops (backend/connection_manager.py:183-196): those older than
 something it has already taken up for that generation.
 */
module Broadcasts {
  import opened Common
  import opened Connections
  import opened Delivery

  /** The step is where a swept broadcast of that generation is taken up or dropped. */
  predicate Decides(n: Net, a: Action, gen: Gen, revision: int) {
    && a.SweepOver? && a.job in n.jobs
    && var job := n.jobs[a.job];
       job.at.Sweeping? && job.todo == {} && job.first.None? && job.gen == gen && job.revision == revision
  }

  /** A frame of that generation has gone out whole. */
  predicate Sends(n: Net, a: Action, gen: Gen, revision: int) {
    && a.SendReturns? && a.ok && a.job in n.jobs
    && n.jobs[a.job].at.Transmitting? && n.jobs[a.job].gen == gen && n.jobs[a.job].revision == revision
  }

  predicate Dropped(n: Net, a: Action) {
    a.SweepOver? && a.job in Step(n, a).jobs && Step(n, a).jobs[a.job].at.Over?
  }

  /** The worker takes up that revision: as a broadcast that goes on to its sends, or in a frame. */
  predicate TakesUp(n: Net, a: Action, gen: Gen, revision: int) {
    Sends(n, a, gen, revision) || (Decides(n, a, gen, revision) && !Dropped(n, a))
  }

  predicate TakesUpAt(room: Room, acts: seq<Action>, i: nat, gen: Gen, revision: int)
    requires i < |acts|
  {
    TakesUp(Play(room, acts[..i]), acts[i], gen, revision)
  }

  /** The revision has been taken up in action `b` or later. */
  ghost predicate TakenUpSince(room: Room, acts: seq<Action>, b: nat, gen: Gen, revision: int) {
    exists i :: b <= i < |acts| && TakesUpAt(room, acts, i, gen, revision)
  }

  ghost function TakenUp(room: Room, acts: seq<Action>, b: nat, gen: Gen): iset<int> {
    iset r | TakenUpSince(room, acts, b, gen, r)
  }

  function Watermark(n: Net, gen: Gen): Option<int> {
    if (n.room, gen) in n.hub.mark then Some(n.hub.mark[(n.room, gen)]) else None
  }

  /** None if there is nothing, and otherwise the greatest. */
  ghost predicate IsNewest(mark: Option<int>, rs: iset<int>) {
    if mark.None? then rs == iset{} else mark.value in rs && forall r :: r in rs ==> r <= mark.value
  }

  function Raised(mark: Option<int>, r: int): Option<int> {
    Some(if mark.Some? then Max(r, mark.value) else r)
  }

  lemma RaisedIsNewest(mark: Option<int>, rs: iset<int>, r: int)
    requires IsNewest(mark, rs)
    ensures IsNewest(Raised(mark, r), rs + iset{r})
  {
  }

  /** What one step does to the watermark of a generation that stays connected. */
  lemma OnlyTakingUpRaises(n: Net, a: Action, gen: Gen, r: int)
    requires GenerationPresent(Step(n, a), gen) && TakesUp(n, a, gen, r)
    ensures Watermark(Step(n, a), gen) == Raised(Watermark(n, gen), r)
    ensures forall q :: TakesUp(n, a, gen, q) ==> q == r
  {
    hide Disconnect, Mismatched;
  }

  /** What leaving, joining and looking up a lock do to the watermarks. */
  lemma HubKeepsMarks()
    ensures forall h, room, s :: Disconnect(h, room, s).mark.Items <= h.mark.Items
    ensures forall h, room, s, gen :: Connect(h, room, s, gen).mark == h.mark
    ensures forall h, s :: WithLock(h, s).mark == h.mark
  {
  }

  lemma SettingOutRaisesNothing(n: Net, a: Action)
    requires a.Join? || a.Leave? || a.Broadcast? || a.FirstSend? || a.SweepPick? || a.SweepEnter?
    ensures Step(n, a).hub.mark.Items <= n.hub.mark.Items
  {
    hide Disconnect, Connect, WithLock, Mismatched;
    HubKeepsMarks();
  }

  lemma SendingRaisesNothing(n: Net, a: Action)
    requires a.SweepClosed? || a.SendPick? || a.Rejected? || a.SendEnter? || (a.SendReturns? && !a.ok)
    ensures Step(n, a).hub.mark.Items <= n.hub.mark.Items
  {
    hide Disconnect, WithLock, SendEntry, SendLocked;
    HubKeepsMarks();
  }

  lemma OthersRaiseNothing(n: Net, a: Action, gen: Gen)
    requires forall r :: !TakesUp(n, a, gen, r)
    ensures var mark, mark' := Watermark(n, gen), Watermark(Step(n, a), gen);
            mark'.Some? ==> mark.Some? && mark'.value <= mark.value
  {
    StepRoom(n, a);
    if a.SweepOver? || (a.SendReturns? && a.ok) {
      assert a.job in n.jobs ==> !TakesUp(n, a, gen, n.jobs[a.job].revision);
    } else {
      if a.SweepClosed? || a.SendPick? || a.Rejected? || a.SendEnter? || a.SendReturns? { SendingRaisesNothing(n, a); }
      else { SettingOutRaisesNothing(n, a); }
      hide Step, TakesUp;
      var k, mark, mark' := (n.room, gen), n.hub.mark, Step(n, a).hub.mark;
      if k in mark' { assert (k, mark'[k]) in mark'.Items; }
    }
  }

  lemma OthersKeepMark(n: Net, a: Action, gen: Gen)
    requires GenerationPresent(Step(n, a), gen)
    requires forall r :: !TakesUp(n, a, gen, r)
    ensures Watermark(Step(n, a), gen) == Watermark(n, gen)
  {
    OthersRaiseNothing(n, a, gen);
    StepRoom(n, a);
    if (n.room, gen) in n.hub.mark { WatermarkHolds(n, a, gen); }
    hide Step, TakesUp, GenerationPresent;
  }

  lemma StepRoom(n: Net, a: Action)
    ensures Step(n, a).room == n.room
  {
    hide Connect, Disconnect, Note, WithLock, SendEntry, SendLocked, Outdated, Mismatched, Wire;
  }

  lemma TakenUpNext(room: Room, acts: seq<Action>, b: nat, gen: Gen)
    requires b < |acts|
    ensures var k := |acts| - 1;
            TakenUp(room, acts, b, gen) ==
            TakenUp(room, acts[..k], b, gen) + iset r | TakesUp(Play(room, acts[..k]), acts[k], gen, r)
  {
    hide TakesUp, Play;
    var k := |acts| - 1;
    forall r | TakenUpSince(room, acts, b, gen, r)
      ensures TakenUpSince(room, acts[..k], b, gen, r) || TakesUp(Play(room, acts[..k]), acts[k], gen, r)
    {
      var i :| b <= i < |acts| && TakesUpAt(room, acts, i, gen, r);
      if i < k {
        assert acts[..k][..i] == acts[..i];
        assert TakesUpAt(room, acts[..k], i, gen, r);
      }
    }
    forall r | TakenUpSince(room, acts[..k], b, gen, r) ensures TakenUpSince(room, acts, b, gen, r) {
      var i :| b <= i < k && TakesUpAt(room, acts[..k], i, gen, r);
      assert acts[..k][..i] == acts[..i];
      assert TakesUpAt(room, acts, i, gen, r);
    }
    forall r | TakesUp(Play(room, acts[..k]), acts[k], gen, r) ensures TakenUpSince(room, acts, b, gen, r) {
      assert TakesUpAt(room, acts, k, gen, r);
    }
  }

  /** As long as the generation stays connected, its watermark is the newest revision taken up. */
  lemma {:induction false} WatermarkIsNewest(room: Room, acts: seq<Action>, b: nat, gen: Gen)
    requires b <= |acts| && Watermark(Play(room, acts[..b]), gen).None?
    requires forall m :: b <= m <= |acts| ==> GenerationPresent(Play(room, acts[..m]), gen)
    ensures IsNewest(Watermark(Play(room, acts), gen), TakenUp(room, acts, b, gen))
  {
    assert acts[..|acts|] == acts;
    if b < |acts| {
      var init, a := acts[..|acts| - 1], acts[|acts| - 1];
      var n := Play(room, init);
      assert forall m :: 0 <= m <= |init| ==> init[..m] == acts[..m];
      WatermarkIsNewest(room, init, b, gen);
      TakenUpNext(room, acts, b, gen);
      assert Play(room, acts) == Step(n, a);
      hide IsNewest, TakenUp, TakesUp, Watermark, Step, Play, GenerationPresent;
      if r :| TakesUp(n, a, gen, r) {
        OnlyTakingUpRaises(n, a, gen, r);
        RaisedIsNewest(Watermark(n, gen), TakenUp(room, init, b, gen), r);
        assert (iset q | TakesUp(n, a, gen, q)) == iset{r};
      } else {
        OthersKeepMark(n, a, gen);
        assert (iset q | TakesUp(n, a, gen, q)) == iset{};
        assert TakenUp(room, acts, b, gen) == TakenUp(room, init, b, gen);
      }
    }
  }

  /** Since a time when a generation had no watermark, and as long as it has stayed connected, a
      broadcast is dropped if and only if something newer of the generation has been taken up since. */
  lemma DroppedIffNewerTakenUp(room: Room, acts: seq<Action>, b: nat, a: Action, gen: Gen, revision: int)
    requires b <= |acts| && Watermark(Play(room, acts[..b]), gen).None?
    requires forall m :: b <= m <= |acts| ==> GenerationPresent(Play(room, acts[..m]), gen)
    requires Decides(Play(room, acts), a, gen, revision)
    ensures Dropped(Play(room, acts), a) <==> exists r :: r > revision && TakenUpSince(room, acts, b, gen, r)
  {
    WatermarkIsNewest(room, acts, b, gen);
    assert acts[..|acts|] == acts;
    var n := Play(room, acts);
    assert n.room in n.hub.rooms;
    var mark := Watermark(n, gen);
    assert Dropped(n, a) <==> mark.Some? && mark.value > revision;
    hide TakenUpSince, Dropped, Watermark;
    assert mark.Some? ==> mark.value in TakenUp(room, acts, b, gen);
    assert forall r :: r in TakenUp(room, acts, b, gen) <==> TakenUpSince(room, acts, b, gen, r);
  }
}

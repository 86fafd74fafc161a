/**
 From a finished session in Redis to the star on the page: what the snapshots of one room
 generation, in whatever order they reach a page, make it reveal.
 */
module EndToEnd {
  import opened Common
  import opened Timer
  import opened Replay
  import opened RoomStore
  import opened Workers
  import opened Fencing
  import Connections
  import Delivery
  import Page

  /** What a page reads of a committed state. */
  function Payload(s: State): Page.Snapshot {
    Page.Snapshot(Page.Whole(s.revision), Page.Whole(s.clock.reward), s.clock.onBreak,
                  Some(s.clock.breakDuration), Some(s.clock.breakRemaining), Some(s.clock.remaining))
  }

  function StateAt(w: World, g: Gen, revision: nat): State
    requires g in w.logs && g in w.seeds && revision <= |w.logs[g]|
  {
    Fold(w.seeds[g], w.logs[g][..revision])
  }

  predicate Revisions(w: World, g: Gen, picks: seq<nat>) {
    g in w.logs && g in w.seeds && forall i :: 0 <= i < |picks| ==> picks[i] <= |w.logs[g]|
  }

  /** The snapshots of the revisions `picks`, in that order. */
  function Payloads(w: World, g: Gen, picks: seq<nat>): (snaps: seq<Page.Snapshot>)
    requires Revisions(w, g, picks)
    ensures |snaps| == |picks|
  {
    if picks == [] then []
    else Payloads(w, g, picks[..|picks| - 1]) + [Payload(StateAt(w, g, picks[|picks| - 1]))]
  }

  lemma {:induction false} PayloadAt(w: World, g: Gen, picks: seq<nat>, i: nat)
    requires Revisions(w, g, picks) && i < |picks|
    ensures Payloads(w, g, picks)[i] == Payload(StateAt(w, g, picks[i]))
  {
    if i < |picks| - 1 {
      PayloadAt(w, g, picks[..|picks| - 1], i);
    }
  }

  lemma LongerHistory(w: World, g: Gen, a: nat, b: nat)
    requires StoreInv(w) && g in w.logs && a <= b <= |w.logs[g]|
    ensures StateAt(w, g, a).revision == a && StateAt(w, g, b).revision == b
    ensures 0 <= StateAt(w, g, a).clock.reward <= StateAt(w, g, b).clock.reward
  {
    assert HistoryOk(w, g);
    var seed, log := w.seeds[g], w.logs[g];
    assert log[..b][..a] == log[..a] && log[..a][..0] == [];
    RewardsNeverFall(seed, log[..b], a);
    RewardsNeverFall(seed, log[..a], 0);
  }

  /** The committed states of a generation are what the page's rule is made for. */
  lemma CommittedSnapshotsAgree(w: World, g: Gen, picks: seq<nat>)
    requires Reachable(w) && Revisions(w, g, picks)
    ensures Page.FromOneRoom(Payloads(w, g, picks))
  {
    ReachableIsGood(w);
    var snaps := Payloads(w, g, picks);
    forall i: nat | i < |snaps|
      ensures snaps[i] == Payload(StateAt(w, g, picks[i])) && Page.IdAt(snaps, i).Some?
              && Page.RevisionAt(snaps, i) == Some(picks[i])
    {
      PayloadAt(w, g, picks, i);
      LongerHistory(w, g, picks[i], picks[i]);
    }
    forall i: nat, j: nat | i < |snaps| && j < |snaps| && picks[i] <= picks[j]
      ensures Page.IdAt(snaps, i).value <= Page.IdAt(snaps, j).value
    {
      LongerHistory(w, g, picks[i], picks[j]);
    }
  }

  /** A commit in which a running session comes to its end. */
  predicate Completes(w: World, g: Gen, m: nat)
    requires g in w.logs && g in w.seeds && m < |w.logs[g]|
  {
    var s, e := StateAt(w, g, m), w.logs[g][m];
    s.stamp.Some? && Finishes(s.clock, Max(0, e.slot - s.stamp.value))
  }

  lemma NextState(w: World, g: Gen, m: nat)
    requires StoreInv(w) && g in w.logs && m < |w.logs[g]|
    ensures StateAt(w, g, m + 1) == Apply(StateAt(w, g, m), w.logs[g][m])
    ensures Stamped(StateAt(w, g, m)) && Commits(StateAt(w, g, m), w.logs[g][m])
  {
    assert HistoryOk(w, g);
    var seed, log := w.seeds[g], w.logs[g];
    assert Init(log[..m + 1]) == log[..m] && Last(log[..m + 1]) == log[m];
    StampFollowsTimer(seed, log[..m]);
    CountedIsChain(seed, log);
  }

  /** Rewards differ between two revisions exactly when a session was completed in between. */
  lemma {:induction false} RewardMeansCompletion(w: World, g: Gen, a: nat, b: nat)
    requires StoreInv(w) && g in w.logs && a <= b <= |w.logs[g]|
    ensures StateAt(w, g, a).clock.reward < StateAt(w, g, b).clock.reward <==>
            exists m: nat :: a <= m < b && Completes(w, g, m)
    decreases b
  {
    if a < b {
      var m := b - 1;
      RewardMeansCompletion(w, g, a, m);
      LongerHistory(w, g, a, m);
      NextState(w, g, m);
      CommitMintsAtMostOne(StateAt(w, g, m), w.logs[g][m]);
      if Completes(w, g, m) {
        assert a <= m < b && Completes(w, g, m);
      } else if StateAt(w, g, a).clock.reward < StateAt(w, g, m).clock.reward {
        var k: nat :| a <= k < m && Completes(w, g, k);
        assert a <= k < b;
      }
    }
  }

  /** End to end: between two snapshots a page takes in one after the other, it reveals a reward
      exactly when a session was completed in Redis between their revisions and the later one is in
      a break, whatever workers did and in whatever order snapshots arrived. */
  lemma RevealsFollowCompletions(w: World, g: Gen, picks: seq<nat>, v: Page.View, j: nat, k: nat)
    requires Reachable(w) && Revisions(w, g, picks) && j < k < |picks|
    requires Page.TakenIn(v, Payloads(w, g, picks), j) && Page.TakenIn(v, Payloads(w, g, picks), k)
    requires forall i: nat :: j < i < k ==> !Page.TakenIn(v, Payloads(w, g, picks), i)
    ensures picks[j] <= picks[k]
    ensures Page.UnveilsAt(v, Payloads(w, g, picks), k) <==>
            && StateAt(w, g, picks[k]).clock.onBreak
            && exists m: nat :: picks[j] <= m < picks[k] && Completes(w, g, m)
  {
    var snaps := Payloads(w, g, picks);
    ReachableIsGood(w);
    CommittedSnapshotsAgree(w, g, picks);
    PayloadAt(w, g, picks, j);
    PayloadAt(w, g, picks, k);
    LongerHistory(w, g, picks[j], picks[j]);
    LongerHistory(w, g, picks[k], picks[k]);
    Page.RevisionsNeverFall(v, snaps, j, k);
    Page.RevealedWhenNextIsGreater(v, snaps, j, k);
    RewardMeansCompletion(w, g, picks[j], picks[k]);
  }

  // ---------------------------------------------------------------- frame by frame

  /** What a socket has been sent, as revisions of the store. */
  predicate SentFrom(frames: seq<Delivery.Frame>, w: World, g: Gen) {
    g in w.logs && g in w.seeds && forall i :: 0 <= i < |frames| ==> 0 <= frames[i].revision <= |w.logs[g]|
  }

  function Picks(frames: seq<Delivery.Frame>, w: World, g: Gen): (picks: seq<nat>)
    requires SentFrom(frames, w, g)
    ensures |picks| == |frames| && forall i :: 0 <= i < |picks| ==> picks[i] == frames[i].revision
    ensures Revisions(w, g, picks)
  {
    seq(|frames|, i requires 0 <= i < |frames| => frames[i].revision)
  }

  /** From Redis through any interleaving of workers, the sockets of one of them and the wire to the
      page: every frame a socket is sent is taken in, and a frame but the first reveals a reward
      exactly when it shows a break and a session was completed since the frame before it. */
  lemma FramesRevealCompletions(w: World, g: Gen, room: Connections.Room, acts: seq<Delivery.Action>,
                                s: Connections.Socket, v: Page.View, k: nat)
    requires Reachable(w) && s in Delivery.Play(room, acts).wire
    requires SentFrom(Delivery.Play(room, acts).wire[s], w, g) && k < |Delivery.Play(room, acts).wire[s]|
    ensures var picks := Picks(Delivery.Play(room, acts).wire[s], w, g);
            var snaps := Payloads(w, g, picks);
            && Page.TakenIn(v, snaps, k)
            && (k == 0 ==> !Page.UnveilsAt(v, snaps, k))
            && (k > 0 ==>
                  && picks[k - 1] < picks[k]
                  && (Page.UnveilsAt(v, snaps, k) <==>
                        && StateAt(w, g, picks[k]).clock.onBreak
                        && exists m: nat :: picks[k - 1] <= m < picks[k] && Completes(w, g, m)))
  {
    hide Delivery.Play;
    var frames := Delivery.Play(room, acts).wire[s];
    Delivery.SocketsSeeRisingRevisions(room, acts, s);
    RisingFramesReveal(w, g, frames, v, k);
  }

  lemma PayloadRevision(w: World, g: Gen, picks: seq<nat>, i: nat)
    requires StoreInv(w) && Revisions(w, g, picks) && i < |picks|
    ensures Page.RevisionAt(Payloads(w, g, picks), i) == Some(picks[i])
  {
    PayloadAt(w, g, picks, i);
    LongerHistory(w, g, picks[i], picks[i]);
  }

  lemma RisingPicksAreTakenIn(w: World, g: Gen, picks: seq<nat>, v: Page.View, k: nat)
    requires StoreInv(w) && Revisions(w, g, picks) && k < |picks|
    requires forall i: nat :: 0 < i < |picks| ==> picks[i - 1] < picks[i]
    ensures Page.TakenIn(v, Payloads(w, g, picks), k)
  {
    var snaps := Payloads(w, g, picks);
    forall i: nat | i < |snaps| ensures Page.RevisionAt(snaps, i) == Some(picks[i]) {
      PayloadRevision(w, g, picks, i);
    }
    hide Payloads, Page.RevisionAt, Page.TakenIn, StoreInv;
    Page.RisingAreTakenIn(v, snaps, k);
  }

  lemma RisingFramesReveal(w: World, g: Gen, frames: seq<Delivery.Frame>, v: Page.View, k: nat)
    requires Reachable(w) && SentFrom(frames, w, g) && Delivery.Rising(frames) && k < |frames|
    ensures var picks := Picks(frames, w, g);
            var snaps := Payloads(w, g, picks);
            && Page.TakenIn(v, snaps, k)
            && (k == 0 ==> !Page.UnveilsAt(v, snaps, k))
            && (k > 0 ==>
                  && picks[k - 1] < picks[k]
                  && (Page.UnveilsAt(v, snaps, k) <==>
                        && StateAt(w, g, picks[k]).clock.onBreak
                        && exists m: nat :: picks[k - 1] <= m < picks[k] && Completes(w, g, m)))
  {
    hide Completes, Page.UnveilsAt, Page.TakenIn, StateAt, Payloads, Good, Reachable;
    var picks := Picks(frames, w, g);
    ReachableIsGood(w);
    GoodStore(w);
    RisingPicksAreTakenIn(w, g, picks, v, k);
    if k > 0 {
      RisingPicksAreTakenIn(w, g, picks, v, k - 1);
      RevealsFollowCompletions(w, g, picks, v, k - 1, k);
    } else {
      FirstUnveilsNothing(v, Payloads(w, g, picks));
    }
  }

  lemma GoodStore(w: World)
    requires Good(w)
    ensures StoreInv(w)
  {
    hide StoreInv, TasksInv, NonceInv, LockInv, TickInv, CallInv;
  }

  lemma FirstUnveilsNothing(v: Page.View, snaps: seq<Page.Snapshot>)
    requires snaps != []
    ensures !Page.UnveilsAt(v, snaps, 0)
  {
  }

  // ---------------------------------------------------------------- the course of a break on the page

  /** Whatever room and whatever else it stores: `n` seconds into a break the page is unveiling for the
      first 30 of them, returning for the last 60 and restoring in between; after 600 it is done. */
  lemma BreakOnThePage(s: State, n: nat)
    requires s.clock.onBreak && s.clock.breakRemaining == 600 && s.clock.breakDuration == 600 && !s.clock.focus
    ensures Page.PhaseOf(Payload(s.(clock := Run(s.clock, n))))
         == if n <= 30 then Page.Unveiling else if n < 540 then Page.Restore else if n < 600 then Page.Return
            else Page.Inactive
  {
    if n > 0 { BreakRound(s.clock, n); }
  }

  /** And so after every session that comes to its end. */
  lemma SessionEndsOnThePage(s: State, n: nat)
    requires Sound(s.clock) && s.clock.focus && !s.clock.paused && s.clock.remaining <= n
    ensures var k := n - s.clock.remaining;
            Page.PhaseOf(Payload(s.(clock := Run(s.clock, n))))
            == if k <= 30 then Page.Unveiling else if k < 540 then Page.Restore else if k < 600 then Page.Return
               else Page.Inactive
  {
    FocusRound(s.clock, n);
    BreakOnThePage(s.(clock := StartBreak(s.clock)), n - s.clock.remaining);
  }
}

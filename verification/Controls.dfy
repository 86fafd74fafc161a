/**
 What the buttons of the page do to the timer everybody sees (backend/state.py, handle).

 `ReplayAt(c0, ms, t)` is the visible timer in second `t` after the messages `ms`; that it is the
 stored timer of every reachable room is the subject of Replay and Fencing. Here the last message
 of the list is one press of a button, or two.
 */
module Controls {
  import opened Common
  import opened Timer
  import opened Replay

  /** A timer as a room can have it when nobody has pressed anything yet. */
  ghost predicate Fresh(c0: Clock) {
    Sound(c0) && !Advancing(c0)
  }

  /** The messages so far are not later than second `t`. */
  predicate Before(ms: seq<Stamp>, t: int) {
    ms != [] ==> Last(ms).slot <= t
  }

  function Press(ms: seq<Stamp>, t: int, m: Message): seq<Stamp> {
    ms + [At(t, m)]
  }

  function Rested(c: Clock): Clock {
    c.(focus := false, paused := false, onBreak := false, breakRemaining := 0, remaining := c.duration)
  }

  // ---------------------------------------------------------------- the replay

  lemma {:induction false} ReplayIsSound(c0: Clock, ms: seq<Stamp>, t: int)
    requires Fresh(c0)
    ensures Sound(ReplayAt(c0, ms, t)) && (ms != [] ==> Sound(AfterMessages(c0, ms)))
    decreases |ms|
  {
    if ms != [] {
      ReplayIsSound(c0, Init(ms), Last(ms).slot);
      HandleKeepsSound(ReplayAt(c0, Init(ms), Last(ms).slot), Last(ms).message);
      RunKeepsSound(AfterMessages(c0, ms), Max(0, t - Last(ms).slot));
    }
  }

  /** Between presses the visible timer just runs. */
  lemma ReplayRunsOn(c0: Clock, ms: seq<Stamp>, t: int, n: nat)
    requires Fresh(c0) && Before(ms, t)
    ensures ReplayAt(c0, ms, t + n) == Run(ReplayAt(c0, ms, t), n)
  {
    if ms == [] {
      IdleStands(c0, n);
    } else {
      RunAdds(AfterMessages(c0, ms), t - Last(ms).slot, n);
    }
  }

  lemma AfterPress(c0: Clock, ms: seq<Stamp>, t: int, m: Message, n: nat)
    ensures var seen := ReplayAt(c0, ms, t);
            ReplayAt(c0, Press(ms, t, m), t + n) == Run(if Raises(m) then seen else HandleClock(seen, m), n)
  {
    assert Init(Press(ms, t, m)) == ms && Last(Press(ms, t, m)) == At(t, m);
  }

  // ---------------------------------------------------------------- pause

  /** In focus the pause button stops a running session and resumes a stopped one, and changes
      nothing else; elsewhere it does nothing. */
  lemma PauseFlips(c0: Clock, ms: seq<Stamp>, t: int)
    requires Fresh(c0)
    ensures var c, c' := ReplayAt(c0, ms, t), ReplayAt(c0, Press(ms, t, FocusPause), t);
            && (c.focus ==> c' == c.(paused := !c.paused) && (Advancing(c') <==> !Advancing(c)))
            && (!c.focus ==> c' == c)
  {
    AfterPress(c0, ms, t, FocusPause, 0);
    hide ReplayAt;
    assert !(ReplayAt(c0, ms, t).focus && ReplayAt(c0, ms, t).onBreak) by { ReplayIsSound(c0, ms, t); }
    hide Sound;
  }

  lemma PausedTwice(c0: Clock, ms: seq<Stamp>, t: int)
    requires Fresh(c0)
    ensures ReplayAt(c0, Press(Press(ms, t, FocusPause), t, FocusPause), t) == ReplayAt(c0, ms, t)
  {
    AfterPress(c0, ms, t, FocusPause, 0);
    AfterPress(c0, Press(ms, t, FocusPause), t, FocusPause, 0);
  }

  /** A paused room shows the same timer in every later second. */
  lemma PausedStands(c0: Clock, ms: seq<Stamp>, t: int, n: nat)
    requires Fresh(c0) && ReplayAt(c0, ms, t).focus && !ReplayAt(c0, ms, t).paused
    ensures ReplayAt(c0, Press(ms, t, FocusPause), t + n) == ReplayAt(c0, ms, t).(paused := true)
  {
    ReplayIsSound(c0, ms, t);
    AfterPress(c0, ms, t, FocusPause, n);
    IdleStands(ReplayAt(c0, ms, t).(paused := true), n);
  }

  /** A session paused for `d` seconds is the session everybody would have seen `d` seconds ago. */
  lemma PauseCostsItsLength(c0: Clock, ms: seq<Stamp>, t: int, d: nat, n: nat)
    requires Fresh(c0) && Before(ms, t) && ReplayAt(c0, ms, t).focus && !ReplayAt(c0, ms, t).paused
    ensures ReplayAt(c0, Press(Press(ms, t, FocusPause), t + d, FocusPause), t + d + n) == ReplayAt(c0, ms, t + n)
  {
    PausedStands(c0, ms, t, d);
    AfterPress(c0, Press(ms, t, FocusPause), t + d, FocusPause, n);
    ReplayRunsOn(c0, ms, t, n);
  }

  // ---------------------------------------------------------------- cancel, skip, toggle

  /** After cancelling, the room rests with its full duration until the next message. */
  lemma CancelRests(c0: Clock, ms: seq<Stamp>, t: int, n: nat)
    requires Fresh(c0)
    ensures ReplayAt(c0, Press(ms, t, FocusCancel), t + n) == Rested(ReplayAt(c0, ms, t))
  {
    AfterPress(c0, ms, t, FocusCancel, n);
    IdleStands(Rested(ReplayAt(c0, ms, t)), n);
  }

  /** Skipping is cancelling in a break, and nothing at any other time. */
  lemma SkipCancelsBreaks(c0: Clock, ms: seq<Stamp>, t: int, n: nat)
    requires Fresh(c0) && Before(ms, t)
    ensures ReplayAt(c0, Press(ms, t, SkipBreak), t + n)
         == if ReplayAt(c0, ms, t).onBreak then Rested(ReplayAt(c0, ms, t)) else ReplayAt(c0, ms, t + n)
  {
    var c := ReplayAt(c0, ms, t);
    AfterPress(c0, ms, t, SkipBreak, n);
    if c.onBreak { IdleStands(Rested(c), n); } else { ReplayRunsOn(c0, ms, t, n); }
  }

  /** In focus, paused or not, toggling is cancelling. */
  lemma ToggleAbandons(c0: Clock, ms: seq<Stamp>, t: int, n: nat)
    requires Fresh(c0) && ReplayAt(c0, ms, t).focus
    ensures ReplayAt(c0, Press(ms, t, FocusToggle), t + n) == Rested(ReplayAt(c0, ms, t))
  {
    ReplayIsSound(c0, ms, t);
    AfterPress(c0, ms, t, FocusToggle, n);
    IdleStands(Rested(ReplayAt(c0, ms, t)), n);
  }

  /** The whole course of an undisturbed session that starts with its full duration: the session,
      its reward, a full break, and rest. */
  function Course(c: Clock, n: nat): Clock {
    var rewarded := c.(sessions := c.sessions + 1, reward := c.reward + 1);
    if n < c.duration then c.(focus := true, remaining := c.duration - n)
    else if n < c.duration + BREAK_SECONDS then
      rewarded.(onBreak := true, breakRemaining := c.duration + BREAK_SECONDS - n)
    else rewarded
  }

  lemma SessionRuns(c: Clock, n: nat)
    requires Sound(c) && !c.focus && !c.onBreak
    ensures Run(c.(focus := true), n) == Course(c, n)
  {
    var started := c.(focus := true);
    if n >= c.duration {
      FocusRound(started, n);
      assert StartBreak(started) == Course(c, c.duration);
      if n > c.duration { BreakRound(StartBreak(started), n - c.duration); }
    } else if n > 0 {
      FocusRound(started, n);
    }
  }

  /** At rest or in a break, toggling starts a session of the full duration, which then takes its
      course. */
  lemma ToggleStarts(c0: Clock, ms: seq<Stamp>, t: int, n: nat)
    requires Fresh(c0) && !ReplayAt(c0, ms, t).focus
    ensures ReplayAt(c0, Press(ms, t, FocusToggle), t + n) == Course(Rested(ReplayAt(c0, ms, t)), n)
  {
    var c := ReplayAt(c0, ms, t);
    ReplayIsSound(c0, ms, t);
    AfterPress(c0, ms, t, FocusToggle, n);
    SessionRuns(Rested(c), n);
  }

  // ---------------------------------------------------------------- duration and sky

  /** A whole number of minutes from 1 to 120 becomes the duration, and what an idle timer shows;
      what is left of a session, and everything else, stays. Any other value does nothing. */
  lemma DurationIsSet(c0: Clock, ms: seq<Stamp>, t: int, minutes: Option<int>)
    requires Fresh(c0)
    ensures var c, c' := ReplayAt(c0, ms, t), ReplayAt(c0, Press(ms, t, SetDuration(minutes)), t);
            if minutes.Some? && 1 <= minutes.value <= 120 then
              && c'.duration == 60 * minutes.value
              && c'.remaining == (if c.focus then c.remaining else c'.duration)
              && c' == c.(duration := c'.duration, remaining := c'.remaining)
            else c' == c
  {
    AfterPress(c0, ms, t, SetDuration(minutes), 0);
  }

  /** Whoever sets a duration and starts is rewarded after exactly that many minutes. */
  lemma MinutesUntilReward(c0: Clock, ms: seq<Stamp>, t: int, minutes: int, n: nat)
    requires Fresh(c0) && Before(ms, t) && 1 <= minutes <= 120 && !ReplayAt(c0, ms, t).focus
    ensures var pressed := Press(Press(ms, t, SetDuration(Some(minutes))), t, FocusToggle);
            && ReplayAt(c0, pressed, t + n).reward
               == ReplayAt(c0, ms, t).reward + (if n >= 60 * minutes then 1 else 0)
            && (ReplayAt(c0, pressed, t + n).onBreak <==> 60 * minutes <= n < 60 * minutes + 600)
  {
    var chosen := Press(ms, t, SetDuration(Some(minutes)));
    DurationIsSet(c0, ms, t, Some(minutes));
    ToggleStarts(c0, chosen, t, n);
  }

  /** A message about the sky, one that raises, and an unknown one leave the timer to run on. */
  lemma SkyMessagesLeaveTimer(c0: Clock, ms: seq<Stamp>, t: int, m: Message, n: nat)
    requires Fresh(c0) && Before(ms, t) && (m.TimeOverride? || m.Location? || m.Unknown?)
    ensures ReplayAt(c0, Press(ms, t, m), t + n) == ReplayAt(c0, ms, t + n)
  {
    AfterPress(c0, ms, t, m, n);
    ReplayRunsOn(c0, ms, t, n);
  }
}

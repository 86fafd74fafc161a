/**
 What one tick (backend/scheduler.py) and one user message (backend/room_service.py) compute
 from the snapshot they have read, before they try to commit it.
 */
module Steps {
  import opened Common
  import opened Timer

  const MAX_ATTEMPTS := 8

  /** A tick leased for `slot`; None when there is nothing to broadcast. */
  function TickState(s: State, slot: int, connected: bool, newSky: Sky): Option<State> {
    var advancing := Advancing(s.clock);
    var elapsed := if s.stamp.None? then 1 else Max(0, slot - s.stamp.value);
    var clock := if advancing then Run(s.clock, elapsed) else s.clock;
    var stamp := if !advancing then s.stamp else if Advancing(clock) then Some(slot) else None;
    var refresh := (connected || advancing) && slot % 30 == 0 && s.timeOverride.None?;
    if (advancing && elapsed > 0) || refresh then
      Some(State(clock, if refresh then newSky else s.sky, s.timeOverride, stamp, s.revision + 1))
    else None
  }

  datatype Outcome = Raised | Unchanged | Changed(state: State)

  /** Bring a snapshot up to the second `slot`, before the message is applied. */
  function Reconciled(s: State, slot: int): State {
    if Advancing(s.clock) && s.stamp.Some? then
      var clock := Run(s.clock, Max(0, slot - s.stamp.value));
      s.(clock := clock, stamp := if Advancing(clock) then Some(slot) else None)
    else s
  }

  function Restamped(s: State, slot: int): State {
    if Advancing(s.clock) && s.stamp.None? then s.(stamp := Some(slot)) else s
  }

  /** A message that arrived in second `slot`. */
  function MessageState(s: State, slot: int, m: Message): Outcome {
    var before := Reconciled(s, slot);
    if Raises(m) then Raised
    else
      var after := Restamped(HandleState(before, m), slot);
      var moved := Advancing(s.clock) && s.stamp.Some? && slot > s.stamp.value;
      if moved || after != before then Changed(after.(revision := s.revision + 1)) else Unchanged
  }

  /** The body of a tick, updating the decoded snapshot in place. */
  method ApplyTick(st: TimerState, slot: int, connected: bool, newSky: Sky) returns (needsBroadcast: bool)
    modifies st
    ensures needsBroadcast <==> TickState(old(st.View()), slot, connected, newSky).Some?
    ensures needsBroadcast ==> Some(st.View()) == TickState(old(st.View()), slot, connected, newSky)
  {
    needsBroadcast := false;
    var expectedRevision := st.revision;
    var advancing := Advancing(st.ViewClock());
    if advancing {
      var elapsed := if st.stamp.None? then 1 else Max(0, slot - st.stamp.value);
      ghost var rounds;
      needsBroadcast, rounds := st.Advance(elapsed);
      var stillAdvancing := Advancing(st.ViewClock());
      st.stamp := if stillAdvancing then Some(slot) else None;
    }
    if (connected || advancing) && slot % 30 == 0 && st.timeOverride.None? {
      st.sky := newSky;
      needsBroadcast := true;
    }
    if needsBroadcast { st.revision := expectedRevision + 1; }
  }

  /** The body of one attempt to apply a message, updating the decoded snapshot in place. */
  method ApplyMessage(st: TimerState, slot: int, m: Message) returns (raised: bool, changed: bool)
    modifies st
    ensures raised <==> MessageState(old(st.View()), slot, m).Raised?
    ensures !raised ==> (changed <==> MessageState(old(st.View()), slot, m).Changed?)
    ensures !raised && changed ==> Changed(st.View()) == MessageState(old(st.View()), slot, m)
  {
    changed := false;
    var expectedRevision := st.revision;
    var reconciled := false;
    if Advancing(st.ViewClock()) && st.stamp.Some? {
      var elapsed := Max(0, slot - st.stamp.value);
      if elapsed != 0 {
        ghost var rounds;
        reconciled, rounds := st.Advance(elapsed);
      }
      st.stamp := if Advancing(st.ViewClock()) then Some(slot) else None;
    }
    var before := st.View();
    assert before == Reconciled(old(st.View()), slot);
    raised := st.Handle(m);
    if raised { return; }
    if Advancing(st.ViewClock()) && st.stamp.None? { st.stamp := Some(slot); }
    changed := reconciled || st.View() != before;
    if changed { st.revision := expectedRevision + 1; }
  }
}

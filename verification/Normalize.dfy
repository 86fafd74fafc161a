/**
 normalize_state of backend/state.py: what becomes of a decoded JSON document when it is read back.

 A stored document can be anything JSON can say. Python counts true and false as integers, and the
 repair rules differ on whether they mind.
 */
module Normalize {
  import opened Common
  import opened Timer

  datatype Json = Null | Bool(b: bool) | Int(n: int) | Float(x: real) | Text(s: string) | Composite(id: int)

  type Document = map<string, Json>

  function Get(d: Document, key: string): Json { if key in d then d[key] else Null }

  /** isinstance(v, int) */
  predicate IsInt(v: Json) { v.Int? || v.Bool? }

  /** max(0, min(v, BREAK_DURATION_SECONDS)): the first of equals wins, so false becomes 0 and true stays. */
  function Clamped(v: Json): Json
    requires IsInt(v)
  {
    match v
    case Bool(b) => if b then v else Int(0)
    case Int(n) => Int(Max(0, Min(n, BREAK_SECONDS)))
    case _ => v
  }

  /** A whole number that is not a truth value, and not negative where a counter is meant. */
  predicate IsWhole(v: Json) { v.Int? }

  predicate IsCounter(v: Json) { v.Int? && v.n >= 0 }

  function Normalized(d: Document): Document {
    var d1 := (d - {"music"})["break_duration" := Int(BREAK_SECONDS)];
    var d2 :=
      if Get(d1, "break") == Bool(true) && IsInt(Get(d1, "break_remaining"))
      then d1["break_remaining" := Clamped(Get(d1, "break_remaining"))] else d1;
    var d3 := if IsCounter(Get(d2, "reward_id")) then d2 else d2["reward_id" := Int(0)];
    var d4 := if IsCounter(Get(d3, "revision")) then d3 else d3["revision" := Int(0)];
    if IsWhole(Get(d4, "last_tick_slot")) then d4 else d4["last_tick_slot" := Null]
  }

  class StoredDocument {
    var fields: Document

    constructor (d: Document)
      ensures fields == d
    {
      fields := d;
    }

    method NormalizeState()
      modifies this
      ensures fields == Normalized(old(fields))
    {
      fields := fields - {"music"};
      fields := fields["break_duration" := Int(BREAK_SECONDS)];
      if Get(fields, "break") == Bool(true) && IsInt(Get(fields, "break_remaining")) {
        fields := fields["break_remaining" := Clamped(fields["break_remaining"])];
      }
      var rewardId := Get(fields, "reward_id");
      if !rewardId.Int? || rewardId.n < 0 { fields := fields["reward_id" := Int(0)]; }
      var revision := Get(fields, "revision");
      if !revision.Int? || revision.n < 0 { fields := fields["revision" := Int(0)]; }
      var slot := Get(fields, "last_tick_slot");
      if !slot.Int? { fields := fields["last_tick_slot" := Null]; }
    }
  }

  /** A document that normalizing leaves alone. */
  predicate Canonical(d: Document) {
    && "music" !in d
    && "break_duration" in d && d["break_duration"] == Int(BREAK_SECONDS)
    && (Get(d, "break") == Bool(true) && IsInt(Get(d, "break_remaining")) ==>
          Get(d, "break_remaining") == Bool(true)
          || (Get(d, "break_remaining").Int? && 0 <= Get(d, "break_remaining").n <= BREAK_SECONDS))
    && IsCounter(Get(d, "reward_id")) && IsCounter(Get(d, "revision"))
    && "last_tick_slot" in d && (IsWhole(d["last_tick_slot"]) || d["last_tick_slot"] == Null)
  }

  /** Normalizing always ends in a canonical document, and changes nothing exactly when it starts in one. */
  lemma NormalizedIsCanonical(d: Document)
    ensures Canonical(Normalized(d))
    ensures Normalized(d) == d <==> Canonical(d)
    ensures Normalized(Normalized(d)) == Normalized(d)
  {
    CanonicalIsFixed(Normalized(d));
    if Canonical(d) { CanonicalIsFixed(d); }
  }

  /** What a repair leaves of a field that is counted or timed: the value itself where it is allowed,
      and the nearest allowed one where it is not; what cannot be counted starts at zero or at null. */
  lemma RepairsAreNearest(d: Document)
    ensures var e := Normalized(d);
            && "music" !in e && Get(e, "break_duration") == Int(600)
            && (forall k :: k in d && k !in REPAIRED ==> k in e && e[k] == d[k])
            && (forall k :: k in e && k !in REPAIRED ==> k in d)
            && Nearest(Get(d, "reward_id"), Get(e, "reward_id")) && Nearest(Get(d, "revision"), Get(e, "revision"))
            && (Get(e, "last_tick_slot") == if Get(d, "last_tick_slot").Int? then Get(d, "last_tick_slot") else Null)
    ensures var r, r' := Get(d, "break_remaining"), Get(Normalized(d), "break_remaining");
            if Get(d, "break") == Bool(true) && r.Int? then
              && r'.Int? && 0 <= r'.n <= 600
              && forall n :: 0 <= n <= 600 ==> Distance(r.n, r'.n) <= Distance(r.n, n)
            else r' == if Get(d, "break") == Bool(true) && r == Bool(false) then Int(0) else r
  {
  }

  const REPAIRED := {"music", "break_duration", "break_remaining", "reward_id", "revision", "last_tick_slot"}

  function Distance(x: int, y: int): nat { if x < y then y - x else x - y }

  /** The counter nearest to a whole number; anything else counts as zero. */
  ghost predicate Nearest(v: Json, w: Json) {
    && w.Int? && w.n >= 0
    && (if v.Int? then forall n :: n >= 0 ==> Distance(v.n, w.n) <= Distance(v.n, n) else w.n == 0)
  }

  lemma CanonicalIsFixed(d: Document)
    requires Canonical(d)
    ensures Normalized(d) == d
  {
    assert d - {"music"} == d;
    assert d["break_duration" := Int(BREAK_SECONDS)] == d;
    var r := Get(d, "break_remaining");
    if Get(d, "break") == Bool(true) && IsInt(r) {
      assert Clamped(r) == r;
      assert d["break_remaining" := r] == d;
    }
    assert d["last_tick_slot" := d["last_tick_slot"]] == d;
  }

  /** What the room store writes for a state; the sky is a document of its own. */
  function Encoded(s: State): Document {
    map["celestial" := Composite(s.sky),
        "focus" := Bool(s.clock.focus),
        "paused" := Bool(s.clock.paused),
        "pomodoro_remaining" := Int(s.clock.remaining),
        "pomodoro_duration" := Int(s.clock.duration),
        "break" := Bool(s.clock.onBreak),
        "break_remaining" := Int(s.clock.breakRemaining),
        "break_duration" := Int(s.clock.breakDuration),
        "sessions_done" := Int(s.clock.sessions),
        "reward_id" := Int(s.clock.reward),
        "revision" := Int(s.revision),
        "last_tick_slot" := if s.stamp.Some? then Int(s.stamp.value) else Null,
        "time_override" := if s.timeOverride.Some? then Text(s.timeOverride.value) else Null]
  }

  function Whole(v: Json): int { if v.Int? then v.n else 0 }

  function Decoded(d: Document): State {
    State(
      Clock(Get(d, "focus") == Bool(true), Get(d, "paused") == Bool(true),
            Whole(Get(d, "pomodoro_remaining")), Whole(Get(d, "pomodoro_duration")),
            Get(d, "break") == Bool(true), Whole(Get(d, "break_remaining")), Whole(Get(d, "break_duration")),
            Whole(Get(d, "sessions_done")), Whole(Get(d, "reward_id"))),
      var sky := Get(d, "celestial"); if sky.Composite? then sky.id else 0,
      var t := Get(d, "time_override"); if t.Text? then Some(t.s) else None,
      var slot := Get(d, "last_tick_slot"); if slot.Int? then Some(slot.n) else None,
      Whole(Get(d, "revision")))
  }

  /** Storing a state and reading it back, repairs included, gives the same state exactly when its
      break length is the standard one, a running break is within it and its counters are not negative. */
  lemma ReadBack(s: State)
    ensures Decoded(Normalized(Encoded(s))) == s <==>
            && s.clock.breakDuration == BREAK_SECONDS
            && (s.clock.onBreak ==> 0 <= s.clock.breakRemaining <= BREAK_SECONDS)
            && 0 <= s.clock.reward && 0 <= s.revision
  {
    hide Encoded, Decoded, Normalized, Canonical;
    var d := Encoded(s);
    EncodedReads(s);
    NormalizedIsCanonical(d);
    EncodedIsCanonical(s);
    var e := Normalized(d);
    RemainingStaysWhole(d);
    CanonicalReads(e);
    DecodedReads(e);
  }

  /** What any document reads as once it is canonical. */
  lemma CanonicalReads(d: Document)
    requires Canonical(d) && !Get(d, "break_remaining").Bool?
    ensures Get(d, "break_duration") == Int(BREAK_SECONDS)
    ensures 0 <= Whole(Get(d, "reward_id")) && 0 <= Whole(Get(d, "revision"))
    ensures Get(d, "break") == Bool(true) ==> 0 <= Whole(Get(d, "break_remaining")) <= BREAK_SECONDS
  {
  }

  lemma RemainingStaysWhole(d: Document)
    requires Get(d, "break_remaining").Int?
    ensures Get(Normalized(d), "break_remaining").Int?
  {
  }

  lemma DecodedReads(d: Document)
    ensures var s := Decoded(d);
            && s.clock.breakDuration == Whole(Get(d, "break_duration"))
            && s.clock.onBreak == (Get(d, "break") == Bool(true))
            && s.clock.breakRemaining == Whole(Get(d, "break_remaining"))
            && s.clock.reward == Whole(Get(d, "reward_id")) && s.revision == Whole(Get(d, "revision"))
  {
  }

  lemma EncodedIsCanonical(s: State)
    ensures Get(Encoded(s), "break_remaining").Int?
    ensures Canonical(Encoded(s)) <==>
            && s.clock.breakDuration == BREAK_SECONDS
            && (s.clock.onBreak ==> 0 <= s.clock.breakRemaining <= BREAK_SECONDS)
            && 0 <= s.clock.reward && 0 <= s.revision
  {
  }

  lemma EncodedReads(s: State)
    ensures Decoded(Encoded(s)) == s
  {
  }

  /** Every reachable state of a room survives storing and reading back. */
  lemma SoundStatesReadBack(s: State)
    requires Sound(s.clock) && 0 <= s.revision
    ensures Normalized(Encoded(s)) == Encoded(s) && Decoded(Normalized(Encoded(s))) == s
  {
    hide Encoded, Decoded, Normalized, Canonical;
    NormalizedIsCanonical(Encoded(s));
    EncodedIsCanonical(s);
    ReadBack(s);
  }
}

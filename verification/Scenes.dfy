/**
 The scene manager of frontend/src/3d/scenes/scene-manager.js: lazy construction, failure marking
 and recovery to the sky.

 A scene is what the manager can tell about it: its name and the callbacks it offers. What a
 factory delivers and whether a callback throws is decided by two arbitrary functions of everything
 that has happened, so what is proved holds for every pattern of failures.
 */
module Scenes {
  import opened Common

  type Name = string

  const SKY: Name := "sky"

  datatype Hook = Celestial | Frame | Light | Mica | Shafts | Aspect | Ratio

  /** What a factory call comes to. */
  datatype Delivery = Throws | NoGroup | Delivered(hooks: set<Hook>)

  /** What a callback is told. Skies and light directions are numbered. */
  datatype Value = Nothing | Flag(on: bool) | Number(x: real) | Seen(id: nat)

  /** What has happened to the scenes. */
  datatype Event =
    | Made(name: Name)
    | Called(name: Name, hook: Hook, value: Value)
    | Rejected(name: Name)
    | Broke(name: Name)

  /** The settings every scene is to know. */
  const SETTINGS := {Mica, Shafts, Aspect, Ratio}

  /** What a scene has last been told by that callback. */
  function LastTold(log: seq<Event>, name: Name, hook: Hook): Option<Value> {
    if log == [] then None
    else
      var e := log[|log| - 1];
      if e.Called? && e.name == name && e.hook == hook then Some(e.value) else LastTold(log[..|log| - 1], name, hook)
  }

  lemma ToldAfter(log: seq<Event>, e: Event)
    ensures forall n, h :: LastTold(log + [e], n, h)
                        == if e.Called? && e.name == n && e.hook == h then Some(e.value) else LastTold(log, n, h)
  {
    assert (log + [e])[..|log|] == log;
  }

  datatype Prepared = Prepared(requested: Name, resolved: Name, scene: bool)

  /** Once a scene has broken, nothing is done with it any more. */
  predicate LeftAlone(log: seq<Event>) {
    forall i, j :: 0 <= i < j < |log| && log[i].Broke? ==> log[j].name != log[i].name
  }

  /** `e` happened after the first `k` events. */
  predicate Since(log: seq<Event>, k: nat, e: Event) {
    k <= |log| && e in log[k..]
  }

  lemma StillSince(a: seq<Event>, b: seq<Event>, k: nat, e: Event)
    requires Since(a, k, e) && a <= b
    ensures Since(b, k, e)
  {
    var i :| 0 <= i < |a[k..]| && a[k..][i] == e;
    assert b[k..][i] == e;
  }

  lemma StillSinceAll(a: seq<Event>, b: seq<Event>, k: nat)
    requires a <= b
    ensures forall e :: Since(a, k, e) ==> Since(b, k, e)
  {
    forall e | Since(a, k, e) ensures Since(b, k, e) { StillSince(a, b, k, e); }
  }

  lemma JustSince(a: seq<Event>, b: seq<Event>, k: nat, e: Event)
    requires k <= |a| && a + [e] <= b
    ensures Since(b, k, e)
  {
    assert b[k..][|a| - k] == e;
  }

  lemma Earlier(log: seq<Event>, k: nat, m: nat, e: Event)
    requires Since(log, k, e) && m <= k
    ensures Since(log, m, e)
  {
    var i :| 0 <= i < |log[k..]| && log[k..][i] == e;
    assert log[m..][i + k - m] == e;
  }

  /** A call a page can make; it keeps the last prepared scene and may activate it much later. */
  datatype Request =
    | SwitchTo(name: Name)
    | Prepare(name: Name)
    | Activate
    | NextFrame
    | NewSky(id: nat)
    | NewLight(id: nat)
    | MicaTo(on: bool)
    | ShaftsTo(on: bool)
    | AspectTo(value: Option<real>)
    | RatioTo(value: Option<real>)
    | ShadersFailed

  // ---------------------------------------------------------------- what is on screen

  /** Nothing broken; a broken scene that the sky can replace; the broken sky itself. */
  datatype Screen = Fine | Torn | Stuck

  /** What a request does to the screen. */
  datatype Turn = Keeps | Mends | MendsUnlessStuck | Breaks(screen: Screen)

  function After(screen: Screen, turn: Turn): Screen {
    match turn
    case Keeps => screen
    case Mends => Fine
    case MendsUnlessStuck => if screen.Stuck? then Stuck else Fine
    case Breaks(broken) => broken
  }

  function AfterAll(screen: Screen, turns: seq<Turn>): Screen {
    if turns == [] then screen else After(AfterAll(screen, turns[..|turns| - 1]), turns[|turns| - 1])
  }

  /** What a turn depends on. */
  datatype View = View(scenes: map<Name, set<Hook>>, failed: set<Name>, celestialKnown: bool,
                       shafts: bool, aspect: real, ratio: real)

  /** A scene that was ready when it was prepared may have failed since. */
  predicate StaleIn(v: View, p: Prepared) {
    p.scene && p.resolved in v.failed
  }

  /** The celestial state is passed on during activation, and only that notices a stale scene. */
  predicate NoticedIn(v: View, p: Prepared) {
    p.resolved != SKY && v.celestialKnown && p.resolved in v.scenes && Celestial in v.scenes[p.resolved]
  }

  /** A positive number that differs from the current one by at least a ten-thousandth. */
  predicate News(value: Option<real>, current: real) {
    value.Some? && value.value > 0.0 && !(-0.0001 < value.value - current < 0.0001)
  }

  function TurnOf(v: View, held: Option<Prepared>, r: Request): Turn {
    match r
    case SwitchTo(_) => Mends
    case Prepare(_) => Keeps
    case Activate =>
      if held.None? then Keeps
      else if !StaleIn(v, held.value) || NoticedIn(v, held.value) then Mends
      else Breaks(if held.value.resolved == SKY then Stuck else Torn)
    case NextFrame => Keeps
    case NewSky(_) => MendsUnlessStuck
    case NewLight(_) => Keeps
    case MicaTo(_) => MendsUnlessStuck
    case ShaftsTo(on) => if on == v.shafts then Keeps else MendsUnlessStuck
    case AspectTo(value) => if News(value, v.aspect) then MendsUnlessStuck else Keeps
    case RatioTo(value) => if News(value, v.ratio) then MendsUnlessStuck else Keeps
    case ShadersFailed =>
      if held.None? || held.value.resolved !in v.scenes then Keeps
      else if held.value.resolved == SKY then Mends
      else MendsUnlessStuck
  }

  lemma OnlyActivatingBreaks(v: View, held: Option<Prepared>, r: Request)
    ensures TurnOf(v, held, r).Breaks? ==> r == Activate
  {
  }

  /** Some turn from number `k` on mends the screen. */
  predicate Mended(turns: seq<Turn>, k: int, stuck: bool)
    requires 0 <= k
  {
    exists i :: k <= i < |turns| && (turns[i].Mends? || (turns[i].MendsUnlessStuck? && !stuck))
  }

  /** After any turns the screen is fine if and only if it has been mended since it was last broken,
      or never was; and only a turn that mends even the sky counts where the sky was what broke. */
  lemma {:induction false} FineIffMended(screen: Screen, turns: seq<Turn>, b: int)
    requires -1 <= b < |turns| && (b >= 0 ==> turns[b].Breaks? && !turns[b].screen.Fine?)
    requires forall i :: b < i < |turns| ==> !turns[i].Breaks?
    ensures var start := if b < 0 then screen else turns[b].screen;
            && (AfterAll(screen, turns).Fine? <==> start.Fine? || Mended(turns, b + 1, start.Stuck?))
            && (!AfterAll(screen, turns).Fine? ==> AfterAll(screen, turns) == start)
  {
    if b < |turns| - 1 {
      var init, last, start := turns[..|turns| - 1], turns[|turns| - 1], if b < 0 then screen else turns[b].screen;
      FineIffMended(screen, init, b);
      if Mended(init, b + 1, start.Stuck?) {
        var i :| b + 1 <= i < |init| && (init[i].Mends? || (init[i].MendsUnlessStuck? && !start.Stuck?));
        assert turns[i] == init[i];
      }
      if Mended(turns, b + 1, start.Stuck?) {
        var i :| b + 1 <= i < |turns| && (turns[i].Mends? || (turns[i].MendsUnlessStuck? && !start.Stuck?));
        if i < |init| { assert init[i] == turns[i]; }
      }
    }
  }

  /** A broken sky stays on screen exactly as long as no turn mends it, and nothing else that is
      broken is put in its place. */
  lemma {:induction false} StuckIffNothingMends(turns: seq<Turn>)
    ensures (forall k :: 0 <= k <= |turns| ==> AfterAll(Stuck, turns[..k]).Stuck?) <==>
            (forall i :: 0 <= i < |turns| ==> !turns[i].Mends? && (turns[i].Breaks? ==> turns[i].screen.Stuck?))
  {
    if turns != [] {
      var init := turns[..|turns| - 1];
      StuckIffNothingMends(init);
      assert forall k :: 0 <= k <= |init| ==> turns[..k] == init[..k];
      assert turns[..|turns|] == turns && turns[..|init|] == init == init[..|init|];
      assert forall i :: 0 <= i < |init| ==> turns[i] == init[i];
    }
  }

  class SceneManager {
    const factories: set<Name>
    const makes: (seq<Event>, Name) -> Delivery
    const throws: (seq<Event>, Name, Hook) -> bool
    var scenes: map<Name, set<Hook>>
    var visible: set<Name>
    var failed: set<Name>
    var active: Name
    var requested: Name
    var celestial: Option<nat>
    var light: Option<nat>
    var mica: bool
    var shafts: bool
    var aspect: real
    var ratio: real
    var log: seq<Event>

    /** Event number `i` was a failure: a factory that delivered no scene, a callback that threw, shaders
        that would not compile. */
    ghost predicate Fails(log: seq<Event>, i: nat)
      requires i < |log|
    {
      WouldFail(log[..i], log[i])
    }

    ghost predicate WouldFail(before: seq<Event>, e: Event) {
      if e.Made? then !makes(before, e.name).Delivered?
      else if e.Called? then throws(before, e.name, e.hook)
      else e.Rejected?
    }

    /** Every failure, and nothing else, is followed at once by its scene being marked as broken. */
    ghost predicate Honest(log: seq<Event>)
      decreases |log|
    {
      log != [] ==>
        var n := |log| - 1;
        if log[n].Broke? then
          n >= 1 && Fails(log[..n], n - 1) && log[n - 1].name == log[n].name && Honest(log[..n - 1])
        else !Fails(log, n) && Honest(log[..n])
    }

    lemma HonestStep(log: seq<Event>, e: Event)
      requires Honest(log) && !e.Broke?
      ensures Fails(log + [e], |log|) <==> WouldFail(log, e)
      ensures !Fails(log + [e], |log|) ==> Honest(log + [e])
      ensures Fails(log + [e], |log|) ==> Honest(log + [e] + [Broke(e.name)])
    {
      var one, two := log + [e], log + [e] + [Broke(e.name)];
      assert one[..|log|] == log && two[..|log| + 1] == one && two[..|log|] == log;
    }

    lemma FailsInPrefix(log: seq<Event>, k: nat)
      requires k <= |log|
      ensures forall i :: 0 <= i < k ==> log[..k][i] == log[i] && (Fails(log[..k], i) <==> Fails(log, i))
    {
      forall i | 0 <= i < k ensures Fails(log[..k], i) <==> Fails(log, i) { assert log[..k][..i] == log[..i]; }
    }

    /** A scene is marked exactly when one of its events was a failure. */
    lemma {:induction false} BrokenIffFailed(log: seq<Event>, name: Name)
      requires Honest(log)
      ensures Broke(name) in log <==> exists i :: 0 <= i < |log| && log[i].name == name && Fails(log, i)
    {
      if log == [] { return; }
      var n := |log| - 1;
      var k := if log[n].Broke? then n - 1 else n;
      assert Honest(log[..k]);
      assert log[n].Broke? ==> Fails(log, k) && !log[k].Broke? by { FailsInPrefix(log, n); }
      assert !Fails(log, n);
      hide Honest, Fails;
      BrokenIffFailed(log[..k], name);
      FailsInPrefix(log, k);
      assert Broke(name) in log <==> Broke(name) in log[..k] || log[n] == Broke(name) by {
        assert log == log[..k] + log[k..] && log[k..] == if k == n then [log[n]] else [log[k], log[n]];
      }
      if i :| 0 <= i < k && log[..k][i].name == name && Fails(log[..k], i) {
        assert log[i].name == name && Fails(log, i);
      }
      if i :| 0 <= i < |log| && log[i].name == name && Fails(log, i) {
        assert i < k || i == k;
        assert i < k ==> log[..k][i].name == name && Fails(log[..k], i);
      }
    }

    /** Scenes are broken by their failures, and only by those. */
    lemma FailedIffSomethingFailed(name: Name)
      requires Recorded()
      ensures name in failed <==> exists i :: 0 <= i < |log| && log[i].name == name && Fails(log, i)
    {
      BrokenIffFailed(log, name);
    }

    /** Failures are exactly what the record says, and broken scenes are left alone. */
    ghost predicate Consistent()
      reads this
    {
      && scenes.Keys <= factories && visible <= scenes.Keys
      && LeftAlone(log)
      && (forall n :: n in failed <==> Broke(n) in log)
    }

    ghost predicate Recorded()
      reads this
    {
      Consistent() && Honest(log)
    }

    /** That scene has just failed and is still to be marked. */
    ghost predicate Failing(name: Name)
      reads this
    {
      && Consistent() && log != [] && log[|log| - 1].name == name && Honest(log + [Broke(name)])
    }

    /** Nothing but the active scene is on screen, and if it is there and has not failed, it is. */
    ghost predicate Usable()
      reads this
    {
      && Recorded()
      && visible <= {active}
      && (active == SKY || active in factories)
      && (active in factories && active !in failed ==> active in scenes && active in visible)
    }

    /** And besides: nothing broken is on screen, and only the sky stays active after failing. */
    ghost predicate Valid()
      reads this
    {
      Usable() && (active in failed ==> active == SKY && visible == {})
    }

    function Look(): View
      reads this
    {
      View(scenes, failed, celestial.Some?, shafts, aspect, ratio)
    }

    /** What a callback is told now. */
    function Current(hook: Hook): Value
      reads this
    {
      match hook
      case Celestial => Seen(celestial.GetOr(0))
      case Frame => Nothing
      case Light => Seen(light.GetOr(0))
      case Mica => Flag(mica)
      case Shafts => Flag(shafts)
      case Aspect => Number(aspect)
      case Ratio => Number(ratio)
    }

    /** That scene, if it asks for it and has not failed, knows the current value. */
    predicate Knows(name: Name, hook: Hook)
      reads this
    {
      name in scenes && name !in failed && hook in scenes[name] ==> LastTold(log, name, hook) == Some(Current(hook))
    }

    /** Every scene does. */
    ghost predicate Told(hook: Hook)
      reads this
    {
      forall n :: Knows(n, hook)
    }

    lemma ToldMeans(hook: Hook)
      requires Told(hook)
      ensures forall n :: n in scenes && hook in scenes[n] && n !in failed ==> LastTold(log, n, hook) == Some(Current(hook))
    {
      forall n | n in scenes && hook in scenes[n] && n !in failed
        ensures LastTold(log, n, hook) == Some(Current(hook))
      {
        assert Knows(n, hook);
      }
    }

    /** Every scene knows the settings, and the active one the sky. */
    ghost predicate Informed()
      reads this
    {
      (forall h :: h in SETTINGS ==> Told(h)) && (celestial.Some? ==> Knows(active, Celestial))
    }

    /** Except that one setting, or the sky, has just changed. */
    ghost predicate InformedBut(hook: Hook)
      reads this
    {
      && (forall h :: h in SETTINGS && h != hook ==> Told(h))
      && (celestial.Some? && hook != Celestial ==> Knows(active, Celestial))
    }

    /** Remembering is enough where nothing else comes on screen. */
    twostate lemma StaysInformed()
      requires old(Usable()) && Recorded() && Grown() && Remembers()
      requires active == old(active) && celestial == old(celestial)
      ensures old(Informed()) ==> Informed()
    {
      if old(Informed()) {
        forall h, n | h in SETTINGS ensures Knows(n, h) { assert old(Told(h)); assert old(Knows(n, h)); }
      }
    }

    twostate lemma ActiveIsInformed()
      requires Remembers() && (celestial.Some? ==> Knows(active, Celestial))
      ensures old(Informed()) ==> Informed()
    {
      if old(Informed()) {
        forall h, n | h in SETTINGS ensures Knows(n, h) { assert old(Told(h)); assert old(Knows(n, h)); }
      }
    }

    twostate lemma OthersStillTold(hook: Hook)
      requires scenes == old(scenes) && failed == old(failed) && log == old(log) && active == old(active)
      requires forall h :: h != hook ==> Current(h) == old(Current(h))
      requires hook != Celestial ==> celestial == old(celestial)
      ensures old(Informed()) ==> InformedBut(hook)
    {
      if old(Informed()) {
        forall h, n | h in SETTINGS && h != hook ensures Knows(n, h) { assert old(Told(h)); assert old(Knows(n, h)); }
      }
    }

    /** Nobody falls behind, and new scenes are told the settings. */
    twostate predicate Remembers()
      reads this
    {
      forall n, h :: old(Knows(n, h)) && (h in SETTINGS || n in old(scenes)) ==> Knows(n, h)
    }

    ghost function Shown(): Screen
      reads this
    {
      if Valid() then Fine else if StuckOnSky() then Stuck else Torn
    }

    /** The broken sky is on screen, and there is nothing to fall back to. */
    predicate StuckOnSky()
      reads this
    {
      active == SKY && SKY in failed && SKY in visible
    }

    /** Nothing is forgotten: failures, scenes and the record only grow. */
    twostate predicate Grown()
      reads this
    {
      && old(failed) <= failed
      && old(scenes.Keys) <= scenes.Keys
      && (forall n :: n in old(scenes) ==> scenes[n] == old(scenes)[n])
      && old(log) <= log
    }

    /** Everything but remembered settings is as it was. */
    twostate predicate Untouched()
      reads this
    {
      && scenes == old(scenes) && visible == old(visible) && failed == old(failed)
      && active == old(active) && requested == old(requested) && log == old(log)
    }

    /** A result of PrepareScene, however long ago. */
    predicate Issued(p: Prepared)
      reads this
    {
      if p.scene then p.resolved in scenes else p.resolved == SKY && (SKY in failed || SKY !in factories)
    }

    function Known(name: Name): Name { if name in factories then name else SKY }

    constructor (factories: set<Name>, makes: (seq<Event>, Name) -> Delivery, throws: (seq<Event>, Name, Hook) -> bool)
      ensures Valid() && Informed() && active == SKY
      ensures this.factories == factories && this.makes == makes && this.throws == throws
      ensures SKY in factories && makes([], SKY) == Delivered({Frame}) ==>
                scenes == map[SKY := {Frame}] && failed == {} && celestial.None?
    {
      this.factories, this.makes, this.throws := factories, makes, throws;
      scenes, visible, failed := map[], {}, {};
      active, requested := SKY, SKY;
      celestial, light, mica, shafts, aspect, ratio := None, None, true, true, 16.0 / 9.0, 1.0;
      log := [];
      new;
      var sky := EnsureScene(SKY);
      var r := SwitchScene(SKY, false);
    }

    method MarkFailed(name: Name)
      requires if name in failed then Recorded() else Failing(name)
      modifies `failed, `visible, `log
      ensures Recorded() && Grown()
      ensures failed == old(failed) + {name}
      ensures visible == if name in scenes then old(visible) - {name} else old(visible)
      ensures Remembers()
    {
      hide Honest;
      ToldAfter(log, Broke(name));
      if name !in failed { log := log + [Broke(name)]; }
      failed := failed + {name};
      if name in scenes { visible := visible - {name}; }
    }

    /** Its shaders would not compile. */
    method Reject(name: Name)
      requires Recorded()
      modifies `failed, `visible, `log
      ensures Recorded() && Grown()
      ensures failed == old(failed) + {name}
      ensures visible == if name in scenes then old(visible) - {name} else old(visible)
      ensures Remembers()
    {
      hide Honest;
      ToldAfter(log, Rejected(name));
      HonestStep(log, Rejected(name));
      if name !in failed { log := log + [Rejected(name)]; }
      MarkFailed(name);
    }

    /** One callback of one scene that has not failed: it returns or it throws. */
    method Call(name: Name, hook: Hook) returns (ok: bool)
      requires Recorded() && name !in failed
      modifies `log
      ensures log == old(log) + [Called(name, hook, Current(hook))]
      ensures if ok then Recorded() else Failing(name)
      ensures ok <==> !throws(old(log), name, hook)
      ensures Remembers() && Knows(name, hook)
    {
      hide Honest;
      ToldAfter(log, Called(name, hook, Current(hook)));
      HonestStep(log, Called(name, hook, Current(hook)));
      ok := !throws(log, name, hook);
      log := log + [Called(name, hook, Current(hook))];
    }

    /** The settings a new scene is told about. */
    function Settings(): (r: seq<Hook>)
      reads this
      ensures forall h :: h in r <==> h in SETTINGS || (h == Light && light.Some?)
    {
      (if light.Some? then [Light] else []) + [Mica, Shafts, Aspect, Ratio]
    }

    method EnsureScene(name: Name) returns (next: bool)
      requires Recorded()
      modifies `scenes, `failed, `visible, `log
      ensures Recorded() && Grown()
      ensures next <==> name in scenes && name !in failed
      ensures next <==> name in factories && name !in failed
      ensures next && name !in old(scenes) ==> forall h :: h in SETTINGS || (h == Light && light.Some?) ==> Knows(name, h)
      ensures failed <= old(failed) + {name} && visible == old(visible)
      ensures name in old(scenes) ==> scenes == old(scenes) && failed == old(failed) && log == old(log)
      ensures name in old(failed) || name !in factories ==> scenes == old(scenes) && log == old(log)
      ensures name in factories && name !in old(failed) && name !in old(scenes)
              && makes(old(log), name) == Delivered({Frame}) ==>
                scenes == old(scenes)[name := {Frame}] && failed == old(failed)
      ensures Remembers()
    {
      hide Honest;
      if name !in factories || name in failed { return false; }
      if name in scenes { return true; }
      var made := makes(log, name);
      ToldAfter(log, Made(name));
      HonestStep(log, Made(name));
      log := log + [Made(name)];
      if !made.Delivered? {
        MarkFailed(name);
        return false;
      }
      scenes := scenes[name := made.hooks];
      next := Brief(name);
    }

    /** A new scene is told the settings, until it throws. */
    method Brief(name: Name) returns (ok: bool)
      requires Recorded() && name in scenes && name !in failed
      modifies `failed, `visible, `log
      ensures Recorded() && Grown() && Remembers() && (ok <==> name !in failed)
      ensures failed <= old(failed) + {name}
      ensures visible == old(visible) - if ok then {} else {name}
      ensures scenes[name] == {Frame} ==> ok
      ensures ok ==> forall h :: h in SETTINGS || (h == Light && light.Some?) ==> Knows(name, h)
    {
      hide Honest, Consistent, LastTold, Knows;
      var settings := Settings();
      var i := 0;
      while i < |settings|
        invariant 0 <= i <= |settings| && Recorded() && Grown() && Remembers() && failed == old(failed)
        invariant visible == old(visible)
        invariant forall k :: 0 <= k < i ==> Knows(name, settings[k])
      {
        if settings[i] in scenes[name] {
          ok := Invoke(name, settings[i]);
          if !ok { return; }
        } else {
          NotAsked(name, settings[i]);
        }
        i := i + 1;
      }
      ok := true;
      forall h | h in SETTINGS || (h == Light && light.Some?) ensures Knows(name, h) {
        assert h in settings;
        var k :| 0 <= k < |settings| && settings[k] == h;
        assert Knows(name, settings[k]);
      }
    }

    lemma NotAsked(name: Name, hook: Hook)
      requires name in scenes && hook !in scenes[name]
      ensures Knows(name, hook)
    {
    }

    method Invoke(name: Name, hook: Hook) returns (ok: bool)
      requires Recorded()
      modifies `failed, `visible, `log
      ensures Recorded() && Grown()
      ensures ok <==> name !in failed
      ensures ok <==> name !in old(failed) && !throws(old(log), name, hook)
      ensures failed <= old(failed) + {name}
      ensures name in old(failed) ==> log == old(log) && visible == old(visible)
      ensures name !in old(failed) ==> old(log) + [Called(name, hook, Current(hook))] <= log
      ensures ok ==> visible == old(visible)
      ensures !ok && name in scenes && name !in old(failed) ==> visible == old(visible) - {name}
      ensures name !in scenes ==> visible == old(visible)
      ensures Remembers() && Knows(name, hook)
    {
      hide Honest;
      if name in failed { return false; }
      ok := Call(name, hook);
      if !ok { MarkFailed(name); }
    }

    method PrepareScene(name: Name, preserveRequested: bool) returns (p: Prepared)
      requires Recorded()
      modifies `scenes, `failed, `visible, `log, `requested
      ensures Recorded() && Grown() && visible == old(visible)
      ensures old(Usable()) ==> Usable() && (Valid() <==> old(Valid()))
      ensures requested == if preserveRequested then old(requested) else Known(name)
      ensures Issued(p) && (p.scene <==> p.resolved in factories && p.resolved !in failed)
      ensures p.requested == Known(name)
      ensures p.resolved == if Known(name) in factories && Known(name) !in failed then Known(name) else SKY
      ensures failed <= old(failed) + {Known(name), SKY}
      ensures Known(name) in old(scenes) && Known(name) !in old(failed) ==>
                scenes == old(scenes) && failed == old(failed) && log == old(log)
      ensures Remembers()
    {
      hide Honest, LeftAlone, LastTold;
      var requestedName := Known(name);
      if !preserveRequested { requested := requestedName; }
      assert Remembers();
      hide Knows;
      var next := EnsureScene(requestedName);
      var resolvedName := requestedName;
      if !next && requestedName != SKY {
        resolvedName := SKY;
        next := EnsureScene(SKY);
      }
      p := Prepared(requestedName, resolvedName, next);
    }

    method ActivatePreparedScene(p: Prepared) returns (r: Name)
      requires Recorded() && Issued(p)
      modifies `scenes, `failed, `visible, `log, `active, `requested
      ensures Usable() && Grown() && r == active && requested == old(requested)
      ensures Valid() <==> (!StaleIn(old(Look()), p) || NoticedIn(old(Look()), p))
      ensures Valid() ==> active == if p.resolved in failed then SKY else p.resolved
      ensures !Valid() ==> active == p.resolved && active in failed && visible == {active}
      ensures failed <= old(failed) + {p.resolved, SKY}
      ensures celestial.None? ==> scenes == old(scenes) && failed == old(failed) && log == old(log)
      ensures Remembers() && (celestial.Some? ==> Knows(active, Celestial))
      ensures old(Informed()) ==> Informed()
      decreases if p.resolved == SKY then 0 else 1, 0
    {
      hide Honest, LeftAlone, LastTold, Informed;
      visible := if p.scene then {p.resolved} else {};
      active := p.resolved;
      assert Recorded() && Remembers();
      assert !p.scene || Celestial !in scenes[p.resolved] ==> Knows(active, Celestial);
      hide Consistent, Knows;
      if p.scene && celestial.Some? && Celestial in scenes[p.resolved] {
        var ok := Invoke(p.resolved, Celestial);
        if !ok && p.resolved != SKY {
          r := SwitchScene(SKY, true);
          ActiveIsInformed();
          return;
        }
      }
      r := active;
      ActiveIsInformed();
    }

    /** Prepared and activated in one go, a scene is on screen unless it has failed. */
    method SwitchScene(name: Name, preserveRequested: bool) returns (r: Name)
      requires Recorded()
      modifies `scenes, `failed, `visible, `log, `active, `requested
      ensures Valid() && Grown()
      ensures r == active == if Known(name) in failed then SKY else Known(name)
      ensures requested == if preserveRequested then old(requested) else Known(name)
      ensures failed <= old(failed) + {Known(name), SKY}
      ensures celestial.None? && Known(name) in old(scenes) && Known(name) !in old(failed) ==>
                scenes == old(scenes) && failed == old(failed)
      ensures Remembers() && (celestial.Some? ==> Knows(active, Celestial))
      ensures old(Informed()) ==> Informed()
      decreases if name == SKY then 0 else 1, 1
    {
      var p := PrepareScene(name, preserveRequested);
      r := ActivatePreparedScene(p);
    }

    method RecoverActiveScene() returns (r: Name)
      requires Recorded()
      modifies `scenes, `failed, `visible, `log, `active, `requested
      ensures Recorded() && Grown() && r == active && requested == old(requested)
      ensures old(active in failed && active != SKY) ==> Valid() && active == SKY
      ensures !old(active in failed && active != SKY) ==> Untouched()
      ensures failed <= old(failed) + {SKY}
      ensures Remembers() && (celestial.Some? && old(Knows(active, Celestial)) ==> Knows(active, Celestial))
      ensures old(Informed()) ==> Informed()
    {
      if active !in failed || active == SKY { return active; }
      r := SwitchScene(SKY, true);
    }

    /** The rest of a frame under which the active scene broke. */
    method ShowFallback()
      requires Usable() && active in failed && active != SKY
      modifies `scenes, `failed, `visible, `log, `active, `requested
      ensures Valid() && Grown() && requested == old(requested) && active == SKY && failed <= old(failed) + {SKY}
      ensures SKY in scenes && Frame in scenes[SKY] && SKY !in failed ==> Since(log, |old(log)|, Called(SKY, Frame, Nothing))
      ensures Remembers() && (celestial.Some? ==> Knows(active, Celestial))
    {
      var fallback := SwitchScene(SKY, true);
      if fallback in scenes && Frame in scenes[fallback] && fallback !in failed {
        ghost var before := log;
        var ok := Invoke(fallback, Frame);
        JustSince(before, log, |old(log)|, Called(fallback, Frame, Nothing));
      }
    }

    /** One frame: if the active scene breaks under it, the sky takes over within the same frame. A
        scene that is already broken gets no frame, and stays where it is. */
    method Update()
      requires Usable()
      modifies `scenes, `failed, `visible, `log, `active, `requested
      ensures Usable() && Grown() && requested == old(requested)
      ensures Valid() <==> old(Valid())
      ensures old(active in failed) ==> Untouched()
      ensures old(active !in failed) ==> active == if old(active) in failed then SKY else old(active)
      ensures failed <= old(failed) + {old(active), SKY}
      ensures var was, hooks := old(active), old(scenes);
              was in hooks && Frame in hooks[was] && was !in old(failed) ==>
                && Since(log, |old(log)|, Called(was, Frame, Nothing))
                && (throws(old(log), was, Frame) ==> was in failed)
      ensures old(active) != SKY && old(active !in failed) && old(active) in failed
              && SKY in scenes && Frame in scenes[SKY] && SKY !in failed
              ==> Since(log, |old(log)|, Called(SKY, Frame, Nothing))
      ensures Remembers() && (celestial.Some? && old(Knows(active, Celestial)) ==> Knows(active, Celestial))
      ensures old(Informed()) ==> Informed()
    {
      if active !in scenes || Frame !in scenes[active] || active in failed { return; }
      ghost var was, k := active, |log|;
      var ok := Invoke(active, Frame);
      JustSince(old(log), log, k, Called(was, Frame, Nothing));
      if !ok && active != SKY {
        ghost var before := log;
        ShowFallback();
        StillSince(before, log, k, Called(was, Frame, Nothing));
        if Since(log, |before|, Called(SKY, Frame, Nothing)) { Earlier(log, |before|, k, Called(SKY, Frame, Nothing)); }
      }
    }

    /** The callback `hook` of one scene, if it offers it and has not failed. */
    method TellOne(n: Name, hook: Hook, ghost k: nat)
      requires Usable() && n in scenes && k <= |log|
      modifies `failed, `visible, `log
      ensures Usable() && Grown() && Remembers() && Knows(n, hook)
      ensures active in old(failed) ==> visible == old(visible)
      ensures active !in old(failed) ==> visible == if active in failed then {} else old(visible)
      ensures Heard(n, hook, k)
      ensures forall m :: old(Heard(m, hook, k)) ==> Heard(m, hook, k)
    {
      hide Honest;
      if hook in scenes[n] && n !in failed {
        ghost var before := log;
        var ok := Invoke(n, hook);
        JustSince(before, log, k, Called(n, hook, Current(hook)));
        StillSinceAll(before, log, k);
      }
    }

    /** The scene has been called after the first `k` events, unless it does not ask or has failed. */
    predicate Heard(n: Name, hook: Hook, k: nat)
      reads this
    {
      n in scenes && hook in scenes[n] && n !in failed ==> Since(log, k, Called(n, hook, Current(hook)))
    }

    /** The callback `hook` of every scene that has not failed, in any order. */
    method TellAll(hook: Hook)
      requires Usable()
      modifies `failed, `visible, `log
      ensures Usable() && Grown() && Remembers() && Told(hook)
      ensures active in old(failed) ==> visible == old(visible)
      ensures active !in old(failed) && active in failed ==> visible == {}
      ensures forall n :: Heard(n, hook, |old(log)|)
    {
      var rest := scenes.Keys;
      while rest != {}
        invariant rest <= scenes.Keys && Usable() && Grown() && Remembers()
        invariant active in old(failed) ==> visible == old(visible)
        invariant active !in old(failed) && active in failed ==> visible == {}
        invariant forall n :: n !in rest ==> Knows(n, hook) && Heard(n, hook, |old(log)|)
      {
        hide LastTold, Usable, Since, Heard, Knows, LeftAlone;
        var n :| n in rest;
        rest := rest - {n};
        TellOne(n, hook, |old(log)|);
      }
    }

    /** Then the active scene is recovered. That heals every broken screen but one: nothing replaces
        the sky. */
    method Broadcast(hook: Hook)
      requires Usable()
      modifies `scenes, `failed, `visible, `log, `active, `requested
      ensures Usable() && Grown() && requested == old(requested)
      ensures Valid() <==> !old(StuckOnSky())
      ensures active == if old(active) in failed then SKY else old(active)
      ensures forall n :: n in old(scenes) ==> Heard(n, hook, |old(log)|)
      ensures Remembers() && (hook in SETTINGS ==> Told(hook))
      ensures old(InformedBut(hook)) ==> Informed()
      ensures celestial.Some? && hook == Celestial ==> Knows(active, Celestial)
    {
      ghost var k := |log|;
      TellAll(hook);
      StillInformed(hook);
      RecoverHeard(hook, k);
    }

    method RecoverHeard(hook: Hook, ghost k: nat)
      requires Usable()
      modifies `scenes, `failed, `visible, `log, `active, `requested
      ensures Usable() && Grown() && Remembers() && requested == old(requested)
      ensures old(active in failed && active != SKY) ==> Valid() && active == SKY
      ensures !old(active in failed && active != SKY) ==> Untouched()
      ensures failed <= old(failed) + {SKY}
      ensures forall n :: n in old(scenes) && old(Heard(n, hook, k)) ==> Heard(n, hook, k)
      ensures (forall h :: h in SETTINGS && old(Told(h)) ==> Told(h)) && (old(Informed()) ==> Informed())
      ensures celestial.Some? && old(Knows(active, Celestial)) ==> Knows(active, Celestial)
    {
      hide Honest;
      var r := RecoverActiveScene();
      StillSinceAll(old(log), log, k);
    }

    twostate lemma StillInformed(hook: Hook)
      requires scenes == old(scenes) && active == old(active) && celestial == old(celestial)
      requires Remembers() && Told(hook)
      ensures old(InformedBut(hook)) ==> Informed()
    {
      if old(InformedBut(hook)) {
        forall h, n | h in SETTINGS && h != hook ensures Knows(n, h) { assert old(Told(h)); assert old(Knows(n, h)); }
      }
    }

    method UpdateCelestial(sky: nat)
      requires Usable()
      modifies `scenes, `failed, `visible, `log, `active, `requested, `celestial
      ensures Usable() && Grown() && celestial == Some(sky) && requested == old(requested)
      ensures Valid() <==> !old(StuckOnSky())
      ensures active == if old(active) in failed then SKY else old(active)
      ensures forall n :: n in old(scenes) && Celestial in old(scenes)[n] && n !in failed ==>
                Since(log, |old(log)|, Called(n, Celestial, Seen(sky)))
      ensures Knows(active, Celestial)
      ensures old(Informed()) ==> Informed()
    {
      celestial := Some(sky);
      OthersStillTold(Celestial);
      Broadcast(Celestial);
    }

    method SetLightDirection(direction: nat)
      requires Usable()
      modifies `scenes, `failed, `visible, `log, `active, `requested, `light
      ensures Usable() && Grown() && light == Some(direction) && requested == old(requested)
      ensures Valid() <==> old(Valid())
      ensures old(active in failed) ==> Untouched()
      ensures old(active !in failed) ==> active == if old(active) in failed then SKY else old(active)
      ensures old(active) in old(scenes) && Light in old(scenes)[old(active)] && old(active) !in failed ==>
                LastTold(log, old(active), Light) == Some(Seen(direction))
      ensures old(Informed()) ==> Informed()
    {
      hide Honest, LeftAlone;
      light := Some(direction);
      OthersStillTold(Light);
      if active !in scenes || Light !in scenes[active] || active in failed { return; }
      var ok := Invoke(active, Light);
      assert ok || active == SKY ==> Usable();
      if !ok && active != SKY { var r := SwitchScene(SKY, true); }
    }

    method SetMicaEnabled(enabled: bool)
      requires Usable()
      modifies `scenes, `failed, `visible, `log, `active, `requested, `mica
      ensures Usable() && Grown() && mica == enabled && requested == old(requested)
      ensures Valid() <==> !old(StuckOnSky())
      ensures active == if old(active) in failed then SKY else old(active)
      ensures forall n :: n in old(scenes) && Mica in old(scenes)[n] && n !in failed ==>
                LastTold(log, n, Mica) == Some(Flag(enabled))
      ensures old(Informed()) ==> Informed()
    {
      mica := enabled;
      OthersStillTold(Mica);
      Broadcast(Mica);
      ToldMeans(Mica);
      hide LastTold;
    }

    method SetShaftsEnabled(enabled: bool)
      requires Usable()
      modifies `scenes, `failed, `visible, `log, `active, `requested, `shafts
      ensures Usable() && Grown() && shafts == enabled && requested == old(requested)
      ensures enabled == old(shafts) ==> Untouched()
      ensures enabled != old(shafts) ==> (Valid() <==> !old(StuckOnSky()))
      ensures enabled != old(shafts) ==> active == if old(active) in failed then SKY else old(active)
      ensures enabled != old(shafts) ==>
                forall n :: n in old(scenes) && Shafts in old(scenes)[n] && n !in failed ==>
                  LastTold(log, n, Shafts) == Some(Flag(enabled))
      ensures old(Informed()) ==> Informed()
    {
      if shafts == enabled { return; }
      shafts := enabled;
      OthersStillTold(Shafts);
      Broadcast(Shafts);
      ToldMeans(Shafts);
      hide LastTold;
    }

    method SetViewportAspect(value: Option<real>)
      requires Usable()
      modifies `scenes, `failed, `visible, `log, `active, `requested, `aspect
      ensures Usable() && Grown() && requested == old(requested)
      ensures !News(value, old(aspect)) ==> Untouched() && aspect == old(aspect)
      ensures News(value, old(aspect)) ==> aspect == value.value && (Valid() <==> !old(StuckOnSky()))
      ensures News(value, old(aspect)) ==> active == if old(active) in failed then SKY else old(active)
      ensures News(value, old(aspect)) ==>
                forall n :: n in old(scenes) && Aspect in old(scenes)[n] && n !in failed ==>
                  LastTold(log, n, Aspect) == Some(Number(value.value))
      ensures old(Informed()) ==> Informed()
    {
      if value.None? || value.value <= 0.0 || -0.0001 < value.value - aspect < 0.0001 { return; }
      aspect := value.value;
      OthersStillTold(Aspect);
      Broadcast(Aspect);
      ToldMeans(Aspect);
      hide LastTold;
    }

    method SetPixelRatio(value: Option<real>)
      requires Usable()
      modifies `scenes, `failed, `visible, `log, `active, `requested, `ratio
      ensures Usable() && Grown() && requested == old(requested)
      ensures !News(value, old(ratio)) ==> Untouched() && ratio == old(ratio)
      ensures News(value, old(ratio)) ==> ratio == value.value && (Valid() <==> !old(StuckOnSky()))
      ensures News(value, old(ratio)) ==> active == if old(active) in failed then SKY else old(active)
      ensures News(value, old(ratio)) ==>
                forall n :: n in old(scenes) && Ratio in old(scenes)[n] && n !in failed ==>
                  LastTold(log, n, Ratio) == Some(Number(value.value))
      ensures old(Informed()) ==> Informed()
    {
      if value.None? || value.value <= 0.0 || -0.0001 < value.value - ratio < 0.0001 { return; }
      ratio := value.value;
      OthersStillTold(Ratio);
      Broadcast(Ratio);
      ToldMeans(Ratio);
      hide LastTold;
    }

    /** While shaders compile, exactly the prepared scene is visible; afterwards what was before. */
    method WithPreparedSceneVisibleForCompilation(p: Prepared) returns (during: set<Name>)
      requires Usable() && Issued(p)
      modifies `visible
      ensures Usable() && visible == old(visible) && (Valid() <==> old(Valid()))
      ensures during == if p.scene then {p.resolved} else {}
      ensures old(Informed()) ==> Informed()
    {
      var saved := visible;
      visible := {};
      if p.scene { visible := visible + {p.resolved}; }
      during := visible;
      visible := saved;
    }

    /** The scene is failed for good and hidden; even a stuck sky is, if it is the one. */
    method MarkPreparationFailed(p: Prepared)
      requires Usable() && Issued(p)
      modifies `scenes, `failed, `visible, `log, `active, `requested
      ensures Usable() && Grown() && requested == old(requested)
      ensures p.resolved !in old(scenes) ==> Untouched()
      ensures p.resolved in old(scenes) ==> p.resolved in failed
      ensures p.resolved in old(scenes) ==> (Valid() <==> !old(StuckOnSky()) || p.resolved == SKY)
      ensures p.resolved in old(scenes) ==> active == if old(active) in failed then SKY else old(active)
      ensures old(Informed()) ==> Informed()
    {
      if p.resolved !in scenes { return; }
      Reject(p.resolved);
      var r := RecoverActiveScene();
    }

    /** Only preparing changes what the page holds prepared. */
    predicate Passes(r: Request, held: Option<Prepared>, next: Option<Prepared>) {
      if r.Prepare? then next.Some? && next.value.requested == Known(r.name) else next == held
    }

    /** Whether it is a message to the scenes, rather than about which of them is on screen. */
    predicate Tells(r: Request) {
      r.NewSky? || r.NewLight? || r.MicaTo? || r.ShaftsTo? || r.AspectTo? || r.RatioTo?
    }

    method Tell(r: Request)
      requires Usable() && Tells(r)
      modifies this
      ensures Usable() && Grown() && Shown() == After(old(Shown()), TurnOf(old(Look()), None, r))
      ensures old(Informed()) ==> Informed()
    {
      hide LeftAlone, Informed, LastTold, Knows;
      match r
      case NewSky(id) => UpdateCelestial(id);
      case NewLight(id) => SetLightDirection(id);
      case MicaTo(on) => SetMicaEnabled(on);
      case ShaftsTo(on) => SetShaftsEnabled(on);
      case AspectTo(value) => SetViewportAspect(value);
      case RatioTo(value) => SetPixelRatio(value);
    }

    /** One request, and what the page holds prepared afterwards. Whatever fails, what is on screen
        turns exactly as `TurnOf` says. */
    method Answer(r: Request, held: Option<Prepared>) returns (next: Option<Prepared>)
      requires Usable() && (held.Some? ==> Issued(held.value))
      modifies this
      ensures Usable() && Grown() && (next.Some? ==> Issued(next.value))
      ensures Shown() == After(old(Shown()), TurnOf(old(Look()), held, r))
      ensures Passes(r, held, next)
      ensures old(Informed()) ==> Informed()
    {
      hide Informed, LastTold, Knows, Recorded;
      next := held;
      match r
      case SwitchTo(name) => var shown := SwitchScene(name, false);
      case Prepare(name) =>
        var p := PrepareScene(name, false);
        StaysInformed();
        next := Some(p);
      case Activate =>
        if held.Some? { var shown := ActivatePreparedScene(held.value); }
      case NextFrame => Update();
      case ShadersFailed =>
        if held.Some? { MarkPreparationFailed(held.value); }
      case _ => Tell(r);
    }

    /** Any run of requests, whatever fails in it: at most the active scene is on screen, all failures
        are remembered, and no broken scene is called again. `views` and `helds` are what the manager
        and the page were at before each request. */
    method Serve(requests: seq<Request>)
      returns (ghost views: seq<View>, ghost helds: seq<Option<Prepared>>, ghost turns: seq<Turn>)
      requires Usable()
      modifies this
      ensures Usable() && Grown()
      ensures |views| == |turns| == |requests| && |helds| == |requests| + 1 && helds[0] == None
      ensures forall i :: 0 <= i < |requests| ==> Passes(requests[i], helds[i], helds[i + 1])
      ensures forall i :: 0 <= i < |requests| ==> turns[i] == TurnOf(views[i], helds[i], requests[i])
      ensures Shown() == AfterAll(old(Shown()), turns)
      ensures old(Valid()) && Activate !in requests ==> Valid()
      ensures old(Informed()) ==> Informed()
    {
      hide Recorded, Informed, TurnOf, Issued, Look, StuckOnSky, Usable;
      var held: Option<Prepared> := None;
      views, helds, turns := [], [None], [];
      ghost var first := Shown();
      for i := 0 to |requests|
        invariant Usable() && Grown() && (held.Some? ==> Issued(held.value))
        invariant |views| == |turns| == i && |helds| == i + 1 && helds[0] == None && helds[i] == held
        invariant forall k :: 0 <= k < i ==> Passes(requests[k], helds[k], helds[k + 1])
        invariant forall k :: 0 <= k < i ==> turns[k] == TurnOf(views[k], helds[k], requests[k])
        invariant Shown() == AfterAll(first, turns)
        invariant old(Valid()) && Activate !in requests ==> Shown().Fine?
        invariant old(Informed()) ==> Informed()
      {
        hide Valid, Passes;
        ghost var turn := TurnOf(Look(), held, requests[i]);
        OnlyActivatingBreaks(Look(), held, requests[i]);
        views := views + [Look()];
        held := Answer(requests[i], held);
        helds := helds + [held];
        assert (turns + [turn])[..|turns|] == turns;
        turns := turns + [turn];
      }
    }
  }

  /** The run that no later update heals: the sky is prepared, breaks in a frame, and is activated. */
  method StaleSkyStays() returns (m: SceneManager)
    ensures fresh(m) && m.Usable() && m.StuckOnSky() && !m.Valid()
  {
    m := new SceneManager({SKY}, (log, name) => Delivered({Frame}), (log, name, hook) => true);
    var p := m.PrepareScene(SKY, false);
    m.Update();
    assert m.Valid() && SKY in m.failed && m.visible == {};
    var shown := m.ActivatePreparedScene(p);
    assert m.StuckOnSky();
    var recovered := m.RecoverActiveScene();
    m.UpdateCelestial(0);
    m.Update();
  }
}

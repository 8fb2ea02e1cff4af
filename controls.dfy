/**
 * The keyboard toggles of the scene: the windmill (shown, coloured,
 * rotating, with its speed and angle and 24 colour values), the snow and the
 * lights.  `OnKey` is the state machine one key event drives; the class
 * `Controls` holds the same state in mutable fields and an array, and its
 * `KeyCallback` is proved to follow `OnKey`.
 */
module KeyControls {

  // GLFW key codes and key actions the callback tests for.
  const KeySpace: int := 32
  const KeyC: int := 67
  const KeyE: int := 69
  const KeyF: int := 70
  const KeyL: int := 76

  const Release: int := 0
  const Press: int := 1
  const Repeat: int := 2

  /** The windmill colour buffer: eight RGB triples. */
  const ColorSlots: nat := 24

  /**
   * Largest value `rand()` returns: glibc's RAND_MAX.  The value is
   * implementation-defined (32767 elsewhere); every property below holds for
   * any positive bound, as `UnitQuotient` shows.
   */
  const RandMax: nat := 2147483647

  /** One result of `rand()`. */
  type RandValue = r: nat | r <= RandMax

  /** The 24 `rand()` results a colour refresh consumes, in call order. */
  type Draws = s: seq<RandValue> | |s| == ColorSlots witness seq(24, _ => 0)

  /** Speed the windmill is reset to when it appears, in degrees per second. */
  const InitialSpeed: real := 90.0

  datatype Toggles = Toggles(
    appear: bool,
    colorful: bool,
    rotate: bool,
    speed: real,
    angle: real,
    snow: bool,
    lightOn: bool,
    colors: seq<real>)

  /** The invariant: a full colour buffer, and colour or rotation only while the windmill is shown. */
  predicate Consistent(t: Toggles)
  {
    |t.colors| == ColorSlots && ((t.rotate || t.colorful) ==> t.appear)
  }

  /** Every colour value is a channel intensity in [0, 1]. */
  predicate ColorsInUnitRange(t: Toggles)
  {
    forall i :: 0 <= i < |t.colors| ==> 0.0 <= t.colors[i] <= 1.0
  }

  /** The start-up values of the globals: everything off, speed 90, angle 0, black colours. */
  function Initial(): (t: Toggles)
    ensures Consistent(t) && ColorsInUnitRange(t)
    ensures !t.appear && !t.snow && !t.lightOn
  {
    Toggles(false, false, false, InitialSpeed, 0.0, false, false, seq(ColorSlots, _ => 0.0))
  }

  /** A draw divided by any positive bound it does not exceed is a channel intensity. */
  lemma UnitQuotient(d: nat, bound: nat)
    requires 0 < bound && d <= bound
    ensures 0.0 <= d as real / bound as real <= 1.0
    ensures d as real / bound as real == 0.0 <==> d == 0
    ensures d as real / bound as real == 1.0 <==> d == bound
  {
  }

  /** `rand() / RAND_MAX` as a colour channel. */
  function ColorOf(d: RandValue): (c: real)
    ensures 0.0 <= c <= 1.0
    ensures c == 0.0 <==> d == 0
    ensures c == 1.0 <==> d == RandMax
  {
    d as real / RandMax as real
  }

  /** The colour buffer filled from the draws: slot i takes draw i. */
  function Recolored(draws: Draws): (colors: seq<real>)
    ensures |colors| == ColorSlots
    ensures forall i :: 0 <= i < ColorSlots ==> colors[i] == ColorOf(draws[i])
    ensures forall i :: 0 <= i < ColorSlots ==> 0.0 <= colors[i] <= 1.0
  {
    seq(ColorSlots, i requires 0 <= i < ColorSlots => ColorOf(draws[i]))
  }

  /**
   * One key event.  F (press) shows a hidden windmill with speed and angle
   * reset and rotation and colour off, or hides a shown one and clears
   * rotation and colour; C (press or repeat) recolours a shown windmill;
   * SPACE (press) flips the rotation of a shown windmill; E and L (press)
   * flip snow and lights.  Any other key or action changes nothing.
   */
  function OnKey(t: Toggles, key: int, action: int, draws: Draws): (r: Toggles)
    ensures Consistent(t) ==> Consistent(r)
    ensures ColorsInUnitRange(t) ==> ColorsInUnitRange(r)
  {
    if key == KeyF && action == Press then
      if !t.appear then
        t.(speed := InitialSpeed, angle := 0.0, rotate := false, colorful := false, appear := true)
      else
        t.(rotate := false, colorful := false, appear := false)
    else if key == KeyC && (action == Press || action == Repeat) then
      if !t.appear then t else t.(colors := Recolored(draws), colorful := true)
    else if key == KeySpace && action == Press then
      if !t.appear then t else t.(rotate := !t.rotate)
    else if key == KeyE && action == Press then
      t.(snow := !t.snow)
    else if key == KeyL && action == Press then
      t.(lightOn := !t.lightOn)
    else
      t
  }

  /** F on a hidden windmill shows it freshly reset; snow, lights and colours stay. */
  lemma ShowResets(t: Toggles, draws: Draws)
    requires !t.appear
    ensures var r := OnKey(t, KeyF, Press, draws);
      r.appear && !r.rotate && !r.colorful && r.speed == InitialSpeed && r.angle == 0.0 &&
      r.snow == t.snow && r.lightOn == t.lightOn && r.colors == t.colors
  {
  }

  /** F on a shown windmill hides it and clears rotation and colour; speed, angle, snow, lights and colours stay. */
  lemma HideClears(t: Toggles, draws: Draws)
    requires t.appear
    ensures var r := OnKey(t, KeyF, Press, draws);
      !r.appear && !r.rotate && !r.colorful && r.speed == t.speed && r.angle == t.angle &&
      r.snow == t.snow && r.lightOn == t.lightOn && r.colors == t.colors
  {
  }

  /** F pressed twice from a consistent hidden state only resets speed and angle. */
  lemma ShowThenHide(t: Toggles, d1: Draws, d2: Draws)
    requires Consistent(t) && !t.appear
    ensures OnKey(OnKey(t, KeyF, Press, d1), KeyF, Press, d2) == t.(speed := InitialSpeed, angle := 0.0)
  {
  }

  /** C and SPACE do nothing while the windmill is hidden, whatever the action. */
  lemma HiddenIgnoresColorAndSpin(t: Toggles, action: int, draws: Draws)
    requires !t.appear
    ensures OnKey(t, KeyC, action, draws) == t
    ensures OnKey(t, KeySpace, action, draws) == t
  {
  }

  /**
   * C (press or repeat) on a shown windmill fills all 24 slots from the
   * draws, each in [0, 1], switches colour on and leaves the rest alone.
   */
  lemma RecolorFills(t: Toggles, action: int, draws: Draws)
    requires t.appear && (action == Press || action == Repeat)
    ensures var r := OnKey(t, KeyC, action, draws);
      |r.colors| == ColorSlots && ColorsInUnitRange(r) &&
      (forall i :: 0 <= i < ColorSlots ==> r.colors[i] == ColorOf(draws[i])) &&
      r == t.(colors := r.colors, colorful := true)
  {
  }

  /** SPACE on a shown windmill flips rotation and nothing else. */
  lemma SpinToggles(t: Toggles, draws: Draws)
    requires t.appear
    ensures OnKey(t, KeySpace, Press, draws) == t.(rotate := !t.rotate)
  {
  }

  /** E flips only the snow, L only the lights, and pressing either twice restores the state. */
  lemma SnowAndLightsToggleAlone(t: Toggles, d1: Draws, d2: Draws)
    ensures OnKey(t, KeyE, Press, d1) == t.(snow := !t.snow)
    ensures OnKey(t, KeyL, Press, d1) == t.(lightOn := !t.lightOn)
    ensures OnKey(OnKey(t, KeyE, Press, d1), KeyE, Press, d2) == t
    ensures OnKey(OnKey(t, KeyL, Press, d1), KeyL, Press, d2) == t
  {
  }

  /** The snow toggle commutes with every key event: no other key reads or writes the snow flag. */
  lemma SnowCommutes(t: Toggles, key: int, action: int, d: Draws, e: Draws)
    ensures OnKey(OnKey(t, KeyE, Press, e), key, action, d) == OnKey(OnKey(t, key, action, d), KeyE, Press, e)
  {
    var s := OnKey(t, KeyE, Press, e);
    assert s == t.(snow := !t.snow);
    if key == KeyF && action == Press {
    } else if key == KeyC && (action == Press || action == Repeat) {
    } else if key == KeySpace && action == Press {
    } else if key == KeyE && action == Press {
    } else if key == KeyL && action == Press {
    } else {
      assert OnKey(t, key, action, d) == t;
    }
  }

  /** The light toggle commutes with every key event: no other key reads or writes the light flag. */
  lemma LightsCommute(t: Toggles, key: int, action: int, d: Draws, e: Draws)
    ensures OnKey(OnKey(t, KeyL, Press, e), key, action, d) == OnKey(OnKey(t, key, action, d), KeyL, Press, e)
  {
    var s := OnKey(t, KeyL, Press, e);
    assert s == t.(lightOn := !t.lightOn);
    if key == KeyF && action == Press {
    } else if key == KeyC && (action == Press || action == Repeat) {
    } else if key == KeySpace && action == Press {
    } else if key == KeyE && action == Press {
    } else if key == KeyL && action == Press {
    } else {
      assert OnKey(t, key, action, d) == t;
    }
  }

  /** Releasing a key never changes anything, and neither does a key the callback ignores. */
  lemma ReleaseAndOtherKeysIgnored(t: Toggles, key: int, action: int, draws: Draws)
    requires action == Release || key !in {KeySpace, KeyC, KeyE, KeyF, KeyL}
    ensures OnKey(t, key, action, draws) == t
  {
  }

  /** One key event of a session: the key, the action and the draws a recolour would consume. */
  datatype KeyEvent = KeyEvent(key: int, action: int, draws: Draws)

  /** The state after a sequence of key events, applied first to last. */
  function Run(t: Toggles, events: seq<KeyEvent>): Toggles
    decreases |events|
  {
    if events == [] then t
    else Run(OnKey(t, events[0].key, events[0].action, events[0].draws), events[1..])
  }

  /** Every state the key callback can reach from start-up keeps the invariant and unit colours. */
  lemma {:induction false} RunKeepsInvariant(t: Toggles, events: seq<KeyEvent>)
    requires Consistent(t) && ColorsInUnitRange(t)
    ensures Consistent(Run(t, events)) && ColorsInUnitRange(Run(t, events))
    decreases |events|
  {
    if events != [] {
      var e := events[0];
      RunKeepsInvariant(OnKey(t, e.key, e.action, e.draws), events[1..]);
    }
  }

  /** The reachable states, from the start-up values. */
  lemma ReachableConsistent(events: seq<KeyEvent>)
    ensures Consistent(Run(Initial(), events)) && ColorsInUnitRange(Run(Initial(), events))
  {
    RunKeepsInvariant(Initial(), events);
  }

  /** The global toggle state and the windmill colour buffer the callback writes. */
  class Controls {
    var windmillAppear: bool
    var windmillColorful: bool
    var windmillRotate: bool
    var windmillSpeed: real
    var windmillAngle: real
    var snowAppear: bool
    var isLightOn: bool
    const windmillColor: array<real>

    predicate Valid()
      reads this, windmillColor
    {
      windmillColor.Length == ColorSlots && Consistent(State())
    }

    /** The fields as a `Toggles` value. */
    function State(): Toggles
      reads this, windmillColor
    {
      Toggles(windmillAppear, windmillColorful, windmillRotate, windmillSpeed, windmillAngle,
              snowAppear, isLightOn, windmillColor[..])
    }

    /** The start-up values of the globals. */
    constructor ()
      ensures Valid() && State() == Initial()
      ensures fresh(windmillColor)
    {
      windmillAppear := false;
      windmillColorful := false;
      windmillRotate := false;
      windmillSpeed := InitialSpeed;
      windmillAngle := 0.0;
      snowAppear := false;
      isLightOn := false;
      windmillColor := new real[ColorSlots](_ => 0.0);
    }

    /**
     * The key callback: one test per key, in source order, with an early
     * return for C and SPACE while the windmill is hidden, and the colour
     * slots filled one by one before colour is switched on.
     */
    method KeyCallback(key: int, action: int, draws: Draws)
      requires Valid()
      modifies this, windmillColor
      ensures Valid()
      ensures State() == OnKey(old(State()), key, action, draws)
    {
      if key == KeyF && action == Press {
        if !windmillAppear {
          windmillSpeed := InitialSpeed;
          windmillAngle := 0.0;
          windmillRotate := false;
          windmillColorful := false;
          windmillAppear := true;
        } else {
          windmillRotate := false;
          windmillColorful := false;
          windmillAppear := false;
        }
      }

      if key == KeyC && (action == Press || action == Repeat) {
        if !windmillAppear {
          return;
        }
        var i := 0;
        while i < ColorSlots
          modifies windmillColor
          invariant 0 <= i <= ColorSlots
          invariant forall j :: 0 <= j < i ==> windmillColor[j] == ColorOf(draws[j])
          invariant forall j :: i <= j < ColorSlots ==> windmillColor[j] == old(windmillColor[j])
        {
          windmillColor[i] := ColorOf(draws[i]);
          i := i + 1;
        }
        windmillColorful := true;
        assert windmillColor[..] == Recolored(draws);
      }

      if key == KeySpace && action == Press {
        if !windmillAppear {
          return;
        }
        windmillRotate := !windmillRotate;
      }

      if key == KeyE && action == Press {
        snowAppear := !snowAppear;
      }

      if key == KeyL && action == Press {
        isLightOn := !isLightOn;
      }
    }
  }
}

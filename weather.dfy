/** Rain, snow and fog. Rain and snow are fixed pools of drops that fall
    every frame while their effect is switched on and are recycled to the top
    of the sky, at a fresh random spot, once they pass below the ground. Fog
    only switches the density of the scene's exponential fog. */
module Atmosphere {
  import opened Common

  /** Height at which a drop (re)appears. */
  const SpawnHeight: real := 50.0
  /** Drops (re)appear in the square [-50, 50] x [-50, 50]. */
  const SpawnHalfWidth: real := 50.0
  const RainCapacity: nat := 1000
  const SnowCapacity: nat := 500
  /** Fog density with the fog switched on and off. */
  const FogThick: real := 0.03
  const FogThin: real := 0.01

  /** The random draws a reset takes: the horizontal position, the fall
      speed and (for snow) the sideways drift. */
  datatype Draw = Draw(x: real, z: real, fall: real, drift: real)

  predicate IsRandomDraw(d: Draw) {
    IsRandom(d.x) && IsRandom(d.z) && IsRandom(d.fall) && IsRandom(d.drift)
  }

  predicate InSpawnSquare(x: real, z: real) {
    -SpawnHalfWidth <= x <= SpawnHalfWidth && -SpawnHalfWidth <= z <= SpawnHalfWidth
  }

  /** The horizontal coordinate a reset picks from one draw. */
  function SpawnCoordinate(r: real): (c: real)
    requires IsRandom(r)
    ensures -SpawnHalfWidth <= c < SpawnHalfWidth
  {
    (r - 0.5) * 2.0 * SpawnHalfWidth
  }

  // ---------------------------------------------------------------- rain

  datatype RainState = RainState(x: real, y: real, z: real, velocity: real)

  /** What holds of every raindrop: between the ground and the spawn height,
      above the spawn square, and falling 2 to 4 units per frame. */
  predicate RainValid(s: RainState) {
    0.0 <= s.y <= SpawnHeight && InSpawnSquare(s.x, s.z) && -4.0 < s.velocity <= -2.0
  }

  /** A raindrop as a reset leaves it. */
  function RainSpawn(d: Draw): (s: RainState)
    requires IsRandomDraw(d)
    ensures RainValid(s) && s.y == SpawnHeight
  {
    RainState(SpawnCoordinate(d.x), SpawnHeight, SpawnCoordinate(d.z), -2.0 - d.fall * 2.0)
  }

  /** One update of a raindrop: it falls by its velocity and, if that takes
      it below the ground, is reset with the given draw. */
  function RainStep(s: RainState, d: Draw): (r: RainState)
    requires IsRandomDraw(d)
    ensures s.y + s.velocity < 0.0 ==> r == RainSpawn(d)
    ensures s.y + s.velocity >= 0.0 ==> r == s.(y := s.y + s.velocity)
    ensures RainValid(s) ==> RainValid(r)
  {
    var fallen := s.(y := s.y + s.velocity);
    if fallen.y < 0.0 then RainSpawn(d) else fallen
  }

  class Raindrop {
    var x: real
    var y: real
    var z: real
    var velocity: real
    var visible: bool

    ghost function State(): RainState
      reads this
    {
      RainState(x, y, z, velocity)
    }

    ghost predicate Valid()
      reads this
    {
      RainValid(State())
    }

    constructor (d: Draw)
      requires IsRandomDraw(d)
      ensures Valid() && State() == RainSpawn(d) && visible
    {
      visible := true;
      new;
      Reset(d);
    }

    method Reset(d: Draw)
      requires IsRandomDraw(d)
      modifies this
      ensures State() == RainSpawn(d) && visible == old(visible)
    {
      x, y, z := SpawnCoordinate(d.x), SpawnHeight, SpawnCoordinate(d.z);
      velocity := -2.0 - d.fall * 2.0;
    }

    method Update(d: Draw)
      requires IsRandomDraw(d)
      modifies this
      ensures State() == RainStep(old(State()), d) && visible == old(visible)
    {
      y := y + velocity;
      if y < 0.0 {
        Reset(d);
      }
    }
  }

  // ---------------------------------------------------------------- snow

  datatype SnowState = SnowState(x: real, y: real, z: real, fall: real, drift: real)

  /** What holds of every snowflake: between the ground and the spawn height,
      falling 0.5 to 1 unit per frame, drifting less than 0.1 sideways per
      frame, and, because it has fallen at least five times as far as it has
      drifted since its reset, no further outside the spawn square along x
      than a fifth of the height it has fallen. */
  predicate SnowValid(s: SnowState) {
    && 0.0 <= s.y <= SpawnHeight
    && -SpawnHalfWidth <= s.z <= SpawnHalfWidth
    && -1.0 < s.fall <= -0.5
    && -0.1 <= s.drift < 0.1
    && -SpawnHalfWidth - (SpawnHeight - s.y) / 5.0 <= s.x <= SpawnHalfWidth + (SpawnHeight - s.y) / 5.0
  }

  /** A snowflake as a reset leaves it. */
  function SnowSpawn(d: Draw): (s: SnowState)
    requires IsRandomDraw(d)
    ensures SnowValid(s) && s.y == SpawnHeight && InSpawnSquare(s.x, s.z)
  {
    SnowState(SpawnCoordinate(d.x), SpawnHeight, SpawnCoordinate(d.z),
              -0.5 - d.fall * 0.5, (d.drift - 0.5) * 0.2)
  }

  /** One update of a snowflake: it falls and drifts by its velocity and, if
      that takes it below the ground, is reset with the given draw. */
  function SnowStep(s: SnowState, d: Draw): (r: SnowState)
    requires IsRandomDraw(d)
    ensures s.y + s.fall < 0.0 ==> r == SnowSpawn(d)
    ensures s.y + s.fall >= 0.0 ==> r == s.(x := s.x + s.drift, y := s.y + s.fall)
    ensures SnowValid(s) ==> SnowValid(r)
  {
    var moved := s.(y := s.y + s.fall, x := s.x + s.drift);
    if moved.y < 0.0 then SnowSpawn(d) else moved
  }

  /** Snowflakes never leave the 120 by 120 square around the origin. */
  lemma SnowStaysNearSquare(s: SnowState)
    requires SnowValid(s)
    ensures -60.0 <= s.x <= 60.0 && -SpawnHalfWidth <= s.z <= SpawnHalfWidth
  {
  }

  class Snowflake {
    var x: real
    var y: real
    var z: real
    var fall: real
    var drift: real
    var visible: bool

    ghost function State(): SnowState
      reads this
    {
      SnowState(x, y, z, fall, drift)
    }

    ghost predicate Valid()
      reads this
    {
      SnowValid(State())
    }

    constructor (d: Draw)
      requires IsRandomDraw(d)
      ensures Valid() && State() == SnowSpawn(d) && visible
    {
      visible := true;
      new;
      Reset(d);
    }

    method Reset(d: Draw)
      requires IsRandomDraw(d)
      modifies this
      ensures State() == SnowSpawn(d) && visible == old(visible)
    {
      x, y, z := SpawnCoordinate(d.x), SpawnHeight, SpawnCoordinate(d.z);
      fall := -0.5 - d.fall * 0.5;
      drift := (d.drift - 0.5) * 0.2;
    }

    method Update(d: Draw)
      requires IsRandomDraw(d)
      modifies this
      ensures State() == SnowStep(old(State()), d) && visible == old(visible)
    {
      y := y + fall;
      x := x + drift;
      if y < 0.0 {
        Reset(d);
      }
    }
  }

  // ---------------------------------------------------------------- pools

  /** Thick fog while it is on, a thin haze otherwise. */
  function FogDensity(active: bool): (d: real)
    ensures 0.0 < FogThin <= d <= FogThick
    ensures d == FogThick <==> active
  {
    if active then FogThick else FogThin
  }

  predicate AllRandom(ds: seq<Draw>) {
    forall i :: 0 <= i < |ds| ==> IsRandomDraw(ds[i])
  }

  class Weather {
    var isRaining: bool
    var isSnowing: bool
    var isFogActive: bool
    var fogDensity: real
    const raindrops: seq<Raindrop>
    const snowflakes: seq<Snowflake>

    /** The pools have their fixed sizes and distinct members, every member
        is valid, and a pool is shown exactly when its effect is on. */
    ghost predicate Valid()
      reads this, raindrops, snowflakes
    {
      && |raindrops| == RainCapacity && Distinct(raindrops)
      && |snowflakes| == SnowCapacity && Distinct(snowflakes)
      && (forall i :: 0 <= i < |raindrops| ==> raindrops[i].Valid() && raindrops[i].visible == isRaining)
      && (forall i :: 0 <= i < |snowflakes| ==> snowflakes[i].Valid() && snowflakes[i].visible == isSnowing)
    }

    /** Both pools are filled, each member reset with its own draw and hidden;
        every effect starts switched off, with thin fog. */
    constructor (rainDraws: seq<Draw>, snowDraws: seq<Draw>)
      requires |rainDraws| == RainCapacity && AllRandom(rainDraws)
      requires |snowDraws| == SnowCapacity && AllRandom(snowDraws)
      ensures Valid() && !isRaining && !isSnowing && !isFogActive && fogDensity == FogThin
      ensures forall i :: 0 <= i < |raindrops| ==> raindrops[i].State() == RainSpawn(rainDraws[i])
      ensures forall i :: 0 <= i < |snowflakes| ==> snowflakes[i].State() == SnowSpawn(snowDraws[i])
    {
      var rain: seq<Raindrop> := [];
      for i := 0 to RainCapacity
        invariant |rain| == i && Distinct(rain)
        invariant forall k :: 0 <= k < i ==>
          rain[k].Valid() && !rain[k].visible && rain[k].State() == RainSpawn(rainDraws[k])
      {
        var drop := new Raindrop(rainDraws[i]);
        drop.visible := false;
        rain := rain + [drop];
      }
      var snow: seq<Snowflake> := [];
      for i := 0 to SnowCapacity
        invariant |snow| == i && Distinct(snow)
        invariant forall k :: 0 <= k < i ==>
          snow[k].Valid() && !snow[k].visible && snow[k].State() == SnowSpawn(snowDraws[k])
        invariant forall k :: 0 <= k < |rain| ==>
          rain[k].Valid() && !rain[k].visible && rain[k].State() == RainSpawn(rainDraws[k])
      {
        var flake := new Snowflake(snowDraws[i]);
        flake.visible := false;
        snow := snow + [flake];
      }
      raindrops, snowflakes := rain, snow;
      isRaining, isSnowing, isFogActive := false, false, false;
      fogDensity := FogThin;
    }

    /** One frame of rain: every drop is shown and updated with its draw. */
    method Rain(draws: seq<Draw>)
      requires Valid() && isRaining && |draws| == |raindrops| && AllRandom(draws)
      modifies raindrops
      ensures Valid()
      ensures forall i :: 0 <= i < |raindrops| ==>
        raindrops[i].visible && raindrops[i].State() == RainStep(old(raindrops[i].State()), draws[i])
    {
      for i := 0 to |raindrops|
        invariant forall k :: 0 <= k < i ==>
          raindrops[k].Valid() && raindrops[k].visible &&
          raindrops[k].State() == RainStep(old(raindrops[k].State()), draws[k])
        invariant forall k :: i <= k < |raindrops| ==> unchanged(raindrops[k])
      {
        raindrops[i].visible := true;
        raindrops[i].Update(draws[i]);
      }
    }

    /** One frame of snow: every flake is shown and updated with its draw. */
    method Snow(draws: seq<Draw>)
      requires Valid() && isSnowing && |draws| == |snowflakes| && AllRandom(draws)
      modifies snowflakes
      ensures Valid()
      ensures forall i :: 0 <= i < |snowflakes| ==>
        snowflakes[i].visible && snowflakes[i].State() == SnowStep(old(snowflakes[i].State()), draws[i])
    {
      for i := 0 to |snowflakes|
        invariant forall k :: 0 <= k < i ==>
          snowflakes[k].Valid() && snowflakes[k].visible &&
          snowflakes[k].State() == SnowStep(old(snowflakes[k].State()), draws[k])
        invariant forall k :: i <= k < |snowflakes| ==> unchanged(snowflakes[k])
      {
        snowflakes[i].visible := true;
        snowflakes[i].Update(draws[i]);
      }
    }

    /** The per-frame weather pass: a pool is touched only while its effect
        is on, and the fog density follows the fog flag. */
    method Update(rainDraws: seq<Draw>, snowDraws: seq<Draw>)
      requires Valid()
      requires |rainDraws| == |raindrops| && AllRandom(rainDraws)
      requires |snowDraws| == |snowflakes| && AllRandom(snowDraws)
      modifies this`fogDensity, raindrops, snowflakes
      ensures Valid()
      ensures fogDensity == FogDensity(isFogActive)
      ensures forall i :: 0 <= i < |raindrops| ==>
        raindrops[i].State() ==
        if isRaining then RainStep(old(raindrops[i].State()), rainDraws[i]) else old(raindrops[i].State())
      ensures forall i :: 0 <= i < |snowflakes| ==>
        snowflakes[i].State() ==
        if isSnowing then SnowStep(old(snowflakes[i].State()), snowDraws[i]) else old(snowflakes[i].State())
    {
      if isRaining {
        Rain(rainDraws);
      }
      if isSnowing {
        Snow(snowDraws);
      }
      if isFogActive {
        fogDensity := FogThick;
      } else {
        fogDensity := FogThin;
      }
    }

    /** The rain button: flips the flag and shows or hides every drop. */
    method ToggleRain()
      requires Valid()
      modifies this`isRaining, raindrops
      ensures Valid() && isRaining == !old(isRaining)
      ensures forall i :: 0 <= i < |raindrops| ==>
        raindrops[i].visible == isRaining && raindrops[i].State() == old(raindrops[i].State())
    {
      isRaining := !isRaining;
      for i := 0 to |raindrops|
        modifies raindrops
        invariant forall k :: 0 <= k < i ==> raindrops[k].visible == isRaining
        invariant forall k :: 0 <= k < |raindrops| ==> raindrops[k].State() == old(raindrops[k].State())
        invariant forall k :: i <= k < |raindrops| ==> unchanged(raindrops[k])
      {
        raindrops[i].visible := isRaining;
      }
    }

    /** The snow button: flips the flag and shows or hides every flake. */
    method ToggleSnow()
      requires Valid()
      modifies this`isSnowing, snowflakes
      ensures Valid() && isSnowing == !old(isSnowing)
      ensures forall i :: 0 <= i < |snowflakes| ==>
        snowflakes[i].visible == isSnowing && snowflakes[i].State() == old(snowflakes[i].State())
    {
      isSnowing := !isSnowing;
      for i := 0 to |snowflakes|
        modifies snowflakes
        invariant forall k :: 0 <= k < i ==> snowflakes[k].visible == isSnowing
        invariant forall k :: 0 <= k < |snowflakes| ==> snowflakes[k].State() == old(snowflakes[k].State())
        invariant forall k :: i <= k < |snowflakes| ==> unchanged(snowflakes[k])
      {
        snowflakes[i].visible := isSnowing;
      }
    }

    /** The fog button: flips the flag; the density follows on the next frame. */
    method ToggleFog()
      requires Valid()
      modifies this`isFogActive
      ensures Valid() && isFogActive == !old(isFogActive)
    {
      isFogActive := !isFogActive;
    }
  }
}

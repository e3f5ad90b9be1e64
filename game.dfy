/** The animation frame: the order in which one frame moves the car, runs
    the weather, spawns and prunes particles, advances the day/night clock and
    refreshes the two texts of the heads-up display. Camera follow, the
    physics step and rendering are not part of this model; the headlights
    belong to the key handler, which a frame does not touch. */
module Game {
  import opened Common
  import opened Vehicle
  import opened Particles
  import opened Atmosphere
  import opened DayNight
  import opened Hud

  /** The car body's height above the ground; it never changes. */
  const CarHeight: real := 1.0

  /** Everything a frame takes from outside the model: sine and cosine of
      the yaw before the move (for the move) and after the turn (for the
      exhaust), one random draw per raindrop and per snowflake, the random
      draws of the particle spawner, and the sine of the sun angle for the
      clock value the frame reaches. */
  datatype FrameInput = FrameInput(
    sinYaw: real, cosYaw: real,
    sinTurned: real, cosTurned: real,
    rain: seq<Draw>, snow: seq<Draw>,
    spawn: SpawnDraws,
    sunSine: real)

  /** The car's position as a vector, at the body's height. */
  function Position(s: CarState): (p: Vec3)
    ensures p.x == s.x && p.z == s.z && p.y == CarHeight
  {
    Vec3(s.x, CarHeight, s.z)
  }

  class World {
    const car: Car
    const smoke: ParticleSystem
    const weather: Weather
    const clock: Clock

    ghost predicate Valid()
      reads this, car, smoke, weather, weather.raindrops, weather.snowflakes, clock
    {
      car.Valid() && smoke.Valid() && weather.Valid() && clock.Valid()
    }

    /** The scene as the game sets it up: the car at rest at the origin, no
        particles, every weather effect off, noon. */
    constructor (rain: seq<Draw>, snow: seq<Draw>)
      requires |rain| == RainCapacity && AllRandom(rain)
      requires |snow| == SnowCapacity && AllRandom(snow)
      ensures Valid()
      ensures car.State() == CarState(0.0, 0.0, 0.0, 0.0, 0.0)
      ensures smoke.particles == []
      ensures !weather.isRaining && !weather.isSnowing && !weather.isFogActive
      ensures clock.timeOfDay == StartTime
    {
      car := new Car();
      smoke := new ParticleSystem();
      weather := new Weather(rain, snow);
      clock := new Clock();
    }

    /** The movement pass as the frame sees it. */
    method MovePass(sinYaw: real, cosYaw: real)
      requires car.Valid()
      modifies car, car.wheels
      ensures car.Valid() && car.State() == Stepped(old(car.State()), sinYaw, cosYaw)
      ensures Accepts(old(car.State()), sinYaw, cosYaw) ==>
        forall i :: 0 <= i < car.wheels.Length ==> car.wheels[i] == old(car.wheels[i]) + old(car.speed) * WheelSpinFactor
      ensures !Accepts(old(car.State()), sinYaw, cosYaw) ==> car.wheels[..] == old(car.wheels[..])
    {
      car.Drive(sinYaw, cosYaw);
    }

    /** The weather pass as the frame sees it: the pools stay valid and the
        fog density follows the fog flag. */
    method WeatherPass(rain: seq<Draw>, snow: seq<Draw>)
      requires weather.Valid()
      requires |rain| == RainCapacity && AllRandom(rain)
      requires |snow| == SnowCapacity && AllRandom(snow)
      modifies weather`fogDensity, weather.raindrops, weather.snowflakes
      ensures weather.Valid() && weather.fogDensity == FogDensity(weather.isFogActive)
    {
      weather.Update(rain, snow);
    }

    /** The particle pass as the frame sees it: the particles spawned this
        frame close the list, the exhaust first. */
    method ParticlePass(speed: real, at: Vec3, sinYaw: real, cosYaw: real, draws: SpawnDraws)
      requires smoke.Valid() && IsRandomSpawn(draws)
      modifies smoke, smoke.particles
      ensures smoke.Valid()
      ensures SpawnCount(speed, draws.dustRoll) <= |smoke.particles|
      ensures speed != 0.0 ==>
        FreshlyAged(smoke.particles[|smoke.particles| - SpawnCount(speed, draws.dustRoll)],
          ExhaustOrigin(at, sinYaw, cosYaw), draws.exhaust, SmokeColor)
    {
      ghost var spawned := smoke.Update(speed, at, sinYaw, cosYaw, draws);
    }

    /** The day/night pass as the frame sees it: the clock moves on, and the
        sky colour and light intensity follow it. The time text is read from
        the new clock value by the caller. */
    method ClockPass(sine: real) returns (sky: Rgb, ambient: real)
      requires clock.Valid()
      modifies clock
      ensures clock.Valid() && clock.timeOfDay == Advanced(old(clock.timeOfDay))
      ensures sky == SkyColor(clock.timeOfDay, sine) && ambient == Ambient(sine)
    {
      var text;
      sky, ambient, text := clock.Update(sine);
    }

    /** The state changes of one animation frame. The car moves first, so
        the particles are spawned at its new position, with its new heading
        and its speed after any stop at the boundary. */
    method Advance(f: FrameInput) returns (sky: Rgb, ambient: real)
      requires Valid()
      requires |f.rain| == RainCapacity && AllRandom(f.rain)
      requires |f.snow| == SnowCapacity && AllRandom(f.snow)
      requires IsRandomSpawn(f.spawn)
      modifies car, car.wheels, smoke, smoke.particles, clock
      modifies weather`fogDensity, weather.raindrops, weather.snowflakes
      ensures Valid()
      ensures car.State() == Stepped(old(car.State()), f.sinYaw, f.cosYaw)
      ensures Accepts(old(car.State()), f.sinYaw, f.cosYaw) ==>
        forall i :: 0 <= i < car.wheels.Length ==> car.wheels[i] == old(car.wheels[i]) + old(car.speed) * WheelSpinFactor
      ensures !Accepts(old(car.State()), f.sinYaw, f.cosYaw) ==> car.wheels[..] == old(car.wheels[..])
      ensures SpawnCount(car.speed, f.spawn.dustRoll) <= |smoke.particles|
      ensures car.speed != 0.0 ==>
        FreshlyAged(smoke.particles[|smoke.particles| - SpawnCount(car.speed, f.spawn.dustRoll)],
          ExhaustOrigin(Position(car.State()), f.sinTurned, f.cosTurned), f.spawn.exhaust, SmokeColor)
      ensures weather.fogDensity == FogDensity(weather.isFogActive)
      ensures clock.timeOfDay == Advanced(old(clock.timeOfDay))
      ensures sky == SkyColor(clock.timeOfDay, f.sunSine) && ambient == Ambient(f.sunSine)
    {
      MovePass(f.sinYaw, f.cosYaw);
      WeatherPass(f.rain, f.snow);
      ParticlePass(car.speed, Vec3(car.x, CarHeight, car.z), f.sinTurned, f.cosTurned, f.spawn);
      sky, ambient := ClockPass(f.sunSine);
    }

    /** One animation frame: the state changes, then the two texts of the
        heads-up display, both read from the new state. */
    method Animate(f: FrameInput) returns (sky: Rgb, ambient: real, timeText: string, speedText: string)
      requires Valid()
      requires |f.rain| == RainCapacity && AllRandom(f.rain)
      requires |f.snow| == SnowCapacity && AllRandom(f.snow)
      requires IsRandomSpawn(f.spawn)
      modifies car, car.wheels, smoke, smoke.particles, clock
      modifies weather`fogDensity, weather.raindrops, weather.snowflakes
      ensures Valid()
      ensures car.State() == Stepped(old(car.State()), f.sinYaw, f.cosYaw)
      ensures Accepts(old(car.State()), f.sinYaw, f.cosYaw) ==>
        forall i :: 0 <= i < car.wheels.Length ==> car.wheels[i] == old(car.wheels[i]) + old(car.speed) * WheelSpinFactor
      ensures !Accepts(old(car.State()), f.sinYaw, f.cosYaw) ==> car.wheels[..] == old(car.wheels[..])
      ensures SpawnCount(car.speed, f.spawn.dustRoll) <= |smoke.particles|
      ensures car.speed != 0.0 ==>
        FreshlyAged(smoke.particles[|smoke.particles| - SpawnCount(car.speed, f.spawn.dustRoll)],
          ExhaustOrigin(Position(car.State()), f.sinTurned, f.cosTurned), f.spawn.exhaust, SmokeColor)
      ensures weather.fogDensity == FogDensity(weather.isFogActive)
      ensures clock.timeOfDay == Advanced(old(clock.timeOfDay))
      ensures sky == SkyColor(clock.timeOfDay, f.sunSine) && ambient == Ambient(f.sunSine)
      ensures timeText == TimeText(clock.timeOfDay)
      ensures speedText == SpeedText(car.speed) && SpeedReading(car.speed) <= 50
    {
      sky, ambient := Advance(f);
      timeText := TimeText(clock.timeOfDay);
      speedText := SpeedText(car.speed);
    }
  }
}

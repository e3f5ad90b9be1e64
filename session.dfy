/** A driving session as a sequence of the events that reach the car: key
    presses and releases, collisions reported by the physics engine, and
    animation frames (each with the sine and cosine of the car's yaw at that
    frame). Whatever the events, the car stays inside the square, no faster
    than the arrow keys make it, and the speedometer never shows more than
    50 km/h. */
module Session {
  import opened Common
  import opened Vehicle
  import opened Input
  import opened Hud

  datatype Event =
    | KeyDown(key: string)
    | KeyUp(key: string)
    | Collision
    | Frame(sinYaw: real, cosYaw: real)

  /** The effect of one event on the car. */
  function Apply(s: CarState, e: Event): (r: CarState)
    ensures Sound(s) ==> Sound(r)
  {
    match e
    case KeyDown(key) => Pressed(s, key)
    case KeyUp(key) => Released(s, key)
    case Collision => Collided(s)
    case Frame(sinYaw, cosYaw) => Stepped(s, sinYaw, cosYaw)
  }

  /** The car after a whole sequence of events, applied in order. */
  function Run(s: CarState, events: seq<Event>): CarState
    decreases |events|
  {
    if events == [] then s else Run(Apply(s, events[0]), events[1..])
  }

  /** The car the game starts with. */
  const Start: CarState := CarState(0.0, 0.0, 0.0, 0.0, 0.0)

  /** Every session keeps the car sound: inside the square, at most the
      arrow-key speed, turning at a key-given rate. */
  lemma {:induction false} RunKeepsSound(s: CarState, events: seq<Event>)
    requires Sound(s)
    ensures Sound(Run(s, events))
    decreases |events|
  {
    if events != [] {
      RunKeepsSound(Apply(s, events[0]), events[1..]);
    }
  }

  /** Running two sessions one after the other is running their concatenation. */
  lemma {:induction false} RunAppend(s: CarState, first: seq<Event>, second: seq<Event>)
    ensures Run(s, first + second) == Run(Run(s, first), second)
    decreases |first|
  {
    if first != [] {
      assert (first + second)[1..] == first[1..] + second;
      RunAppend(Apply(s, first[0]), first[1..], second);
    } else {
      assert first + second == second;
    }
  }

  /** From the start of the game, after any events, the car is inside the
      square and the speedometer shows at most 50 km/h. */
  lemma SessionBounds(events: seq<Event>)
    ensures InSquare(Run(Start, events).x, Run(Start, events).z)
    ensures SpeedReading(Run(Start, events).speed) <= 50
  {
    RunKeepsSound(Start, events);
  }

  /** A session with no throttle key press leaves the car where it started:
      the speed starts at zero and only a throttle key makes it non-zero. */
  lemma {:induction false} NoThrottleNoMove(s: CarState, events: seq<Event>)
    requires s.speed == 0.0
    requires forall i :: 0 <= i < |events| ==> !(events[i].KeyDown? && IsThrottleKey(events[i].key))
    ensures Run(s, events).x == s.x && Run(s, events).z == s.z
    ensures Run(s, events).speed == 0.0
    decreases |events|
  {
    if events != [] {
      var next := Apply(s, events[0]);
      assert next.x == s.x && next.z == s.z && next.speed == 0.0;
      NoThrottleNoMove(next, events[1..]);
    }
  }
}

/** The keyboard controller: key-down and key-up events set or clear the
    car's speed and yaw rate, toggle the headlights, and ask the audio
    elements to play, pause or restart. */
module Input {
  import opened Vehicle
  import opened Lighting

  /** The request made of the engine and horn audio elements, which are not
      part of this model. `StartEngine` is a play issued when the element
      does not report itself playing. */
  datatype Audio = Silent | StartEngine | ToggleEngine | PauseEngine | RestartHorn

  predicate IsThrottleKey(key: string) { key == "ArrowUp" || key == "ArrowDown" }
  predicate IsSteeringKey(key: string) { key == "ArrowLeft" || key == "ArrowRight" }
  predicate TogglesLights(key: string) { key == "l" || key == "L" }

  /** The controls after a key-down: up and down set the speed, left and
      right set the yaw rate; no key moves or turns the car by itself. */
  function Pressed(s: CarState, key: string): (r: CarState)
    ensures r.x == s.x && r.z == s.z && r.yaw == s.yaw
    ensures IsThrottleKey(key) ==>
      r == s.(speed := if key == "ArrowUp" then DriveSpeed else -DriveSpeed)
    ensures IsSteeringKey(key) ==>
      r == s.(rotationSpeed := if key == "ArrowLeft" then TurnRate else -TurnRate)
    ensures !IsThrottleKey(key) && !IsSteeringKey(key) ==> r == s
    ensures Sound(s) ==> Sound(r)
  {
    if key == "ArrowUp" then s.(speed := DriveSpeed)
    else if key == "ArrowDown" then s.(speed := -DriveSpeed)
    else if key == "ArrowLeft" then s.(rotationSpeed := TurnRate)
    else if key == "ArrowRight" then s.(rotationSpeed := -TurnRate)
    else s
  }

  /** The controls after a key-up: releasing either throttle key stops the
      car, releasing either steering key stops the turn, and nothing else
      changes. */
  function Released(s: CarState, key: string): (r: CarState)
    ensures IsThrottleKey(key) ==> r == s.(speed := 0.0)
    ensures IsSteeringKey(key) ==> r == s.(rotationSpeed := 0.0)
    ensures !IsThrottleKey(key) && !IsSteeringKey(key) ==> r == s
    ensures Sound(s) ==> Sound(r)
  {
    if IsThrottleKey(key) then s.(speed := 0.0)
    else if IsSteeringKey(key) then s.(rotationSpeed := 0.0)
    else s
  }

  /** The audio request of a key-down. */
  function PressAudio(key: string): (a: Audio)
    ensures a == StartEngine <==> IsThrottleKey(key)
    ensures a == ToggleEngine <==> key == " "
    ensures a == RestartHorn <==> key == "h" || key == "H"
    ensures a != PauseEngine
  {
    if IsThrottleKey(key) then StartEngine
    else if key == " " then ToggleEngine
    else if key == "h" || key == "H" then RestartHorn
    else Silent
  }

  /** The audio request of a key-up: only the throttle keys pause the engine. */
  function ReleaseAudio(key: string): (a: Audio)
    ensures a == PauseEngine <==> IsThrottleKey(key)
    ensures a == Silent <==> !IsThrottleKey(key)
  {
    if IsThrottleKey(key) then PauseEngine else Silent
  }

  /** Releasing the arrow key just pressed zeroes the control that key set
      and gives back the other control as it was before the press. */
  lemma ReleaseUndoesPress(s: CarState, key: string)
    requires IsThrottleKey(key) || IsSteeringKey(key)
    ensures IsThrottleKey(key) ==> Released(Pressed(s, key), key) == s.(speed := 0.0)
    ensures IsSteeringKey(key) ==> Released(Pressed(s, key), key) == s.(rotationSpeed := 0.0)
  {
  }

  /** Releasing one throttle key stops the car even while the opposite one
      is still held down, and likewise for steering. */
  lemma ReleaseIgnoresWhichArrow(s: CarState)
    ensures Released(Pressed(s, "ArrowDown"), "ArrowUp").speed == 0.0
    ensures Released(Pressed(s, "ArrowLeft"), "ArrowRight").rotationSpeed == 0.0
  {
  }

  /** The key-down listener. */
  method OnKeyDown(car: Car, lamps: Headlights, key: string) returns (audio: Audio)
    requires car.Valid() && lamps.Valid()
    modifies car, lamps, lamps.lights
    ensures car.Valid() && lamps.Valid()
    ensures car.State() == Pressed(old(car.State()), key)
    ensures audio == PressAudio(key)
    ensures TogglesLights(key) ==>
      lamps.areLightsOn == !old(lamps.areLightsOn) &&
      lamps.lights[..] == LitAll(old(lamps.lights[..]), lamps.areLightsOn)
    ensures !TogglesLights(key) ==>
      lamps.areLightsOn == old(lamps.areLightsOn) &&
      lamps.lights[..] == old(lamps.lights[..])
  {
    audio := Silent;
    if key == "ArrowUp" {
      car.speed := DriveSpeed;
      audio := StartEngine;
    } else if key == "ArrowDown" {
      car.speed := -DriveSpeed;
      audio := StartEngine;
    } else if key == "ArrowLeft" {
      car.rotationSpeed := TurnRate;
    } else if key == "ArrowRight" {
      car.rotationSpeed := -TurnRate;
    } else if key == " " {
      audio := ToggleEngine;
    } else if key == "h" || key == "H" {
      audio := RestartHorn;
    } else if key == "l" || key == "L" {
      lamps.Toggle();
    }
  }

  /** The key-up listener. */
  method OnKeyUp(car: Car, key: string) returns (audio: Audio)
    requires car.Valid()
    modifies car
    ensures car.Valid()
    ensures car.State() == Released(old(car.State()), key)
    ensures audio == ReleaseAudio(key)
  {
    audio := Silent;
    if key == "ArrowUp" || key == "ArrowDown" {
      car.speed := 0.0;
      audio := PauseEngine;
    } else if key == "ArrowLeft" || key == "ArrowRight" {
      car.rotationSpeed := 0.0;
    }
  }
}

/** The drivable car: its pose on the ground plane, its forward speed and its
    yaw rate, and the two per-frame rules that change them (kinematic movement
    with boundary rejection, and collision damping). The values are the
    module-level `speed` and `rotationSpeed` of the game together with
    `car.position` and `car.rotation.y`. */
module Vehicle {
  import opened Common

  /** Half the side of the square the car may occupy. */
  const MapBoundary: real := 90.0
  /** Forward speed set by the up and down arrows. */
  const DriveSpeed: real := 0.1
  /** Yaw rate set by the left and right arrows. */
  const TurnRate: real := 0.02
  /** A collision multiplies the speed by this factor. */
  const CollisionDamping: real := 0.5
  /** Wheels spin by speed times this factor on an accepted move. */
  const WheelSpinFactor: real := 5.0
  const WheelCount: nat := 4

  /** Both coordinates lie in [-90, 90]. */
  predicate InSquare(x: real, z: real) {
    -MapBoundary <= x <= MapBoundary && -MapBoundary <= z <= MapBoundary
  }

  /** The kinematic state of the car. */
  datatype CarState = CarState(x: real, z: real, yaw: real, speed: real, rotationSpeed: real)

  /** Yaw rates the controls can produce. */
  predicate IsTurnRate(r: real) {
    r == 0.0 || r == TurnRate || r == -TurnRate
  }

  /** What holds of the car at every point of a session: it is inside the
      square, it is not faster than the arrow keys make it, and it turns at
      one of the three key-given rates. */
  predicate Sound(s: CarState) {
    InSquare(s.x, s.z) && Abs(s.speed) <= DriveSpeed && IsTurnRate(s.rotationSpeed)
  }

  /** The position the car would reach this frame, given sin and cos of its yaw. */
  function CandidateX(s: CarState, sinYaw: real): real { s.x + sinYaw * s.speed }
  function CandidateZ(s: CarState, cosYaw: real): real { s.z + cosYaw * s.speed }

  /** The frame's move is taken: the car is moving and the candidate lies in the square. */
  predicate Accepts(s: CarState, sinYaw: real, cosYaw: real) {
    s.speed != 0.0 && InSquare(CandidateX(s, sinYaw), CandidateZ(s, cosYaw))
  }

  /** The movement half of a frame: a moving car advances along its heading
      when the candidate position is inside the square; otherwise it stays
      where it is and stops dead. */
  function Translated(s: CarState, sinYaw: real, cosYaw: real): (r: CarState)
    ensures Accepts(s, sinYaw, cosYaw) ==>
      r == s.(x := CandidateX(s, sinYaw), z := CandidateZ(s, cosYaw))
    ensures s.speed != 0.0 && !Accepts(s, sinYaw, cosYaw) ==> r == s.(speed := 0.0)
    ensures s.speed == 0.0 ==> r == s
    ensures InSquare(s.x, s.z) ==> InSquare(r.x, r.z)
    ensures r.speed == s.speed || r.speed == 0.0
  {
    if s.speed == 0.0 then s
    else if Accepts(s, sinYaw, cosYaw) then s.(x := CandidateX(s, sinYaw), z := CandidateZ(s, cosYaw))
    else s.(speed := 0.0)
  }

  /** The rotation half of a frame: yaw moves by the yaw rate, with no
      boundary constraint, and nothing else changes. */
  function Rotated(s: CarState): (r: CarState)
    ensures r.yaw == s.yaw + s.rotationSpeed
    ensures r.(yaw := s.yaw) == s
  {
    if s.rotationSpeed != 0.0 then s.(yaw := s.yaw + s.rotationSpeed) else s
  }

  /** One frame of car motion: translate with the current yaw, then turn. */
  function Stepped(s: CarState, sinYaw: real, cosYaw: real): (r: CarState)
    ensures Sound(s) ==> Sound(r)
    ensures r.yaw == s.yaw + s.rotationSpeed
  {
    Rotated(Translated(s, sinYaw, cosYaw))
  }

  /** The collision listener: a moving car keeps its direction of travel at
      half the speed; a car at rest stays at rest. Only the speed changes. */
  function Collided(s: CarState): (r: CarState)
    ensures r == s.(speed := r.speed)
    ensures r.speed * 2.0 == s.speed
    ensures s.speed > 0.0 ==> 0.0 < r.speed < s.speed
    ensures s.speed < 0.0 ==> s.speed < r.speed < 0.0
    ensures Sound(s) ==> Sound(r)
  {
    if s.speed != 0.0 then s.(speed := s.speed * CollisionDamping) else s
  }

  /** The car as the game holds it: mutable pose and controls, plus the spin
      angle of each of its four wheels. */
  class Car {
    var x: real
    var z: real
    var yaw: real
    var speed: real
    var rotationSpeed: real
    const wheels: array<real>

    ghost function State(): CarState
      reads this
    {
      CarState(x, z, yaw, speed, rotationSpeed)
    }

    ghost predicate Valid()
      reads this
    {
      wheels.Length == WheelCount && Sound(State())
    }

    /** The car starts at the origin, facing +z, at rest. */
    constructor ()
      ensures Valid() && fresh(wheels)
      ensures State() == CarState(0.0, 0.0, 0.0, 0.0, 0.0)
      ensures forall i :: 0 <= i < wheels.Length ==> wheels[i] == 0.0
    {
      x, z, yaw := 0.0, 0.0, 0.0;
      speed, rotationSpeed := 0.0, 0.0;
      wheels := new real[WheelCount](_ => 0.0);
    }

    /** The movement and rotation block of a frame. `sinYaw` and `cosYaw` are
        the sine and cosine of the yaw at the start of the frame. */
    method Drive(sinYaw: real, cosYaw: real)
      requires Valid()
      modifies this, wheels
      ensures Valid()
      ensures State() == Stepped(old(State()), sinYaw, cosYaw)
      ensures Accepts(old(State()), sinYaw, cosYaw) ==>
        forall i :: 0 <= i < wheels.Length ==> wheels[i] == old(wheels[i]) + old(speed) * WheelSpinFactor
      ensures !Accepts(old(State()), sinYaw, cosYaw) ==> wheels[..] == old(wheels[..])
    {
      Translate(sinYaw, cosYaw);
      if rotationSpeed != 0.0 {
        yaw := yaw + rotationSpeed;
      }
    }

    /** The movement block alone: advance along the heading when the move
        stays inside the square, spinning the wheels, or stop dead. */
    method Translate(sinYaw: real, cosYaw: real)
      requires wheels.Length == WheelCount
      modifies this, wheels
      ensures State() == Translated(old(State()), sinYaw, cosYaw)
      ensures Accepts(old(State()), sinYaw, cosYaw) ==>
        forall i :: 0 <= i < wheels.Length ==> wheels[i] == old(wheels[i]) + old(speed) * WheelSpinFactor
      ensures !Accepts(old(State()), sinYaw, cosYaw) ==> wheels[..] == old(wheels[..])
    {
      if speed != 0.0 {
        var newX := x + sinYaw * speed;
        var newZ := z + cosYaw * speed;
        if InSquare(newX, newZ) {
          x, z := newX, newZ;
          SpinWheels(speed * WheelSpinFactor);
        } else {
          speed := 0.0;
        }
      }
    }

    /** Turns every wheel by the same angle. */
    method SpinWheels(spin: real)
      modifies wheels
      ensures forall i :: 0 <= i < wheels.Length ==> wheels[i] == old(wheels[i]) + spin
    {
      for i := 0 to wheels.Length
        invariant forall k :: 0 <= k < i ==> wheels[k] == old(wheels[k]) + spin
        invariant forall k :: i <= k < wheels.Length ==> wheels[k] == old(wheels[k])
      {
        wheels[i] := wheels[i] + spin;
      }
    }

    /** The physics engine reports a collision of the car's body. */
    method Collide()
      requires Valid()
      modifies this
      ensures Valid()
      ensures State() == Collided(old(State()))
    {
      if speed != 0.0 {
        speed := speed * CollisionDamping;
      }
    }
  }
}

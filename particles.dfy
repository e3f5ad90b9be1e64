/** Exhaust smoke and dust: short-lived particles spawned behind a moving
    car, each drifting at a constant velocity while its life (and with it its
    opacity) runs down, and removed from the list once its life is spent. */
module Particles {
  import opened Common

  const InitialLife: real := 1.0
  const InitialOpacity: real := 0.8
  /** Life lost on every update. */
  const LifeDecay: real := 0.02
  const SmokeColor: int := 0x666666
  const DustColor: int := 0x8B4513
  /** A dust particle is spawned when the dust draw exceeds this value. */
  const DustThreshold: real := 0.7
  /** The exhaust sits this far behind the car, this high above it. */
  const ExhaustBack: real := 2.0
  const ExhaustHeight: real := 0.5
  /** Dust is spawned within this half-width around the car, this high. */
  const DustSpread: real := 2.0
  const DustHeight: real := 0.1

  predicate IsRandomVec(d: Vec3) {
    IsRandom(d.x) && IsRandom(d.y) && IsRandom(d.z)
  }

  /** The velocity a new particle is given from three random draws: a small
      horizontal drift either way and an upward lift. */
  function LaunchVelocity(d: Vec3): (v: Vec3)
    requires IsRandomVec(d)
    ensures -0.05 <= v.x < 0.05 && 0.0 <= v.y < 0.2 && -0.05 <= v.z < 0.05
  {
    Vec3((d.x - 0.5) * 0.1, d.y * 0.2, (d.z - 0.5) * 0.1)
  }

  /** Where exhaust appears: behind the car along its heading, raised. The
      offset points against the direction a forward move takes the car
      (which is (sinYaw, cosYaw)), two units of heading back. */
  function ExhaustOrigin(car: Vec3, sinYaw: real, cosYaw: real): (p: Vec3)
    ensures (p.x - car.x) * sinYaw + (p.z - car.z) * cosYaw == -ExhaustBack * (sinYaw * sinYaw + cosYaw * cosYaw)
    ensures (p.x - car.x) * cosYaw == (p.z - car.z) * sinYaw
    ensures p.y == car.y + ExhaustHeight
  {
    Plus(car, Vec3(-sinYaw * ExhaustBack, ExhaustHeight, -cosYaw * ExhaustBack))
  }

  /** Where dust appears: a random point of a 2 by 2 square around the car. */
  function DustOrigin(car: Vec3, dx: real, dz: real): (p: Vec3)
    requires IsRandom(dx) && IsRandom(dz)
    ensures car.x - 1.0 <= p.x < car.x + 1.0 && car.z - 1.0 <= p.z < car.z + 1.0
    ensures p.y == car.y + DustHeight
  {
    Plus(car, Vec3((dx - 0.5) * DustSpread, DustHeight, (dz - 0.5) * DustSpread))
  }

  /** A particle is kept by an update exactly when its life, after the
      decay, is still positive. */
  predicate SurvivesUpdate(life: real) {
    life - LifeDecay > 0.0
  }

  class Particle {
    var position: Vec3
    var velocity: Vec3
    var life: real
    var opacity: real
    var color: int

    constructor (at: Vec3, draw: Vec3)
      requires IsRandomVec(draw)
      ensures position == at && velocity == LaunchVelocity(draw)
      ensures life == InitialLife && opacity == InitialOpacity && color == SmokeColor
    {
      position := at;
      velocity := LaunchVelocity(draw);
      life := InitialLife;
      opacity := InitialOpacity;
      color := SmokeColor;
    }

    /** One step of a particle: it drifts by its velocity, loses life, shows
        its life as its opacity, and reports whether it is still alive. */
    method Update() returns (alive: bool)
      modifies this
      ensures Aged(this)
      ensures alive == SurvivesUpdate(old(life))
    {
      position := Plus(position, velocity);
      life := life - LifeDecay;
      opacity := life;
      alive := life > 0.0;
    }
  }

  /** What one update does to a particle. */
  twostate predicate Aged(p: Particle)
    reads p
  {
    && p.velocity == old(p.velocity)
    && p.position == Plus(old(p.position), p.velocity)
    && p.life == old(p.life) - LifeDecay
    && p.opacity == p.life
    && p.color == old(p.color)
  }

  /** The lives of a list of particles, in list order. */
  ghost function Lives(ps: seq<Particle>): (ls: seq<real>)
    reads ps
    ensures |ls| == |ps|
    decreases |ps|
  {
    if ps == [] then [] else Lives(ps[..|ps| - 1]) + [ps[|ps| - 1].life]
  }

  /** Entry `i` of the lives is the life of particle `i`. */
  lemma {:induction false} LivesIndex(ps: seq<Particle>)
    ensures forall i :: 0 <= i < |ps| ==> Lives(ps)[i] == ps[i].life
    decreases |ps|
  {
    if ps != [] {
      LivesIndex(ps[..|ps| - 1]);
    }
  }

  /** The lives of a concatenation are the lives of its parts. */
  lemma LivesAppend(xs: seq<Particle>, ys: seq<Particle>)
    ensures Lives(xs + ys) == Lives(xs) + Lives(ys)
  {
    LivesIndex(xs);
    LivesIndex(ys);
    LivesIndex(xs + ys);
  }

  /** The entries of `xs` whose life in `lives` survives an update, in their
      original order. */
  function Kept<T>(xs: seq<T>, lives: seq<real>): (r: seq<T>)
    requires |xs| == |lives|
    ensures |r| <= |xs|
    decreases |xs|
  {
    if xs == [] then []
    else
      var n := |xs| - 1;
      Kept(xs[..n], lives[..n]) + (if SurvivesUpdate(lives[n]) then [xs[n]] else [])
  }

  /** The positions of the surviving lives, in increasing order. */
  function SurvivorIndices(lives: seq<real>): (idx: seq<nat>)
    ensures forall k :: 0 <= k < |idx| ==> idx[k] < |lives|
    decreases |lives|
  {
    if lives == [] then []
    else
      var n := |lives| - 1;
      SurvivorIndices(lives[..n]) + (if SurvivesUpdate(lives[n]) then [n] else [])
  }

  /** Pruning keeps exactly the surviving entries, in their original order:
      the k-th kept entry is the entry at the k-th surviving position, the
      positions increase, and a position is among them iff its life survives. */
  lemma {:induction false} KeptIsSurvivorsInOrder<T>(xs: seq<T>, lives: seq<real>)
    requires |xs| == |lives|
    ensures |Kept(xs, lives)| == |SurvivorIndices(lives)|
    ensures forall k :: 0 <= k < |SurvivorIndices(lives)| ==>
      Kept(xs, lives)[k] == xs[SurvivorIndices(lives)[k]]
    ensures forall k, m :: 0 <= k < m < |SurvivorIndices(lives)| ==>
      SurvivorIndices(lives)[k] < SurvivorIndices(lives)[m]
    ensures forall i :: 0 <= i < |lives| ==> (i in SurvivorIndices(lives) <==> SurvivesUpdate(lives[i]))
    decreases |xs|
  {
    if xs != [] {
      var n := |xs| - 1;
      var xs', lives' := xs[..n], lives[..n];
      KeptIsSurvivorsInOrder(xs', lives');
      var kept', idx' := Kept(xs', lives'), SurvivorIndices(lives');
      var kept, idx := Kept(xs, lives), SurvivorIndices(lives);
      assert kept == kept' + (if SurvivesUpdate(lives[n]) then [xs[n]] else []);
      assert idx == idx' + (if SurvivesUpdate(lives[n]) then [n] else []);
      forall k | 0 <= k < |idx| ensures kept[k] == xs[idx[k]] {
        if k < |idx'| {
          assert kept[k] == kept'[k] == xs'[idx'[k]];
        }
      }
      forall i | 0 <= i < |lives| ensures i in idx <==> SurvivesUpdate(lives[i]) {
        if i < n {
          assert lives'[i] == lives[i];
          assert i in idx <==> i in idx';
        } else {
          assert n !in idx';
        }
      }
    }
  }

  /** Pruning a list without repetitions leaves a list without repetitions. */
  lemma KeptDistinct<T>(xs: seq<T>, lives: seq<real>)
    requires |xs| == |lives| && Distinct(xs)
    ensures Distinct(Kept(xs, lives))
  {
    KeptIsSurvivorsInOrder(xs, lives);
    var kept, idx := Kept(xs, lives), SurvivorIndices(lives);
    forall k, m | 0 <= k < m < |kept| ensures kept[k] != kept[m] {
      assert idx[k] < idx[m];
    }
  }

  /** Pruning a concatenation prunes each part. */
  lemma {:induction false} KeptAppend<T>(xs: seq<T>, lives: seq<real>, ys: seq<T>, ylives: seq<real>)
    requires |xs| == |lives| && |ys| == |ylives|
    ensures Kept(xs + ys, lives + ylives) == Kept(xs, lives) + Kept(ys, ylives)
    decreases |ys|
  {
    if ys == [] {
      assert xs + ys == xs && lives + ylives == lives;
    } else {
      var n := |ys| - 1;
      KeptAppend(xs, lives, ys[..n], ylives[..n]);
      assert (xs + ys)[..|xs| + n] == xs + ys[..n];
      assert (lives + ylives)[..|lives| + n] == lives + ylives[..n];
      assert (xs + ys)[|xs| + n] == ys[n] && (lives + ylives)[|lives| + n] == ylives[n];
    }
  }

  /** A list whose every life survives is kept whole. */
  lemma {:induction false} KeptAllSurvive<T>(xs: seq<T>, lives: seq<real>)
    requires |xs| == |lives|
    requires forall i :: 0 <= i < |lives| ==> SurvivesUpdate(lives[i])
    ensures Kept(xs, lives) == xs
    decreases |xs|
  {
    if xs != [] {
      var n := |xs| - 1;
      KeptAllSurvive(xs[..n], lives[..n]);
      assert xs[..n] + [xs[n]] == xs;
    }
  }

  /** Pruning one entry further along a list. */
  lemma KeptStep<T>(xs: seq<T>, lives: seq<real>, i: nat)
    requires |xs| == |lives| && i < |xs|
    ensures Kept(xs[..i + 1], lives[..i + 1]) ==
      Kept(xs[..i], lives[..i]) + (if SurvivesUpdate(lives[i]) then [xs[i]] else [])
  {
    assert xs[..i + 1][..i] == xs[..i] && lives[..i + 1][..i] == lives[..i];
  }

  /** Pruning a list extended by entries that all survive keeps the pruned
      list followed by those entries. */
  lemma KeptExtended<T>(xs: seq<T>, lives: seq<real>, ys: seq<T>, ylives: seq<real>)
    requires |xs| == |lives| && |ys| == |ylives|
    requires forall i :: 0 <= i < |ylives| ==> SurvivesUpdate(ylives[i])
    ensures Kept(xs + ys, lives + ylives) == Kept(xs, lives) + ys
  {
    KeptAllSurvive(ys, ylives);
    KeptAppend(xs, lives, ys, ylives);
  }

  /** Particles at their initial life all survive the next pruning: they
      follow whatever survives of the list they are appended to. */
  lemma NewbornsSurvive(ps: seq<Particle>, born: seq<Particle>)
    requires forall k :: 0 <= k < |born| ==> born[k].life == InitialLife
    ensures Kept(ps + born, Lives(ps + born)) == Kept(ps, Lives(ps)) + born
  {
    var lives, bornLives := Lives(ps), Lives(born);
    LivesAppend(ps, born);
    LivesIndex(born);
    KeptExtended(ps, lives, born, bornLives);
  }

  /** The random draws one particle update may take: the exhaust particle's
      velocity, the dust roll, the dust offset and the dust particle's
      velocity. */
  datatype SpawnDraws = SpawnDraws(exhaust: Vec3, dustRoll: real, dustX: real, dustZ: real, dust: Vec3)

  predicate IsRandomSpawn(d: SpawnDraws) {
    IsRandomVec(d.exhaust) && IsRandom(d.dustRoll) && IsRandom(d.dustX) && IsRandom(d.dustZ) && IsRandomVec(d.dust)
  }

  /** How many particles a frame spawns: none while the car stands, the
      exhaust while it moves, and dust too when the roll exceeds 0.7. */
  function SpawnCount(speed: real, dustRoll: real): (n: nat)
    ensures n <= 2
    ensures n == 0 <==> speed == 0.0
    ensures n == 2 <==> speed != 0.0 && dustRoll > DustThreshold
  {
    if speed == 0.0 then 0 else if dustRoll > DustThreshold then 2 else 1
  }

  /** A particle spawned at `at` from `draw` this frame, after the update it
      receives in the same frame. */
  predicate FreshlyAged(p: Particle, at: Vec3, draw: Vec3, color: int)
    reads p
    requires IsRandomVec(draw)
  {
    && p.velocity == LaunchVelocity(draw)
    && p.position == Plus(at, p.velocity)
    && p.life == InitialLife - LifeDecay
    && p.opacity == p.life
    && p.color == color
  }

  /** What a frame spawns, as its particles stand when created: the exhaust
      particle first while the car moves, then the dust particle when the roll
      exceeds 0.7, each at full life and distinct. */
  ghost predicate Emitted(spawned: seq<Particle>, speed: real, car: Vec3, sinYaw: real, cosYaw: real, draws: SpawnDraws)
    reads spawned
    requires IsRandomSpawn(draws)
  {
    && |spawned| == SpawnCount(speed, draws.dustRoll)
    && Distinct(spawned)
    && (forall k :: 0 <= k < |spawned| ==> spawned[k].life == InitialLife)
    && (speed != 0.0 ==>
          spawned[0].position == ExhaustOrigin(car, sinYaw, cosYaw) &&
          spawned[0].velocity == LaunchVelocity(draws.exhaust) && spawned[0].color == SmokeColor)
    && (|spawned| == 2 ==>
          spawned[1].position == DustOrigin(car, draws.dustX, draws.dustZ) &&
          spawned[1].velocity == LaunchVelocity(draws.dust) && spawned[1].color == DustColor)
  }

  /** Creates the particles a frame spawns. */
  method Emit(speed: real, car: Vec3, sinYaw: real, cosYaw: real, draws: SpawnDraws)
    returns (spawned: seq<Particle>)
    requires IsRandomSpawn(draws)
    ensures Emitted(spawned, speed, car, sinYaw, cosYaw, draws)
    ensures forall k :: 0 <= k < |spawned| ==> fresh(spawned[k])
  {
    spawned := [];
    if speed != 0.0 {
      var exhaust := new Particle(ExhaustOrigin(car, sinYaw, cosYaw), draws.exhaust);
      spawned := [exhaust];
      if draws.dustRoll > DustThreshold {
        var dust := new Particle(DustOrigin(car, draws.dustX, draws.dustZ), draws.dust);
        dust.color := DustColor;
        spawned := spawned + [dust];
      }
    }
  }

  /** Updates every particle of a list once, in list order, and returns the
      ones still alive, in their order. */
  method UpdateAll(ps: seq<Particle>) returns (kept: seq<Particle>)
    requires Distinct(ps)
    modifies ps
    ensures kept == Kept(ps, old(Lives(ps)))
    ensures forall k :: 0 <= k < |ps| ==> Aged(ps[k])
  {
    ghost var lives := Lives(ps);
    LivesIndex(ps);
    kept := [];
    for i := 0 to |ps|
      modifies ps
      invariant kept == Kept(ps[..i], lives[..i])
      invariant forall k :: 0 <= k < i ==> Aged(ps[k])
      invariant forall k :: i <= k < |ps| ==> unchanged(ps[k])
    {
      KeptStep(ps, lives, i);
      assert ps[i].life == lives[i];
      var alive := ps[i].Update();
      if alive {
        kept := kept + [ps[i]];
      }
    }
    assert ps[..|ps|] == ps && lives[..|ps|] == lives;
  }

  class ParticleSystem {
    var particles: seq<Particle>

    ghost predicate Valid()
      reads this
    {
      Distinct(particles)
    }

    /** The particles the next pruning keeps. */
    ghost function Survivors(): seq<Particle>
      reads this, particles
    {
      Kept(particles, Lives(particles))
    }

    constructor ()
      ensures Valid() && particles == []
    {
      particles := [];
    }

    /** The filter pass: every particle is updated once, and the list is
        replaced by the particles still alive, in their original order. */
    method Prune()
      requires Valid()
      modifies this, particles
      ensures Valid()
      ensures particles == old(Survivors())
      ensures forall k :: 0 <= k < |old(particles)| ==> Aged(old(particles)[k])
    {
      ghost var lives := Lives(particles);
      var kept := UpdateAll(particles);
      KeptDistinct(particles, lives);
      particles := kept;
    }

    /** The spawning half of the per-frame pass: while the car moves, an
        exhaust particle behind it and, when the roll exceeds 0.7, a dust
        particle around it are appended to the list. */
    method Spawn(speed: real, car: Vec3, sinYaw: real, cosYaw: real, draws: SpawnDraws)
      returns (spawned: seq<Particle>)
      requires Valid() && IsRandomSpawn(draws)
      modifies this
      ensures Valid()
      ensures particles == old(particles) + spawned
      ensures Survivors() == old(Survivors()) + spawned
      ensures Emitted(spawned, speed, car, sinYaw, cosYaw, draws)
      ensures forall k :: 0 <= k < |spawned| ==> fresh(spawned[k])
    {
      spawned := Emit(speed, car, sinYaw, cosYaw, draws);
      ghost var old0 := particles;
      assert Lives(old0) == old(Lives(particles));
      particles := particles + spawned;
      DistinctConcat(old0, spawned);
      NewbornsSurvive(old0, spawned);
    }

    /** The per-frame particle pass: spawn, then prune. The survivors of the
        old list come first, in their order, and the particles spawned this
        frame after them, each already updated once. */
    method Update(speed: real, car: Vec3, sinYaw: real, cosYaw: real, draws: SpawnDraws)
      returns (ghost spawned: seq<Particle>)
      requires Valid() && IsRandomSpawn(draws)
      modifies this, particles
      ensures Valid()
      ensures particles == old(Survivors()) + spawned
      ensures forall k :: 0 <= k < |old(particles)| ==> Aged(old(particles)[k])
      ensures |spawned| == SpawnCount(speed, draws.dustRoll)
      ensures forall k :: 0 <= k < |spawned| ==> fresh(spawned[k])
      ensures speed != 0.0 ==>
        FreshlyAged(spawned[0], ExhaustOrigin(car, sinYaw, cosYaw), draws.exhaust, SmokeColor)
      ensures |spawned| == 2 ==>
        FreshlyAged(spawned[1], DustOrigin(car, draws.dustX, draws.dustZ), draws.dust, DustColor)
    {
      ghost var old0 := particles;
      var added := Spawn(speed, car, sinYaw, cosYaw, draws);
      spawned := added;
      assert forall p :: p in old0 ==> unchanged(p);
      label Pushed:
      PruneWithNewborns(spawned, speed, car, sinYaw, cosYaw, draws);
      forall k | 0 <= k < |old0| ensures Aged(old0[k]) {
        assert old@Pushed(particles)[k] == old0[k];
      }
    }

    /** The filter pass right after spawning: besides what `Prune` promises,
        the particles just emitted, at the end of the list, come out freshly
        aged. */
    method PruneWithNewborns(ghost born: seq<Particle>, speed: real, car: Vec3, sinYaw: real, cosYaw: real, draws: SpawnDraws)
      requires Valid() && IsRandomSpawn(draws)
      requires |born| <= |particles| && particles[|particles| - |born|..] == born
      requires Emitted(born, speed, car, sinYaw, cosYaw, draws)
      modifies this, particles
      ensures Valid()
      ensures particles == old(Survivors())
      ensures forall k :: 0 <= k < |old(particles)| ==> Aged(old(particles)[k])
      ensures speed != 0.0 ==>
        FreshlyAged(born[0], ExhaustOrigin(car, sinYaw, cosYaw), draws.exhaust, SmokeColor)
      ensures |born| == 2 ==>
        FreshlyAged(born[1], DustOrigin(car, draws.dustX, draws.dustZ), draws.dust, DustColor)
    {
      ghost var before := particles;
      Prune();
      forall k | 0 <= k < |born| ensures Aged(born[k]) {
        assert before[|before| - |born| + k] == born[k];
      }
    }
  }
}

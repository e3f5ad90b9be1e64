/** Values shared by the scene components: three-component vectors and the
    range of the browser's random number source. */
module Common {

  /** A position or velocity, as a THREE.Vector3 holds it. */
  datatype Vec3 = Vec3(x: real, y: real, z: real)

  /** Component-wise sum, the effect of `Vector3.add`. */
  function Plus(a: Vec3, b: Vec3): (r: Vec3)
    ensures r.x - a.x == b.x && r.y - a.y == b.y && r.z - a.z == b.z
  {
    Vec3(a.x + b.x, a.y + b.y, a.z + b.z)
  }

  /** `Math.random()` returns a value in [0, 1); every draw the model takes
      as a parameter is required to lie in that range. */
  predicate IsRandom(r: real) {
    0.0 <= r < 1.0
  }

  /** No entry occurs twice: the list holds distinct objects. */
  predicate Distinct<T(==)>(xs: seq<T>) {
    forall i, j :: 0 <= i < j < |xs| ==> xs[i] != xs[j]
  }

  /** Two lists without repetitions and without a common entry join into a
      list without repetitions. */
  lemma DistinctConcat<T>(xs: seq<T>, ys: seq<T>)
    requires Distinct(xs) && Distinct(ys)
    requires forall k :: 0 <= k < |ys| ==> ys[k] !in xs
    ensures Distinct(xs + ys)
  {
    var zs := xs + ys;
    forall i, j | 0 <= i < j < |zs| ensures zs[i] != zs[j] {
      if j >= |xs| {
        assert zs[j] == ys[j - |xs|];
        if i < |xs| {
          assert zs[i] in xs;
        }
      }
    }
  }

  /** Absolute value of a real. */
  function Abs(r: real): (a: real)
    ensures a >= 0.0 && (a == r || a == -r)
  {
    if r < 0.0 then -r else r
  }
}

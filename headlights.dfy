/** The car's headlights: two bulb meshes whose material glows when the
    lights are on, and two spotlights whose intensity is raised when they are
    on. The game keeps all four in one list, bulbs first, and a single
    `areLightsOn` flag. */
module Lighting {

  /** Spotlight intensity with the lights on and off. */
  const SpotOn: real := 2.0
  const SpotOff: real := 0.0
  /** Bulb emissive colour with the lights on and off. */
  const GlowOn: int := 0xffffcc
  const GlowOff: int := 0x000000

  /** The one field of each entry of the list that the toggle writes. */
  datatype Light = Bulb(emissive: int) | Spot(intensity: real)

  /** One entry as the toggle leaves it for the given flag. */
  function Lit(l: Light, on: bool): (r: Light)
    ensures r.Spot? == l.Spot?
    ensures r.Spot? ==> r.intensity == (if on then SpotOn else SpotOff)
    ensures r.Bulb? ==> r.emissive == (if on then GlowOn else GlowOff)
  {
    match l
    case Spot(_) => Spot(if on then SpotOn else SpotOff)
    case Bulb(_) => Bulb(if on then GlowOn else GlowOff)
  }

  /** The whole list as the toggle leaves it for the given flag. */
  function LitAll(ls: seq<Light>, on: bool): (r: seq<Light>)
    ensures |r| == |ls|
    ensures forall i :: 0 <= i < |ls| ==> r[i] == Lit(ls[i], on)
  {
    seq(|ls|, i requires 0 <= i < |ls| => Lit(ls[i], on))
  }

  /** Every entry shows the given flag. */
  predicate ShowsFlag(ls: seq<Light>, on: bool) {
    forall i :: 0 <= i < |ls| ==> ls[i] == Lit(ls[i], on)
  }

  /** Applying the flag leaves the list showing that flag; it only matters
      which flag was applied last. */
  lemma LitAllShowsFlag(ls: seq<Light>, on: bool, on': bool)
    ensures ShowsFlag(LitAll(ls, on), on)
    ensures LitAll(LitAll(ls, on'), on) == LitAll(ls, on)
  {
    var a := LitAll(ls, on);
    forall i | 0 <= i < |a| ensures a[i] == Lit(a[i], on) {
      assert a[i] == Lit(ls[i], on);
    }
    var b := LitAll(LitAll(ls, on'), on);
    assert |b| == |a|;
    forall i | 0 <= i < |b| ensures b[i] == a[i] {
      assert b[i] == Lit(Lit(ls[i], on'), on);
    }
  }

  /** A list that shows its flag is left as it was by two toggles. */
  lemma ToggleTwiceRestores(ls: seq<Light>, on: bool)
    requires ShowsFlag(ls, on)
    ensures LitAll(LitAll(ls, !on), on) == ls
  {
    LitAllShowsFlag(ls, on, !on);
    LitAllKeepsShown(ls, on);
  }

  /** A list that already shows the flag is not changed by applying it. */
  lemma LitAllKeepsShown(ls: seq<Light>, on: bool)
    requires ShowsFlag(ls, on)
    ensures LitAll(ls, on) == ls
  {
    var b := LitAll(ls, on);
    forall i | 0 <= i < |ls| ensures b[i] == ls[i] {
    }
  }

  class Headlights {
    var areLightsOn: bool
    const lights: array<Light>

    ghost predicate Valid()
      reads this, lights
    {
      ShowsFlag(lights[..], areLightsOn)
    }

    /** Two bulb meshes (left, right), then a spotlight for each, all dark. */
    constructor ()
      ensures Valid() && fresh(lights) && !areLightsOn
      ensures lights[..] == [Bulb(GlowOff), Bulb(GlowOff), Spot(SpotOff), Spot(SpotOff)]
    {
      areLightsOn := false;
      lights := new Light[4][Bulb(GlowOff), Bulb(GlowOff), Spot(SpotOff), Spot(SpotOff)];
    }

    /** Flips the flag and shows it on every entry of the list. */
    method Toggle()
      requires Valid()
      modifies this, lights
      ensures Valid()
      ensures areLightsOn == !old(areLightsOn)
      ensures lights[..] == LitAll(old(lights[..]), areLightsOn)
    {
      areLightsOn := !areLightsOn;
      for i := 0 to lights.Length
        modifies lights
        invariant forall k :: 0 <= k < i ==> lights[k] == Lit(old(lights[k]), areLightsOn)
        invariant forall k :: i <= k < lights.Length ==> lights[k] == old(lights[k])
      {
        lights[i] := Lit(lights[i], areLightsOn);
      }
      LitAllShowsFlag(old(lights[..]), areLightsOn, areLightsOn);
    }
  }
}

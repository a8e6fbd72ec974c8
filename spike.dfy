/**
 * signals/perturbations/spike_perturbation.py: a spike centred at `position`.
 * Every evaluation draws X ~ N(strength, 0.15·strength); the spike returns X
 * within width/2 of its position and 0.1·X elsewhere.
 */
module Spike {

  import opened Values
  import opened Parameters
  import Perturbation

  /**
   * `construct_function`, run after the window is set: warns when a given
   * `position` lies outside [t0, t0 + support], then sets `_width` (default
   * 0.3) and `_position` (default 0.8).
   */
  function Build(b: Built, kw: seq<(string, Value)>): Built
    requires AllNumeric(kw) && "_t0" in b.attrs && "_support" in b.attrs
  {
    var w := if Lookup(kw, "position").Some? && Perturbation.InSupport(b.attrs, Lookup(kw, "position").value) == Ok(false)
             then [PositionOutsideSupport] else [];
    var b1 := Built(b.attrs, b.warnings + w);
    var b2 := SetParam(b1, kw, "_width", "width", PyFloat(0.3));
    SetParam(b2, kw, "_position", "position", PyFloat(0.8))
  }

  /**
   * The position warning is given exactly when a position is supplied outside
   * the closed window; the position is stored all the same.
   */
  lemma BuildPosition(b: Built, kw: seq<(string, Value)>)
    requires AllNumeric(kw) && "_t0" in b.attrs && "_support" in b.attrs && PositionOutsideSupport !in b.warnings
    ensures var r := Build(b, kw);
      var t0, s := RealOf(b.attrs["_t0"]), RealOf(b.attrs["_support"]);
      && (PositionOutsideSupport in r.warnings <==>
            Lookup(kw, "position").Some? && !(t0 <= RealOf(Lookup(kw, "position").value) <= t0 + s))
      && r.attrs == b.attrs["_width" := Param(kw, "width", PyFloat(0.3))]["_position" := Param(kw, "position", PyFloat(0.8))]
  {
    var r := Build(b, kw);
    if Lookup(kw, "position").Some? {
      LookupNumeric(kw, "position");
    }
  }

  /**
   * `perturbation_function(t)`: compares t with the peak band, draws once from
   * N(strength, 0.15·strength) and scales by 0.1 off the band.
   */
  function Magnitude(attrs: map<string, Number>, t: real, env: Env, k: nat): (r: (Result<real>, nat))
    ensures "_position" in attrs && "_width" in attrs && "_strength" in attrs ==>
      var pos, width, s := RealOf(attrs["_position"]), RealOf(attrs["_width"]), RealOf(attrs["_strength"]);
      var x := Draw(s, s * 0.15, env, k);
      && r.1 == x.1
      && (x.0.Err? ==> r.0 == x.0)
      && (x.0.Ok? ==> r.0.Ok? && r.0.value == (if Peak(t, pos, width) then x.0.value else x.0.value * 0.1))
  {
    if Get(attrs, "_position").Err? then (Err(Get(attrs, "_position").error), k)
    else if Get(attrs, "_width").Err? then (Err(Get(attrs, "_width").error), k)
    else if Get(attrs, "_strength").Err? then (Err(Get(attrs, "_strength").error), k)
    else
      var s := Get(attrs, "_strength").value;
      var x := Draw(s, s * 0.15, env, k);
      if x.0.Err? then x
      else if Peak(t, Get(attrs, "_position").value, Get(attrs, "_width").value) then x
      else (Ok(x.0.value * 0.1), x.1)
  }

  /** `abs(t - position) < width / 2`: strict, so the band's edges are off the peak. */
  predicate Peak(t: real, pos: real, width: real) {
    (if t - pos < 0.0 then pos - t else t - pos) < width / 2.0
  }

  /** `calculate(t)` of a spike after the time check: the magnitude masked by the open window. */
  function Value(attrs: map<string, Number>, t: real, env: Env, k: nat): (Result<real>, nat) {
    Perturbation.Combine(attrs, t, Magnitude(attrs, t, env, k))
  }

  /**
   * A spike with a negative strength cannot be evaluated: numpy refuses the
   * negative scale and nothing is drawn.
   */
  lemma NegativeStrength(attrs: map<string, Number>, t: real, env: Env, k: nat)
    requires "_position" in attrs && "_width" in attrs && "_strength" in attrs
    requires RealOf(attrs["_strength"]) < 0.0
    ensures Value(attrs, t, env, k) == (Err(NegativeScale), k)
  {
  }

  /**
   * A spike draws one number at every evaluation, inside its window or not,
   * and outside the open window its value is 0.
   */
  lemma OutsideWindow(attrs: map<string, Number>, t: real, env: Env, k: nat)
    requires "_position" in attrs && "_width" in attrs && "_strength" in attrs && "_t0" in attrs && "_support" in attrs
    requires RealOf(attrs["_strength"]) >= 0.0
    requires t <= RealOf(attrs["_t0"]) || t >= RealOf(attrs["_t0"]) + RealOf(attrs["_support"])
    ensures Value(attrs, t, env, k) == (Ok(0.0), k + 1)
  {
    Perturbation.CombineOutside(attrs, t, Magnitude(attrs, t, env, k));
  }

  /** The number the spike draws at stream position k: N(s, 0.15·s) as s + 0.15·s·z. */
  function Drawn(s: real, env: Env, k: nat): real {
    s + s * 0.15 * env.gauss(k)
  }

  /**
   * When the draw lies within 40% of a positive strength s, an in-window value
   * lies in [0.6s, 1.4s] on the peak band and in [0.06s, 0.14s] elsewhere.
   */
  lemma Bands(attrs: map<string, Number>, t: real, env: Env, k: nat)
    requires "_position" in attrs && "_width" in attrs && "_strength" in attrs && "_t0" in attrs && "_support" in attrs
    requires RealOf(attrs["_strength"]) > 0.0
    requires RealOf(attrs["_t0"]) < t < RealOf(attrs["_t0"]) + RealOf(attrs["_support"])
    requires var s := RealOf(attrs["_strength"]);
      0.6 * s <= Drawn(s, env, k) <= 1.4 * s
    ensures var s := RealOf(attrs["_strength"]);
      var v := Value(attrs, t, env, k);
      && v.0.Ok? && v.1 == k + 1
      && (Peak(t, RealOf(attrs["_position"]), RealOf(attrs["_width"])) ==> 0.6 * s <= v.0.value <= 1.4 * s)
      && (!Peak(t, RealOf(attrs["_position"]), RealOf(attrs["_width"])) ==> 0.06 * s <= v.0.value <= 0.14 * s)
  {
    var s := RealOf(attrs["_strength"]);
    var m := Magnitude(attrs, t, env, k);
    assert m.1 == k + 1 && m.0.Ok?;
    assert m.0.value == if Peak(t, RealOf(attrs["_position"]), RealOf(attrs["_width"])) then Drawn(s, env, k) else Drawn(s, env, k) * 0.1;
  }
}

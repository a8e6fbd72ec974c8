/**
 * src/signals/perturbations/step_perturbation.py: a step at time `step`.
 * Every evaluation draws X ~ N(strength, 0.05·strength); the step returns
 * -X·direction before `step` and X·direction from `step` on.
 */
module Step {

  import opened Values
  import opened Parameters
  import Perturbation

  /**
   * `construct_function`, run after the window is set: warns when a given
   * `step` lies outside [t0, t0 + support], then sets `_step` (default 1) and
   * `_direction` from the keyword `dir` (default 1).
   */
  function Build(b: Built, kw: seq<(string, Value)>): Built
    requires AllNumeric(kw) && "_t0" in b.attrs && "_support" in b.attrs
  {
    var w := if Lookup(kw, "step").Some? && Perturbation.InSupport(b.attrs, Lookup(kw, "step").value) != Ok(true)
             then [StepOutsideSupport] else [];
    var b1 := Built(b.attrs, b.warnings + w);
    var b2 := SetParam(b1, kw, "_step", "step", PyInt(1));
    SetParam(b2, kw, "_direction", "dir", PyInt(1))
  }

  /**
   * The step warning is given exactly when a step is supplied outside the
   * closed window; the step is stored all the same, and the direction comes
   * from `dir`, not from `direction`.
   */
  lemma BuildStep(b: Built, kw: seq<(string, Value)>)
    requires AllNumeric(kw) && "_t0" in b.attrs && "_support" in b.attrs && StepOutsideSupport !in b.warnings
    ensures var r := Build(b, kw);
      var t0, s := RealOf(b.attrs["_t0"]), RealOf(b.attrs["_support"]);
      && (StepOutsideSupport in r.warnings <==>
            Lookup(kw, "step").Some? && !(t0 <= RealOf(Lookup(kw, "step").value) <= t0 + s))
      && r.attrs == b.attrs["_step" := Param(kw, "step", PyInt(1))]["_direction" := Param(kw, "dir", PyInt(1))]
  {
    if Lookup(kw, "step").Some? {
      LookupNumeric(kw, "step");
    }
  }

  /** The number the step draws at stream position k: N(s, 0.05·s) as s + 0.05·s·z. */
  function Drawn(s: real, env: Env, k: nat): real {
    s + s * 0.05 * env.gauss(k)
  }

  /**
   * `perturbation_function(t)`: draws first, then reads `_step` and
   * `_direction`, so a missing one fails after the draw.
   */
  function Magnitude(attrs: map<string, Number>, t: real, env: Env, k: nat): (r: (Result<real>, nat))
    ensures "_strength" in attrs && RealOf(attrs["_strength"]) < 0.0 ==> r == (Err(NegativeScale), k)
    ensures "_step" in attrs && "_direction" in attrs && "_strength" in attrs && RealOf(attrs["_strength"]) >= 0.0 ==>
      var x := Draw(RealOf(attrs["_strength"]), RealOf(attrs["_strength"]) * 0.05, env, k).0.value;
      r == (Ok(Oriented(t, RealOf(attrs["_step"]), x, RealOf(attrs["_direction"]))), k + 1)
  {
    if Get(attrs, "_strength").Err? then (Err(Get(attrs, "_strength").error), k)
    else
      match Draw(Get(attrs, "_strength").value, Get(attrs, "_strength").value * 0.05, env, k)
      case (Err(e), k') => (Err(e), k')
      case (Ok(x), k') =>
        if Get(attrs, "_step").Err? then (Err(Get(attrs, "_step").error), k')
        else if Get(attrs, "_direction").Err? then (Err(Get(attrs, "_direction").error), k')
        else (Ok(Oriented(t, Get(attrs, "_step").value, x, Get(attrs, "_direction").value)), k')
  }

  /** The drawn number x, negated before the step, times the direction. */
  function Oriented(t: real, step: real, x: real, direction: real): real {
    (if t < step then -x else x) * direction
  }

  /** `calculate(t)` of a step after the time check: the magnitude masked by the open window. */
  function Value(attrs: map<string, Number>, t: real, env: Env, k: nat): (Result<real>, nat) {
    Perturbation.Combine(attrs, t, Magnitude(attrs, t, env, k))
  }

  /** A step draws one number at every evaluation, and outside the open window its value is 0. */
  lemma OutsideWindow(attrs: map<string, Number>, t: real, env: Env, k: nat)
    requires "_step" in attrs && "_direction" in attrs && "_strength" in attrs && "_t0" in attrs && "_support" in attrs
    requires RealOf(attrs["_strength"]) >= 0.0
    requires t <= RealOf(attrs["_t0"]) || t >= RealOf(attrs["_t0"]) + RealOf(attrs["_support"])
    ensures Value(attrs, t, env, k) == (Ok(0.0), k + 1)
  {
    Perturbation.CombineOutside(attrs, t, Magnitude(attrs, t, env, k));
  }

  /**
   * Inside the open window a step with a non-negative strength yields the
   * oriented draw: negated before the step, times the direction.
   */
  lemma InWindow(attrs: map<string, Number>, t: real, env: Env, k: nat)
    requires "_step" in attrs && "_direction" in attrs && "_strength" in attrs && "_t0" in attrs && "_support" in attrs
    requires RealOf(attrs["_strength"]) >= 0.0
    requires RealOf(attrs["_t0"]) < t < RealOf(attrs["_t0"]) + RealOf(attrs["_support"])
    ensures Value(attrs, t, env, k)
         == (Ok(Oriented(t, RealOf(attrs["_step"]), Drawn(RealOf(attrs["_strength"]), env, k), RealOf(attrs["_direction"]))), k + 1)
  {
    var s := RealOf(attrs["_strength"]);
    assert Draw(s, s * 0.05, env, k).0.value == Drawn(s, env, k);
  }

  /**
   * When the draw x lies within 30% of a positive strength s, the oriented value
   * has magnitude within 30% of s·|direction|; for a positive direction it is
   * negative exactly before the step, for a negative direction exactly from the
   * step on.
   */
  lemma Bands(t: real, step: real, x: real, direction: real, s: real)
    requires s > 0.0 && 0.7 * s <= x <= 1.3 * s
    ensures var sign := if t < step then -direction else direction;
      && (sign > 0.0 ==> 0.7 * s * sign <= Oriented(t, step, x, direction) <= 1.3 * s * sign)
      && (sign < 0.0 ==> 1.3 * s * sign <= Oriented(t, step, x, direction) <= 0.7 * s * sign)
      && (sign == 0.0 ==> Oriented(t, step, x, direction) == 0.0)
      && (direction > 0.0 ==> (Oriented(t, step, x, direction) < 0.0 <==> t < step))
      && (direction < 0.0 ==> (Oriented(t, step, x, direction) < 0.0 <==> t >= step))
  {
    var sign := if t < step then -direction else direction;
    assert Oriented(t, step, x, direction) == x * sign by {
      assert (-x) * direction == x * (-direction);
    }
    Scale(0.7 * s, x, 1.3 * s, sign);
    assert 0.7 * s > 0.0;
    if sign > 0.0 {
      assert 0.7 * s * sign > 0.0;
    } else if sign < 0.0 {
      assert 0.7 * s * sign < 0.0;
    }
  }

  /** Multiplying a range by a number keeps it a range, flipped for a negative factor. */
  lemma Scale(lo: real, x: real, hi: real, c: real)
    requires lo <= x <= hi
    ensures c > 0.0 ==> lo * c <= x * c <= hi * c
    ensures c < 0.0 ==> hi * c <= x * c <= lo * c
    ensures c == 0.0 ==> x * c == 0.0
  {
    if c > 0.0 {
      assert (x - lo) * c >= 0.0 && (hi - x) * c >= 0.0;
    } else if c < 0.0 {
      assert (x - lo) * (-c) >= 0.0 && (hi - x) * (-c) >= 0.0;
    }
  }
}

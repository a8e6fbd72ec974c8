/**
 * signals/perturbations/perturbation.py: the support window shared by every
 * perturbation. A perturbation may act only strictly inside its window
 * (t0, t0 + support); its own position parameters are checked against the
 * closed window [t0, t0 + support].
 */
module Perturbation {

  import opened Values
  import opened Parameters

  /** `set_base_parameters`: `_t0` (default 0.5), `_support` (default 0.25), `_strength` (default 1). */
  function BuildBase(b: Built, kw: seq<(string, Value)>): (r: Built)
    requires AllNumeric(kw)
    ensures "_t0" in r.attrs && "_support" in r.attrs && "_strength" in r.attrs
    ensures r.attrs.Keys == b.attrs.Keys + {"_t0", "_support", "_strength"}
    ensures r.attrs == b.attrs["_t0" := Param(kw, "t0", PyFloat(0.5))]["_support" := Param(kw, "support", PyFloat(0.25))]
                              ["_strength" := Param(kw, "strength", PyInt(1))]
    ensures forall a :: a in b.attrs && a !in {"_t0", "_support", "_strength"} ==> r.attrs[a] == b.attrs[a]
    ensures r.warnings == b.warnings + Defaulted(kw, "t0", PyFloat(0.5)) + Defaulted(kw, "support", PyFloat(0.25))
                          + Defaulted(kw, "strength", PyInt(1))
  {
    var b1 := SetParam(b, kw, "_t0", "t0", PyFloat(0.5));
    var b2 := SetParam(b1, kw, "_support", "support", PyFloat(0.25));
    SetParam(b2, kw, "_strength", "strength", PyInt(1))
  }

  /** Without keywords the window is (0.5, 0.75) with strength 1, and each default is warned about. */
  lemma BuildBaseDefaults()
    ensures var b := BuildBase(Built(map[], []), []);
      && b.attrs == map["_t0" := PyFloat(0.5), "_support" := PyFloat(0.25), "_strength" := PyInt(1)]
      && b.warnings == [DefaultUsed("t0", PyFloat(0.5)), DefaultUsed("support", PyFloat(0.25)), DefaultUsed("strength", PyInt(1))]
  {
  }

  /**
   * `check_parameter_in_support(x)`: TypeError unless x is an int or a float,
   * otherwise whether x lies in the closed window [t0, t0 + support]. The
   * test stops at `t0 <= x` when that fails, so `_support` is read only for x >= t0.
   */
  function InSupport(attrs: map<string, Number>, x: Value): (r: Result<bool>)
    ensures !IsNumeric(x) ==> r == Err(ArgumentNotNumeric)
    ensures IsNumeric(x) && "_t0" in attrs && "_support" in attrs ==>
      r.Ok? && (r.value <==> RealOf(attrs["_t0"]) <= RealOf(x) <= RealOf(attrs["_t0"]) + RealOf(attrs["_support"]))
    ensures IsNumeric(x) && "_t0" in attrs && RealOf(x) < RealOf(attrs["_t0"]) ==> r == Ok(false)
  {
    if !IsNumeric(x) then Err(ArgumentNotNumeric)
    else if Get(attrs, "_t0").Err? then Err(Get(attrs, "_t0").error)
    else if !(Get(attrs, "_t0").value <= RealOf(x)) then Ok(false)
    else if Get(attrs, "_support").Err? then Err(Get(attrs, "_support").error)
    else Ok(RealOf(x) <= Get(attrs, "_t0").value + Get(attrs, "_support").value)
  }

  /**
   * `_char_of_support(t)`: 1 strictly inside the window, 0 otherwise. The
   * test stops at `t > t0` when that fails, so `_support` is read only for t > t0.
   */
  function Indicator(attrs: map<string, Number>, t: real): (r: Result<real>)
    ensures "_t0" in attrs && "_support" in attrs ==>
      r.Ok? && (r.value == 1.0 <==> RealOf(attrs["_t0"]) < t < RealOf(attrs["_t0"]) + RealOf(attrs["_support"]))
    ensures r.Ok? ==> r.value == 0.0 || r.value == 1.0
  {
    if Get(attrs, "_t0").Err? then Err(Get(attrs, "_t0").error)
    else if !(t > Get(attrs, "_t0").value) then Ok(0.0)
    else if Get(attrs, "_support").Err? then Err(Get(attrs, "_support").error)
    else if t < Get(attrs, "_t0").value + Get(attrs, "_support").value then Ok(1.0)
    else Ok(0.0)
  }

  /**
   * The activation window is the closed support window without its two end
   * points: where a number is in support but inactive, it is t0 or t0 + support.
   */
  lemma IndicatorWithinSupport(attrs: map<string, Number>, t: real)
    requires "_t0" in attrs && "_support" in attrs
    ensures Indicator(attrs, t) == Ok(1.0) ==> InSupport(attrs, PyFloat(t)) == Ok(true)
    ensures InSupport(attrs, PyFloat(t)) == Ok(true) && Indicator(attrs, t) == Ok(0.0) ==>
      t == RealOf(attrs["_t0"]) || t == RealOf(attrs["_t0"]) + RealOf(attrs["_support"])
  {
  }

  /**
   * `calculate(t)` after its time check: `perturbation_function(t)` runs first
   * (and may draw), then its value is multiplied by the indicator. The pair
   * holds the result and the position of the random stream afterwards.
   */
  function Combine(attrs: map<string, Number>, t: real, m: (Result<real>, nat)): (r: (Result<real>, nat))
    ensures r.1 == m.1
    ensures m.0.Err? ==> r.0 == m.0
    ensures m.0.Ok? && "_t0" in attrs && "_support" in attrs ==>
      r.0.Ok? && r.0.value == (if RealOf(attrs["_t0"]) < t < RealOf(attrs["_t0"]) + RealOf(attrs["_support"]) then m.0.value else 0.0)
  {
    if m.0.Err? then m
    else
      match Indicator(attrs, t)
      case Err(e) => (Err(e), m.1)
      case Ok(c) => (Ok(m.0.value * c), m.1)
  }

  /**
   * Outside the open window a perturbation contributes exactly 0 whatever its
   * magnitude, and the stream still advances by whatever the magnitude drew.
   */
  lemma CombineOutside(attrs: map<string, Number>, t: real, m: (Result<real>, nat))
    requires "_t0" in attrs && "_support" in attrs && m.0.Ok?
    requires t <= RealOf(attrs["_t0"]) || t >= RealOf(attrs["_t0"]) + RealOf(attrs["_support"])
    ensures Combine(attrs, t, m) == (Ok(0.0), m.1)
  {
  }

  /** `perturbation_function(t)` of the base class: the strength, with no draw. */
  function Magnitude(attrs: map<string, Number>, k: nat): (r: (Result<real>, nat))
    ensures r.1 == k
    ensures "_strength" in attrs ==> r.0 == Ok(RealOf(attrs["_strength"]))
    ensures "_strength" !in attrs ==> r.0 == Err(MissingAttribute("_strength"))
  {
    (Get(attrs, "_strength"), k)
  }

  /** The default perturbation is 1 strictly inside (0.5, 0.75) and 0 everywhere else. */
  lemma DefaultWindow(t: real, k: nat)
    ensures var attrs := BuildBase(Built(map[], []), []).attrs;
      Combine(attrs, t, Magnitude(attrs, k)) == (Ok(if 0.5 < t < 0.75 then 1.0 else 0.0), k)
  {
    BuildBaseDefaults();
  }
}

/**
 * signals/functions/function.py and the constructors built on it: a numeric
 * function is an object whose attributes hold its parameters. `Function`
 * models every Python class of the hierarchy at once (the plain `Function`,
 * `BaseLine`, `Noise`, `Perturbation`, `SpikePerturbation` and
 * `StepPerturbation`); `kind` says which, and `attrs` is the instance
 * dictionary the constructors fill in place.
 */
module Functions {

  import opened Values
  import opened Parameters
  import BaseLine
  import Noise
  import Perturbation
  import Spike
  import Step

  /** The Python class of a numeric function. */
  datatype Kind = PlainFunction | BaseLineKind | NoiseKind | PerturbationKind | SpikeKind | StepKind {
    /** The classes derived from `Perturbation`, whose constructors set the window first. */
    predicate IsPerturbation() {
      PerturbationKind? || SpikeKind? || StepKind?
    }
  }

  /** The channel `warnings.warn` writes to. */
  class Diagnostics {
    var log: seq<Warning>

    constructor()
      ensures log == []
    {
      log := [];
    }

    /** `warnings.warn(w)` */
    method Warn(w: Warning)
      modifies this
      ensures log == old(log) + [w]
    {
      log := log + [w];
    }
  }

  /**
   * The attributes and warnings `construct_function` of each class adds to b.
   * The plain class (and `Perturbation`, which inherits it) copies every
   * keyword under its own name; a keyword is always present, so no default is
   * used and nothing is warned.
   */
  function Constructed(kind: Kind, b: Built, kw: seq<(string, Value)>): Built
    requires AllNumeric(kw)
    requires kind.IsPerturbation() ==> "_t0" in b.attrs && "_support" in b.attrs
  {
    match kind
    case PlainFunction => Built(b.attrs + AsMap(kw), b.warnings)
    case PerturbationKind => Built(b.attrs + AsMap(kw), b.warnings)
    case BaseLineKind => BaseLine.Build(b, kw)
    case NoiseKind => Noise.Build(b, kw)
    case SpikeKind => Spike.Build(b, kw)
    case StepKind => Step.Build(b, kw)
  }

  /** What `__init__` does once the keywords are known to be numeric: window first for perturbations, then `construct_function`. */
  function Construct(kind: Kind, b: Built, kw: seq<(string, Value)>): Built
    requires AllNumeric(kw)
  {
    if kind.IsPerturbation() then Constructed(kind, Perturbation.BuildBase(b, kw), kw)
    else Constructed(kind, b, kw)
  }

  /**
   * `calculate(t)` of each class on an attribute dictionary; the pair holds the
   * result and the position of the random stream afterwards. The plain class
   * returns 0 for any argument at all; perturbations accept numpy scalars as
   * times, baselines and noises only ints and floats.
   */
  function CalculateOn(kind: Kind, attrs: map<string, Number>, t: Value, env: Env, k: nat): (Result<real>, nat) {
    match kind
    case PlainFunction => (Ok(0.0), k)
    case BaseLineKind => (BaseLine.Calculate(attrs, t, env.sin), k)
    case NoiseKind => Noise.Calculate(attrs, t, env, k)
    case PerturbationKind =>
      if !IsTime(t) then (Err(ArgumentNotNumeric), k)
      else Perturbation.Combine(attrs, RealOf(t), Perturbation.Magnitude(attrs, k))
    case SpikeKind =>
      if !IsTime(t) then (Err(ArgumentNotNumeric), k) else Spike.Value(attrs, RealOf(t), env, k)
    case StepKind =>
      if !IsTime(t) then (Err(ArgumentNotNumeric), k) else Step.Value(attrs, RealOf(t), env, k)
  }

  /**
   * The time check of each class: which arguments raise TypeError before
   * anything is read or drawn.
   */
  lemma TimeCheck(kind: Kind, attrs: map<string, Number>, t: Value, env: Env, k: nat)
    ensures kind.PlainFunction? ==> CalculateOn(kind, attrs, t, env, k) == (Ok(0.0), k)
    ensures kind.IsPerturbation() && !IsTime(t) ==> CalculateOn(kind, attrs, t, env, k) == (Err(ArgumentNotNumeric), k)
    ensures (kind.BaseLineKind? || kind.NoiseKind?) && !IsNumeric(t) ==> CalculateOn(kind, attrs, t, env, k) == (Err(ArgumentNotNumeric), k)
  {
  }

  /** The stream advances by at most one draw per evaluation. */
  lemma AtMostOneDraw(kind: Kind, attrs: map<string, Number>, t: Value, env: Env, k: nat)
    ensures var r := CalculateOn(kind, attrs, t, env, k);
      r.1 == k || r.1 == k + 1
    ensures kind.PlainFunction? || kind.BaseLineKind? || kind.PerturbationKind? ==> CalculateOn(kind, attrs, t, env, k).1 == k
  {
    if kind.SpikeKind? && IsTime(t) {
      var m := Spike.Magnitude(attrs, RealOf(t), env, k);
      assert m.1 == k || m.1 == k + 1;
    }
    if kind.StepKind? && IsTime(t) {
      var m := Step.Magnitude(attrs, RealOf(t), env, k);
      assert m.1 == k || m.1 == k + 1;
    }
  }

  /** The plain class stores exactly its keywords: `Function(param1=5, param2=3).__dict__ == {'param1': 5, 'param2': 3}`. */
  lemma PlainAttributes(kw: seq<(string, Value)>, key: string)
    requires AllNumeric(kw) && DistinctKeys(kw)
    ensures var b := Construct(PlainFunction, Built(map[], []), kw);
      && b.warnings == []
      && (key in b.attrs <==> Lookup(kw, key).Some?)
      && (key in b.attrs ==> b.attrs[key] == Lookup(kw, key).value)
  {
    assert map[] + AsMap(kw) == AsMap(kw);
    AsMapIsDict(kw, key);
  }

  /**
   * The base `Perturbation` keeps its window attributes and also stores every
   * keyword under its own name; a keyword named like a window attribute
   * overrides it, because the keywords are stored last.
   */
  lemma PerturbationAttributes(kw: seq<(string, Value)>, key: string)
    requires AllNumeric(kw) && DistinctKeys(kw)
    ensures var b := Construct(PerturbationKind, Built(map[], []), kw);
      var base := Perturbation.BuildBase(Built(map[], []), kw);
      && b.warnings == base.warnings
      && (Lookup(kw, key).Some? ==> key in b.attrs && b.attrs[key] == Lookup(kw, key).value)
      && (Lookup(kw, key).None? ==> (key in b.attrs <==> key in base.attrs) && (key in b.attrs ==> b.attrs[key] == base.attrs[key]))
  {
    AsMapIsDict(kw, key);
  }

  /** The default `Perturbation()` is 1 strictly inside (0.5, 0.75) and 0 elsewhere, and draws nothing. */
  lemma DefaultPerturbation(t: Value, env: Env, k: nat)
    requires IsTime(t)
    ensures CalculateOn(PerturbationKind, Construct(PerturbationKind, Built(map[], []), []).attrs, t, env, k)
         == (Ok(if 0.5 < RealOf(t) < 0.75 then 1.0 else 0.0), k)
  {
    var attrs := Construct(PerturbationKind, Built(map[], []), []).attrs;
    var base := Perturbation.BuildBase(Built(map[], []), []).attrs;
    assert attrs == base by {
      assert AsMap([]) == map[];
    }
    Perturbation.DefaultWindow(RealOf(t), k);
  }

  /** A numeric function: one object of one of the six classes, with its attribute dictionary. */
  class Function {
    const kind: Kind
    var attrs: map<string, Number>

    /** The object before `__init__` runs: no attributes yet. */
    constructor Empty(kind: Kind)
      ensures this.kind == kind && attrs == map[]
    {
      this.kind := kind;
      attrs := map[];
    }

    /**
     * `Cls(**kw)`: allocates the object and runs `__init__`; a non-numeric
     * keyword raises TypeError naming every offending key, and no object results.
     */
    static method New(kind: Kind, kw: Kwargs, diag: Diagnostics) returns (r: Result<Function>)
      modifies diag
      ensures !AllNumeric(kw) <==> r.Err?
      ensures r.Err? ==> r.error == NonNumericParameters(NonNumericKeys(kw)) && diag.log == old(diag.log)
      ensures r.Ok? ==> (fresh(r.value) && r.value.kind == kind
        && Built(r.value.attrs, diag.log) == Construct(kind, Built(map[], old(diag.log)), kw))
    {
      var f := new Function.Empty(kind);
      var init := f.Init(kw, diag);
      if init.Err? {
        return Err(init.error);
      }
      return Ok(f);
    }

    /**
     * `__init__(**kw)`: reports every non-numeric keyword as one TypeError
     * before assigning anything; otherwise perturbations set their window and
     * then every class runs its `construct_function`.
     */
    method Init(kw: Kwargs, diag: Diagnostics) returns (r: Result<()>)
      modifies this, diag
      ensures !AllNumeric(kw) ==> (r == Err(NonNumericParameters(NonNumericKeys(kw)))
        && attrs == old(attrs) && diag.log == old(diag.log))
      ensures AllNumeric(kw) ==> (r == Ok(())
        && Built(attrs, diag.log) == Construct(kind, Built(old(attrs), old(diag.log)), kw))
    {
      var wrong := CheckNumeric(kw);
      NonNumericKeysEmpty(kw);
      if wrong.Some? {
        return Err(NonNumericParameters(wrong.value));
      }
      if kind.IsPerturbation() {
        SetBaseParameters(kw, diag);
      }
      ConstructFunction(kw, diag);
      return Ok(());
    }

    /**
     * `check_numeric(kw)`: None when every value is an int or a float,
     * otherwise the offending keys in keyword order.
     */
    static method CheckNumeric(kw: seq<(string, Value)>) returns (r: Option<seq<string>>)
      ensures r.None? <==> NonNumericKeys(kw) == []
      ensures r.Some? ==> r.value == NonNumericKeys(kw)
    {
      var wrong: seq<string> := [];
      var i := 0;
      while i < |kw|
        invariant 0 <= i <= |kw|
        invariant wrong == NonNumericKeys(kw[..i])
      {
        NonNumericKeysAppend(kw[..i], [kw[i]]);
        assert kw[..i + 1] == kw[..i] + [kw[i]];
        if !IsNumeric(kw[i].1) {
          wrong := wrong + [kw[i].0];
        }
        i := i + 1;
      }
      assert kw[..|kw|] == kw;
      if |wrong| == 0 {
        return None;
      }
      return Some(wrong);
    }

    /**
     * `set_parameter(kw, attr, key, default)`: stores the keyword's value under
     * attr; an absent key stores the default and warns; a non-numeric value
     * raises TypeError and stores nothing.
     */
    method SetParameter(kw: Kwargs, attr: string, key: string, default: Number, diag: Diagnostics) returns (r: Result<()>)
      modifies this, diag
      ensures Lookup(kw, key).None? ==> (r == Ok(())
        && attrs == old(attrs)[attr := default] && diag.log == old(diag.log) + [DefaultUsed(key, default)])
      ensures Lookup(kw, key).Some? && !IsNumeric(Lookup(kw, key).value) ==> (r == Err(ParameterNotNumeric(key))
        && attrs == old(attrs) && diag.log == old(diag.log))
      ensures Lookup(kw, key).Some? && IsNumeric(Lookup(kw, key).value) ==> (r == Ok(())
        && attrs == old(attrs)[attr := Lookup(kw, key).value] && diag.log == old(diag.log))
      ensures AllNumeric(kw) ==> Built(attrs, diag.log) == SetParam(Built(old(attrs), old(diag.log)), kw, attr, key, default)
    {
      var v := Lookup(kw, key);
      if v.None? {
        diag.Warn(DefaultUsed(key, default));
        attrs := attrs[attr := default];
        return Ok(());
      }
      if !IsNumeric(v.value) {
        return Err(ParameterNotNumeric(key));
      }
      attrs := attrs[attr := v.value];
      return Ok(());
    }

    /** `set_base_parameters(kw)`: the window `_t0`, `_support` and `_strength`. */
    method SetBaseParameters(kw: Kwargs, diag: Diagnostics)
      requires AllNumeric(kw)
      modifies this, diag
      ensures Built(attrs, diag.log) == Perturbation.BuildBase(Built(old(attrs), old(diag.log)), kw)
    {
      var _ := SetParameter(kw, "_t0", "t0", PyFloat(0.5), diag);
      var _ := SetParameter(kw, "_support", "support", PyFloat(0.25), diag);
      var _ := SetParameter(kw, "_strength", "strength", PyInt(1), diag);
    }

    /** `construct_function(kw)` of this object's class. */
    method ConstructFunction(kw: Kwargs, diag: Diagnostics)
      requires AllNumeric(kw)
      requires kind.IsPerturbation() ==> "_t0" in attrs && "_support" in attrs
      modifies this, diag
      ensures Built(attrs, diag.log) == Constructed(kind, Built(old(attrs), old(diag.log)), kw)
    {
      match kind
      case PlainFunction => CopyKeywords(kw, diag);
      case PerturbationKind => CopyKeywords(kw, diag);
      case BaseLineKind => ConstructBaseLine(kw, diag);
      case NoiseKind => ConstructNoise(kw, diag);
      case SpikeKind => ConstructSpike(kw, diag);
      case StepKind => ConstructStep(kw, diag);
    }

    /** `BaseLine.construct_function(kw)`: amplitude, period, phase and translation, each defaulting to 0. */
    method ConstructBaseLine(kw: Kwargs, diag: Diagnostics)
      requires AllNumeric(kw)
      modifies this, diag
      ensures Built(attrs, diag.log) == BaseLine.Build(Built(old(attrs), old(diag.log)), kw)
    {
      var _ := SetParameter(kw, "_amplitude", "amp", PyInt(0), diag);
      var _ := SetParameter(kw, "_period", "per", PyInt(0), diag);
      var _ := SetParameter(kw, "_phase", "phas", PyInt(0), diag);
      var _ := SetParameter(kw, "_translation", "trans", PyInt(0), diag);
    }

    /** `Noise.construct_function(kw)`: the mean, then the deviation unless `std` is not positive. */
    method ConstructNoise(kw: Kwargs, diag: Diagnostics)
      requires AllNumeric(kw)
      modifies this, diag
      ensures Built(attrs, diag.log) == Noise.Build(Built(old(attrs), old(diag.log)), kw)
    {
      var _ := SetParameter(kw, "_mean", "mean", PyInt(0), diag);
      var std := Lookup(kw, "std");
      if std.Some? {
        LookupNumeric(kw, "std");
        if RealOf(std.value) <= 0.0 {
          diag.Warn(NonPositiveDeviation);
        } else {
          var _ := SetParameter(kw, "_deviation", "std", PyInt(1), diag);
        }
      } else {
        var _ := SetParameter(kw, "_deviation", "std", PyInt(1), diag);
      }
    }

    /** `SpikePerturbation.construct_function(kw)`: warns about a position outside the window, then width and position. */
    method ConstructSpike(kw: Kwargs, diag: Diagnostics)
      requires AllNumeric(kw) && "_t0" in attrs && "_support" in attrs
      modifies this, diag
      ensures Built(attrs, diag.log) == Spike.Build(Built(old(attrs), old(diag.log)), kw)
    {
      var position := Lookup(kw, "position");
      if position.Some? {
        var inSupport := Perturbation.InSupport(attrs, position.value);
        if inSupport == Ok(false) {
          diag.Warn(PositionOutsideSupport);
        }
      }
      var _ := SetParameter(kw, "_width", "width", PyFloat(0.3), diag);
      var _ := SetParameter(kw, "_position", "position", PyFloat(0.8), diag);
    }

    /** `StepPerturbation.construct_function(kw)`: warns about a step outside the window, then step and direction. */
    method ConstructStep(kw: Kwargs, diag: Diagnostics)
      requires AllNumeric(kw) && "_t0" in attrs && "_support" in attrs
      modifies this, diag
      ensures Built(attrs, diag.log) == Step.Build(Built(old(attrs), old(diag.log)), kw)
    {
      var step := Lookup(kw, "step");
      if step.Some? {
        var inSupport := Perturbation.InSupport(attrs, step.value);
        if inSupport != Ok(true) {
          diag.Warn(StepOutsideSupport);
        }
      }
      var _ := SetParameter(kw, "_step", "step", PyInt(1), diag);
      var _ := SetParameter(kw, "_direction", "dir", PyInt(1), diag);
    }

    /** The loop of the plain `construct_function`: `set_parameter(kw, name, name, 0)` for every keyword in order. */
    method CopyKeywords(kw: Kwargs, diag: Diagnostics)
      requires AllNumeric(kw)
      modifies this, diag
      ensures attrs == old(attrs) + AsMap(kw) && diag.log == old(diag.log)
    {
      var i := 0;
      while i < |kw|
        invariant 0 <= i <= |kw|
        invariant attrs == old(attrs) + AsMap(kw[..i]) && diag.log == old(diag.log)
      {
        LookupIndex(kw, i);
        assert IsNumeric(kw[i].1);
        AsMapStep(kw, i);
        MergeUpdate(old(attrs), AsMap(kw[..i]), kw[i].0, kw[i].1);
        var _ := SetParameter(kw, kw[i].0, kw[i].0, PyInt(0), diag);
        i := i + 1;
      }
      assert kw[..|kw|] == kw;
    }

    /** `calculate(t)` of this object's class. */
    function Calculate(t: Value, env: Env, k: nat): (Result<real>, nat)
      reads this
    {
      CalculateOn(kind, attrs, t, env, k)
    }

    /**
     * `evaluate(t)`: TypeError unless t is an int or a float (a numpy scalar is
     * refused here even by a perturbation), otherwise the pair (t, calculate(t)).
     */
    function Evaluate(t: Value, env: Env, k: nat): (r: (Result<(Value, real)>, nat))
      reads this
      ensures !IsNumeric(t) ==> r == (Err(ArgumentNotNumeric), k)
      ensures IsNumeric(t) ==> (r.1 == Calculate(t, env, k).1
        && (r.0.Ok? <==> Calculate(t, env, k).0.Ok?)
        && (r.0.Ok? ==> r.0.value == (t, Calculate(t, env, k).0.value))
        && (r.0.Err? ==> r.0.error == Calculate(t, env, k).0.error))
    {
      if !IsNumeric(t) then (Err(ArgumentNotNumeric), k)
      else
        match Calculate(t, env, k)
        case (Err(e), k') => (Err(e), k')
        case (Ok(v), k') => (Ok((t, v)), k')
    }
  }
}

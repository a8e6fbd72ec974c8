/**
 * signals/functions/noise.py: time-invariant Gaussian noise N(mean, std).
 * A non-positive `std` is refused with a warning, and then `_deviation` is
 * never assigned: every later use of the noise raises AttributeError.
 */
module Noise {

  import opened Values
  import opened Format
  import opened Parameters

  /** `construct_function`: `_mean` from `mean` (default 0), `_deviation` from `std` (default 1) unless std <= 0. */
  function Build(b: Built, kw: seq<(string, Value)>): Built
    requires AllNumeric(kw)
  {
    var b1 := SetParam(b, kw, "_mean", "mean", PyInt(0));
    match Lookup(kw, "std")
    case Some(std) =>
      if RealOf(std) <= 0.0 then Built(b1.attrs, b1.warnings + [NonPositiveDeviation])
      else SetParam(b1, kw, "_deviation", "std", PyInt(1))
    case None => SetParam(b1, kw, "_deviation", "std", PyInt(1))
  }

  /** A positive `std` (or none) gives the noise both its attributes; a non-positive one leaves `_deviation` out and warns. */
  lemma BuildDeviation(kw: seq<(string, Value)>)
    requires AllNumeric(kw)
    ensures var b := Build(Built(map[], []), kw);
      && "_mean" in b.attrs && b.attrs["_mean"] == Param(kw, "mean", PyInt(0))
      && (Positive(kw) <==> "_deviation" in b.attrs)
      && (Positive(kw) ==> b.attrs["_deviation"] == Param(kw, "std", PyInt(1)))
      && (NonPositiveDeviation in b.warnings <==> !Positive(kw))
  {
    var b1 := SetParam(Built(map[], []), kw, "_mean", "mean", PyInt(0));
    assert NonPositiveDeviation !in b1.warnings;
    if Lookup(kw, "std").None? {
      assert Build(Built(map[], []), kw).warnings == b1.warnings + [DefaultUsed("std", PyInt(1))];
    }
  }

  /** The `std` keyword is absent or positive, so the deviation is assigned. */
  predicate Positive(kw: seq<(string, Value)>)
    requires AllNumeric(kw)
  {
    Lookup(kw, "std").None? || RealOf(Param(kw, "std", PyInt(1))) > 0.0
  }

  /**
   * `calculate(t)`: TypeError unless t is an int or a float, then one draw
   * `numpy.random.normal(loc=_mean, scale=_deviation)`; the pair holds the
   * result and the position of the random stream afterwards.
   */
  function Calculate(attrs: map<string, Number>, t: Value, env: Env, k: nat): (r: (Result<real>, nat))
    ensures !IsNumeric(t) ==> r == (Err(ArgumentNotNumeric), k)
    ensures IsNumeric(t) && "_mean" !in attrs ==> r == (Err(MissingAttribute("_mean")), k)
    ensures IsNumeric(t) && "_mean" in attrs && "_deviation" !in attrs ==> r == (Err(MissingAttribute("_deviation")), k)
    ensures IsNumeric(t) && "_mean" in attrs && "_deviation" in attrs ==>
      r == Draw(RealOf(attrs["_mean"]), RealOf(attrs["_deviation"]), env, k)
  {
    if !IsNumeric(t) then (Err(ArgumentNotNumeric), k)
    else if Get(attrs, "_mean").Err? then (Err(Get(attrs, "_mean").error), k)
    else if Get(attrs, "_deviation").Err? then (Err(Get(attrs, "_deviation").error), k)
    else Draw(Get(attrs, "_mean").value, Get(attrs, "_deviation").value, env, k)
  }

  /** The noise does not depend on t: any two numeric times draw the same value. */
  lemma TimeInvariant(attrs: map<string, Number>, t1: Value, t2: Value, env: Env, k: nat)
    requires IsNumeric(t1) && IsNumeric(t2)
    ensures Calculate(attrs, t1, env, k) == Calculate(attrs, t2, env, k)
  {
  }

  /**
   * A noise built with a positive or absent `std` always draws: it yields
   * mean + std·z for the next normal number z and advances the stream by one.
   */
  lemma CalculateBuilt(kw: seq<(string, Value)>, t: Value, env: Env, k: nat)
    requires AllNumeric(kw) && Positive(kw) && IsNumeric(t)
    ensures var r := Calculate(Build(Built(map[], []), kw).attrs, t, env, k);
      && r.0.Ok? && r.1 == k + 1
      && r.0.value - RealOf(Param(kw, "mean", PyInt(0))) == RealOf(Param(kw, "std", PyInt(1))) * env.gauss(k)
  {
    BuildDeviation(kw);
    var attrs := Build(Built(map[], []), kw).attrs;
    var mean, std := RealOf(Param(kw, "mean", PyInt(0))), RealOf(Param(kw, "std", PyInt(1)));
    assert std > 0.0 by {
      if Lookup(kw, "std").None? {
        assert Param(kw, "std", PyInt(1)) == PyInt(1);
      }
    }
    assert Calculate(attrs, t, env, k) == Draw(mean, std, env, k);
  }

  /**
   * A noise built with a non-positive `std` fails at every use: calculate,
   * str and repr all raise AttributeError on `_deviation`, and no number is drawn.
   */
  lemma NonPositiveBroken(kw: seq<(string, Value)>, t: Value, env: Env, k: nat, showFloat: real -> string)
    requires AllNumeric(kw) && !Positive(kw) && IsNumeric(t)
    ensures var attrs := Build(Built(map[], []), kw).attrs;
      && Calculate(attrs, t, env, k) == (Err(MissingAttribute("_deviation")), k)
      && Str(attrs) == Err(MissingAttribute("_deviation"))
      && Repr(attrs, showFloat) == Err(MissingAttribute("_deviation"))
  {
    BuildDeviation(kw);
  }

  /** `__str__()`: "N(mean,std)" with both numbers in the two-decimal format. */
  function Str(attrs: map<string, Number>): (r: Result<string>)
    ensures r.Ok? <==> "_mean" in attrs && "_deviation" in attrs
  {
    if Get(attrs, "_mean").Err? then Err(Get(attrs, "_mean").error)
    else if Get(attrs, "_deviation").Err? then Err(Get(attrs, "_deviation").error)
    else Ok("N(" + Fmt2(Get(attrs, "_mean").value) + "," + Fmt2(Get(attrs, "_deviation").value) + ")")
  }

  /**
   * The text of a working noise reads back as its parameters rounded to the
   * hundredth: the field before the separating comma (whose place is fixed by
   * the mean's text) is the mean, the field after it the deviation.
   */
  lemma StrRoundTrip(attrs: map<string, Number>)
    requires "_mean" in attrs && "_deviation" in attrs
    ensures var s := Str(attrs).value;
      var w := |Fmt2(RealOf(attrs["_mean"]))|;
      && s[..2] == "N(" && s[|s| - 1] == ')' && s[2 + w] == ','
      && ParseFixed2(s[2..2 + w]) == Some(SignedCents(RealOf(attrs["_mean"])))
      && ParseFixed2(s[3 + w..|s| - 1]) == Some(SignedCents(RealOf(attrs["_deviation"])))
  {
    var m, d := Fmt2(RealOf(attrs["_mean"])), Fmt2(RealOf(attrs["_deviation"]));
    assert Get(attrs, "_mean") == Ok(RealOf(attrs["_mean"]));
    assert Get(attrs, "_deviation") == Ok(RealOf(attrs["_deviation"]));
    assert Str(attrs).value == "N(" + m + "," + d + ")";
    Fmt2RoundTrip(RealOf(attrs["_mean"]));
    Fmt2RoundTrip(RealOf(attrs["_deviation"]));
    Fields(Str(attrs).value, m, d, SignedCents(RealOf(attrs["_mean"])), SignedCents(RealOf(attrs["_deviation"])));
  }

  /** The two fields of "N(m,d)" read back as m and d read alone. */
  lemma Fields(s: string, m: string, d: string, a: int, b: int)
    requires s == "N(" + m + "," + d + ")"
    requires ParseFixed2(m) == Some(a) && ParseFixed2(d) == Some(b)
    ensures && s[..2] == "N(" && s[|s| - 1] == ')' && s[2 + |m|] == ','
      && ParseFixed2(s[2..2 + |m|]) == Some(a)
      && ParseFixed2(s[3 + |m|..|s| - 1]) == Some(b)
  {
    assert s[2..2 + |m|] == m && s[3 + |m|..|s| - 1] == d;
  }

  /** `__repr__()`: "Noise(mean=…,std=…)" with Python's `str` of each number. */
  function Repr(attrs: map<string, Number>, showFloat: real -> string): (r: Result<string>)
    ensures r.Ok? <==> "_mean" in attrs && "_deviation" in attrs
  {
    if "_mean" !in attrs then Err(MissingAttribute("_mean"))
    else if "_deviation" !in attrs then Err(MissingAttribute("_deviation"))
    else Ok("Noise(mean=" + Show(attrs["_mean"], showFloat) + ",std=" + Show(attrs["_deviation"], showFloat) + ")")
  }

  /**
   * A noise built from an integer mean and a positive integer deviation, as the
   * project's own tests build them, prints both as Python's `str` of an int.
   */
  lemma ReprIntegers(mean: int, std: int, showFloat: real -> string)
    requires std > 0
    ensures Repr(Build(Built(map[], []), [("mean", PyInt(mean)), ("std", PyInt(std))]).attrs, showFloat)
         == Ok("Noise(mean=" + IntString(mean) + ",std=" + IntString(std) + ")")
  {
    var kw := [("mean", PyInt(mean)), ("std", PyInt(std))];
    assert Lookup(kw, "mean") == Some(PyInt(mean));
    assert Lookup(kw, "std") == Some(PyInt(std));
    BuildDeviation(kw);
  }
}

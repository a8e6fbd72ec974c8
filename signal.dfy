/**
 * src/signals/signal.py: a signal is a baseline plus a noise plus the
 * perturbations added to it, sampled on an evenly spaced grid.
 */
module Signals {

  import opened Values
  import opened Format
  import opened Parameters
  import opened Functions

  /** `Signal._DEFAULT_SAMPLE_SIZE` */
  const DefaultSampleSize: int := 100

  /**
   * The sample size the constructor stores: `round(sample_size)`, the nearest
   * integer with an exact tie going to the even one (an int is kept as it is),
   * 100 when the keyword is absent, TypeError when it is not a number.
   */
  function SampleSize(kw: seq<(string, Value)>): (r: Result<int>)
    ensures Lookup(kw, "sample_size").None? ==> r == Ok(DefaultSampleSize)
    ensures Lookup(kw, "sample_size").Some? && !IsNumeric(Lookup(kw, "sample_size").value) ==> r == Err(SampleSizeNotNumeric)
    ensures Lookup(kw, "sample_size").Some? && IsNumeric(Lookup(kw, "sample_size").value) ==>
      r.Ok? && -0.5 <= RealOf(Lookup(kw, "sample_size").value) - r.value as real <= 0.5
    ensures Lookup(kw, "sample_size").Some? && IsNumeric(Lookup(kw, "sample_size").value) ==>
      var x := RealOf(Lookup(kw, "sample_size").value);
      (x - r.value as real == 0.5 || r.value as real - x == 0.5) ==> r.value % 2 == 0
    ensures Lookup(kw, "sample_size").Some? && Lookup(kw, "sample_size").value.PyInt? ==>
      r == Ok(Lookup(kw, "sample_size").value.i)
  {
    match Lookup(kw, "sample_size")
    case None => Ok(DefaultSampleSize)
    case Some(PyInt(i)) => Ok(i)
    case Some(PyFloat(x)) => Ok(RoundHalfEven(x))
    case Some(_) => Err(SampleSizeNotNumeric)
  }

  /**
   * The sample size's TypeError cannot happen: the baseline's constructor has
   * already refused every non-numeric keyword, `sample_size` included.
   */
  lemma {:induction false} SampleSizeChecked(kw: seq<(string, Value)>)
    requires AllNumeric(kw)
    ensures SampleSize(kw).Ok?
  {
    if Lookup(kw, "sample_size").Some? {
      var i :| 0 <= i < |kw| && kw[i] == ("sample_size", Lookup(kw, "sample_size").value);
      assert IsNumeric(kw[i].1);
    }
  }

  /** What `add_perturbation` is given: one of the numeric functions, or any other Python object. */
  datatype Candidate = Func(f: Function) | Foreign(typeName: string)

  /**
   * The sum the signal's `calculate` accumulates over its perturbations, in
   * order, from acc; the first one that raises makes the whole result None.
   * The pair holds the result and the position of the random stream afterwards.
   */
  ghost function SumPerts(ps: seq<Function>, t: Value, env: Env, acc: real, k: nat): (Option<real>, nat)
    reads ps
  {
    if ps == [] then (Some(acc), k)
    else
      var c := ps[0].Calculate(t, env, k);
      if c.0.Err? then (None, c.1)
      else SumPerts(ps[1..], t, env, acc + c.0.value, c.1)
  }

  /** A sum s moved by acc: acc is added to its value, and a failure stays a failure. */
  function Shifted(s: (Option<real>, nat), acc: real): (Option<real>, nat) {
    if s.0.None? then s else (Some(acc + s.0.value), s.1)
  }

  /** The sum does not depend on where it starts: starting a further along adds a to the sum. */
  lemma {:induction false} SumPertsShift(ps: seq<Function>, t: Value, env: Env, a: real, acc: real, k: nat)
    ensures SumPerts(ps, t, env, a + acc, k) == Shifted(SumPerts(ps, t, env, acc, k), a)
  {
    if ps != [] {
      var c := ps[0].Calculate(t, env, k);
      if c.0.Ok? {
        assert a + acc + c.0.value == a + (acc + c.0.value);
        SumPertsShift(ps[1..], t, env, a, acc + c.0.value, c.1);
      }
    }
  }

  /** The sum s followed by one more perturbation q: q's value is added unless s already failed. */
  ghost function Extend(s: (Option<real>, nat), q: Function, t: Value, env: Env): (Option<real>, nat)
    reads q
  {
    if s.0.None? then s
    else
      var c := q.Calculate(t, env, s.1);
      if c.0.Err? then (None, c.1) else (Some(s.0.value + c.0.value), c.1)
  }

  /**
   * Adding a perturbation at the end adds its value, computed where the
   * stream stands after the earlier ones; a failure anywhere gives None.
   */
  lemma {:induction false} SumPertsAppend(ps: seq<Function>, q: Function, t: Value, env: Env, acc: real, k: nat)
    ensures SumPerts(ps + [q], t, env, acc, k) == Extend(SumPerts(ps, t, env, acc, k), q, t, env)
  {
    var qs := ps + [q];
    if ps == [] {
      assert qs[1..] == [];
    } else {
      assert qs[0] == ps[0] && qs[1..] == ps[1..] + [q];
      var c := ps[0].Calculate(t, env, k);
      if c.0.Ok? {
        SumPertsAppend(ps[1..], q, t, env, acc + c.0.value, c.1);
      }
    }
  }

  /** One step of the sum: the perturbation at i, then the rest from i + 1. */
  lemma SumPertsStep(ps: seq<Function>, i: nat, t: Value, env: Env, acc: real, k: nat)
    requires i < |ps|
    ensures var c := ps[i].Calculate(t, env, k);
      SumPerts(ps[i..], t, env, acc, k)
        == if c.0.Err? then (None, c.1) else SumPerts(ps[i + 1..], t, env, acc + c.0.value, c.1)
  {
    assert ps[i..][0] == ps[i] && ps[i..][1..] == ps[i + 1..];
  }

  /** The loop of `calculate` over the perturbations: adds each value to acc in order, None as soon as one raises. */
  method AddPerturbations(ps: seq<Function>, t: Value, env: Env, acc: real, k: nat) returns (r: Option<real>, k': nat)
    ensures (r, k') == SumPerts(ps, t, env, acc, k)
  {
    var value := acc;
    var kc := k;
    assert ps[0..] == ps;
    for i := 0 to |ps|
      invariant SumPerts(ps[i..], t, env, value, kc) == SumPerts(ps, t, env, acc, k)
    {
      SumPertsStep(ps, i, t, env, value, kc);
      var c := ps[i].Calculate(t, env, kc);
      if c.0.Err? {
        return None, c.1;
      }
      value := value + c.0.value;
      kc := c.1;
    }
    return Some(value), kc;
  }

  /** The rows of an arithmetic sample: (time, value or None), as the DataFrame holds them. */
  type Row = (real, Option<real>)

  /** A sampled signal: a baseline, a noise, the perturbations added so far and the sample size. */
  class Signal {
    const baseline: Function
    const noise: Function
    const sampleSize: int
    var perturbations: Option<seq<Function>>
    /** The functions `calculate` reads: the baseline, the noise and the perturbations. */
    ghost var Repr: set<Function>

    /**
     * The list is created by the first `add_perturbation`, so it is never
     * empty; Repr holds exactly the functions the signal is made of.
     */
    ghost predicate Valid()
      reads this
    {
      && baseline.kind == BaseLineKind && noise.kind == NoiseKind
      && (perturbations.Some? ==> |perturbations.value| > 0)
      && Repr == {baseline, noise} + set p | p in Perts()
    }

    /** The perturbations added so far, in order; none before the first one. */
    function Perts(): seq<Function>
      reads this
    {
      if perturbations.None? then [] else perturbations.value
    }

    /** The fields after `__init__`: the list starts absent. */
    constructor Init(baseline: Function, noise: Function, sampleSize: int)
      requires baseline.kind == BaseLineKind && noise.kind == NoiseKind
      ensures this.baseline == baseline && this.noise == noise && this.sampleSize == sampleSize
      ensures perturbations == None && Valid()
    {
      this.baseline := baseline;
      this.noise := noise;
      this.sampleSize := sampleSize;
      perturbations := None;
      Repr := {baseline, noise};
    }

    /**
     * `Signal(**kw)`: a `BaseLine(**kw)` and a `Noise(**kw)` from the same
     * keywords, no perturbations, and the sample size. A non-numeric keyword
     * makes the baseline raise TypeError first.
     */
    static method New(kw: Kwargs, diag: Diagnostics) returns (r: Result<Signal>)
      modifies diag
      ensures !AllNumeric(kw) <==> r.Err?
      ensures r.Err? ==> r.error == NonNumericParameters(NonNumericKeys(kw)) && diag.log == old(diag.log)
      ensures r.Ok? ==> (fresh(r.value) && fresh(r.value.baseline) && fresh(r.value.noise) && r.value.Valid()
        && r.value.baseline.kind == BaseLineKind && r.value.noise.kind == NoiseKind
        && r.value.baseline != r.value.noise
        && r.value.perturbations == None
        && r.value.sampleSize == SampleSize(kw).value
        && var b := Construct(BaseLineKind, Built(map[], old(diag.log)), kw);
           var n := Construct(NoiseKind, Built(map[], b.warnings), kw);
           r.value.baseline.attrs == b.attrs && r.value.noise.attrs == n.attrs && diag.log == n.warnings)
    {
      var b := Function.New(BaseLineKind, kw, diag);
      if b.Err? {
        return Err(b.error);
      }
      // The baseline accepted the keywords, so they are all numeric: the noise
      // and the sample size cannot refuse them.
      var n := Function.New(NoiseKind, kw, diag);
      SampleSizeChecked(kw);
      var s := new Signal.Init(b.value, n.value, SampleSize(kw).value);
      return Ok(s);
    }

    /**
     * `add_perturbation(p)`: TypeError for anything that is not a numeric
     * function, leaving the list as it was; otherwise p is appended, the first
     * time creating the list.
     */
    method AddPerturbation(p: Candidate) returns (r: Result<()>)
      requires Valid()
      modifies this
      ensures Valid()
      ensures p.Foreign? ==> r == Err(NotAFunction) && perturbations == old(perturbations)
      ensures p.Func? ==> r == Ok(()) && perturbations == Some(old(Perts()) + [p.f])
    {
      if p.Foreign? {
        return Err(NotAFunction);
      }
      if perturbations.None? {
        assert old(Perts()) + [p.f] == [p.f];
        perturbations := Some([p.f]);
      } else {
        perturbations := Some(perturbations.value + [p.f]);
      }
      Repr := Repr + {p.f};
      return Ok(());
    }

    /**
     * What `calculate(t)` returns: baseline(t) + noise(t) + every perturbation's
     * value in order, or None as soon as one of them raises.
     */
    ghost function Value(t: Value, env: Env, k: nat): (Option<real>, nat)
      requires Valid()
      reads this, Repr
    {
      var b := baseline.Calculate(t, env, k);
      if b.0.Err? then (None, b.1)
      else
        var n := noise.Calculate(t, env, b.1);
        if n.0.Err? then (None, n.1)
        else SumPerts(Perts(), t, env, 0.0 + b.0.value + n.0.value, n.1)
    }

    /**
     * `calculate(t)`: adds up baseline, noise and perturbations; an exception
     * from any of them is caught and the result is None.
     */
    method Calculate(t: Value, env: Env, k: nat) returns (r: Option<real>, k': nat)
      requires Valid()
      ensures (r, k') == Value(t, env, k)
    {
      var b := baseline.Calculate(t, env, k);
      if b.0.Err? {
        return None, b.1;
      }
      var n := noise.Calculate(t, env, b.1);
      if n.0.Err? {
        return None, n.1;
      }
      r, k' := AddPerturbations(Perts(), t, env, 0.0 + b.0.value + n.0.value, n.1);
    }

    /**
     * A time that is not an int or a float (a numpy scalar included) gives None,
     * because the baseline refuses it before anything is drawn.
     */
    lemma NonNumericTime(t: Value, env: Env, k: nat)
      requires Valid() && !IsNumeric(t)
      ensures Value(t, env, k) == (None, k)
    {
    }

    /**
     * Without perturbations the signal is baseline plus noise, and with them
     * it is that plus the sum of the perturbations' values taken in order.
     */
    lemma Decomposition(t: Value, env: Env, k: nat)
      requires Valid()
      ensures var b := baseline.Calculate(t, env, k);
        var n := noise.Calculate(t, env, b.1);
        b.0.Ok? && n.0.Ok? ==>
          Value(t, env, k) == Shifted(SumPerts(Perts(), t, env, 0.0, n.1), b.0.value + n.0.value)
      ensures perturbations == None ==>
        var b := baseline.Calculate(t, env, k);
        var n := noise.Calculate(t, env, b.1);
        b.0.Ok? && n.0.Ok? ==> Value(t, env, k) == (Some(b.0.value + n.0.value), n.1)
    {
      var b := baseline.Calculate(t, env, k);
      if b.0.Ok? {
        var n := noise.Calculate(t, env, b.1);
        if n.0.Ok? {
          assert Value(t, env, k) == SumPerts(Perts(), t, env, 0.0 + b.0.value + n.0.value, n.1);
          assert 0.0 + b.0.value + n.0.value == (b.0.value + n.0.value) + 0.0;
          SumPertsShift(Perts(), t, env, b.0.value + n.0.value, 0.0, n.1);
        }
      }
    }

    /** The tag `create_arithmetic_sample` returns. */
    function Tag(): (s: string)
      reads this
      ensures s == "PERT" <==> perturbations.Some?
      ensures s == "NORMAL" <==> perturbations.None?
    {
      if perturbations.Some? then "PERT" else "NORMAL"
    }

    /**
     * The first n rows of the sample from t0 in steps of `step`, the position
     * of the random stream after them and the time of the next row: each row
     * is taken at the time reached by adding `step` once per earlier row, and
     * each evaluation continues the stream where the previous one left it.
     */
    ghost function Sample(n: nat, t0: real, step: real, env: Env, k: nat): (s: (seq<Row>, nat, real))
      requires Valid()
      reads this, Repr
      ensures |s.0| == n
      decreases n
    {
      if n == 0 then ([], k, t0)
      else
        var prev := Sample(n - 1, t0, step, env, k);
        var v := Value(PyFloat(prev.2), env, prev.1);
        (prev.0 + [(prev.2, v.0)], v.1, prev.2 + step)
    }

    /** After n rows the clock has advanced n steps: the next row is at t0 + n·step. */
    lemma {:induction false} SampleClock(n: nat, t0: real, step: real, env: Env, k: nat)
      requires Valid()
      ensures Sample(n, t0, step, env, k).2 == t0 + n as real * step
    {
      if n > 0 {
        SampleClock(n - 1, t0, step, env, k);
        assert n as real * step == (n - 1) as real * step + step;
      }
    }

    /** A longer sample starts with the shorter one: sampling never rewrites earlier rows. */
    lemma {:induction false} SamplePrefix(n: nat, m: nat, t0: real, step: real, env: Env, k: nat)
      requires Valid() && m <= n
      ensures Sample(n, t0, step, env, k).0[..m] == Sample(m, t0, step, env, k).0
      decreases n
    {
      if m < n {
        var prev := Sample(n - 1, t0, step, env, k);
        SamplePrefix(n - 1, m, t0, step, env, k);
        assert Sample(n, t0, step, env, k).0[..m] == prev.0[..m];
      }
    }

    /** Row i of the sample is taken at time t0 + i·step. */
    lemma SampleTimes(n: nat, i: nat, t0: real, step: real, env: Env, k: nat)
      requires Valid() && i < n
      ensures Sample(n, t0, step, env, k).0[i].0 == t0 + i as real * step
    {
      SamplePrefix(n, i + 1, t0, step, env, k);
      SampleClock(i, t0, step, env, k);
      assert Sample(n, t0, step, env, k).0[i] == Sample(n, t0, step, env, k).0[..i + 1][i];
    }

    /**
     * `create_arithmetic_sample(t0, t1)`: ValueError for an empty or reversed
     * interval, ZeroDivisionError for a zero sample size, otherwise the tag and
     * the rows on the grid t0 + i·(t1 − t0)/sample_size, one per sample (none
     * for a negative size). A row whose evaluation failed holds None.
     */
    method CreateArithmeticSample(t0: real, t1: real, env: Env, k: nat) returns (r: Result<(string, seq<Row>)>, k': nat)
      requires Valid()
      ensures t1 == t0 ==> r == Err(EmptyRange) && k' == k
      ensures t1 < t0 ==> r == Err(ReversedRange) && k' == k
      ensures t1 > t0 && sampleSize == 0 ==> r == Err(ZeroDivision) && k' == k
      ensures t1 > t0 && sampleSize != 0 ==>
        var n := if sampleSize < 0 then 0 else sampleSize;
        var s := Sample(n, t0, (t1 - t0) / sampleSize as real, env, k);
        r.Ok? && r.value.0 == Tag() && r.value.1 == s.0 && k' == s.1
    {
      if t1 == t0 {
        return Err(EmptyRange), k;
      }
      if t1 < t0 {
        return Err(ReversedRange), k;
      }
      if sampleSize == 0 {
        return Err(ZeroDivision), k;
      }
      var step := (t1 - t0) / sampleSize as real;
      var n := if sampleSize < 0 then 0 else sampleSize;
      var t := t0;
      var rows: seq<Row> := [];
      var kc := k;
      for i := 0 to n
        invariant (rows, kc, t) == Sample(i, t0, step, env, k)
      {
        label Before:
        var v, k1 := Calculate(PyFloat(t), env, kc);
        assert Sample(i, t0, step, env, k) == old@Before(Sample(i, t0, step, env, k));
        rows := rows + [(t, v)];
        kc := k1;
        t := t + step;
      }
      return Ok((Tag(), rows)), kc;
    }
  }

  /**
   * The grid of a sample of n > 0 rows over [t0, t1) is strictly increasing and
   * stays in the half-open interval: row i is at t0 + i·(t1 − t0)/n.
   */
  lemma GridInRange(t0: real, t1: real, n: nat, i: nat)
    requires t0 < t1 && i < n
    ensures var step := (t1 - t0) / n as real;
      && step > 0.0
      && t0 <= t0 + i as real * step < t1
      && t0 + i as real * step < t0 + (i + 1) as real * step
  {
    var step := (t1 - t0) / n as real;
    var d := (n - 1 - i) as real;
    assert step > 0.0;
    assert step * n as real == t1 - t0;
    NonNegativeProduct(i as real, step);
    NonNegativeProduct(d, step);
    assert n as real * step == i as real * step + d * step + step;
    assert (i + 1) as real * step == i as real * step + step;
  }

  lemma NonNegativeProduct(a: real, b: real)
    requires a >= 0.0 && b >= 0.0
    ensures a * b >= 0.0
  {
  }
}

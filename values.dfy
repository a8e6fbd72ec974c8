/**
 * Python values as they reach the signals core: keyword arguments, the numeric
 * test every component applies (`type(v) in [int, float]`), the exceptions the
 * core raises, the warnings it emits, and the two outside services it calls
 * (`math.sin` and numpy's Gaussian generator).
 */
module Values {

  datatype Option<T> = None | Some(value: T)

  /** Success or a raised Python exception. */
  datatype Result<T> = Ok(value: T) | Err(error: Error)

  /**
   * A Python value. Only `PyInt` and `PyFloat` pass the core's numeric test;
   * `NpFloat64` (a numpy scalar) passes only the perturbation time check, and a
   * `bool` is NOT numeric because the test compares `type(v)`, not `isinstance`.
   */
  datatype Value =
    | PyInt(i: int)
    | PyFloat(x: real)
    | NpFloat64(f: real)
    | PyBool(b: bool)
    | PyStr(s: string)
    | PyOther(typeName: string)

  /** `type(v) in [int, float]` */
  predicate IsNumeric(v: Value) {
    v.PyInt? || v.PyFloat?
  }

  /** `type(t) in [float, int, np.float64]`, the time check of Perturbation.calculate */
  predicate IsTime(v: Value) {
    v.PyInt? || v.PyFloat? || v.NpFloat64?
  }

  type Number = v: Value | IsNumeric(v) witness PyInt(0)

  /** The mathematical value of a number (or of a numpy scalar). */
  function RealOf(v: Value): real
    requires IsTime(v)
  {
    match v
    case PyInt(i) => i as real
    case PyFloat(x) => x
    case NpFloat64(f) => f
  }

  /** The exceptions the core raises, with the Python class each one stands for. */
  datatype Error =
    | NonNumericParameters(keys: seq<string>) // TypeError from a constructor
    | ParameterNotNumeric(name: string)       // TypeError from set_parameter
    | ArgumentNotNumeric                      // TypeError from calculate, evaluate, check_parameter_in_support
    | SampleSizeNotNumeric                    // TypeError from the Signal constructor
    | NotAFunction                            // TypeError from add_perturbation
    | MissingAttribute(name: string)          // AttributeError on an attribute never assigned
    | NegativeScale                           // ValueError from numpy's normal when scale < 0
    | EmptyRange                              // ValueError: t1 == t0
    | ReversedRange                           // ValueError: t1 < t0
    | ZeroDivision                            // ZeroDivisionError

  /** The messages passed to `warnings.warn`. */
  datatype Warning =
    | DefaultUsed(param: string, default: Number)
    | PositionOutsideSupport
    | StepOutsideSupport
    | NonPositiveDeviation

  /** Keyword arguments in insertion order; a Python dict never repeats a key. */
  predicate DistinctKeys(kw: seq<(string, Value)>) {
    forall i, j :: 0 <= i < j < |kw| ==> kw[i].0 != kw[j].0
  }

  type Kwargs = kw: seq<(string, Value)> | DistinctKeys(kw) witness []

  /** `kw.get(key)`: the value of the first pair with that key. */
  function Lookup(kw: seq<(string, Value)>, key: string): (r: Option<Value>)
    ensures r.Some? <==> exists i :: 0 <= i < |kw| && kw[i].0 == key
    ensures r.Some? ==> exists i :: 0 <= i < |kw| && kw[i] == (key, r.value)
  {
    if kw == [] then None
    else if kw[0].0 == key then Some(kw[0].1)
    else
      var r := Lookup(kw[1..], key);
      assert forall i :: 1 <= i < |kw| ==> kw[i] == kw[1..][i - 1];
      r
  }

  predicate AllNumeric(kw: seq<(string, Value)>) {
    forall i :: 0 <= i < |kw| ==> IsNumeric(kw[i].1)
  }

  /** A looked-up keyword of an all-numeric dict is a number. */
  lemma LookupNumeric(kw: seq<(string, Value)>, key: string)
    requires AllNumeric(kw) && Lookup(kw, key).Some?
    ensures IsNumeric(Lookup(kw, key).value)
  {
  }

  /** Reading an attribute: `self.<name>`, AttributeError when it was never assigned. */
  function Get(attrs: map<string, Number>, name: string): (r: Result<real>)
    ensures r.Ok? <==> name in attrs
    ensures r.Ok? ==> r.value == RealOf(attrs[name])
    ensures r.Err? ==> r.error == MissingAttribute(name)
  {
    if name in attrs then Ok(RealOf(attrs[name])) else Err(MissingAttribute(name))
  }

  /** The two library services the core calls: `math.sin` and numpy's standard normal stream. */
  datatype Env = Env(sin: real -> real, gauss: nat -> real)

  /** `math.pi` */
  const Pi: real := 3.141592653589793

  /**
   * `numpy.random.normal(loc, scale)`: numpy refuses a negative scale, otherwise
   * it returns loc + scale·z for the next standard-normal number z of its stream.
   * The pair holds the result and the position of the stream afterwards.
   */
  function Draw(loc: real, scale: real, env: Env, k: nat): (r: (Result<real>, nat))
    ensures scale < 0.0 <==> r.0.Err?
    ensures r.0.Err? ==> r.0.error == NegativeScale && r.1 == k
    ensures r.0.Ok? ==> r.1 == k + 1 && r.0.value - loc == scale * env.gauss(k)
  {
    if scale < 0.0 then (Err(NegativeScale), k) else (Ok(loc + scale * env.gauss(k)), k + 1)
  }
}

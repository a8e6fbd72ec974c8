/**
 * src/signals/functions/baseline.py: the deterministic part of a signal,
 * S(t) = amp·sin(per·t + phas) + trans, its wave length, and its canonical
 * text form.
 */
module BaseLine {

  import opened Values
  import opened Format
  import opened Parameters

  /** The four attributes `_amplitude`, `_period`, `_phase`, `_translation`. */
  datatype Params = Params(amp: Number, per: Number, phas: Number, trans: Number)

  /** `construct_function`: the four attributes from `amp`, `per`, `phas`, `trans`, each defaulting to 0. */
  function Build(b: Built, kw: seq<(string, Value)>): Built
    requires AllNumeric(kw)
  {
    var b1 := SetParam(b, kw, "_amplitude", "amp", PyInt(0));
    var b2 := SetParam(b1, kw, "_period", "per", PyInt(0));
    var b3 := SetParam(b2, kw, "_phase", "phas", PyInt(0));
    SetParam(b3, kw, "_translation", "trans", PyInt(0))
  }

  /** The attribute dictionary read back as parameters; AttributeError for the first one missing. */
  function View(attrs: map<string, Number>): (r: Result<Params>)
    ensures r.Ok? <==> "_amplitude" in attrs && "_period" in attrs && "_phase" in attrs && "_translation" in attrs
  {
    if "_period" !in attrs then Err(MissingAttribute("_period"))
    else if "_phase" !in attrs then Err(MissingAttribute("_phase"))
    else if "_amplitude" !in attrs then Err(MissingAttribute("_amplitude"))
    else if "_translation" !in attrs then Err(MissingAttribute("_translation"))
    else Ok(Params(attrs["_amplitude"], attrs["_period"], attrs["_phase"], attrs["_translation"]))
  }

  /** A freshly built baseline holds exactly the four attributes, each given or 0. */
  lemma BuildView(kw: seq<(string, Value)>)
    requires AllNumeric(kw)
    ensures Build(Built(map[], []), kw).attrs.Keys == {"_amplitude", "_period", "_phase", "_translation"}
    ensures View(Build(Built(map[], []), kw).attrs)
         == Ok(Params(Param(kw, "amp", PyInt(0)), Param(kw, "per", PyInt(0)),
                      Param(kw, "phas", PyInt(0)), Param(kw, "trans", PyInt(0))))
  {
  }

  /** Exactly the absent parameters are warned about, each with the default 0. */
  lemma BuildWarnings(kw: seq<(string, Value)>, w: Warning)
    requires AllNumeric(kw)
    ensures w in Build(Built(map[], []), kw).warnings
        <==> w.DefaultUsed? && w.default == PyInt(0) && w.param in ["amp", "per", "phas", "trans"] && Lookup(kw, w.param).None?
  {
    var a, p, f, t := Defaulted(kw, "amp", PyInt(0)), Defaulted(kw, "per", PyInt(0)),
                      Defaulted(kw, "phas", PyInt(0)), Defaulted(kw, "trans", PyInt(0));
    assert Build(Built(map[], []), kw).warnings == [] + a + p + f + t;
    assert w in [] + a + p + f + t <==> w in a || w in p || w in f || w in t;
    InDefaulted(kw, "amp", PyInt(0), w);
    InDefaulted(kw, "per", PyInt(0), w);
    InDefaulted(kw, "phas", PyInt(0), w);
    InDefaulted(kw, "trans", PyInt(0), w);
  }

  /** `calculate(t)`: TypeError unless t is an int or a float, then amp·sin(per·t+phas)+trans. */
  function Calculate(attrs: map<string, Number>, t: Value, sin: real -> real): (r: Result<real>)
    ensures !IsNumeric(t) ==> r == Err(ArgumentNotNumeric)
    ensures IsNumeric(t) && View(attrs).Err? ==> r == Err(View(attrs).error)
    ensures IsNumeric(t) && View(attrs).Ok? ==> r == Ok(Formula(View(attrs).value, RealOf(t), sin))
  {
    if !IsNumeric(t) then Err(ArgumentNotNumeric)
    else
      match View(attrs)
      case Err(e) => Err(e)
      case Ok(p) => Ok(Formula(p, RealOf(t), sin))
  }

  /** The baseline formula S(t) = amp·sin(per·t + phas) + trans. */
  function Formula(p: Params, t: real, sin: real -> real): real {
    RealOf(p.amp) * sin(RealOf(p.per) * t + RealOf(p.phas)) + RealOf(p.trans)
  }

  /** A baseline built from numeric keywords follows the formula with the given or default parameters. */
  lemma CalculateBuilt(kw: seq<(string, Value)>, t: Value, sin: real -> real)
    requires AllNumeric(kw) && IsNumeric(t)
    ensures Calculate(Build(Built(map[], []), kw).attrs, t, sin)
         == Ok(Formula(Params(Param(kw, "amp", PyInt(0)), Param(kw, "per", PyInt(0)),
                              Param(kw, "phas", PyInt(0)), Param(kw, "trans", PyInt(0))), RealOf(t), sin))
  {
    BuildView(kw);
  }

  function Abs(x: real): real {
    if x < 0.0 then -x else x
  }

  /** When sin is bounded by 1, the baseline stays within |amp| of its translation. */
  lemma FormulaBounded(p: Params, t: real, sin: real -> real)
    requires forall x :: -1.0 <= sin(x) <= 1.0
    ensures -Abs(RealOf(p.amp)) <= Formula(p, t, sin) - RealOf(p.trans) <= Abs(RealOf(p.amp))
  {
    var s := sin(RealOf(p.per) * t + RealOf(p.phas));
    ScaledBound(RealOf(p.amp), s);
  }

  lemma ScaledBound(a: real, s: real)
    requires -1.0 <= s <= 1.0
    ensures -Abs(a) <= a * s <= Abs(a)
  {
    if a >= 0.0 {
      PositiveScaledBound(a, s);
    } else {
      PositiveScaledBound(-a, s);
      assert a * s == -((-a) * s);
    }
  }

  lemma PositiveScaledBound(a: real, s: real)
    requires a >= 0.0 && -1.0 <= s <= 1.0
    ensures -a <= a * s <= a
  {
    assert a * (1.0 - s) >= 0.0 && a * (s + 1.0) >= 0.0;
  }

  /** A real number or `math.inf`. */
  datatype Extended = Infinite | Finite(r: real)

  /** `wave_length()`: 2π/per, infinite for a zero period. */
  function WaveLength(p: Params): (w: Extended)
    ensures w.Infinite? <==> RealOf(p.per) == 0.0
    ensures w.Finite? ==> w.r * RealOf(p.per) == 2.0 * Pi
  {
    if RealOf(p.per) == 0.0 then Infinite else Finite(2.0 * Pi / RealOf(p.per))
  }

  /**
   * The wave length is the period of the baseline: when sin repeats every 2π,
   * shifting t by a finite wave length gives the same value.
   */
  lemma WaveLengthPeriod(p: Params, t: real, sin: real -> real)
    requires forall x :: sin(x + 2.0 * Pi) == sin(x)
    requires WaveLength(p).Finite?
    ensures Formula(p, t + WaveLength(p).r, sin) == Formula(p, t, sin)
  {
    var w, per, phas := WaveLength(p).r, RealOf(p.per), RealOf(p.phas);
    calc {
      per * (t + w) + phas;
      per * t + w * per + phas;
      (per * t + phas) + 2.0 * Pi;
    }
    assert sin(per * (t + w) + phas) == sin(per * t + phas) by {
      assert sin((per * t + phas) + 2.0 * Pi) == sin(per * t + phas);
    }
  }

  /** The period term of the sine argument: nothing, "t", "-t" or the two-decimal coefficient and "t". */
  function PeriodTerm(per: real): string {
    if per == 0.0 then ""
    else if per == 1.0 then "t"
    else if per == -1.0 then "-t"
    else Fmt2(per) + "t"
  }

  /** `_sin_arg_string()` */
  function SinArg(per: real, phas: real): string {
    var head := PeriodTerm(per);
    if phas == 0.0 then head
    else if phas < 0.0 then head + Fmt2(phas)
    else if head == "" then Fmt2(phas)
    else head + "+" + Fmt2(phas)
  }

  /** The sine argument is empty exactly when both period and phase are 0. */
  lemma SinArgEmpty(per: real, phas: real)
    ensures SinArg(per, phas) == "" <==> per == 0.0 && phas == 0.0
  {
    if per != 0.0 {
      assert |PeriodTerm(per)| > 0;
    }
  }

  /**
   * The argument opens with a minus sign exactly when its leading term is
   * negative: the period when there is one, otherwise the phase.
   */
  lemma SinArgSign(per: real, phas: real)
    requires per != 0.0 || phas != 0.0
    ensures SinArg(per, phas)[0] == '-' <==> per < 0.0 || (per == 0.0 && phas < 0.0)
  {
    var head := PeriodTerm(per);
    if per != 0.0 {
      assert head[0] == '-' <==> per < 0.0;
      assert SinArg(per, phas)[0] == head[0];
    } else {
      assert head == "";
    }
  }

  /**
   * The phase is written after the period term with its own sign: a "+" joins
   * a positive phase, a negative phase brings its "-", and a zero phase is left out.
   */
  lemma SinArgPhase(per: real, phas: real)
    requires per != 0.0
    ensures phas == 0.0 ==> SinArg(per, phas) == PeriodTerm(per)
    ensures phas > 0.0 ==> SinArg(per, phas) == PeriodTerm(per) + "+" + Fmt2(phas)
    ensures phas < 0.0 ==> SinArg(per, phas) == PeriodTerm(per) + Fmt2(phas)
    ensures phas != 0.0 ==> SinArg(per, phas)[|PeriodTerm(per)|] == (if phas > 0.0 then '+' else '-')
  {
    assert PeriodTerm(per) != "";
  }

  /**
   * Without a period term the phase stands alone: no "+" is written before a
   * positive phase, a negative one brings its "-", and a zero phase leaves the
   * argument empty.
   */
  lemma SinArgPhaseOnly(phas: real)
    ensures phas == 0.0 ==> SinArg(0.0, phas) == ""
    ensures phas != 0.0 ==> SinArg(0.0, phas) == Fmt2(phas)
  {
  }

  /** `_create_sine()` */
  function Sine(p: Params): string {
    var arg := SinArg(RealOf(p.per), RealOf(p.phas));
    var amp := RealOf(p.amp);
    if amp == 0.0 || arg == "" then ""
    else if amp == 1.0 then "Sin(" + arg + ")"
    else if amp == -1.0 then "-Sin(" + arg + ")"
    else Fmt2(amp) + "Sin(" + arg + ")"
  }

  /** The sine term is empty exactly when amp is 0 or both period and phase are 0. */
  predicate FlatSine(p: Params) {
    RealOf(p.amp) == 0.0 || (RealOf(p.per) == 0.0 && RealOf(p.phas) == 0.0)
  }

  /**
   * A non-empty sine term is at least "Sin(.)" long, ends with ")" and opens
   * with a minus sign exactly when the amplitude is negative.
   */
  lemma SineShape(p: Params)
    ensures Sine(p) == "" <==> FlatSine(p)
    ensures Sine(p) != "" ==> |Sine(p)| >= 6 && Sine(p)[|Sine(p)| - 1] == ')'
    ensures Sine(p) != "" ==> (Sine(p)[0] == '-' <==> RealOf(p.amp) < 0.0)
  {
    SinArgEmpty(RealOf(p.per), RealOf(p.phas));
  }

  /** The translation term written after a non-empty sine term. */
  function TransTerm(trans: real): string {
    if trans == 0.0 then ""
    else if trans < 0.0 then Fmt2(trans)
    else "+" + Fmt2(trans)
  }

  /** `__str__()` */
  function Str(p: Params): string {
    var sine := Sine(p);
    if sine != "" then "S(t)=" + sine + TransTerm(RealOf(p.trans))
    else "S(t)=0.0"
  }

  /**
   * The text is "S(t)=0.0" exactly when the sine term vanishes, whatever the
   * translation; a constant baseline with a nonzero translation is still
   * written "S(t)=0.0".
   */
  lemma StrFlat(p: Params)
    ensures Str(p) == "S(t)=0.0" <==> FlatSine(p)
    ensures FlatSine(p) ==> forall c: Number :: Str(p.(trans := c)) == "S(t)=0.0"
  {
    SineShape(p);
    if !FlatSine(p) {
      assert |Str(p)| >= 11;
    }
    forall c: Number ensures FlatSine(p) ==> Str(p.(trans := c)) == "S(t)=0.0" {
      SineShape(p.(trans := c));
    }
  }

  /** The translation term is empty for 0 and otherwise carries the translation's sign. */
  lemma TransTermShape(trans: real)
    ensures TransTerm(trans) == "" <==> trans == 0.0
    ensures trans > 0.0 ==> TransTerm(trans)[0] == '+' && TransTerm(trans)[1..] == Fmt2(trans)
    ensures trans < 0.0 ==> TransTerm(trans)[0] == '-' && TransTerm(trans) == Fmt2(trans)
  {
    if trans > 0.0 {
      assert ("+" + Fmt2(trans))[1..] == Fmt2(trans);
    }
  }

  /**
   * Behind a non-empty sine term the translation is left out when it is 0, and
   * otherwise written with its sign: "+" when positive, "-" when negative, and
   * its two-decimal value after that.
   */
  lemma StrTranslation(p: Params)
    requires !FlatSine(p)
    ensures var n := 5 + |Sine(p)|;
      && |Str(p)| >= n
      && Str(p)[..n] == "S(t)=" + Sine(p)
      && (RealOf(p.trans) == 0.0 <==> |Str(p)| == n)
      && (RealOf(p.trans) > 0.0 ==> Str(p)[n] == '+' && Str(p)[n + 1..] == Fmt2(RealOf(p.trans)))
      && (RealOf(p.trans) < 0.0 ==> Str(p)[n] == '-' && Str(p)[n..] == Fmt2(RealOf(p.trans)))
  {
    SineShape(p);
    var head := "S(t)=" + Sine(p);
    var tail := TransTerm(RealOf(p.trans));
    TransTermShape(RealOf(p.trans));
    assert Str(p) == head + tail;
    assert |head| == 5 + |Sine(p)|;
    assert (head + tail)[..|head|] == head;
    assert (head + tail)[|head|..] == tail;
  }

  lemma Fmt2One()
    ensures Fmt2(1.0) == "1.00"
  {
    assert RoundHalfEven(100.0) == 100;
    assert NatString(1) == "1";
    assert TwoDigits(0) == "00";
    assert Group("1") == "1";
  }

  lemma Fmt2Two()
    ensures Fmt2(2.0) == "2.00"
  {
    assert RoundHalfEven(200.0) == 200;
    assert NatString(2) == "2";
    assert TwoDigits(0) == "00";
    assert Group("2") == "2";
  }

  /** The renderings pinned by the project's own tests. */
  lemma StrPinnedFlat()
    ensures Str(Params(PyInt(0), PyInt(0), PyInt(0), PyInt(0))) == "S(t)=0.0"
  {
  }

  lemma StrPinnedSine()
    ensures Str(Params(PyInt(1), PyInt(1), PyInt(0), PyInt(0))) == "S(t)=Sin(t)"
  {
  }

  lemma StrPinnedTranslated()
    ensures Str(Params(PyInt(1), PyInt(1), PyInt(0), PyInt(1))) == "S(t)=Sin(t)+1.00"
  {
    Fmt2One();
  }

  lemma StrPinnedPhased()
    ensures Str(Params(PyInt(1), PyInt(1), PyInt(1), PyInt(2))) == "S(t)=Sin(t+1.00)+2.00"
  {
    Fmt2One();
    Fmt2Two();
    assert SinArg(1.0, 1.0) == "t+1.00";
  }

  /** `__repr__()` */
  function Repr(p: Params, showFloat: real -> string): string {
    "BaseLine(amp=" + Show(p.amp, showFloat) + ",per=" + Show(p.per, showFloat)
    + ",phas=" + Show(p.phas, showFloat) + ",trans=" + Show(p.trans, showFloat) + ")"
  }

  /**
   * Reading `s` as a `__repr__` text whose first three fields are la, lb and lc
   * characters long: the labels stand where `__repr__` puts them, and `int`
   * parses the field after "amp=", "per=", "phas=" and "trans=" back to a, b, c
   * and d.
   */
  ghost predicate ReadsBack(s: string, la: nat, lb: nat, lc: nat, a: int, b: int, c: int, d: int) {
    var i := 13 + la;
    var j := i + 5 + lb;
    var k := j + 6 + lc;
    && k + 8 <= |s|
    && s[..13] == "BaseLine(amp=" && ParseInt(s[13..i]) == Some(a)
    && s[i..i + 5] == ",per=" && ParseInt(s[i + 5..j]) == Some(b)
    && s[j..j + 6] == ",phas=" && ParseInt(s[j + 6..k]) == Some(c)
    && s[k..k + 7] == ",trans=" && ParseInt(s[k + 7..|s| - 1]) == Some(d)
    && s[|s| - 1] == ')'
  }

  /**
   * For integer parameters the text of `__repr__` reads back: after each of the
   * labels "amp=", "per=", "phas=" and "trans=" stands the parameter's `str`,
   * which `int` parses back to the parameter.
   */
  lemma ReprRoundTrip(a: int, b: int, c: int, d: int, showFloat: real -> string)
    ensures ReadsBack(Repr(Params(PyInt(a), PyInt(b), PyInt(c), PyInt(d)), showFloat),
                      |IntString(a)|, |IntString(b)|, |IntString(c)|, a, b, c, d)
  {
    var s := Repr(Params(PyInt(a), PyInt(b), PyInt(c), PyInt(d)), showFloat);
    ReprText(a, b, c, d, showFloat);
    IntStringRoundTrip(a);
    IntStringRoundTrip(b);
    IntStringRoundTrip(c);
    IntStringRoundTrip(d);
    ReprFields(s, IntString(a), IntString(b), IntString(c), IntString(d), a, b, c, d);
  }

  /** The `__repr__` text of integer parameters, with `str` of each int. */
  lemma ReprText(a: int, b: int, c: int, d: int, showFloat: real -> string)
    ensures Repr(Params(PyInt(a), PyInt(b), PyInt(c), PyInt(d)), showFloat)
         == "BaseLine(amp=" + IntString(a) + ",per=" + IntString(b) + ",phas=" + IntString(c) + ",trans=" + IntString(d) + ")"
  {
  }

  /**
   * A text laid out as `__repr__` lays it out reads back, field by field, as the
   * numbers its fields parse to.
   */
  lemma ReprFields(s: string, fa: string, fb: string, fc: string, fd: string, a: int, b: int, c: int, d: int)
    requires s == "BaseLine(amp=" + fa + ",per=" + fb + ",phas=" + fc + ",trans=" + fd + ")"
    requires ParseInt(fa) == Some(a) && ParseInt(fb) == Some(b) && ParseInt(fc) == Some(c) && ParseInt(fd) == Some(d)
    ensures ReadsBack(s, |fa|, |fb|, |fc|, a, b, c, d)
  {
    var i := 13 + |fa|;
    var j := i + 5 + |fb|;
    var k := j + 6 + |fc|;
    ReprCuts(s, fa, fb, fc, fd, i, j, k);
  }

  /** The cuts of a text laid out as `__repr__` lays it out. */
  lemma ReprCuts(s: string, fa: string, fb: string, fc: string, fd: string, i: nat, j: nat, k: nat)
    requires s == "BaseLine(amp=" + fa + ",per=" + fb + ",phas=" + fc + ",trans=" + fd + ")"
    requires i == 13 + |fa| && j == i + 5 + |fb| && k == j + 6 + |fc|
    ensures && |s| == k + 8 + |fd|
      && s[..13] == "BaseLine(amp=" && s[13..i] == fa
      && s[i..i + 5] == ",per=" && s[i + 5..j] == fb
      && s[j..j + 6] == ",phas=" && s[j + 6..k] == fc
      && s[k..k + 7] == ",trans=" && s[k + 7..|s| - 1] == fd
      && s[|s| - 1] == ')'
  {
    var p1 := "BaseLine(amp=" + fa;
    var p2 := p1 + ",per=" + fb;
    var p3 := p2 + ",phas=" + fc;
    var p4 := p3 + ",trans=" + fd;
    assert s == p4 + ")";
    assert s[..|p4|] == p4;
    assert p4[..|p3|] == p3 && p3[..|p2|] == p2 && p2[..|p1|] == p1;
  }

  /** The rendering pinned by the project's own tests. */
  lemma ReprPinned(showFloat: real -> string)
    ensures Repr(Params(PyInt(1), PyInt(1), PyInt(0), PyInt(0)), showFloat) == "BaseLine(amp=1,per=1,phas=0,trans=0)"
  {
    assert IntString(1) == "1" && IntString(0) == "0";
  }
}

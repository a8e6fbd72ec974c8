# signals — a verified model of the signal generator core

The `signals` package builds synthetic one-dimensional signals. A signal is
made of three parts:

- a deterministic baseline `S(t) = amp·sin(per·t + phas) + trans`;
- a time-invariant Gaussian noise `N(mean, std)`;
- any number of perturbations, each acting only inside its own time window.

A spike perturbation is a burst around a position. A step perturbation changes
sign at a step time. All components share one base class. That class stores
its keyword parameters as instance attributes, warns when a default is used,
and refuses non-numeric keywords with `TypeError`. The signal evaluates the sum
of its parts at a time `t`. It also samples that sum on an evenly spaced grid
over `[t0, t1)`.

This project models that core in Dafny and proves what the code promises:

- which attributes every constructor sets and which warnings it emits;
- how each component computes its value, and where it raises;
- the text forms `__str__` and `__repr__` produce;
- how the signal sums its components;
- which rows a sample holds.

The modules follow the package:

| module | file | models |
|---|---|---|
| `Values` | values.dfy | Python values, the numeric test, exceptions, warnings, `math.sin` and numpy's normal stream |
| `Format` | format.dfy | `str` of an int and the `"{:,.2f}"` format |
| `Parameters` | parameters.dfy | `check_numeric` and `set_parameter` on values, and the attributes the base `construct_function` copies |
| `BaseLine` | baseline.dfy | signals/functions/baseline.py |
| `Noise` | noise.dfy | signals/functions/noise.py |
| `Perturbation` | perturbation.dfy | the window of signals/perturbations/perturbation.py |
| `Spike`, `Step` | spike.dfy, step.dfy | the spike and step perturbations |
| `Functions` | function.dfy | the class hierarchy as one class `Function`, whose `attrs` map is the instance dictionary the constructors fill in place |
| `Signals` | signal.dfy | the `Signal` class and its sampling |

Outside services are inputs. `Env.sin` stands for `math.sin`, and `Env.gauss(k)`
is the k-th standard-normal number of numpy's stream. Every evaluation takes the
stream position `k` and returns the position after it. So each property says
exactly which draws an evaluation consumes. `warnings.warn` appends to the log of
a `Diagnostics` object.

Where the code and its own documentation or tests differ, the model follows the
code:

- A perturbation acts on the OPEN window `(t0, t0 + support)`
  (perturbation.py:61). So the default `Perturbation()` is 0 at `t = 0.5`.
  Its test describes the window as `[0.5, 0.75)`, but its sample grid never
  hits `0.5`.
- The `create_arithmetic_sample` docstring promises 200 points. The code
  produces `sample_size` rows, 100 by default.
- A step perturbation reads its direction from the keyword `dir`, not
  `direction` (step_perturbation.py:29).
- A step evaluated exactly at its step time counts as "after the step"
  (`t < step` fails).
- The step docstring promises a draw from N(strength, strength·0.15)
  (step_perturbation.py:33). The code draws with scale `strength * 0.05`
  (step_perturbation.py:39-41), and `Step.Magnitude` follows the code.

## Model

| member | source | states |
|---|---|---|
| Values.Draw | signals/functions/noise.py:46-48 | numpy's normal draw: a negative scale raises ValueError and consumes nothing; otherwise the result minus `loc` is `scale·z` for the next normal number `z`, and the stream advances by one |
| Format.IntStringRoundTrip | src/signals/functions/baseline.py:87-92 | `str` of a Python int reads back as that int |
| Format.RoundHalfEven | src/signals/signal.py:41 | `round(x)` is within 1/2 of x, and an exact tie goes to the even integer |
| Format.UngroupGroup | src/signals/functions/baseline.py:55 | removing the thousands separators `","` inserts gives back the digits |
| Format.Fmt2 | signals/functions/noise.py:32 | `"{:,.2f}"` text ends in a point and two digits, and starts with `-` exactly for a negative value |
| Format.Fmt2RoundTrip | signals/functions/noise.py:32 | `"{:,.2f}"` text reads back as the value rounded to the nearest hundredth, ties to even, with the value's sign |
| Format.IntString | src/signals/functions/baseline.py:87-92 | `str` of an int is non-empty and starts with `-` exactly for a negative int; `Format.IntStringRoundTrip` reads it back |
| Parameters.Param | signals/functions/function.py:30-41 | the value `set_parameter` stores: the default when no keyword pair has the key, and otherwise (keys being distinct, as in a dict) the value of the pair with that key |
| Parameters.InDefaulted | signals/functions/function.py:30-33 | `set_parameter` warns exactly when the keyword is absent, naming it and the default |
| Parameters.NonNumericKeysAppend | signals/functions/function.py:49-53 | scanning a dict in two parts reports the first part's non-numeric keys, then the second's |
| Parameters.NonNumericKeysExact | signals/functions/function.py:49-53 | a key is reported exactly when it holds a value whose type is not int or float |
| Parameters.NonNumericKeysEmpty | signals/functions/function.py:54-57 | nothing is reported exactly when every value is numeric |
| Parameters.AsMapIsDict | signals/functions/function.py:18-19 | the base `construct_function` makes every keyword an attribute of the same name and value, and nothing else |
| BaseLine.View | src/signals/functions/baseline.py:38-39 | reading the parameters succeeds exactly when all four attributes exist |
| BaseLine.Build | src/signals/functions/baseline.py:16-27 | no ensures of its own; `BaseLine.BuildView` and `BaseLine.BuildWarnings` state its attributes and warnings, `Functions.Function.ConstructBaseLine` ties the object to it |
| BaseLine.BuildView | src/signals/functions/baseline.py:24-27 | a new baseline holds exactly the four attributes, each the keyword's value or 0 |
| BaseLine.BuildWarnings | src/signals/functions/baseline.py:24-27 | exactly the absent keywords among amp, per, phas and trans are warned about, with default 0 |
| BaseLine.Calculate | src/signals/functions/baseline.py:35-39 | TypeError for a non-number t; AttributeError for a missing parameter; otherwise amp·sin(per·t+phas)+trans |
| BaseLine.CalculateBuilt | src/signals/functions/baseline.py:29-39 | a baseline built from numeric keywords evaluates the formula with the given or default parameters |
| BaseLine.FormulaBounded | src/signals/functions/baseline.py:38-39 | when sin is bounded by 1, the baseline stays within abs(amp) of its translation |
| BaseLine.WaveLength | src/signals/functions/baseline.py:41-45 | the wave length is infinite exactly for a zero period, and otherwise times the period equals 2π |
| BaseLine.WaveLengthPeriod | src/signals/functions/baseline.py:41-45 | when sin has period 2π, shifting t by the wave length leaves the baseline unchanged |
| BaseLine.PeriodTerm | src/signals/functions/baseline.py:53-60 | no ensures of its own; the period part of the sine argument (`t`, `-t` or the formatted period before `t`, nothing for 0), pinned by `BaseLine.SinArgSign`, `BaseLine.SinArgPhase` and `BaseLine.StrPinnedSine` |
| BaseLine.SinArg | src/signals/functions/baseline.py:47-69 | no ensures of its own; `BaseLine.SinArgEmpty`, `BaseLine.SinArgSign`, `BaseLine.SinArgPhase` and `BaseLine.SinArgPhaseOnly` state when it is empty, its sign and how the phase is joined |
| BaseLine.SinArgEmpty | src/signals/functions/baseline.py:47-69 | the sine argument is empty exactly when period and phase are both 0 |
| BaseLine.SinArgSign | src/signals/functions/baseline.py:53-66 | the argument starts with `-` exactly when its leading term (the period, else the phase) is negative |
| BaseLine.SinArgPhase | src/signals/functions/baseline.py:61-68 | after a period term, the phase is left out when 0, joined by `+` when positive, and brings its own `-` when negative |
| BaseLine.SinArgPhaseOnly | src/signals/functions/baseline.py:61-68 | without a period term the argument is empty for a zero phase and otherwise the phase alone, with no `+` before a positive one |
| BaseLine.Sine | src/signals/functions/baseline.py:71-85 | no ensures of its own; `BaseLine.SineShape` states when it is empty, its closing `)` and its sign |
| BaseLine.SineShape | src/signals/functions/baseline.py:71-85 | the sine term is empty exactly when amp is 0 or the argument is empty; otherwise it ends in `)` and starts with `-` exactly for a negative amp |
| BaseLine.Str | src/signals/functions/baseline.py:94-106 | no ensures of its own; `BaseLine.StrFlat`, `BaseLine.StrTranslation` and the four `BaseLine.StrPinned*` lemmas state its text |
| BaseLine.StrFlat | src/signals/functions/baseline.py:94-106 | the text is `S(t)=0.0` exactly when the sine term vanishes, whatever the translation |
| BaseLine.TransTerm | src/signals/functions/baseline.py:99-103 | no ensures of its own; `BaseLine.TransTermShape` states it |
| BaseLine.TransTermShape | src/signals/functions/baseline.py:99-103 | the translation term is empty for 0, `+` and the value for a positive one, and the signed value for a negative one |
| BaseLine.StrTranslation | src/signals/functions/baseline.py:94-103 | behind a non-empty sine term, the text carries the translation with its sign, and nothing for 0 |
| BaseLine.StrPinnedFlat | tests/functions_tests/baseline_test.py:18 | `BaseLine()` prints `S(t)=0.0` |
| BaseLine.StrPinnedSine | tests/functions_tests/baseline_test.py:19 | amp=1, per=1 prints `S(t)=Sin(t)` |
| BaseLine.StrPinnedTranslated | tests/functions_tests/baseline_test.py:20 | adding trans=1 prints `S(t)=Sin(t)+1.00` |
| BaseLine.StrPinnedPhased | tests/functions_tests/baseline_test.py:21 | phas=1, trans=2 prints `S(t)=Sin(t+1.00)+2.00` |
| BaseLine.Repr | src/signals/functions/baseline.py:87-92 | no ensures of its own; `BaseLine.ReprRoundTrip` reads every integer field back, `BaseLine.ReprPinned` gives the tested text |
| BaseLine.ReprRoundTrip | src/signals/functions/baseline.py:87-92 | for integer parameters, the field after each of the labels `amp=`, `per=`, `phas=`, `trans=` in the `repr` text reads back through `int` as that parameter |
| BaseLine.ReprPinned | tests/functions_tests/baseline_test.py:24-25 | `repr` of the integer parameters 1, 1, 0, 0 is `BaseLine(amp=1,per=1,phas=0,trans=0)` |
| Noise.Build | signals/functions/noise.py:14-29 | no ensures of its own; `Noise.BuildDeviation` states its attributes and warning, `Noise.CalculateBuilt` and `Noise.NonPositiveBroken` what a built noise does |
| Noise.BuildDeviation | signals/functions/noise.py:21-29 | the mean is always set; the deviation is set exactly when `std` is absent or positive; the warning is given exactly when it is not |
| Noise.Calculate | signals/functions/noise.py:43-49 | TypeError for a non-number t; AttributeError for a missing attribute; otherwise one draw N(mean, deviation) |
| Noise.TimeInvariant | signals/functions/noise.py:37-49 | the noise does not depend on t |
| Noise.CalculateBuilt | signals/functions/noise.py:14-49 | a noise with a positive or absent `std` always draws, yielding mean + std·z and advancing the stream by one |
| Noise.NonPositiveBroken | signals/functions/noise.py:22-25 | after a non-positive `std`, calculate, str and repr all raise AttributeError, and nothing is drawn |
| Noise.Str | signals/functions/noise.py:31-32 | `str` succeeds exactly when mean and deviation are set |
| Noise.StrRoundTrip | signals/functions/noise.py:31-32 | the two fields of `N(m,d)` read back as mean and deviation rounded to the hundredth |
| Noise.Repr | signals/functions/noise.py:34-35 | `repr` succeeds exactly when mean and deviation are set |
| Noise.ReprIntegers | tests/functions_tests/noise_test.py:16-19 | `repr` of a noise built from any integer mean and a positive integer std is `Noise(mean=m,std=s)` with Python's `str` of each |
| Perturbation.BuildBase | signals/perturbations/perturbation.py:21-31 | the window sets `_t0`, `_support` and `_strength` to the keyword's value or 0.5, 0.25 and 1, keeps every other attribute, and appends one warning per absent keyword in that order |
| Perturbation.BuildBaseDefaults | tests/perturbation_tests/perturbation_tests.py:10-11 | without keywords the window is t0 0.5, support 0.25, strength 1, and each default is warned about |
| Perturbation.InSupport | signals/perturbations/perturbation.py:33-44 | TypeError for a non-number; otherwise whether it lies in the closed window [t0, t0+support] |
| Perturbation.Indicator | signals/perturbations/perturbation.py:55-64 | 1 exactly strictly inside the window, 0 otherwise |
| Perturbation.IndicatorWithinSupport | signals/perturbations/perturbation.py:33-64 | the active window lies inside the support window, and they differ only at the two end points |
| Perturbation.Combine | signals/perturbations/perturbation.py:66-76 | the magnitude's value inside the open window and 0 outside; a failure passes through; the stream stays where the magnitude left it |
| Perturbation.CombineOutside | signals/perturbations/perturbation.py:73-76 | outside the open window a perturbation contributes exactly 0 |
| Perturbation.Magnitude | signals/perturbations/perturbation.py:46-53 | the base perturbation's magnitude is its strength, AttributeError when `_strength` is missing, and nothing is drawn |
| Perturbation.DefaultWindow | signals/perturbations/perturbation.py:46-64 | with default parameters the value is 1 strictly inside (0.5, 0.75) and 0 elsewhere |
| Spike.Build | signals/perturbations/spike_perturbation.py:14-28 | no ensures of its own; `Spike.BuildPosition` states its attributes and warning |
| Spike.BuildPosition | signals/perturbations/spike_perturbation.py:22-28 | the position warning is given exactly for a position outside the closed window; width and position are stored with defaults 0.3 and 0.8 |
| Spike.Magnitude | signals/perturbations/spike_perturbation.py:30-42 | one draw N(s, 0.15·s), kept on the peak band abs(t − position) < width/2 and scaled by 0.1 off it |
| Spike.Peak | signals/perturbations/spike_perturbation.py:39 | no ensures of its own; the peak band abs(t − position) < width/2, used by the contract of `Spike.Magnitude` and by `Spike.Bands` |
| Spike.Value | signals/perturbations/perturbation.py:66-76 | no ensures of its own; `calculate` of a spike is `Perturbation.Combine` of `Spike.Magnitude`, whose contracts give its value and draw; `Spike.NegativeStrength` and `Spike.OutsideWindow` state it directly |
| Spike.NegativeStrength | signals/perturbations/spike_perturbation.py:39-42 | a negative strength makes every evaluation raise ValueError without drawing |
| Spike.OutsideWindow | signals/perturbations/spike_perturbation.py:39-42 | outside the open window a spike is 0, yet still consumes one draw |
| Spike.Bands | tests/perturbation_tests/perturbation_tests.py:41-44 | in the window, with a draw within 40% of s, the value lies in [0.6s, 1.4s] on the peak band and in [0.06s, 0.14s] off it |
| Step.Build | src/signals/perturbations/step_perturbation.py:15-29 | no ensures of its own; `Step.BuildStep` states its attributes and warning |
| Step.BuildStep | src/signals/perturbations/step_perturbation.py:23-29 | the step warning is given exactly for a step outside the closed window; step and direction (from `dir`) are stored with default 1 |
| Step.Magnitude | src/signals/perturbations/step_perturbation.py:31-46 | a negative strength raises ValueError without drawing; otherwise one draw x ~ N(s, 0.05·s), negated before the step, times the direction |
| Step.Oriented | src/signals/perturbations/step_perturbation.py:42-46 | no ensures of its own; the draw negated before the step and times the direction, used by the contract of `Step.Magnitude` and by `Step.Bands` |
| Step.Value | signals/perturbations/perturbation.py:66-76 | no ensures of its own; `calculate` of a step is `Perturbation.Combine` of `Step.Magnitude`; `Step.OutsideWindow` and `Step.InWindow` state it directly |
| Step.OutsideWindow | src/signals/perturbations/step_perturbation.py:39-46 | outside the open window a step is 0, yet still consumes one draw |
| Step.InWindow | src/signals/perturbations/step_perturbation.py:39-46 | inside the open window a step is the oriented draw |
| Step.Bands | src/signals/perturbations/step_perturbation.py:31-46 | for a draw within 30% of s, the value's magnitude is within 30% of s·abs(dir); its sign is negative exactly before the step for dir > 0, and exactly from the step on for dir < 0 |
| Functions.Diagnostics.Warn | signals/functions/function.py:31-32 | a warning is appended to the log |
| Functions.Construct | signals/functions/function.py:5-10 | no ensures of its own; the window (for perturbations) and then the class's `construct_function`; `Functions.PlainAttributes`, `Functions.PerturbationAttributes` and the `Build` lemmas of each class state the result, `Functions.Function.New` ties the object to it |
| Functions.CalculateOn | signals/functions/function.py:71-77 | no ensures of its own; `calculate` of each class, stated by `Functions.TimeCheck`, `Functions.AtMostOneDraw` and each class's `Calculate`/`Value` lemmas |
| Functions.TimeCheck | signals/functions/function.py:71-77 | the plain class returns 0 for any argument; perturbations refuse any time but int, float and numpy float64; baseline and noise refuse all but int and float |
| Functions.AtMostOneDraw | signals/perturbations/spike_perturbation.py:39-42 | an evaluation consumes at most one draw, and none for the plain class, baseline and base perturbation |
| Functions.PlainAttributes | tests/functions_tests/functions_test.py:7-8 | the plain class stores exactly its keywords and warns about nothing |
| Functions.PerturbationAttributes | signals/perturbations/perturbation.py:13-19 | the base perturbation keeps its window and also stores every keyword under its own name, the keywords winning |
| Functions.DefaultPerturbation | tests/perturbation_tests/perturbation_tests.py:13-22 | `Perturbation().calculate(t)` is 1 strictly inside (0.5, 0.75) and 0 elsewhere, and draws nothing |
| Functions.Function.New | signals/functions/function.py:5-10 | a non-numeric keyword raises TypeError listing every offending key and yields no object; otherwise a new object whose attributes and warnings are its class's construction |
| Functions.Function.Init | signals/perturbations/perturbation.py:13-19 | TypeError with the offending keys before anything is assigned; otherwise the window first (for perturbations), then `construct_function` |
| Functions.Function.CheckNumeric | signals/functions/function.py:43-57 | None when every value is numeric; otherwise the offending keys in dict order |
| Functions.Function.SetParameter | signals/functions/function.py:21-41 | an absent key stores the default and warns; a non-numeric value raises TypeError and changes nothing; otherwise the value is stored |
| Functions.Function.SetBaseParameters | signals/perturbations/perturbation.py:21-31 | the window attributes as `BuildBase` describes |
| Functions.Function.ConstructFunction | signals/functions/function.py:12-19 | the attributes and warnings of each class's `construct_function` |
| Functions.Function.ConstructBaseLine | src/signals/functions/baseline.py:16-27 | the baseline's attributes and warnings as `BaseLine.Build` describes |
| Functions.Function.ConstructNoise | signals/functions/noise.py:14-29 | the noise's attributes and warnings as `Noise.Build` describes |
| Functions.Function.ConstructSpike | signals/perturbations/spike_perturbation.py:14-28 | the spike's attributes and warnings as `Spike.Build` describes |
| Functions.Function.ConstructStep | src/signals/perturbations/step_perturbation.py:15-29 | the step's attributes and warnings as `Step.Build` describes |
| Functions.Function.CopyKeywords | signals/functions/function.py:18-19 | the loop stores every keyword under its own name and warns about nothing |
| Functions.Function.Calculate | signals/functions/function.py:71-77 | no ensures of its own; `calculate(t)` of the object's class on its attributes, that is `Functions.CalculateOn` |
| Functions.Function.Evaluate | signals/functions/function.py:59-69 | TypeError for a non-number t; otherwise the pair (t, calculate(t)), or calculate's exception |
| Signals.SampleSize | src/signals/signal.py:36-43 | 100 without the keyword; TypeError for a non-number; an int size is kept; a float size is rounded to within 1/2, an exact tie going to the even integer |
| Signals.SampleSizeChecked | src/signals/signal.py:33-39 | once the baseline accepted the keywords, the sample size cannot raise |
| Signals.SumPertsShift | src/signals/signal.py:67-73 | starting the sum a further along adds a to the result, and a failure stays a failure |
| Signals.SumPertsAppend | src/signals/signal.py:71-73 | appending a perturbation adds its value, computed where the stream stands after the earlier ones |
| Signals.AddPerturbations | src/signals/signal.py:71-73 | the loop over the perturbations computes their sum in order, None as soon as one raises |
| Signals.Signal.Init | src/signals/signal.py:33-35 | the fields after construction: no perturbations |
| Signals.Signal.New | src/signals/signal.py:25-43 | a baseline and a noise from the same keywords, no perturbations, the rounded sample size, and their warnings in order; TypeError for a non-numeric keyword |
| Signals.Signal.AddPerturbation | src/signals/signal.py:45-58 | TypeError for anything that is not a numeric function, leaving the list unchanged; otherwise the function is appended, and the first time the list is created |
| Signals.Signal.Calculate | src/signals/signal.py:60-78 | baseline plus noise plus every perturbation in order, or None as soon as one raises |
| Signals.Signal.NonNumericTime | src/signals/signal.py:67-76 | a time that is not an int or a float gives None, and nothing is drawn |
| Signals.Signal.Decomposition | src/signals/signal.py:67-73 | the value is baseline + noise + the sum of the perturbations, and baseline + noise without any |
| Signals.Signal.Tag | src/signals/signal.py:107-109 | `PERT` exactly when a perturbation was added, `NORMAL` otherwise |
| Signals.Signal.SampleClock | src/signals/signal.py:95-103 | after n rows the clock stands at t0 + n·step |
| Signals.Signal.SamplePrefix | src/signals/signal.py:98-103 | a longer sample starts with the shorter one |
| Signals.Signal.SampleTimes | src/signals/signal.py:95-103 | row i is taken at t0 + i·step |
| Signals.Signal.CreateArithmeticSample | src/signals/signal.py:80-111 | ValueError for t1 == t0 or t1 < t0; ZeroDivisionError for a zero sample size; otherwise the tag and one row per sample on the grid, each the signal's value there |
| Signals.GridInRange | src/signals/signal.py:91-103 | the grid of n rows over [t0, t1) strictly increases and stays in the half-open interval |

## Left out

- `create_time_sample` (signal.py:113-147) is left out. It depends on the wall clock and on sleeping.
- The normal distribution itself is not modelled. The standard-normal numbers numpy draws are an input stream, `Env.gauss`.
- `math.sin` is an input function, `Env.sin`. `math.pi` is a real constant, and `math.inf` is the `Infinite` case of `BaseLine.WaveLength`.
- Floating point is not modelled: numbers are exact reals. `round`, the `"{:,.2f}"` format and the grid of a sample are computed exactly. In particular, `t += step` does not accumulate rounding error.
- `str` of a Python float is a parameter, `showFloat`. Only `str` of an int is spelled out.
- The pandas DataFrame of a sample is a sequence of `(t, value)` rows.
- `print` of the caught errors in `Signal.calculate` and `create_arithmetic_sample` is left out. Only `warnings.warn` goes to the `Diagnostics` log.
- The `check_sign=True` argument of `set_base_parameters` (perturbation.py:29-31) is treated as a no-op. The `set_parameter` of function.py:21 has no such parameter, so as written every perturbation constructor (the base class, spike and step) raises TypeError for an unexpected keyword argument at perturbation.py:29. The model follows the evidently intended behaviour, storing the three window parameters as `set_parameter` does.
- `Signals.Signal.CreateArithmeticSample` assumes a pandas version that still has `DataFrame.append` (removed in pandas 2.0; the package pins no version). With such a version the `except` branch (signal.py:104-105) is never taken, because `Signal.calculate` catches every exception itself. On pandas 2.0 or later every iteration raises AttributeError at signal.py:101, the branch runs, `t += step` is skipped, and the method returns no rows; the model does not capture that.
- `Signals.Signal.CreateArithmeticSample` takes its limits as two reals and has no default arguments. The defaults `t0=0, t1=1` are not modelled (a caller passes 0.0 and 1.0). Non-numeric limits are not modelled: the TypeError that `t1 < t0` or `t1 - t0` raises for them. Nor are numpy float64 limits, whose rows would all hold None because the baseline refuses that type. Nor a bool `t0`, whose first row would hold None.
- `Signals.SampleSize`: its TypeError is stated but cannot arise through `Signals.Signal.New` (see `Signals.SampleSizeChecked`).
- Sample sizes: a size of 0 is `ZeroDivisionError` and a negative size gives zero rows, as `range` of a negative number does. Neither is assumed away.
- Functions.CalculateOn: keywords named like a method or special attribute are not modelled. The plain `Function` and the base `Perturbation` store every keyword as an instance attribute (function.py:18-19, through `__setattr__` at function.py:33 and 41). A keyword such as `calculate`, `perturbation_function`, `_char_of_support` or `evaluate` then hides the method of that name, and calling it raises TypeError ("object is not callable"). The model treats attributes and methods as separate, so such an object still evaluates as the class defines.
- Functions.Function.New: for the same reason, construction with a keyword `set_parameter` followed by further keywords, or with `__class__` or `__dict__`, raises TypeError in the source. The model constructs the object normally.
- Python's dynamic dispatch is replaced by the closed set of six classes in `Functions.Kind`. Subclasses outside the package are not modelled.

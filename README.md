# Power-Electronics-Workbench converter formulas in Dafny

This project models the formula library for the two basic non-isolated DC-DC
converters:

- the step-up (Boost) formulas: duty cycle, average inductor current,
  peak-to-peak inductor ripple, the (minimum, maximum) inductor-current band,
  minimum inductance for continuous conduction, and output ripple voltage;
- the step-down (Buck) minimum inductance, with its internal duty cycle
  `v_out / v_in`.

Each source function is a single arithmetic expression with no state, so each
one becomes a Dafny `function` over `real`, with the source's parameters in
the source's order. `boost.dfy` holds module `Boost` and `buck.dfy` holds
module `Buck`. The functions do no range checks, just like the source. A zero
denominator is excluded by a `requires` clause. Physical ranges (positive
inductance, a step-up, a positive load) appear only as lemma hypotheses.

The lemmas prove how the formulas fit together:

- the ripple band is centred on the load current;
- the band's width is the delta-current formula;
- the minimum inductance is the one inductance that puts the band's lower
  edge at zero, and continuous conduction holds exactly above it;
- the boost duty cycle lies in [0, 1) for a step-up;
- the buck minimum inductance lies between 0 and `v_in * T / (8 * i_load)`,
  and it reaches that bound at `v_out == v_in / 2`.

`Boost.RippleCurrent` returns the pair as (minimum, maximum), as the code at
power_electronics_workbench/boost.py:86 does. The docstring of that function
(power_electronics_workbench/boost.py:82) names them the other way round,
"maximum and minimum". The model follows the code and the documented
(minimum, maximum) convention.

The Buck's internal duty cycle step is factored out as `Buck.DutyCycle`. In
the source it is a local variable of `buck_min_inductance`.

## Model

| member | source | states |
|---|---|---|
| Boost.AvgInductorCurrent | power_electronics_workbench/boost.py:15 | input power equals output power (`r * v_in == v_out * i_load`), and for nonzero `v_out` the result is `i_load / (1 - D)`, where `D` is the boost duty cycle of the same voltages |
| Boost.AvgCurrentAtLeastLoad | power_electronics_workbench/boost.py:15 | for `0 < v_in <= v_out` and `i_load >= 0` the average inductor current is at least the load current, and strictly more when `v_in < v_out` and `i_load > 0` |
| Boost.DeltaLoadCurrent | power_electronics_workbench/boost.py:33 | inductor law over the on-time: `r * L == v_in * D * T`; the ripple is non-negative for a non-negative volt-second product and a positive inductance |
| Boost.DutyCycle | power_electronics_workbench/boost.py:47 | inverts the ideal transfer ratio (`v_in == v_out * (1 - r)`); the result is zero exactly when `v_in == v_out` |
| Boost.DutyCycleStepUpRange | power_electronics_workbench/boost.py:47 | for `0 < v_in <= v_out` the duty cycle lies in [0, 1) |
| Boost.MinInductance | power_electronics_workbench/boost.py:65 | zero exactly when the volt-second product is zero; otherwise the delta-current formula at this inductance gives exactly `2 * i_load` |
| Boost.RippleCurrent | power_electronics_workbench/boost.py:84-86 | the pair is (min, max): its midpoint is `i_load`, its width equals `DeltaLoadCurrent` of the same inputs, and min <= max for a non-negative volt-second product and a positive inductance |
| Boost.MinInductanceIsBoundary | power_electronics_workbench/boost.py:65 | at the minimum inductance (nonzero volt-second product and load) the band is exactly `(0, 2 * i_load)` |
| Boost.LowerEdgeZeroIffMinInductance | power_electronics_workbench/boost.py:84-86 | for nonzero inductance and load, the band's lower edge is zero if and only if the inductance equals the minimum inductance |
| Boost.ContinuousIffAboveMinInductance | power_electronics_workbench/boost.py:84-86 | for positive load and inductance and a non-negative volt-second product, the lower edge is positive if and only if the inductance exceeds the minimum, and non-negative if and only if the inductance is at least the minimum |
| Boost.RippleVoltage | power_electronics_workbench/boost.py:103 | capacitor charge balance over the on-time: `r * f * C == i_load * D`; non-negative for `i_load, D >= 0` and `f, C > 0` |
| Boost.RippleVoltageLinearInLoad | power_electronics_workbench/boost.py:103 | the ripple voltage is linear in the load current: scaling `i_load` by `k` (for example doubling it) scales the result by `k` |
| Boost.WorkedExample | power_electronics_workbench/boost.py:15-103 | the 10 V to 20 V example: duty cycle 0.5, average current 4, delta 0.5, minimum inductance 1.25e-5, band (1.75, 2.25) with the minimum first, and ripple voltage 1 |
| Buck.DutyCycle | power_electronics_workbench/buck.py:15 | the output is the input scaled by the duty cycle (`v_out == r * v_in`); the result lies in [0, 1] for `0 <= v_out <= v_in` and `v_in > 0` |
| Buck.MinInductance | power_electronics_workbench/buck.py:15-16 | the result times `2 * i_load` equals `v_in * D * (1 - D) * T` with `D = v_out / v_in`, that is the result is `v_in * D * (1 - D) * T / (2 * i_load)`; its range and zero cases are stated by MinInductanceBounds and MinInductanceZeroCases |
| Buck.MinInductanceZeroCases | power_electronics_workbench/buck.py:16 | the result is exactly zero when `v_out == v_in` and when `v_out == 0` |
| Buck.MinInductanceBounds | power_electronics_workbench/buck.py:15-16 | for `0 <= v_out <= v_in`, `v_in > 0`, `T >= 0` and `i_load > 0` the result lies between 0 and `v_in * T / (8 * i_load)` |
| Buck.MinInductanceAtHalfInput | power_electronics_workbench/buck.py:15-16 | the upper bound is reached at `v_out == v_in / 2` |
| Buck.WorkedExample | power_electronics_workbench/buck.py:15-16 | the 10 V to 5 V example: duty cycle 0.5 and minimum inductance 6.25e-6 |

## Left out

- Floating point: the source computes in IEEE-754 binary floating point. The
  model computes over exact reals, so the identities above (centring, width,
  zero lower edge) hold exactly, but not bit for bit for the source's floats.
- Division by zero: the source raises `ZeroDivisionError` when a function's
  own divisor is zero. That is `v_in` in the average inductor current and in
  the buck minimum inductance (which also divides by `i_load`), `v_out` in
  the boost duty cycle, `inductance` in the delta current and in the ripple
  band, `i_load` in the boost minimum inductance, and `frequency` or
  `capacitance` in the ripple voltage. The model excludes exactly those
  inputs with `requires` clauses instead of modelling the exception. Any
  other argument may be zero.
- The `typing.Tuple` import (power_electronics_workbench/boost.py:1) only
  annotates a return type. The pair is a Dafny tuple `(real, real)`.
- Purity and repeatability (the same inputs give the same output) hold for
  every Dafny function by construction, so no lemma states them.

/**
 * Closed-form sizing formulas for the non-isolated step-up (Boost) DC-DC
 * converter in continuous conduction mode.
 *
 * Every quantity is a real number: voltages in volts, currents in amperes,
 * the duty cycle dimensionless, the switching period in seconds, the
 * frequency in hertz, inductance in henries and capacitance in farads.
 * The formulas check no physical range; a zero denominator is excluded by
 * a `requires` clause, and physical ranges appear only as lemma hypotheses.
 */
module Boost {

  /** Average current through the inductor: `i_load * v_out / v_in`.
      In a lossless boost the input power `v_in * r` equals the output power
      `v_out * i_load`, and the inductor carries `i_load / (1 - D)`. */
  function AvgInductorCurrent(vOut: real, vIn: real, iLoad: real): (r: real)
    requires vIn != 0.0
    ensures r * vIn == vOut * iLoad
    ensures vOut != 0.0 ==> r == iLoad / (1.0 - DutyCycle(vOut, vIn))
  {
    iLoad * vOut / vIn
  }

  /** Peak-to-peak change of the inductor current over one switching period:
      `v_in * duty_cycle * time_period / inductance`. Across the on-time
      `D * T` the inductor sees `v_in`, so `L * di == v_in * D * T`. */
  function DeltaLoadCurrent(vIn: real, dutyCycle: real, timePeriod: real, inductance: real): (r: real)
    requires inductance != 0.0
    ensures r * inductance == vIn * dutyCycle * timePeriod
    ensures vIn * dutyCycle * timePeriod >= 0.0 && inductance > 0.0 ==> r >= 0.0
  {
    vIn * dutyCycle * timePeriod / inductance
  }

  /** Duty cycle that steps `v_in` up to `v_out`: `(v_out - v_in) / v_out`.
      It inverts the ideal transfer ratio `v_out == v_in / (1 - D)`. */
  function DutyCycle(vOut: real, vIn: real): (r: real)
    requires vOut != 0.0
    ensures vIn == vOut * (1.0 - r)
    ensures r == 0.0 <==> vIn == vOut
  {
    (vOut - vIn) / vOut
  }

  /** For a step-up (`0 < v_in <= v_out`) the duty cycle lies in [0, 1). */
  lemma DutyCycleStepUpRange(vOut: real, vIn: real)
    requires 0.0 < vIn <= vOut
    ensures 0.0 <= DutyCycle(vOut, vIn) < 1.0
  {
    var d := DutyCycle(vOut, vIn);
    assert vIn == vOut * (1.0 - d);
    SignOfScaled(1.0 - d, vOut);
    SignOfScaled(vOut - vIn, 1.0 / vOut);
  }

  /** Minimum inductance for continuous conduction:
      `v_in * duty_cycle * time_period / (2 * i_load)`. With this inductance
      the peak-to-peak ripple is exactly twice the load current. */
  function MinInductance(vIn: real, dutyCycle: real, timePeriod: real, iLoad: real): (r: real)
    requires iLoad != 0.0
    ensures r == 0.0 <==> vIn * dutyCycle * timePeriod == 0.0
    ensures r != 0.0 ==> DeltaLoadCurrent(vIn, dutyCycle, timePeriod, r) == 2.0 * iLoad
  {
    vIn * dutyCycle * timePeriod / (2.0 * iLoad)
  }

  /** The inductor-current band, returned as the ordered pair (minimum, maximum):
      `i_load -/+ v_in * duty_cycle * time_period / (2 * inductance)`. */
  function RippleCurrent(vIn: real, dutyCycle: real, timePeriod: real, inductance: real, iLoad: real): (r: (real, real))
    requires inductance != 0.0
    ensures (r.0 + r.1) / 2.0 == iLoad
    ensures r.1 - r.0 == DeltaLoadCurrent(vIn, dutyCycle, timePeriod, inductance)
    ensures vIn * dutyCycle * timePeriod >= 0.0 && inductance > 0.0 ==> r.0 <= r.1
  {
    var halfRipple := vIn * dutyCycle * timePeriod / (2.0 * inductance);
    (iLoad - halfRipple, iLoad + halfRipple)
  }

  /** Peak-to-peak output voltage ripple:
      `i_load * duty_cycle / frequency / capacitance`. During the on-time
      `D / f` the capacitor alone feeds the load, so `C * dv == i_load * D / f`. */
  function RippleVoltage(iLoad: real, dutyCycle: real, frequency: real, capacitance: real): (r: real)
    requires frequency != 0.0 && capacitance != 0.0
    ensures r * frequency * capacitance == iLoad * dutyCycle
    ensures iLoad >= 0.0 && dutyCycle >= 0.0 && frequency > 0.0 && capacitance > 0.0 ==> r >= 0.0
  {
    iLoad * dutyCycle / frequency / capacitance
  }

  /** For a step-up (`0 < v_in <= v_out`) the inductor carries at least the
      load current, and strictly more once the voltage is actually raised. */
  lemma AvgCurrentAtLeastLoad(vOut: real, vIn: real, iLoad: real)
    requires 0.0 < vIn <= vOut
    requires iLoad >= 0.0
    ensures AvgInductorCurrent(vOut, vIn, iLoad) >= iLoad
    ensures vIn < vOut && iLoad > 0.0 ==> AvgInductorCurrent(vOut, vIn, iLoad) > iLoad
  {
  }

  /** With the minimum inductance the band runs from exactly zero up to twice
      the load current: the boundary of continuous conduction. */
  lemma MinInductanceIsBoundary(vIn: real, dutyCycle: real, timePeriod: real, iLoad: real)
    requires vIn * dutyCycle * timePeriod != 0.0
    requires iLoad != 0.0
    ensures MinInductance(vIn, dutyCycle, timePeriod, iLoad) != 0.0
    ensures RippleCurrent(vIn, dutyCycle, timePeriod, MinInductance(vIn, dutyCycle, timePeriod, iLoad), iLoad)
            == (0.0, 2.0 * iLoad)
  {
  }

  /** The minimum inductance is the only inductance that puts the lower edge
      of the band at zero. */
  lemma LowerEdgeZeroIffMinInductance(vIn: real, dutyCycle: real, timePeriod: real, inductance: real, iLoad: real)
    requires inductance != 0.0
    requires iLoad != 0.0
    ensures RippleCurrent(vIn, dutyCycle, timePeriod, inductance, iLoad).0 == 0.0
            <==> inductance == MinInductance(vIn, dutyCycle, timePeriod, iLoad)
  {
  }

  /** For a positive load and a non-negative volt-second product the inductor
      current never reaches zero (continuous conduction) exactly when the
      inductance exceeds the minimum, and stays non-negative exactly when it
      is at least the minimum. */
  lemma ContinuousIffAboveMinInductance(vIn: real, dutyCycle: real, timePeriod: real, inductance: real, iLoad: real)
    requires vIn * dutyCycle * timePeriod >= 0.0
    requires inductance > 0.0
    requires iLoad > 0.0
    ensures RippleCurrent(vIn, dutyCycle, timePeriod, inductance, iLoad).0 > 0.0
            <==> inductance > MinInductance(vIn, dutyCycle, timePeriod, iLoad)
    ensures RippleCurrent(vIn, dutyCycle, timePeriod, inductance, iLoad).0 >= 0.0
            <==> inductance >= MinInductance(vIn, dutyCycle, timePeriod, iLoad)
  {
  }

  /** Scaling by a positive factor keeps the sign. */
  lemma SignOfScaled(x: real, k: real)
    requires k > 0.0
    ensures x > 0.0 <==> x * k > 0.0
    ensures x >= 0.0 <==> x * k >= 0.0
  {
  }

  /** The output ripple voltage is linear in the load current; in particular
      doubling the load doubles the ripple. */
  lemma RippleVoltageLinearInLoad(k: real, iLoad: real, dutyCycle: real, frequency: real, capacitance: real)
    requires frequency != 0.0 && capacitance != 0.0
    ensures RippleVoltage(k * iLoad, dutyCycle, frequency, capacitance)
            == k * RippleVoltage(iLoad, dutyCycle, frequency, capacitance)
  {
  }

  /** A 10 V to 20 V converter at 100 kHz with 100 uH, 10 uF and a 2 A load. */
  lemma WorkedExample()
    ensures DutyCycle(20.0, 10.0) == 0.5
    ensures AvgInductorCurrent(20.0, 10.0, 2.0) == 4.0
    ensures DeltaLoadCurrent(10.0, 0.5, 0.00001, 0.0001) == 0.5
    ensures MinInductance(10.0, 0.5, 0.00001, 2.0) == 0.0000125
    ensures RippleCurrent(10.0, 0.5, 0.00001, 0.0001, 2.0) == (1.75, 2.25)
    ensures RippleVoltage(2.0, 0.5, 100000.0, 0.00001) == 1.0
  {
  }
}

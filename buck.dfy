/**
 * Minimum inductance of the non-isolated step-down (Buck) DC-DC converter
 * in continuous conduction mode. As in the Boost module, quantities are
 * real numbers, a zero denominator is excluded by `requires`, and physical
 * ranges appear only as lemma hypotheses.
 */
module Buck {

  /** The buck's ideal duty cycle `v_out / v_in`, the intermediate step of
      MinInductance: the output is the input scaled by the on-time fraction. */
  function DutyCycle(vOut: real, vIn: real): (r: real)
    requires vIn != 0.0
    ensures vOut == r * vIn
    ensures 0.0 <= vOut <= vIn && vIn > 0.0 ==> 0.0 <= r <= 1.0
  {
    vOut / vIn
  }

  /** Minimum inductance for continuous conduction:
      `(v_in - v_out) * D * time_period / (2 * i_load)` with `D = v_out / v_in`.
      Written in terms of the duty cycle alone it is
      `v_in * D * (1 - D) * time_period / (2 * i_load)`. */
  function MinInductance(vOut: real, vIn: real, timePeriod: real, iLoad: real): (r: real)
    requires vIn != 0.0 && iLoad != 0.0
    ensures r * (2.0 * iLoad) == vIn * DutyCycle(vOut, vIn) * (1.0 - DutyCycle(vOut, vIn)) * timePeriod
  {
    var dutyCycle := DutyCycle(vOut, vIn);
    (vIn - vOut) * dutyCycle * timePeriod / (2.0 * iLoad)
  }

  /** No inductance is needed when the converter passes the input straight
      through or delivers no output voltage. */
  lemma MinInductanceZeroCases(vOut: real, vIn: real, timePeriod: real, iLoad: real)
    requires vIn != 0.0 && iLoad != 0.0
    requires vOut == vIn || vOut == 0.0
    ensures MinInductance(vOut, vIn, timePeriod, iLoad) == 0.0
  {
  }

  /** For a step-down with a positive load the result is non-negative and at
      most `v_in * time_period / (8 * i_load)`, because `D * (1 - D) <= 1/4`. */
  lemma MinInductanceBounds(vOut: real, vIn: real, timePeriod: real, iLoad: real)
    requires 0.0 <= vOut <= vIn && vIn > 0.0
    requires timePeriod >= 0.0
    requires iLoad > 0.0
    ensures 0.0 <= MinInductance(vOut, vIn, timePeriod, iLoad) <= vIn * timePeriod / (8.0 * iLoad)
  {
    var d := DutyCycle(vOut, vIn);
    var scale := vIn * timePeriod / (2.0 * iLoad);
    assert MinInductance(vOut, vIn, timePeriod, iLoad) == scale * (d * (1.0 - d));
    assert scale >= 0.0;
    assert 0.0 <= d * (1.0 - d);
    // D * (1 - D) == 1/4 - (D - 1/2)^2
    assert d * (1.0 - d) == 0.25 - (d - 0.5) * (d - 0.5);
    assert d * (1.0 - d) <= 0.25;
    assert scale * (d * (1.0 - d)) <= scale * 0.25;
    assert scale * 0.25 == vIn * timePeriod / (8.0 * iLoad);
  }

  /** The bound of MinInductanceBounds is reached at half the input voltage. */
  lemma MinInductanceAtHalfInput(vIn: real, timePeriod: real, iLoad: real)
    requires vIn != 0.0 && iLoad != 0.0
    ensures MinInductance(vIn / 2.0, vIn, timePeriod, iLoad) == vIn * timePeriod / (8.0 * iLoad)
  {
  }

  /** A 10 V to 5 V converter with a 10 us period and a 2 A load. */
  lemma WorkedExample()
    ensures DutyCycle(5.0, 10.0) == 0.5
    ensures MinInductance(5.0, 10.0, 0.00001, 2.0) == 0.00000625
  {
  }
}

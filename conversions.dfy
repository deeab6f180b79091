/** The unit conversions between dose, pump rate, perfusor rate and reservoir duration. */
module Conversions {

  /** The reservoir of the pump holds 3 ml; a vial holds 10 ml. */
  const DefaultPumpCapacity: real := 3.0
  const DefaultVialCapacity: real := 10.0

  /** Drug mass per hour (mg/h) that a dose (ng/kg/min) means for a patient of `weight` kg. */
  function MassPerHour(weight: real, dose: real): real {
    dose * weight / 1000.0 * 60.0 / 1000.0
  }

  /** `calculate_infusion_rate`: pump rate (µl/h) of undiluted drug at `concentration` mg/ml. */
  function InfusionRate(weight: real, dose: real, concentration: real): (rate: real)
    requires concentration != 0.0
    ensures rate * concentration / 1000.0 == MassPerHour(weight, dose)
  {
    var mcgPerMin := dose * weight / 1000.0;
    var mgPerHour := mcgPerMin * 60.0 / 1000.0;
    mgPerHour / concentration * 1000.0
  }

  /** `calculate_dose_from_infusion_rate`: the dose (ng/kg/min) a pump rate (µl/h) delivers. */
  function DoseFromInfusionRate(weight: real, rate: real, concentration: real): (dose: real)
    requires weight != 0.0
    ensures MassPerHour(weight, dose) == rate * concentration / 1000.0
  {
    var mgPerHour := rate * concentration / 1000.0;
    var mcgPerMin := mgPerHour * 1000.0 / 60.0;
    mcgPerMin / weight * 1000.0
  }

  /** `calculate_perfusor_rate`: syringe-driver rate (ml/h) of 1 ml of drug diluted to 50 ml. */
  function PerfusorRate(weight: real, dose: real, concentration: real): (rate: real)
    requires concentration != 0.0
    ensures rate * (concentration / 50.0) == MassPerHour(weight, dose)
  {
    var diluted := concentration / 50.0;
    var mcgPerMin := dose * weight / 1000.0;
    var mgPerHour := mcgPerMin * 60.0 / 1000.0;
    mgPerHour / diluted
  }

  /** `calculate_reservoir_duration`: days a reservoir of `volume` ml lasts at `rate` µl/h. */
  function ReservoirDuration(rate: real, volume: real := DefaultPumpCapacity): (days: real)
    requires rate != 0.0
    ensures days * 24.0 * rate == volume * 1000.0
  {
    var hours := volume * 1000.0 / rate;
    hours / 24.0
  }

  /** Converting a dose to a rate and back gives the dose. */
  lemma DoseRoundTrip(weight: real, dose: real, concentration: real)
    requires weight != 0.0 && concentration != 0.0
    ensures DoseFromInfusionRate(weight, InfusionRate(weight, dose, concentration), concentration) == dose
  {
    var rate := InfusionRate(weight, dose, concentration);
    var back := DoseFromInfusionRate(weight, rate, concentration);
    MassPerHourInjective(weight, back, dose);
  }

  /** Converting a rate to a dose and back gives the rate. */
  lemma RateRoundTrip(weight: real, rate: real, concentration: real)
    requires weight != 0.0 && concentration != 0.0
    ensures InfusionRate(weight, DoseFromInfusionRate(weight, rate, concentration), concentration) == rate
  {
    var dose := DoseFromInfusionRate(weight, rate, concentration);
    var back := InfusionRate(weight, dose, concentration);
    assert back * concentration == rate * concentration;
    CancelFactor(back, rate, concentration);
  }

  lemma MassPerHourInjective(weight: real, d1: real, d2: real)
    requires weight != 0.0
    requires MassPerHour(weight, d1) == MassPerHour(weight, d2)
    ensures d1 == d2
  {
    assert d1 * weight == d2 * weight;
    CancelFactor(d1, d2, weight);
  }

  lemma CancelFactor(a: real, b: real, k: real)
    requires k != 0.0 && a * k == b * k
    ensures a == b
  {
    assert (a - b) * k == 0.0;
  }

  /** The perfusor runs the whole dose in 50 times the volume, in ml/h rather than µl/h. */
  lemma PerfusorIsTwentiethOfInfusion(weight: real, dose: real, concentration: real)
    requires concentration != 0.0
    ensures PerfusorRate(weight, dose, concentration) == InfusionRate(weight, dose, concentration) / 20.0
  {
    var p := PerfusorRate(weight, dose, concentration);
    var i := InfusionRate(weight, dose, concentration);
    assert p * concentration == (i / 20.0) * concentration;
    CancelFactor(p, i / 20.0, concentration);
  }

  /** For a positive patient weight and concentration, a larger dose needs a faster pump. */
  lemma InfusionRateIncreasing(weight: real, d1: real, d2: real, concentration: real)
    requires weight > 0.0 && concentration > 0.0 && d1 < d2
    ensures InfusionRate(weight, d1, concentration) < InfusionRate(weight, d2, concentration)
  {
    var r1 := InfusionRate(weight, d1, concentration);
    var r2 := InfusionRate(weight, d2, concentration);
    assert d1 * weight < d2 * weight;
    assert (r2 - r1) * concentration > 0.0;
  }

  /** 70 kg at 10 ng/kg/min of the 5 mg/ml drug runs at 8.4 µl/h, and at that rate a 3 ml reservoir
      would last more than the 14 days the drug may stay in it. */
  lemma WorkedExample()
    ensures InfusionRate(70.0, 10.0, 5.0) == 8.4
    ensures ReservoirDuration(8.4) > 14.0
    ensures DoseFromInfusionRate(70.0, 8.4, 5.0) == 10.0
  {
  }
}

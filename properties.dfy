/** What a completed run of the escalation promises, stated over the rows it returns. */
module Properties {
  import opened Ladder
  import opened Rounding
  import opened Conversions
  import opened Schedule

  // ---------------------------------------------------------------------------------------
  // The step counters in closed form
  // ---------------------------------------------------------------------------------------

  /** The dose climbs by the same step every increase. */
  lemma {:induction false} DoseAfterClosedForm(plan: Plan, k: nat)
    requires plan.Valid()
    ensures plan.DoseAfter(k) == plan.startDose + k as real * plan.DoseStep()
  {
    if k > 0 {
      DoseAfterClosedForm(plan, k - 1);
      assert (k - 1) as real * plan.DoseStep() + plan.DoseStep() == k as real * plan.DoseStep();
    }
  }

  /** After the last increase the exact dose is the target dose. */
  lemma {:induction false} FinalDoseIsTarget(plan: Plan)
    requires plan.Valid()
    ensures plan.DoseAfter(plan.TotalIncreases()) == plan.targetDose
  {
    var n := plan.TotalIncreases();
    DoseAfterClosedForm(plan, n);
    assert n as real * ((plan.targetDose - plan.startDose) / n as real) == plan.targetDose - plan.startDose;
  }

  /** The calendar advances by the same whole number of days every increase. */
  lemma {:induction false} DayAfterClosedForm(plan: Plan, k: nat)
    requires plan.Valid()
    ensures plan.DayAfter(k) == plan.startDay + k * plan.DayStep()
  {
    if k > 0 {
      DayAfterClosedForm(plan, k - 1);
      assert (k - 1) * plan.DayStep() + plan.DayStep() == k * plan.DayStep();
    }
  }

  /** The calendar never goes back. */
  lemma {:induction false} DayAfterMonotone(plan: Plan, i: nat, j: nat)
    requires plan.Valid() && i <= j
    ensures plan.DayAfter(i) <= plan.DayAfter(j)
  {
    DayAfterClosedForm(plan, i);
    DayAfterClosedForm(plan, j);
    assert j * plan.DayStep() - i * plan.DayStep() == (j - i) * plan.DayStep();
  }

  /** The last row falls no later than `weeks` weeks after the start, and exactly on it only
      when the increases per week divide 7 (one or seven a week): the calendar drops the
      fraction of a day each increase would add. */
  lemma {:induction false} LastDayWithinWeeks(plan: Plan)
    requires plan.Valid()
    ensures plan.DayAfter(plan.TotalIncreases()) <= plan.startDay + 7 * plan.weeks
    ensures plan.DayAfter(plan.TotalIncreases()) == plan.startDay + 7 * plan.weeks
            <==> 7 % plan.increasesPerWeek == 0
  {
    var w, ipw := plan.weeks, plan.increasesPerWeek;
    var last := plan.DayAfter(plan.TotalIncreases());
    DayAfterClosedForm(plan, plan.TotalIncreases());
    assert plan.DayStep() == 7 / ipw;
    assert last == plan.startDay + (w * ipw) * (7 / ipw);
    WholeWeeks(w, ipw);
  }

  /** `w` weeks of `ipw` increases a week, each `7 / ipw` whole days long, fall short of `w`
      weeks by `w` times the remainder `7 % ipw`. */
  lemma WholeWeeks(w: int, ipw: int)
    requires w >= 1 && ipw >= 1
    ensures (w * ipw) * (7 / ipw) == 7 * w - w * (7 % ipw)
    ensures w * (7 % ipw) >= 0
    ensures w * (7 % ipw) == 0 <==> 7 % ipw == 0
  {
    var q, r := 7 / ipw, 7 % ipw;
    assert ipw * q == 7 - r;
    assert (w * ipw) * q == w * (ipw * q);
    assert w * (7 - r) == 7 * w - w * r;
    MultipleBounds(w, r);
  }

  /** With more than seven increases a week the calendar never leaves the start day. */
  lemma {:induction false} DatesStandStill(plan: Plan, k: nat)
    requires plan.Valid() && plan.increasesPerWeek > 7
    ensures plan.DayAfter(k) == plan.startDay
  {
    assert plan.DayStep() == 0;
    DayAfterClosedForm(plan, k);
  }

  /** The reservoir clock runs 7/ipw days per increase. */
  lemma {:induction false} DwellAfterClosedForm(plan: Plan, k: nat)
    requires plan.Valid()
    ensures plan.DwellAfter(k) == k as real * plan.DayFraction()
  {
    if k > 0 {
      DwellAfterClosedForm(plan, k - 1);
      assert (k - 1) as real * plan.DayFraction() + plan.DayFraction() == k as real * plan.DayFraction();
    }
  }

  /** Less than 14 days of dwell is fewer than two weeks' worth of increases. */
  lemma {:induction false} DwellBelowTwoWeeks(plan: Plan, k: nat)
    requires plan.Valid()
    ensures plan.DwellAfter(k) < 14.0 <==> k < 2 * plan.increasesPerWeek
  {
    var ipw := plan.increasesPerWeek as real;
    DwellAfterClosedForm(plan, k);
    assert k as real * (7.0 / ipw) * ipw == 7.0 * k as real;
    assert 14.0 / ipw * ipw == 14.0;
  }

  // ---------------------------------------------------------------------------------------
  // Rows of a run
  // ---------------------------------------------------------------------------------------

  /** Every prefix of recorded rows is recorded. */
  lemma {:induction false} RowsPrefix(plan: Plan, es: seq<Entry>, k: nat)
    requires plan.Valid() && RowsRecorded(plan, es) && k <= |es|
    ensures RowsRecorded(plan, es[..k])
  {
    var front := es[..k];
    forall j | 0 <= j < |front|
      ensures StepRecorded(plan, front[..j], front[j])
    {
      assert front[..j] == es[..j] && front[j] == es[j];
      assert StepRecorded(plan, es[..j], es[j]);
    }
  }

  /** The last row of recorded rows is what the last increase produces. */
  lemma {:induction false} LastRow(plan: Plan, es: seq<Entry>)
    requires plan.Valid() && RowsRecorded(plan, es) && es != []
    ensures RowsRecorded(plan, es[..|es| - 1])
    ensures StepRecorded(plan, es[..|es| - 1], es[|es| - 1])
  {
    RowsPrefix(plan, es, |es| - 1);
    assert StepRecorded(plan, es[..|es| - 1], es[|es| - 1]);
  }

  /** Row `k` shows the dose after `k + 1` equal steps, rounded to two decimals, and the
      last row shows the target dose. */
  lemma {:induction false} DoseTrajectory(plan: Plan, pr: Protocol)
    requires plan.Valid() && Simulated(plan, pr)
    ensures forall k :: 0 <= k < |pr.entries| ==>
              pr.entries[k].dose == Round2(plan.startDose + (k + 1) as real * plan.DoseStep())
    ensures pr.entries[|pr.entries| - 1].dose == Round2(plan.targetDose)
  {
    var es := pr.entries;
    forall k | 0 <= k < |es|
      ensures es[k].dose == Round2(plan.startDose + (k + 1) as real * plan.DoseStep())
    {
      RowDose(plan, es, k);
    }
    LastDose(plan, es);
  }

  /** Row `k` shows the dose after `k + 1` equal steps. */
  lemma RowDose(plan: Plan, es: seq<Entry>, k: nat)
    requires plan.Valid() && RowsRecorded(plan, es) && k < |es|
    ensures es[k].dose == Round2(plan.startDose + (k + 1) as real * plan.DoseStep())
  {
    RowAt(plan, es, k);
    var exact := plan.DoseAfter(k + 1);
    DoseAfterClosedForm(plan, k + 1);
    assert exact == plan.startDose + (k + 1) as real * plan.DoseStep();
    assert es[k].dose == Round2(exact);
  }

  /** The row of the last increase shows the target dose. */
  lemma LastDose(plan: Plan, es: seq<Entry>)
    requires plan.Valid() && RowsRecorded(plan, es) && |es| == plan.TotalIncreases()
    ensures es[|es| - 1].dose == Round2(plan.targetDose)
  {
    RowAt(plan, es, |es| - 1);
    FinalDoseIsTarget(plan);
  }

  /** Row `k` carries the date and the rounded dose of increase `k + 1`. */
  lemma RowAt(plan: Plan, es: seq<Entry>, k: nat)
    requires plan.Valid() && RowsRecorded(plan, es) && k < |es|
    ensures es[k].day == plan.DayAfter(k + 1) && es[k].dose == Round2(plan.DoseAfter(k + 1))
  {
    assert StepRecorded(plan, es[..k], es[k]);
  }

  /** Row `k` is dated `k + 1` whole-day steps after the start, so the dates never go back. */
  lemma {:induction false} DateTrajectory(plan: Plan, es: seq<Entry>)
    requires plan.Valid() && RowsRecorded(plan, es)
    ensures forall k :: 0 <= k < |es| ==> es[k].day == plan.startDay + (k + 1) * plan.DayStep()
    ensures forall i, j :: 0 <= i <= j < |es| ==> es[i].day <= es[j].day
  {
    forall k | 0 <= k < |es|
      ensures es[k].day == plan.DayAfter(k + 1) == plan.startDay + (k + 1) * plan.DayStep()
    {
      RowAt(plan, es, k);
      DayAfterClosedForm(plan, k + 1);
    }
    forall i, j | 0 <= i <= j < |es|
      ensures es[i].day <= es[j].day
    {
      DayAfterMonotone(plan, i + 1, j + 1);
    }
  }

  /** No reservoir stays in the pump for 14 days or more: after any prefix of the rows the
      current reservoir has been kept for fewer than `2 * increasesPerWeek` increases. */
  lemma {:induction false} ReservoirKeptUnderTwoWeeks(plan: Plan, es: seq<Entry>)
    requires plan.Valid() && RowsRecorded(plan, es)
    ensures StepsSinceChange(es) < 2 * plan.increasesPerWeek
    ensures plan.DwellAfter(StepsSinceChange(es)) < 14.0
  {
    if es != [] && !IsChange(es[|es| - 1]) {
      LastRow(plan, es);
      DwellBelowTwoWeeks(plan, StepsSinceChange(es[..|es| - 1]) + 1);
    }
    DwellBelowTwoWeeks(plan, StepsSinceChange(es));
  }

  /** Reservoir content shown is never negative and never above the pump's capacity. */
  lemma {:induction false} ReservoirWithinPump(plan: Plan, es: seq<Entry>)
    requires plan.Valid() && RowsRecorded(plan, es)
    ensures forall k :: 0 <= k < |es| ==> 0.0 <= es[k].reservoir <= Round2(plan.pumpCapacity)
  {
    Round2Monotone(0.0, plan.pumpCapacity);
    Round2OfHundredths(0);
    forall k | 0 <= k < |es|
      ensures 0.0 <= es[k].reservoir <= Round2(plan.pumpCapacity)
    {
      assert StepRecorded(plan, es[..k], es[k]);
    }
  }

  /** Row `k` changes the reservoir exactly when it would otherwise reach 14 days in the pump
      or holds less than a day's consumption at the row's rate; a kept row shows the content
      left after that day's consumption. */
  lemma ReservoirRule(plan: Plan, es: seq<Entry>, k: nat)
    requires plan.Valid() && RowsRecorded(plan, es) && k < |es|
    ensures es[k].rate != 0
    ensures IsChange(es[k]) <==> (|| plan.DwellAfter(StepsSinceChange(es[..k]) + 1) >= 14.0
                                  || VolumeAfter(plan.pumpCapacity, es[..k]) / DailyConsumption(es[k].rate) < 1.0)
    ensures !IsChange(es[k]) ==>
              es[k].reservoir == Round2(VolumeAfter(plan.pumpCapacity, es[..k]) - DailyConsumption(es[k].rate))
  {
    assert StepRecorded(plan, es[..k], es[k]);
  }

  /** The fluid in the reservoir never goes negative and never exceeds the pump's capacity. */
  lemma {:induction false} VolumeStaysInPump(plan: Plan, es: seq<Entry>)
    requires plan.Valid() && RowsRecorded(plan, es)
    ensures 0.0 <= VolumeAfter(plan.pumpCapacity, es) <= plan.pumpCapacity
  {
    if es != [] && !IsChange(es[|es| - 1]) {
      var n := |es| - 1;
      RowsPrefix(plan, es, n);
      VolumeStaysInPump(plan, es[..n]);
      ReservoirRule(plan, es, n);
      DrainStaysInReservoir(VolumeAfter(plan.pumpCapacity, es[..n]), DailyConsumption(es[n].rate));
    }
  }

  // ---------------------------------------------------------------------------------------
  // A run is determined by its plan
  // ---------------------------------------------------------------------------------------

  /** The rows before it leave exactly one row an increase can record. */
  lemma StepDetermined(plan: Plan, before: seq<Entry>, e1: Entry, e2: Entry)
    requires plan.Valid() && StepRecorded(plan, before, e1) && StepRecorded(plan, before, e2)
    ensures e1 == e2
  {
    assert IsChange(e1) <==> IsChange(e2);
    if e1.note.VialChange? {
      assert e2.note.VialChange?;
    }
  }

  /** Two row lists that are both recorded for the plan, and of one length, are equal. */
  lemma {:induction false} RowsDetermined(plan: Plan, a: seq<Entry>, b: seq<Entry>)
    requires plan.Valid() && RowsRecorded(plan, a) && RowsRecorded(plan, b) && |a| == |b|
    ensures a == b
  {
    if a != [] {
      var n := |a| - 1;
      LastRow(plan, a);
      LastRow(plan, b);
      RowsDetermined(plan, a[..n], b[..n]);
      StepDetermined(plan, a[..n], a[n], b[n]);
      assert a == a[..n] + [a[n]];
      assert b == b[..n] + [b[n]];
    }
  }

  /** A plan has a single completed run: rows, change count, intervals and vial tally. */
  lemma {:induction false} RunIsDetermined(plan: Plan, p: Protocol, q: Protocol)
    requires plan.Valid() && Simulated(plan, p) && Simulated(plan, q)
    ensures p == q
  {
    RowsDetermined(plan, p.entries, q.entries);
  }

  /** One week, one increase, 70 kg at 10 ng/kg/min of the 5 mg/ml drug: the pump runs at
      8 µl/h, the reservoir is kept, and it shows 3 − 0.192 = 2.808 ml as 2.81; neither a refill
      nor any other content is a valid row. At 200 ng/kg/min of the 1 mg/ml drug the pump runs at
      840 µl/h, 20.16 ml a day, so the 3 ml reservoir must be changed. */
  lemma OneWeekExample()
    ensures var plan := Plan(10.0, 10.0, 1, 1, 70.0, 5.0, 0);
            && plan.Valid()
            && StepRecorded(plan, [], Entry(7, 10.0, 8, 2.81, NoNote))
            && !StepRecorded(plan, [], Entry(7, 10.0, 8, 3.0, Refilled))
            && !StepRecorded(plan, [], Entry(7, 10.0, 8, 0.0, NoNote))
    ensures var plan := Plan(200.0, 200.0, 1, 1, 70.0, 1.0, 0);
            && plan.Valid()
            && !StepRecorded(plan, [], Entry(7, 200.0, 840, 0.0, NoNote))
  {
    var plan := Plan(10.0, 10.0, 1, 1, 70.0, 5.0, 0);
    assert plan.DoseAfter(1) == 10.0;
    Round2OfHundredths(1000);
    assert InfusionRate(70.0, 10.0, 5.0) == 8.4;
    RoundHalfEvenUnique(8.4, 8);
    assert plan.DwellAfter(1) == 7.0;
    RoundHalfEvenUnique(280.8, 281);
    assert Round2(2.808) == 2.81;
    var big := Plan(200.0, 200.0, 1, 1, 70.0, 1.0, 0);
    assert big.DoseAfter(1) == 200.0;
    assert InfusionRate(70.0, 200.0, 1.0) == 840.0;
    RoundHalfEvenUnique(840.0, 840);
  }

  // ---------------------------------------------------------------------------------------
  // Reservoir changes and the intervals between them
  // ---------------------------------------------------------------------------------------

  /** One change day per reservoir change. */
  lemma {:induction false} ChangeDaysCount(es: seq<Entry>)
    ensures |ChangeDays(es)| == CountChanges(es)
  {
    if es != [] {
      ChangeDaysCount(es[..|es| - 1]);
    }
  }

  /** Change days are never after the last row's day, when the rows' days never go back. */
  lemma {:induction false} ChangeDaysAscending(es: seq<Entry>)
    requires forall i, j :: 0 <= i <= j < |es| ==> es[i].day <= es[j].day
    ensures forall i, j :: 0 <= i <= j < |ChangeDays(es)| ==> ChangeDays(es)[i] <= ChangeDays(es)[j]
    ensures es != [] ==> forall i :: 0 <= i < |ChangeDays(es)| ==> es[0].day <= ChangeDays(es)[i] <= es[|es| - 1].day
  {
    if es != [] {
      var front := es[..|es| - 1];
      assert forall i, j :: 0 <= i <= j < |front| ==> front[i].day <= front[j].day;
      ChangeDaysAscending(front);
      if front != [] {
        assert front[0] == es[0];
        assert front[|front| - 1].day <= es[|es| - 1].day;
      }
    }
  }

  /** There is one gap fewer than days, and gap `i` is the distance from day `i` to day `i + 1`. */
  lemma {:induction false} GapsAt(ds: seq<int>)
    ensures |Gaps(ds)| == if |ds| <= 1 then 0 else |ds| - 1
    ensures forall i :: 0 <= i < |Gaps(ds)| ==> Gaps(ds)[i] == ds[i + 1] - ds[i]
  {
    if |ds| > 1 {
      var front := ds[..|ds| - 1];
      GapsAt(front);
      assert forall i :: 0 <= i < |front| ==> front[i] == ds[i];
    }
  }

  /** The intervals of a run: one fewer than its reservoir changes, each the distance between
      consecutive change days, never negative, and all zero when the calendar stands still. */
  lemma {:induction false} IntervalsOfRun(plan: Plan, pr: Protocol)
    requires plan.Valid() && Simulated(plan, pr)
    ensures |ChangeDays(pr.entries)| == pr.reservoirChanges
    ensures |pr.reservoirIntervals| == if pr.reservoirChanges == 0 then 0 else pr.reservoirChanges - 1
    ensures forall i :: 0 <= i < |pr.reservoirIntervals| ==>
              pr.reservoirIntervals[i] == ChangeDays(pr.entries)[i + 1] - ChangeDays(pr.entries)[i]
    ensures forall i :: 0 <= i < |pr.reservoirIntervals| ==> pr.reservoirIntervals[i] >= 0
    ensures plan.increasesPerWeek > 7 ==> forall i :: 0 <= i < |pr.reservoirIntervals| ==> pr.reservoirIntervals[i] == 0
  {
    ChangeDaysCount(pr.entries);
    GapsAt(ChangeDays(pr.entries));
    IntervalsNonNegative(plan, pr.entries);
    if plan.increasesPerWeek > 7 {
      IntervalsVanish(plan, pr.entries);
    }
  }

  /** Recorded rows never go back in time, so no interval between changes is negative. */
  lemma IntervalsNonNegative(plan: Plan, es: seq<Entry>)
    requires plan.Valid() && RowsRecorded(plan, es)
    ensures forall i :: 0 <= i < |Gaps(ChangeDays(es))| ==> Gaps(ChangeDays(es))[i] >= 0
  {
    DateTrajectory(plan, es);
    ChangeDaysAscending(es);
    GapsAt(ChangeDays(es));
    var ds := ChangeDays(es);
    forall i | 0 <= i < |Gaps(ds)|
      ensures Gaps(ds)[i] >= 0
    {
      assert Gaps(ds)[i] == ds[i + 1] - ds[i];
    }
  }

  /** With more than seven increases a week the calendar never moves, so every interval is zero. */
  lemma IntervalsVanish(plan: Plan, es: seq<Entry>)
    requires plan.Valid() && RowsRecorded(plan, es) && plan.increasesPerWeek > 7
    ensures forall i :: 0 <= i < |Gaps(ChangeDays(es))| ==> Gaps(ChangeDays(es))[i] == 0
  {
    DateTrajectory(plan, es);
    ChangeDaysAscending(es);
    GapsAt(ChangeDays(es));
    assert plan.DayStep() == 0;
    var ds := ChangeDays(es);
    forall i | 0 <= i < |Gaps(ds)|
      ensures Gaps(ds)[i] == 0
    {
      assert Gaps(ds)[i] == ds[i + 1] - ds[i];
      assert es[0].day == es[|es| - 1].day;
    }
  }

  // ---------------------------------------------------------------------------------------
  // Vials
  // ---------------------------------------------------------------------------------------

  /** A vial covers exactly `RefillsPerVial` reservoir changes: after any prefix of the rows the
      changes so far are that many per vial opened plus those drawn from the vial in use. */
  lemma {:induction false} VialRollover(plan: Plan, es: seq<Entry>)
    requires plan.Valid() && RowsRecorded(plan, es)
    ensures CountChanges(es) == plan.RefillsPerVial() * CountVialChanges(es) + RefillsSinceVial(es)
    ensures RefillsSinceVial(es) < plan.RefillsPerVial()
  {
    if es != [] {
      var front := es[..|es| - 1];
      LastRow(plan, es);
      VialRollover(plan, front);
      var r := plan.RefillsPerVial();
      if es[|es| - 1].note.VialChange? {
        assert r * (CountVialChanges(front) + 1) == r * CountVialChanges(front) + r;
      }
    }
  }

  /** The concentration in use stays on the ladder and never decreases. */
  lemma {:induction false} ConcentrationClimbs(plan: Plan, es: seq<Entry>)
    requires plan.Valid() && RowsRecorded(plan, es)
    ensures ConcentrationAfter(plan.concentration, es) in Concentrations
    ensures ConcentrationAfter(plan.concentration, es) >= plan.concentration
    ensures forall i :: 0 <= i <= |es| ==>
              ConcentrationAfter(plan.concentration, es[..i]) <= ConcentrationAfter(plan.concentration, es)
  {
    if es != [] {
      var front := es[..|es| - 1];
      LastRow(plan, es);
      ConcentrationClimbs(plan, front);
      NextHigherStaysOnLadder(ConcentrationAfter(plan.concentration, front));
      forall i | 0 <= i <= |es|
        ensures ConcentrationAfter(plan.concentration, es[..i]) <= ConcentrationAfter(plan.concentration, es)
      {
        if i < |es| {
          assert es[..i] == front[..i];
        } else {
          assert es[..i] == es;
        }
      }
    } else {
      assert forall i :: 0 <= i <= |es| ==> es[..i] == es;
    }
  }

  /** Every vial change names the next rung above the concentration it replaces. */
  lemma {:induction false} VialChangesClimbLadder(plan: Plan, es: seq<Entry>)
    requires plan.Valid() && RowsRecorded(plan, es)
    ensures ClimbsLadder(plan.concentration, es)
  {
    forall k | 0 <= k < |es| && es[k].note.VialChange?
      ensures es[k].note.newConcentration == NextHigher(ConcentrationAfter(plan.concentration, es[..k]))
    {
      assert StepRecorded(plan, es[..k], es[k]);
    }
  }

  predicate NoDuplicates(cs: seq<real>) {
    forall i, j :: 0 <= i < j < |cs| ==> cs[i] != cs[j]
  }

  /** Counting one more vial of `c` adds one to a sum over a list that holds `c` once. */
  lemma {:induction false} SumOverBump(cs: seq<real>, m: map<real, nat>, c: real)
    requires NoDuplicates(cs)
    ensures SumOver(cs, Bump(m, c)) == SumOver(cs, m) + (if c in cs then 1 else 0)
  {
    if cs != [] {
      assert NoDuplicates(cs[1..]);
      SumOverBump(cs[1..], m, c);
      assert c in cs <==> c == cs[0] || c in cs[1..];
      if c == cs[0] {
        assert c !in cs[1..];
      }
    }
  }

  lemma LadderHasNoDuplicates()
    ensures NoDuplicates(Concentrations)
  {
    forall i, j | 0 <= i < j < |Concentrations|
      ensures Concentrations[i] != Concentrations[j]
    {
      assert Concentrations[i] < Concentrations[j];
    }
  }

  /** The vials used up before the current one: only ladder concentrations, as many in total
      as there were vial changes. */
  lemma {:induction false} UsageCounts(plan: Plan, es: seq<Entry>)
    requires plan.Valid() && RowsRecorded(plan, es)
    ensures UsageBefore(plan.concentration, es).Keys <= set c | c in Concentrations
    ensures TotalVials(UsageBefore(plan.concentration, es)) == CountVialChanges(es)
  {
    if es != [] {
      var front := es[..|es| - 1];
      LastRow(plan, es);
      UsageCounts(plan, front);
      if es[|es| - 1].note.VialChange? {
        var c := ConcentrationAfter(plan.concentration, front);
        assert c in Concentrations;
        LadderHasNoDuplicates();
        SumOverBump(Concentrations, UsageBefore(plan.concentration, front), c);
        assert UsageBefore(plan.concentration, es) == Bump(UsageBefore(plan.concentration, front), c);
        assert CountVialChanges(es) == CountVialChanges(front) + 1;
      } else {
        assert UsageBefore(plan.concentration, es) == UsageBefore(plan.concentration, front);
        assert CountVialChanges(es) == CountVialChanges(front);
      }
    } else {
      SumOverEmpty(Concentrations);
    }
  }

  lemma {:induction false} SumOverEmpty(cs: seq<real>)
    ensures SumOver(cs, map[]) == 0
  {
    if cs != [] {
      SumOverEmpty(cs[1..]);
    }
  }

  /** The vial tally of a run counts one vial per vial change plus the one left in the pump,
      all of ladder concentrations. */
  lemma {:induction false} VialTotals(plan: Plan, pr: Protocol)
    requires plan.Valid() && Simulated(plan, pr)
    ensures pr.vialUsage.Keys <= set c | c in Concentrations
    ensures TotalVials(pr.vialUsage) == CountVialChanges(pr.entries) + 1
    ensures CountVialChanges(pr.entries) == pr.reservoirChanges / plan.RefillsPerVial()
  {
    var es := pr.entries;
    UsageCounts(plan, es);
    ConcentrationClimbs(plan, es);
    LadderHasNoDuplicates();
    SumOverBump(Concentrations, UsageBefore(plan.concentration, es), ConcentrationAfter(plan.concentration, es));
    VialRollover(plan, es);
    DivOfMultiplePlus(CountChanges(es), plan.RefillsPerVial(), CountVialChanges(es), RefillsSinceVial(es));
  }

  lemma {:induction false} DivOfMultiplePlus(a: int, r: int, q: int, m: int)
    requires r >= 1 && 0 <= m < r && a == r * q + m
    ensures a / r == q
  {
    var q', m' := a / r, a % r;
    assert r * (q - q') == m' - m;
    MultipleBounds(r, q - q');
  }

  /** A non-zero multiple of `r` is at least `r` away from zero. */
  lemma {:induction false} MultipleBounds(r: int, d: int)
    requires r >= 1
    ensures d >= 1 ==> r * d >= r
    ensures d <= -1 ==> r * d <= -r
  {
    if d >= 1 {
      assert r * d == r + r * (d - 1);
      assert r * (d - 1) >= 0;
    } else if d <= -1 {
      assert r * d == -r + r * (d + 1);
      assert r * (d + 1) <= 0;
    }
  }
}

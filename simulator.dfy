/** `generate_dose_increase_protocol`: the week-by-week escalation with reservoir and vial tracking. */
module Simulator {
  import opened Ladder
  import opened Rounding
  import opened Conversions
  import opened Schedule

  /** Runs the plan: one row per increase, reservoir changes forced by the 14-day limit or by
      less than a day of fluid left, vial changes when a vial's refills run out, and one
      more vial counted for the one left in use at the end. */
  method GenerateDoseIncreaseProtocol(plan: Plan) returns (outcome: Outcome)
    requires plan.Valid()
    ensures outcome.Completed? ==> Simulated(plan, outcome.protocol)
    ensures outcome.DivisionByZero? ==>
              && outcome.step < plan.TotalIncreases()
              && outcome.concentration in Concentrations
              && outcome.concentration >= plan.concentration
              && RoundHalfEven(InfusionRate(plan.weight, plan.DoseAfter(outcome.step + 1), outcome.concentration)) == 0
              && exists es :: && |es| == outcome.step && RowsRecorded(plan, es)
                              && outcome.concentration == ConcentrationAfter(plan.concentration, es)
  {
    var total := plan.weeks * plan.increasesPerWeek;
    var doseStep := (plan.targetDose - plan.startDose) / total as real;
    var state := SimState([], plan.startDose, plan.startDay, plan.concentration, plan.pumpCapacity, 0.0,
                          plan.vialCapacity / plan.pumpCapacity, map[], 0, [], None);
    StartTracks(plan);
    for i := 0 to total
      invariant |state.entries| == i
      invariant Tracks(plan, state)
    {
      var stopped;
      stopped, state := Increase(plan, doseStep, state);
      if stopped {
        assert RowsRecorded(plan, state.entries)
               && state.concentration == ConcentrationAfter(plan.concentration, state.entries);
        return DivisionByZero(i, state.concentration);
      }
    }
    FinishTracks(plan, state);
    outcome := Completed(Protocol(state.entries, Bump(state.usage, state.concentration), state.changes, state.intervals));
  }

  /** One pass of the loop: step the date and the dose, compute the pump rate, then change the
      reservoir (and, when its refills run out, the vial) or drain a day's consumption, and
      record the row. `stopped` is set, and nothing changes, when the rate rounds to zero and
      the daily consumption the source divides by is zero. */
  method Increase(plan: Plan, doseStep: real, s: SimState) returns (stopped: bool, t: SimState)
    requires plan.Valid() && Tracks(plan, s) && doseStep == plan.DoseStep()
    ensures stopped ==> t == s
    ensures stopped ==> RoundHalfEven(InfusionRate(plan.weight, plan.DoseAfter(|s.entries| + 1), s.concentration)) == 0
    ensures !stopped ==> |t.entries| == |s.entries| + 1 && Tracks(plan, t)
    ensures !stopped ==>
              var rate := RoundHalfEven(InfusionRate(plan.weight, s.dose + plan.DoseStep(), s.concentration));
              DailyConsumption(rate) != 0.0 && Advanced(plan, s, rate, t)
  {
    var entries, dose, day, concentration := s.entries, s.dose, s.day, s.concentration;
    var volume, daysUsed, refillsLeft, usage := s.volume, s.daysUsed, s.refillsLeft, s.usage;
    var changes, intervals, lastChangeDay := s.changes, s.intervals, s.lastChangeDay;
    assert 7 / plan.increasesPerWeek == plan.DayStep();

    day := day + 7 / plan.increasesPerWeek;
    dose := dose + doseStep;
    var rate := InfusionRate(plan.weight, dose, concentration);
    var roundedRate := RoundHalfEven(rate);
    var dailyConsumption := DailyConsumption(roundedRate);
    assert roundedRate == RoundHalfEven(InfusionRate(plan.weight, s.dose + plan.DoseStep(), s.concentration));
    if dailyConsumption == 0.0 {
      DoseAfterNext(plan, |s.entries|);
      return true, s;
    }
    var daysLeft := volume / dailyConsumption;
    daysUsed := daysUsed + 7.0 / plan.increasesPerWeek as real;
    assert daysUsed == s.daysUsed + plan.DayFraction() && daysLeft == s.volume / DailyConsumption(roundedRate);

    var e: Entry;
    if daysUsed >= 14.0 || daysLeft < 1.0 {
      volume := plan.pumpCapacity;
      refillsLeft := refillsLeft - 1.0;
      daysUsed := 0.0;
      changes := changes + 1;
      if lastChangeDay.Some? {
        intervals := intervals + [day - lastChangeDay.value];
      }
      lastChangeDay := Some(day);
      if refillsLeft <= 0.0 {
        usage := Bump(usage, concentration);
        concentration := NextHigher(concentration);
        refillsLeft := plan.vialCapacity / plan.pumpCapacity;
        e := Entry(day, Round2(dose), roundedRate, Round2(volume), VialChange(concentration));
        assert VialOpenedAfter(plan, s, roundedRate, SimState(entries + [e], dose, day, concentration, volume, daysUsed, refillsLeft, usage, changes, intervals, lastChangeDay));
      } else {
        e := Entry(day, Round2(dose), roundedRate, Round2(volume), Refilled);
        assert RefilledAfter(plan, s, roundedRate, SimState(entries + [e], dose, day, concentration, volume, daysUsed, refillsLeft, usage, changes, intervals, lastChangeDay));
      }
    } else {
      volume := volume - dailyConsumption;
      e := Entry(day, Round2(dose), roundedRate, Round2(volume), NoNote);
      assert KeptAfter(plan, s, roundedRate, SimState(entries + [e], dose, day, concentration, volume, daysUsed, refillsLeft, usage, changes, intervals, lastChangeDay));
    }
    entries := entries + [e];
    t := SimState(entries, dose, day, concentration, volume, daysUsed, refillsLeft, usage, changes, intervals,
                  lastChangeDay);
    assert DailyConsumption(roundedRate) != 0.0;
    assert Advanced(plan, s, roundedRate, t);
    AdvanceStep(plan, s, roundedRate, t);
    stopped := false;
  }

  /** The variables after an increase that keeps the reservoir and drains a day's consumption. */
  predicate KeptAfter(plan: Plan, head: SimState, rate: int, next: SimState)
    requires plan.Valid()
  {
    && next.dose == head.dose + plan.DoseStep() && next.day == head.day + plan.DayStep()
    && next.volume == head.volume - DailyConsumption(rate)
    && next.entries == head.entries + [Entry(next.day, Round2(next.dose), rate, Round2(next.volume), NoNote)]
    && next.daysUsed == head.daysUsed + plan.DayFraction()
    && next.concentration == head.concentration && next.refillsLeft == head.refillsLeft
    && next.usage == head.usage && next.changes == head.changes
    && next.intervals == head.intervals && next.lastChangeDay == head.lastChangeDay
  }

  /** What every reservoir change does: a full reservoir, the dwell clock reset, the change
      counted, and the interval since the previous change recorded. */
  predicate ChangedAfter(plan: Plan, head: SimState, next: SimState)
    requires plan.Valid()
  {
    && next.dose == head.dose + plan.DoseStep() && next.day == head.day + plan.DayStep()
    && next.volume == plan.pumpCapacity && next.daysUsed == 0.0
    && next.changes == head.changes + 1
    && next.intervals == (if head.lastChangeDay.Some? then head.intervals + [next.day - head.lastChangeDay.value]
                          else head.intervals)
    && next.lastChangeDay == Some(next.day)
  }

  /** The variables after a reservoir change filled from the vial in use. */
  predicate RefilledAfter(plan: Plan, head: SimState, rate: int, next: SimState)
    requires plan.Valid()
  {
    && ChangedAfter(plan, head, next)
    && next.concentration == head.concentration && next.refillsLeft == head.refillsLeft - 1.0
    && next.usage == head.usage
    && next.entries == head.entries + [Entry(next.day, Round2(next.dose), rate, Round2(next.volume), Refilled)]
  }

  /** The variables after a reservoir change that ends the vial and opens one a rung up. */
  predicate VialOpenedAfter(plan: Plan, head: SimState, rate: int, next: SimState)
    requires plan.Valid()
  {
    && ChangedAfter(plan, head, next)
    && next.concentration == NextHigher(head.concentration)
    && next.refillsLeft == plan.vialCapacity / plan.pumpCapacity
    && next.usage == Bump(head.usage, head.concentration)
    && next.entries == head.entries + [Entry(next.day, Round2(next.dose), rate, Round2(next.volume),
                                             VialChange(next.concentration))]
  }

  /** One iteration of the loop at pump rate `rate`: change the reservoir when it would reach
      14 days or holds less than a day's consumption, opening a new vial when the refills run
      out; otherwise drain a day's consumption. */
  predicate Advanced(plan: Plan, head: SimState, rate: int, next: SimState)
    requires plan.Valid() && DailyConsumption(rate) != 0.0
  {
    if head.daysUsed + plan.DayFraction() >= 14.0 || head.volume / DailyConsumption(rate) < 1.0 then
      if head.refillsLeft - 1.0 <= 0.0 then VialOpenedAfter(plan, head, rate, next)
      else RefilledAfter(plan, head, rate, next)
    else KeptAfter(plan, head, rate, next)
  }

  /** An iteration that does not stop keeps the loop invariant. */
  lemma {:induction false} AdvanceStep(plan: Plan, head: SimState, rate: int, next: SimState)
    requires plan.Valid() && Tracks(plan, head)
    requires rate == RoundHalfEven(InfusionRate(plan.weight, head.dose + plan.DoseStep(), head.concentration))
    requires DailyConsumption(rate) != 0.0
    requires Advanced(plan, head, rate, next)
    ensures Tracks(plan, next)
  {
    if head.daysUsed + plan.DayFraction() >= 14.0 || head.volume / DailyConsumption(rate) < 1.0 {
      if head.refillsLeft - 1.0 <= 0.0 {
        VialStep(plan, head, rate, next);
      } else {
        RefillStep(plan, head, rate, next);
      }
    } else {
      KeepStep(plan, head, rate, next);
    }
  }

  lemma {:induction false} StartTracks(plan: Plan)
    requires plan.Valid()
    ensures Tracks(plan, SimState([], plan.startDose, plan.startDay, plan.concentration, plan.pumpCapacity, 0.0,
                                  plan.vialCapacity / plan.pumpCapacity, map[], 0, [], None))
  {
  }

  lemma {:induction false} DoseAfterNext(plan: Plan, n: nat)
    requires plan.Valid()
    ensures plan.DoseAfter(n) + plan.DoseStep() == plan.DoseAfter(n + 1)
  {
  }

  /** An iteration that keeps the reservoir: it only drains a day's consumption. */
  lemma {:induction false} KeepStep(plan: Plan, head: SimState, rate: int, next: SimState)
    requires plan.Valid() && Tracks(plan, head)
    requires rate == RoundHalfEven(InfusionRate(plan.weight, head.dose + plan.DoseStep(), head.concentration))
    requires DailyConsumption(rate) != 0.0
    requires head.daysUsed + plan.DayFraction() < 14.0
    requires head.volume / DailyConsumption(rate) >= 1.0
    requires KeptAfter(plan, head, rate, next)
    ensures Tracks(plan, next)
  {
    var e := next.entries[|head.entries|];
    assert next.entries == head.entries + [e];
    KeepRecorded(plan, head, rate, e);
    DrainStaysInReservoir(head.volume, DailyConsumption(rate));
    AppendRow(plan.concentration, head.entries, e);
    VolumeAppend(plan.pumpCapacity, head.entries, e);
    RowsKept(plan, head.entries, e);
  }

  /** The row of an increase that keeps the reservoir is what that increase produces. */
  lemma {:induction false} KeepRecorded(plan: Plan, head: SimState, rate: int, e: Entry)
    requires plan.Valid() && Progress(plan, head) && InPump(plan, head)
    requires rate == RoundHalfEven(InfusionRate(plan.weight, head.dose + plan.DoseStep(), head.concentration))
    requires DailyConsumption(rate) != 0.0
    requires head.daysUsed + plan.DayFraction() < 14.0
    requires head.volume / DailyConsumption(rate) >= 1.0
    requires e == Entry(head.day + plan.DayStep(), Round2(head.dose + plan.DoseStep()), rate,
                        Round2(head.volume - DailyConsumption(rate)), NoNote)
    ensures StepRecorded(plan, head.entries, e)
  {
    var volume := head.volume - DailyConsumption(rate);
    DrainStaysInReservoir(head.volume, DailyConsumption(rate));
    Round2Monotone(0.0, volume);
    Round2Monotone(volume, plan.pumpCapacity);
    Round2OfHundredths(0);
    RowFields(plan, head, rate, e);
    var dwell := plan.DwellAfter(StepsSinceChange(head.entries) + 1);
    assert head.daysUsed + plan.DayFraction() == dwell;
  }

  /** What any reservoir change does to the change bookkeeping: one more change, one more
      interval when there was an earlier change, and the dwell clock restarts. */
  lemma {:induction false} ChangeBooks(es: seq<Entry>, e: Entry, changes: nat, intervals: seq<int>, last: Option<int>)
    requires IsChange(e)
    requires changes == CountChanges(es) && intervals == Gaps(ChangeDays(es)) && last == LastChangeDay(es)
    ensures changes + 1 == CountChanges(es + [e])
    ensures (if last.Some? then intervals + [e.day - last.value] else intervals) == Gaps(ChangeDays(es + [e]))
    ensures Some(e.day) == LastChangeDay(es + [e])
  {
    AppendRow(0.0, es, e);
    GapsAppend(ChangeDays(es), e.day);
  }

  /** A reservoir change restarts the count of increases the reservoir has stayed in. */
  lemma {:induction false} DwellRestarts(es: seq<Entry>, e: Entry)
    requires IsChange(e)
    ensures StepsSinceChange(es + [e]) == 0
  {
  }

  /** The interval list after a reservoir change row, stated on plain values. */
  lemma {:induction false} IntervalsAfterChange(es: seq<Entry>, e: Entry, intervals: seq<int>, last: Option<int>,
                                                intervals': seq<int>)
    requires IsChange(e) && intervals == Gaps(ChangeDays(es)) && last == LastChangeDay(es)
    requires intervals' == (if last.Some? then intervals + [e.day - last.value] else intervals)
    ensures intervals' == Gaps(ChangeDays(es + [e]))
  {
    ChangeBooks(es, e, CountChanges(es), intervals, last);
  }

  /** The change bookkeeping after a reservoir change row. */
  lemma {:induction false} BooksAfterChange(plan: Plan, head: SimState, e: Entry, next: SimState)
    requires plan.Valid() && Books(plan, head) && IsChange(e)
    requires next.entries == head.entries + [e] && e.day == next.day
    requires next.usage == UsageBefore(plan.concentration, head.entries + [e])
    requires next.changes == head.changes + 1
    requires next.intervals == (if head.lastChangeDay.Some? then head.intervals + [next.day - head.lastChangeDay.value]
                                else head.intervals)
    requires next.lastChangeDay == Some(next.day)
    ensures Books(plan, next)
  {
    IntervalsAfterChange(head.entries, e, head.intervals, head.lastChangeDay, next.intervals);
    ChangeBooks(head.entries, e, head.changes, head.intervals, head.lastChangeDay);
  }

  /** A refill from the vial in use keeps the concentration and the tally. */
  lemma {:induction false} VialRefilled(c0: real, es: seq<Entry>, e: Entry)
    requires e.note == Refilled
    ensures ConcentrationAfter(c0, es + [e]) == ConcentrationAfter(c0, es)
    ensures UsageBefore(c0, es + [e]) == UsageBefore(c0, es)
    ensures RefillsSinceVial(es + [e]) == RefillsSinceVial(es) + 1
  {
    assert (es + [e])[..|es|] == es;
  }

  /** A vial change counts the vial it ends and switches to the concentration it names. */
  lemma {:induction false} VialOpened(c0: real, es: seq<Entry>, e: Entry)
    requires e.note.VialChange?
    ensures ConcentrationAfter(c0, es + [e]) == e.note.newConcentration
    ensures UsageBefore(c0, es + [e]) == Bump(UsageBefore(c0, es), ConcentrationAfter(c0, es))
    ensures RefillsSinceVial(es + [e]) == 0
  {
    assert (es + [e])[..|es|] == es;
  }

  /** The row of a reservoir change is what its increase produces. */
  lemma {:induction false} ChangeRecorded(plan: Plan, head: SimState, rate: int, next: SimState, e: Entry)
    requires plan.Valid() && Progress(plan, head) && InPump(plan, head)
    requires rate == RoundHalfEven(InfusionRate(plan.weight, head.dose + plan.DoseStep(), head.concentration))
    requires DailyConsumption(rate) != 0.0
    requires head.daysUsed + plan.DayFraction() >= 14.0 || head.volume / DailyConsumption(rate) < 1.0
    requires ChangedAfter(plan, head, next)
    requires e.day == next.day && e.dose == Round2(next.dose) && e.rate == rate && e.reservoir == Round2(next.volume)
    requires e.note == if head.refillsLeft - 1.0 <= 0.0 then VialChange(NextHigher(head.concentration)) else Refilled
    ensures StepRecorded(plan, head.entries, e)
  {
    VialRunsOut(plan, RefillsSinceVial(head.entries));
    RowFields(plan, head, rate, e);
    var dwell := plan.DwellAfter(StepsSinceChange(head.entries) + 1);
    assert head.daysUsed + plan.DayFraction() == dwell;
  }

  /** The date, dose and rate of the row an increase records. */
  lemma RowFields(plan: Plan, head: SimState, rate: int, e: Entry)
    requires plan.Valid() && Progress(plan, head) && head.concentration != 0.0
    requires rate == RoundHalfEven(InfusionRate(plan.weight, head.dose + plan.DoseStep(), head.concentration))
    requires e.day == head.day + plan.DayStep() && e.dose == Round2(head.dose + plan.DoseStep()) && e.rate == rate
    ensures e.day == plan.DayAfter(|head.entries| + 1)
    ensures e.dose == Round2(plan.DoseAfter(|head.entries| + 1))
    ensures e.rate == RoundHalfEven(InfusionRate(plan.weight, plan.DoseAfter(|head.entries| + 1), head.concentration))
  {
    var exact := plan.DoseAfter(|head.entries| + 1);
    assert head.dose + plan.DoseStep() == exact;
    assert e.dose == Round2(exact);
  }

  /** An iteration that changes the reservoir from the vial in use. */
  lemma {:induction false} RefillStep(plan: Plan, head: SimState, rate: int, next: SimState)
    requires plan.Valid() && Tracks(plan, head)
    requires rate == RoundHalfEven(InfusionRate(plan.weight, head.dose + plan.DoseStep(), head.concentration))
    requires DailyConsumption(rate) != 0.0
    requires head.daysUsed + plan.DayFraction() >= 14.0 || head.volume / DailyConsumption(rate) < 1.0
    requires head.refillsLeft - 1.0 > 0.0
    requires RefilledAfter(plan, head, rate, next)
    ensures Tracks(plan, next)
  {
    var e := Entry(next.day, Round2(next.dose), rate, Round2(next.volume), Refilled);
    ChangeRecorded(plan, head, rate, next, e);
    RowsKept(plan, head.entries, e);
    VialRefilled(plan.concentration, head.entries, e);
    VialRunsOut(plan, RefillsSinceVial(head.entries));
    DwellRestarts(head.entries, e);
    VolumeAppend(plan.pumpCapacity, head.entries, e);
    BooksAfterChange(plan, head, e, next);
    assert Progress(plan, next);
    assert InPump(plan, next);
  }

  /** An iteration that changes the reservoir and opens a vial one rung up. */
  lemma {:induction false} VialStep(plan: Plan, head: SimState, rate: int, next: SimState)
    requires plan.Valid() && Tracks(plan, head)
    requires rate == RoundHalfEven(InfusionRate(plan.weight, head.dose + plan.DoseStep(), head.concentration))
    requires DailyConsumption(rate) != 0.0
    requires head.daysUsed + plan.DayFraction() >= 14.0 || head.volume / DailyConsumption(rate) < 1.0
    requires head.refillsLeft - 1.0 <= 0.0
    requires VialOpenedAfter(plan, head, rate, next)
    ensures Tracks(plan, next)
  {
    var e := Entry(next.day, Round2(next.dose), rate, Round2(next.volume), VialChange(next.concentration));
    assert RowsRecorded(plan, next.entries) by {
      ChangeRecorded(plan, head, rate, next, e);
      RowsKept(plan, head.entries, e);
    }
    VialOpened(plan.concentration, head.entries, e);
    assert Books(plan, next) by {
      BooksAfterChange(plan, head, e, next);
    }
    assert InPump(plan, next) by {
      NextHigherStaysOnLadder(head.concentration);
      DwellRestarts(head.entries, e);
    VolumeAppend(plan.pumpCapacity, head.entries, e);
    }
    assert Progress(plan, next);
  }

  /** At every loop head the reservoir holds between nothing and a full pump, it has been in the
      pump less than 14 days, the vial has refills left but no more than a fresh one, and the
      concentration is on the ladder at or above the starting one. */
  lemma {:induction false} LoopHeadBounds(plan: Plan, s: SimState)
    requires plan.Valid() && Tracks(plan, s)
    ensures 0.0 <= s.volume <= plan.pumpCapacity
    ensures 0.0 <= s.daysUsed < 14.0
    ensures 0.0 < s.refillsLeft <= plan.vialCapacity / plan.pumpCapacity
    ensures s.concentration in Concentrations && s.concentration >= plan.concentration
  {
    VialRunsOut(plan, RefillsSinceVial(s.entries));
  }

  /** With `j` changes drawn from the current vial, the next change empties it exactly
      when it is change number RefillsPerVial. */
  lemma {:induction false} VialRunsOut(plan: Plan, j: nat)
    requires plan.Valid() && j < plan.RefillsPerVial()
    ensures plan.vialCapacity / plan.pumpCapacity - j as real - 1.0 <= 0.0 <==> j + 1 == plan.RefillsPerVial()
    ensures plan.vialCapacity / plan.pumpCapacity - j as real > 0.0
  {
  }

  /** Rows already recorded stay recorded when a row is appended. */
  lemma {:induction false} RowsKept(plan: Plan, es: seq<Entry>, e: Entry)
    requires plan.Valid()
    requires RowsRecorded(plan, es)
    requires StepRecorded(plan, es, e)
    ensures RowsRecorded(plan, es + [e])
  {
    var es' := es + [e];
    forall k | 0 <= k < |es'|
      ensures StepRecorded(plan, es'[..k], es'[k])
    {
      if k < |es| {
        assert es'[..k] == es[..k] && es'[k] == es[k];
        assert StepRecorded(plan, es[..k], es[k]);
      } else {
        assert es'[..k] == es;
      }
    }
  }

  lemma {:induction false} FinishTracks(plan: Plan, s: SimState)
    requires plan.Valid() && Tracks(plan, s) && |s.entries| == plan.TotalIncreases()
    ensures Simulated(plan, Protocol(s.entries, Bump(s.usage, s.concentration), s.changes, s.intervals))
  {
  }
}

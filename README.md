# Treprostinil dose-escalation calculator: a Dafny model

`trepro.py` is a small Streamlit tool for subcutaneous treprostinil therapy. It plans the
escalation of a dose, in ng/kg/min, from a starting value to a target over a number of weeks.
Each increase gives a protocol row with:

- the date;
- the dose, shown to two decimals;
- the pump rate, in µl/h, rounded to an integer;
- what is left in the 3 ml pump reservoir;
- a hint column.

A reservoir must be changed when it would stay in the pump 14 days or more, or when it holds
less than one day of fluid. A 10 ml vial fills the reservoir a fixed number of times; when it
runs out, the next vial is taken one rung up the concentration ladder (1, 2.5, 5, 10, 20 mg/ml).
The tool also converts between dose, pump rate, perfusor rate and reservoir duration, and it
closes the protocol with a summary: duration, number of reservoir changes, shortest and longest
interval between changes, and vials used per concentration.

The project models that core:

- `rounding.dfy`: Python's `round(x)` (round half to even) and `round(x, 2)` over exact reals.
- `ladder.dfy`: the concentration ladder and `get_next_higher_concentration`.
- `conversions.dfy`: the four unit conversions.
- `schedule.dfy`: the data of a run. This covers the protocol rows, the plan (the arguments of
  `generate_dose_increase_protocol`), and the result. It also holds one specification function
  per piece of bookkeeping the simulator keeps, each computed from the rows written so far: the
  change count, the change days and intervals, the concentration in use, the vials used, and
  the refills drawn from the current vial, and the fluid left in the reservoir. The predicate
  `StepRecorded` says what one row must be. It fixes every field of the row: whether the
  reservoir changes (both directions of the 14-day and one-day rule), the content shown, and the
  note. `Simulated` says what a finished run returns. The plan's pump and vial capacities
  default to 3 ml and 10 ml, as in the source's signature.
- `simulator.dfy`: `generate_dose_increase_protocol` as an imperative method. Its `for` loop
  carries the source's variables in a `SimState` record. The invariant `Tracks` says two things.
  Each variable, the reservoir volume included, equals its specification function of the rows so
  far. Every row is the one its increase produces. Division by zero, when the pump rate rounds to 0, is a `DivisionByZero`
  outcome.
- `properties.dfy`: what a run guarantees. It covers the dose and date trajectories, the 14-day
  dwell cap, reservoir bounds, change counts and intervals, vial rollover, the climb up the
  ladder, and vial totals.
- `summary.dfy`: `generate_summary` as a list of structured lines.

## Model

| member | source | states |
|---|---|---|
| Rounding.RoundHalfEven | trepro.py:140 | the result is an integer within 1/2 of the input; on an exact tie it is the even neighbour |
| Rounding.RoundHalfEvenUnique | trepro.py:140 | those two properties determine the rounded value: any integer that has both is the result |
| Rounding.RoundHalfEvenMonotone | trepro.py:140 | rounding preserves order |
| Rounding.Round2 | trepro.py:170 | `round(x, 2)` is a whole number of hundredths within 0.005 of x |
| Rounding.Round2Monotone | trepro.py:189 | two-decimal rounding preserves order |
| Rounding.Round2OfHundredths | trepro.py:172 | a value that already has two decimals is shown unchanged |
| Ladder.FirstAboveIsLeastAbove | trepro.py:76-81 | on an ascending list, the scan returns the least entry above c when one exists, and c itself otherwise |
| Ladder.NextHigher | trepro.py:76-81 | result ≥ c; below 20 it is the smallest ladder value strictly above c; at or above 20 it is c unchanged |
| Ladder.NextHigherStaysOnLadder | trepro.py:76-81 | from a ladder value the result is on the ladder, and it equals the input exactly at the top, 20 |
| Conversions.InfusionRate | trepro.py:85-89 | rate × concentration / 1000 is the drug mass per hour, in mg/h, that the dose means for the weight |
| Conversions.DoseFromInfusionRate | trepro.py:101-105 | the dose's mass per hour equals rate × concentration / 1000 |
| Conversions.PerfusorRate | trepro.py:109-114 | rate × (concentration / 50) is the mass per hour of the dose |
| Conversions.ReservoirDuration | trepro.py:93-97 | days × 24 × rate = volume × 1000, with volume defaulting to 3 ml |
| Conversions.DoseRoundTrip | trepro.py:85-105 | converting a dose to a pump rate and back gives the dose |
| Conversions.RateRoundTrip | trepro.py:85-105 | converting a pump rate to a dose and back gives the rate |
| Conversions.PerfusorIsTwentiethOfInfusion | trepro.py:85-114 | the perfusor rate, in ml/h, is the infusion rate, in µl/h, divided by 20 |
| Conversions.InfusionRateIncreasing | trepro.py:85-89 | for positive weight and concentration, a larger dose gives a strictly faster pump |
| Conversions.WorkedExample | trepro.py:85-105 | 70 kg at 10 ng/kg/min of the 5 mg/ml drug gives 8.4 µl/h, which lasts more than 14 days in 3 ml; converting back gives 10 |
| Schedule.Plan.DayStep | trepro.py:137 | the calendar advances by ⌊7/ipw⌋ whole days, which is at most the exact 7/ipw and less than one day below it |
| Schedule.Plan.RefillsPerVial | trepro.py:150-161 | the number of changes a vial covers is ⌈vial/pump⌉ ≥ 1 |
| Schedule.AppendRow | trepro.py:150-191 | one appended row moves each bookkeeping function as the loop body moves its variable |
| Schedule.VolumeAppend | trepro.py:148-184 | a change refills the reservoir to the pump capacity; a kept reservoir loses one day's consumption, rate × 24 / 1000 ml |
| Schedule.DrainStaysInReservoir | trepro.py:144-184 | draining only when a day's worth is left keeps the volume non-negative, and strictly lowers it |
| Schedule.GapsAppend | trepro.py:155-158 | a new change day adds exactly its distance from the previous change day to the intervals, and nothing for the first change |
| Simulator.GenerateDoseIncreaseProtocol | trepro.py:118-199 | a completed run satisfies `Simulated`: one row per increase; each row's date, dose, rate, change decision (14 days in the pump or less than a day of fluid, and only then), shown content and note as its increase produces them; change count, intervals and vial tally as the rows say; one extra vial for the final concentration. It stops with `DivisionByZero` only at a step whose rounded rate is 0, with a concentration reached by that many valid rows |
| Simulator.Increase | trepro.py:136-191 | one iteration either stops, changing nothing, because the rounded rate is 0, or takes the branch the 14-day and one-day rule selects, with the new state `Advanced` states, and keeps the loop invariant |
| Simulator.AdvanceStep | trepro.py:148-191 | each of the three branches (keep, refill, new vial) keeps the loop invariant |
| Simulator.KeepStep | trepro.py:183-191 | draining a day's consumption keeps the invariant |
| Simulator.KeepRecorded | trepro.py:183-191 | a kept reservoir's row is a valid row: under 14 days in the pump, at least a day of fluid, content round(volume − daily use, 2) between 0 and a full pump |
| Simulator.RefillStep | trepro.py:148-182 | a refill from the current vial keeps the invariant |
| Simulator.VialStep | trepro.py:148-174 | a change that opens a vial one rung up keeps the invariant |
| Simulator.ChangeRecorded | trepro.py:148-182 | a change row records a full reservoir and names a new vial exactly when the vial's refills run out |
| Simulator.RowFields | trepro.py:137-140 | a row's date, shown dose and rate are those of increase number k+1 |
| Simulator.BooksAfterChange | trepro.py:152-158 | after a change, the count, the intervals and the last change date are those of the rows |
| Simulator.IntervalsAfterChange | trepro.py:154-158 | after a change, the interval list gains the distance from the previous change day, or stays as it is for the first change |
| Simulator.ChangeBooks | trepro.py:152-158 | a change adds one to the count, adds an interval when an earlier change exists, and becomes the last change day |
| Simulator.DwellRestarts | trepro.py:151 | a change resets the dwell clock |
| Simulator.VialRefilled | trepro.py:176-182 | a refill keeps the concentration and the vial tally and draws one more refill |
| Simulator.VialOpened | trepro.py:161-174 | a vial change counts the used vial at its concentration and switches to the named one |
| Simulator.VialRunsOut | trepro.py:150-161 | the refill counter drops to 0 or below exactly on change number ⌈vial/pump⌉ of a vial, and is positive before that |
| Simulator.LoopHeadBounds | trepro.py:126-167 | at every loop head 0 ≤ volume ≤ pump capacity, 0 ≤ days used < 14, 0 < refills left ≤ vial/pump, and the concentration is a ladder value at or above the start |
| Simulator.StartTracks | trepro.py:120-134 | the initial values satisfy the loop invariant |
| Simulator.FinishTracks | trepro.py:193-199 | the invariant after the last increase, plus the final vial, is a completed run |
| Simulator.RowsKept | trepro.py:168-191 | appending a valid row keeps all earlier rows valid |
| Simulator.DoseAfterNext | trepro.py:138 | one more dose step is the next increase's dose |
| Properties.DoseAfterClosedForm | trepro.py:121-138 | the exact dose after k increases is start + k × (target − start) / total |
| Properties.FinalDoseIsTarget | trepro.py:120-138 | after the last increase the exact dose is the target dose |
| Properties.DayAfterClosedForm | trepro.py:137 | the date after k increases is start + k × ⌊7/ipw⌋ |
| Properties.DayAfterMonotone | trepro.py:137 | dates never go back |
| Properties.LastDayWithinWeeks | trepro.py:120-137 | the last row's date is at most `weeks` weeks after the start, and exactly that when ipw divides 7 |
| Properties.DatesStandStill | trepro.py:137 | with more than 7 increases a week the date never advances |
| Properties.DwellAfterClosedForm | trepro.py:145 | after k increases without a change the reservoir has been in the pump k × 7/ipw days |
| Properties.DwellBelowTwoWeeks | trepro.py:145-148 | that dwell is under 14 days exactly for fewer than 2 × ipw increases |
| Properties.RowsPrefix | trepro.py:136-191 | every prefix of valid rows is valid |
| Properties.LastRow | trepro.py:136-191 | the last of the valid rows is the row of its increase |
| Properties.RowAt | trepro.py:137-170 | row k carries the date and the shown dose of increase k+1 |
| Properties.RowDose | trepro.py:138-170 | row k shows round(start + (k+1) × step, 2) |
| Properties.LastDose | trepro.py:120-170 | the last row of a full run shows round(target, 2) |
| Properties.DoseTrajectory | trepro.py:136-191 | in a completed run every row shows its scheduled dose, and the last shows the target |
| Properties.DateTrajectory | trepro.py:136-137 | row k is dated start + (k+1) × ⌊7/ipw⌋, and dates never decrease down the rows |
| Properties.ReservoirKeptUnderTwoWeeks | trepro.py:145-151 | fewer than 2 × ipw increases pass without a change, so no reservoir stays 14 days |
| Properties.ReservoirWithinPump | trepro.py:126-189 | every row shows a reservoir content between 0 and the rounded pump capacity |
| Properties.ReservoirRule | trepro.py:143-189 | row k changes the reservoir exactly when the dwell reaches 14 days or less than one day of fluid is left; a kept row shows round(volume − daily use, 2) |
| Properties.VolumeStaysInPump | trepro.py:126-184 | along valid rows the reservoir volume stays between 0 and the pump capacity |
| Properties.StepDetermined | trepro.py:136-191 | after given rows, at most one row is valid: the increase determines it |
| Properties.RowsDetermined | trepro.py:136-191 | two valid row lists of the same length are equal |
| Properties.RunIsDetermined | trepro.py:118-199 | two completed runs of one plan are equal: rows, tally, change count and intervals |
| Properties.OneWeekExample | trepro.py:136-189 | 70 kg, 10 ng/kg/min, 5 mg/ml, one increase: 8 µl/h, kept reservoir showing 2.81 ml; a refill row or a 0 ml row is invalid; at 840 µl/h in 1 mg/ml the reservoir cannot be kept |
| Properties.ChangeDaysCount | trepro.py:152-158 | there is one change day per change row |
| Properties.ChangeDaysAscending | trepro.py:155-158 | change days ascend and lie between the first and the last row's date |
| Properties.GapsAt | trepro.py:155-157 | interval i is change day i+1 minus change day i; with n ≥ 1 days there are n − 1 intervals |
| Properties.IntervalsOfRun | trepro.py:152-158 | the change count equals the number of change rows; there are max(changes − 1, 0) intervals; each is a non-negative whole number of days; all are 0 when the date never advances |
| Properties.IntervalsNonNegative | trepro.py:155-157 | no interval is negative |
| Properties.IntervalsVanish | trepro.py:137-157 | with more than 7 increases a week every interval is 0 |
| Properties.VialRollover | trepro.py:150-167 | changes = ⌈vial/pump⌉ × vial changes + refills drawn from the current vial, which are fewer than ⌈vial/pump⌉ |
| Properties.ConcentrationClimbs | trepro.py:161-166 | the concentration in use stays on the ladder, never drops below the start, and never decreases along the rows |
| Properties.VialChangesClimbLadder | trepro.py:161-173 | each vial change names the next rung above the concentration in use before it |
| Properties.SumOverBump | trepro.py:162-165 | counting one more vial adds one to the total when its concentration is listed |
| Properties.LadderHasNoDuplicates | trepro.py:77 | the ladder lists each concentration once |
| Properties.UsageCounts | trepro.py:161-165 | the vials counted during the loop are ladder concentrations, and their total is the number of vial changes |
| Properties.VialTotals | trepro.py:161-197 | the final tally holds ladder concentrations only; its total is the number of vial changes plus one; the number of vial changes is ⌊changes / ⌈vial/pump⌉⌋ |
| Summary.MinOf | trepro.py:247 | the shortest interval is one of the intervals and no interval is shorter |
| Summary.MaxOf | trepro.py:248 | the longest interval is one of the intervals and no interval is longer |
| Summary.VialLines | trepro.py:256-257 | each vial line is a counted concentration with its count, and every counted listed concentration has its line |
| Summary.VialLinesAscending | trepro.py:256-257 | over an ascending list, the vial lines run lowest concentration first |
| Summary.Overview | trepro.py:241-254 | heading, duration and change count; then shortest and longest lines bounding all intervals, or the "no changes" line when the list is empty; then the vial heading |
| Summary.Summary | trepro.py:241-259 | the "no reservoir changes" line appears exactly when the interval list is empty; otherwise lines 4 and 5 hold a min and a max taken from the intervals and bounding them all; one line per counted concentration, with its count |
| Summary.SummaryLowestFirst | trepro.py:256-257 | vial lines run strictly from the lowest concentration up, so none is repeated |
| Summary.VialLinesSum | trepro.py:256-257 | the vial lines add up to the tally's total over the listed concentrations |
| Summary.SummaryVialSum | trepro.py:254-257 | the vial lines of a summary add up to the total of the tally |
| Summary.SummaryOfRun | trepro.py:241-259 | for a completed run, "no changes" appears exactly when there was at most one reservoir change; every vial of the tally is listed; the listed vials add up to the vial changes plus one |

## Left out

- The Streamlit user interface, `generate_pdf_with_graph` and `plot_dose_infusion_rate_reservoir`
  are left out; they are widgets, FPDF calls, temporary files and matplotlib drawing.
  - The UI's input checks become `Plan.Valid`: at least one week, at least one increase a week,
    a ladder concentration, and positive capacities.
- `datetime.date.today()` is replaced by the plan's `startDay`. Dates are whole day numbers.
- Python floats are modelled as exact reals, so float rounding error in `vial_refills_left` and
  `reservoir_days_used` is not represented.
  - `round` is half-to-even on the exact value. Python applies it to the binary float, which can
    settle a decimal tie the other way.
- `timedelta` normalisation is represented only by its effect: ⌊7/ipw⌋ whole days added to the date.
- Number formatting in the notes and the summary is not modelled. Notes are a `Note` datatype
  and summary lines a `Line` datatype.
- Dictionary order: the summary lists the tally in ladder order. The source lists it in
  insertion order, which is the same order because the concentration never decreases.
  - Keys outside the ladder cannot occur (`Properties.VialTotals`), and the summary would not
    list them.
- Conversions.InfusionRate, Conversions.DoseFromInfusionRate, Conversions.PerfusorRate and
  Conversions.ReservoirDuration require a non-zero divisor. Python raises `ZeroDivisionError`
  there instead.
  - Inside the simulator, that error at trepro.py:144 is the `DivisionByZero` outcome.
- Simulator.GenerateDoseIncreaseProtocol: the source keeps the loop's variables as separate
  locals and runs the loop body inline. The model bundles them in a `SimState` value and runs
  the body as the method `Increase`, which reassigns that value.

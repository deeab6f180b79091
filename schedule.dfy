/** The rows of a dose-escalation protocol, the parameters of a run, and the
    bookkeeping the simulator keeps, each stated as a function of the rows so far. */
module Schedule {
  import opened Ladder
  import opened Rounding
  import opened Conversions

  datatype Option<T> = None | Some(value: T)

  /** The hint column of a row. */
  datatype Note = NoNote | Refilled | VialChange(newConcentration: real)

  /** One row: calendar day, displayed dose (ng/kg/min, two decimals), pump rate (µl/h, integer),
      displayed reservoir content (ml, two decimals), hint. */
  datatype Entry = Entry(day: int, dose: real, rate: int, reservoir: real, note: Note)

  /** The arguments of one run; `startDay` stands for the day the protocol is drawn up. */
  datatype Plan = Plan(
    startDose: real, targetDose: real, weeks: int, increasesPerWeek: int, weight: real,
    concentration: real, startDay: int,
    pumpCapacity: real := DefaultPumpCapacity, vialCapacity: real := DefaultVialCapacity)
  {
    /** What the input form guarantees, plus the default capacities being positive. */
    predicate Valid() {
      && weeks >= 1 && increasesPerWeek >= 1
      && concentration in Concentrations
      && pumpCapacity > 0.0 && vialCapacity > 0.0
    }

    function TotalIncreases(): nat
      requires Valid()
    {
      weeks * increasesPerWeek
    }

    function DoseStep(): real
      requires Valid()
    {
      (targetDose - startDose) / TotalIncreases() as real
    }

    /** The exact (undisplayed) dose after `k` increases. */
    function DoseAfter(k: nat): real
      requires Valid()
    {
      if k == 0 then startDose else DoseAfter(k - 1) + DoseStep()
    }

    /** The calendar day after `k` increases. */
    function DayAfter(k: nat): int
      requires Valid()
    {
      if k == 0 then startDay else DayAfter(k - 1) + DayStep()
    }

    /** Days a reservoir has been in the pump after `k` increases without a change. */
    function DwellAfter(k: nat): real
      requires Valid()
    {
      if k == 0 then 0.0 else DwellAfter(k - 1) + DayFraction()
    }

    /** Days the reservoir clock advances per increase. */
    function DayFraction(): real
      requires Valid()
    {
      7.0 / increasesPerWeek as real
    }

    /** Whole days the calendar advances per increase: adding a fractional
        timedelta to a date keeps only its whole days. */
    function DayStep(): (n: nat)
      requires Valid()
      ensures n as real <= DayFraction() < n as real + 1.0
    {
      var n := 7 / increasesPerWeek;
      assert n * increasesPerWeek <= 7 < (n + 1) * increasesPerWeek;
      DivisionBounds(n, increasesPerWeek);
      n
    }

    /** How many reservoir changes one vial covers: the first change that drives the
        fractional refill count to zero or below asks for a new vial. */
    function RefillsPerVial(): (n: nat)
      requires Valid()
      ensures n >= 1
      ensures (n - 1) as real < vialCapacity / pumpCapacity <= n as real
    {
      var q := vialCapacity / pumpCapacity;
      if q.Floor as real == q then q.Floor else q.Floor + 1
    }
  }

  lemma {:induction false} DivisionBounds(n: int, d: int)
    requires d >= 1 && n * d <= 7 < (n + 1) * d
    ensures n as real <= 7.0 / d as real < n as real + 1.0
  {
    var q := 7.0 / d as real;
    assert q * d as real == 7.0;
    assert (q - n as real) * d as real == (7 - n * d) as real;
    assert (n as real + 1.0 - q) * d as real == ((n + 1) * d - 7) as real;
    SignOfFactor(q - n as real, d as real);
    SignOfFactor(n as real + 1.0 - q, d as real);
  }

  /** A product with a positive factor has the sign of the other factor. */
  lemma SignOfFactor(x: real, d: real)
    requires d > 0.0
    ensures x * d >= 0.0 ==> x >= 0.0
    ensures x * d > 0.0 ==> x > 0.0
  {
    if x < 0.0 {
      assert x * d < 0.0;
    } else if x == 0.0 {
      assert x * d == 0.0;
    }
  }

  /** What a finished run returns. */
  datatype Protocol = Protocol(
    entries: seq<Entry>, vialUsage: map<real, nat>, reservoirChanges: nat, reservoirIntervals: seq<int>)

  /** A run either finishes or stops where the pump rate rounds to zero and the
      daily consumption it divides by is zero. */
  datatype Outcome = Completed(protocol: Protocol) | DivisionByZero(step: nat, concentration: real)

  predicate IsChange(e: Entry) {
    e.note != NoNote
  }

  /** ml per day at a pump rate in µl/h. */
  function DailyConsumption(rate: int): real {
    rate as real * 24.0 / 1000.0
  }

  /** The fluid left in the reservoir after the rows, for a pump holding `capacity` ml: full
      after a change, one day's consumption at the row's rate less after any other row. */
  function VolumeAfter(capacity: real, es: seq<Entry>): real {
    if es == [] || IsChange(es[|es| - 1]) then capacity
    else VolumeAfter(capacity, es[..|es| - 1]) - DailyConsumption(es[|es| - 1].rate)
  }

  /** Number of reservoir changes among the rows. */
  function CountChanges(es: seq<Entry>): nat {
    if es == [] then 0
    else CountChanges(es[..|es| - 1]) + (if IsChange(es[|es| - 1]) then 1 else 0)
  }

  /** Number of vial changes among the rows. */
  function CountVialChanges(es: seq<Entry>): nat {
    if es == [] then 0
    else CountVialChanges(es[..|es| - 1]) + (if es[|es| - 1].note.VialChange? then 1 else 0)
  }

  /** The days of the reservoir changes, in order. */
  function ChangeDays(es: seq<Entry>): seq<int> {
    if es == [] then []
    else ChangeDays(es[..|es| - 1]) + (if IsChange(es[|es| - 1]) then [es[|es| - 1].day] else [])
  }

  function LastChangeDay(es: seq<Entry>): Option<int> {
    var ds := ChangeDays(es);
    if ds == [] then None else Some(ds[|ds| - 1])
  }

  /** The differences between consecutive days. */
  function Gaps(ds: seq<int>): seq<int> {
    if |ds| <= 1 then []
    else Gaps(ds[..|ds| - 1]) + [ds[|ds| - 1] - ds[|ds| - 2]]
  }

  /** Rows since the last reservoir change: the increases the current reservoir has stayed in. */
  function StepsSinceChange(es: seq<Entry>): nat {
    if es == [] || IsChange(es[|es| - 1]) then 0
    else StepsSinceChange(es[..|es| - 1]) + 1
  }

  /** Reservoir changes drawn from the vial now in use. */
  function RefillsSinceVial(es: seq<Entry>): nat {
    if es == [] then 0
    else match es[|es| - 1].note
      case NoNote => RefillsSinceVial(es[..|es| - 1])
      case Refilled => RefillsSinceVial(es[..|es| - 1]) + 1
      case VialChange(_) => 0
  }

  /** The concentration in use after the rows, starting from `c0`. */
  function ConcentrationAfter(c0: real, es: seq<Entry>): real {
    if es == [] then c0
    else match es[|es| - 1].note
      case VialChange(c) => c
      case _ => ConcentrationAfter(c0, es[..|es| - 1])
  }

  /** Count one more vial of concentration `c`. */
  function Bump(m: map<real, nat>, c: real): map<real, nat> {
    m[c := (if c in m then m[c] else 0) + 1]
  }

  /** Vials used up during the rows, per concentration. */
  function UsageBefore(c0: real, es: seq<Entry>): map<real, nat> {
    if es == [] then map[]
    else
      var front := es[..|es| - 1];
      if es[|es| - 1].note.VialChange? then Bump(UsageBefore(c0, front), ConcentrationAfter(c0, front))
      else UsageBefore(c0, front)
  }

  /** Sum of the counts of the listed concentrations. */
  function SumOver(cs: seq<real>, m: map<real, nat>): nat {
    if cs == [] then 0
    else (if cs[0] in m then m[cs[0]] else 0) + SumOver(cs[1..], m)
  }

  function TotalVials(m: map<real, nat>): nat {
    SumOver(Concentrations, m)
  }

  /** Row `e`, coming after the rows `before`, is what increase `|before| + 1` of the plan produces. */
  predicate StepRecorded(plan: Plan, before: seq<Entry>, e: Entry)
    requires plan.Valid()
  {
    var k := |before|;
    var conc := ConcentrationAfter(plan.concentration, before);
    // the calendar and the dose advance by one step
    && e.day == plan.DayAfter(k + 1)
    && e.dose == Round2(plan.DoseAfter(k + 1))
    // the rate uses the concentration in the pump before any vial change of this row
    && conc in Concentrations
    && e.rate == RoundHalfEven(InfusionRate(plan.weight, plan.DoseAfter(k + 1), conc))
    && e.rate != 0
    // the reservoir is changed exactly when it would reach 14 days in the pump or holds
    // less than a day's consumption at the new rate
    && (IsChange(e) <==> (|| plan.DwellAfter(StepsSinceChange(before) + 1) >= 14.0
                          || VolumeAfter(plan.pumpCapacity, before) / DailyConsumption(e.rate) < 1.0))
    // a kept reservoir shows what is left after a day's consumption, a changed one is full
    && (!IsChange(e) ==> e.reservoir == Round2(VolumeAfter(plan.pumpCapacity, before) - DailyConsumption(e.rate)))
    && (!IsChange(e) ==> 0.0 <= e.reservoir <= Round2(plan.pumpCapacity))
    && (IsChange(e) ==> e.reservoir == Round2(plan.pumpCapacity))
    // a vial covers RefillsPerVial changes; the last of them names the next concentration
    && (IsChange(e) ==> (e.note.VialChange? <==> RefillsSinceVial(before) + 1 == plan.RefillsPerVial()))
    && (e.note.VialChange? ==> e.note.newConcentration == NextHigher(conc))
  }

  /** Every row is what its increase produces. */
  predicate RowsRecorded(plan: Plan, es: seq<Entry>)
    requires plan.Valid()
  {
    forall k {:trigger StepRecorded(plan, es[..k], es[k])} ::
      0 <= k < |es| ==> StepRecorded(plan, es[..k], es[k])
  }

  /** `pr` is the result of running `plan` to completion. */
  predicate Simulated(plan: Plan, pr: Protocol)
    requires plan.Valid()
  {
    && |pr.entries| == plan.TotalIncreases()
    && RowsRecorded(plan, pr.entries)
    && pr.reservoirChanges == CountChanges(pr.entries)
    && pr.reservoirIntervals == Gaps(ChangeDays(pr.entries))
    && pr.vialUsage == Bump(UsageBefore(plan.concentration, pr.entries),
                            ConcentrationAfter(plan.concentration, pr.entries))
  }

  /** Every vial change moves one rung up from the concentration before it. */
  predicate ClimbsLadder(c0: real, es: seq<Entry>) {
    forall k :: 0 <= k < |es| && es[k].note.VialChange? ==>
      es[k].note.newConcentration == NextHigher(ConcentrationAfter(c0, es[..k]))
  }

  /** How each bookkeeping function moves when one row is appended. */
  lemma {:induction false} AppendRow(c0: real, es: seq<Entry>, e: Entry)
    ensures (es + [e])[..|es|] == es
    ensures CountChanges(es + [e]) == CountChanges(es) + (if IsChange(e) then 1 else 0)
    ensures CountVialChanges(es + [e]) == CountVialChanges(es) + (if e.note.VialChange? then 1 else 0)
    ensures ChangeDays(es + [e]) == if IsChange(e) then ChangeDays(es) + [e.day] else ChangeDays(es)
    ensures StepsSinceChange(es + [e]) == if IsChange(e) then 0 else StepsSinceChange(es) + 1
    ensures RefillsSinceVial(es + [e]) == match e.note
              case NoNote => RefillsSinceVial(es)
              case Refilled => RefillsSinceVial(es) + 1
              case VialChange(_) => 0
    ensures ConcentrationAfter(c0, es + [e]) ==
              if e.note.VialChange? then e.note.newConcentration else ConcentrationAfter(c0, es)
    ensures UsageBefore(c0, es + [e]) ==
              if e.note.VialChange? then Bump(UsageBefore(c0, es), ConcentrationAfter(c0, es))
              else UsageBefore(c0, es)
  {
    var es' := es + [e];
    assert es'[..|es|] == es;
    assert ChangeDays(es) + [] == ChangeDays(es);
  }

  /** Appending a row moves the reservoir content as the row says. */
  lemma {:induction false} VolumeAppend(capacity: real, es: seq<Entry>, e: Entry)
    ensures VolumeAfter(capacity, es + [e]) ==
              if IsChange(e) then capacity else VolumeAfter(capacity, es) - DailyConsumption(e.rate)
  {
    assert (es + [e])[..|es|] == es;
  }

  /** Taking a day's consumption out is only done when at least a day's worth is left. */
  lemma {:induction false} DrainStaysInReservoir(volume: real, daily: real)
    requires volume >= 0.0 && daily != 0.0 && volume / daily >= 1.0
    ensures daily > 0.0 && 0.0 <= volume - daily < volume
  {
    assert volume == (volume / daily) * daily;
  }

  /** Appending a day adds its distance from the previous one. */
  lemma {:induction false} GapsAppend(ds: seq<int>, d: int)
    ensures Gaps(ds + [d]) == if ds == [] then [] else Gaps(ds) + [d - ds[|ds| - 1]]
  {
    var ds' := ds + [d];
    if ds != [] {
      assert ds'[..|ds'| - 1] == ds;
      assert ds'[|ds'| - 2] == ds[|ds| - 1];
    }
  }

  /** The simulator's variables, as they stand at the head of an iteration. */
  datatype SimState = SimState(
    entries: seq<Entry>, dose: real, day: int, concentration: real, volume: real, daysUsed: real,
    refillsLeft: real, usage: map<real, nat>, changes: nat, intervals: seq<int>, lastChangeDay: Option<int>)

  /** Loop invariant: after `|s.entries|` increases the variables hold what the rows say. */
  predicate Tracks(plan: Plan, s: SimState)
    requires plan.Valid()
  {
    Progress(plan, s) && InPump(plan, s) && Books(plan, s) && RowsRecorded(plan, s.entries)
  }

  predicate Progress(plan: Plan, s: SimState)
    requires plan.Valid()
  {
    var n := |s.entries|;
    && s.dose == plan.DoseAfter(n)
    && s.day == plan.DayAfter(n)
  }

  predicate InPump(plan: Plan, s: SimState)
    requires plan.Valid()
  {
    && s.concentration == ConcentrationAfter(plan.concentration, s.entries)
    && s.concentration in Concentrations && s.concentration >= plan.concentration
    && s.volume == VolumeAfter(plan.pumpCapacity, s.entries)
    && 0.0 <= s.volume <= plan.pumpCapacity
    && s.daysUsed == plan.DwellAfter(StepsSinceChange(s.entries))
    && 0.0 <= s.daysUsed < 14.0
    && s.refillsLeft == plan.vialCapacity / plan.pumpCapacity - RefillsSinceVial(s.entries) as real
    && RefillsSinceVial(s.entries) < plan.RefillsPerVial()
  }

  predicate Books(plan: Plan, s: SimState)
    requires plan.Valid()
  {
    && s.usage == UsageBefore(plan.concentration, s.entries)
    && s.changes == CountChanges(s.entries)
    && s.intervals == Gaps(ChangeDays(s.entries))
    && s.lastChangeDay == LastChangeDay(s.entries)
  }
}

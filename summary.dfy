/** `generate_summary`: the text block that closes a protocol, one line per statistic. */
module Summary {
  import opened Ladder
  import opened Schedule
  import opened Properties

  /** The lines of the summary; each constructor stands for one line of the text. */
  datatype Line =
    | Heading
    | TotalDuration(weeks: int)
    | ReservoirChangeCount(changes: int)
    | ShortestInterval(days: int)
    | LongestInterval(days: int)
    | NoReservoirChanges
    | VialHeading
    | VialCount(count: nat, concentration: real)

  /** The smallest interval. */
  function MinOf(xs: seq<int>): (m: int)
    requires xs != []
    ensures m in xs
    ensures forall x :: x in xs ==> m <= x
  {
    if |xs| == 1 then xs[0]
    else
      var rest := MinOf(xs[1..]);
      assert forall x :: x in xs ==> x == xs[0] || x in xs[1..];
      if xs[0] <= rest then xs[0] else rest
  }

  /** The largest interval. */
  function MaxOf(xs: seq<int>): (m: int)
    requires xs != []
    ensures m in xs
    ensures forall x :: x in xs ==> x <= m
  {
    if |xs| == 1 then xs[0]
    else
      var rest := MaxOf(xs[1..]);
      assert forall x :: x in xs ==> x == xs[0] || x in xs[1..];
      if xs[0] >= rest then xs[0] else rest
  }

  /** One line per concentration of `cs` that has a count, in the order of `cs`. */
  function VialLines(cs: seq<real>, usage: map<real, nat>): (lines: seq<Line>)
    ensures |lines| <= |cs|
    ensures forall l :: l in lines ==>
              l.VialCount? && l.concentration in cs && l.concentration in usage && l.count == usage[l.concentration]
    ensures forall c :: c in cs && c in usage ==> VialCount(usage[c], c) in lines
  {
    if cs == [] then []
    else
      var rest := VialLines(cs[1..], usage);
      assert forall c :: c in cs ==> c == cs[0] || c in cs[1..];
      (if cs[0] in usage then [VialCount(usage[cs[0]], cs[0])] else []) + rest
  }

  /** Vial lines listed lowest concentration first. */
  predicate LowestFirst(lines: seq<Line>) {
    forall i, j :: 0 <= i < j < |lines| && lines[i].VialCount? && lines[j].VialCount? ==>
      lines[i].concentration < lines[j].concentration
  }

  /** Over an ascending list of concentrations the vial lines come lowest first. */
  lemma {:induction false} VialLinesAscending(cs: seq<real>, usage: map<real, nat>)
    requires StrictlyAscending(cs)
    ensures LowestFirst(VialLines(cs, usage))
  {
    if cs != [] {
      AscendingTail(cs);
      VialLinesAscending(cs[1..], usage);
      var rest := VialLines(cs[1..], usage);
      assert forall l :: l in rest ==> l.VialCount? && cs[0] < l.concentration;
      if cs[0] in usage {
        LowestFirstCons(VialCount(usage[cs[0]], cs[0]), rest);
      }
    }
  }

  /** The tail of an ascending list is ascending and above its head. */
  lemma AscendingTail(cs: seq<real>)
    requires StrictlyAscending(cs) && cs != []
    ensures StrictlyAscending(cs[1..])
    ensures forall c :: c in cs[1..] ==> cs[0] < c
  {
    forall c | c in cs[1..]
      ensures cs[0] < c
    {
      var k :| 0 <= k < |cs[1..]| && cs[1..][k] == c;
      assert cs[k + 1] == c;
    }
  }

  /** A vial line below every line of a lowest-first list can go in front of it. */
  lemma LowestFirstCons(first: Line, rest: seq<Line>)
    requires first.VialCount? && LowestFirst(rest)
    requires forall l :: l in rest ==> l.VialCount? && first.concentration < l.concentration
    ensures LowestFirst([first] + rest)
  {
    var lines := [first] + rest;
    forall i, j | 0 <= i < j < |lines| && lines[i].VialCount? && lines[j].VialCount?
      ensures lines[i].concentration < lines[j].concentration
    {
      assert lines[j] == rest[j - 1];
      if i > 0 {
        assert lines[i] == rest[i - 1];
      } else {
        assert rest[j - 1] in rest;
      }
    }
  }

  /** The lines before the vial tally: heading, duration, number of reservoir changes, then the
      shortest and longest interval, or a line saying there were no intervals, then the tally's heading. */
  function Overview(changes: int, intervals: seq<int>, weeks: int): (lines: seq<Line>)
    ensures |lines| >= 5 && lines[..3] == [Heading, TotalDuration(weeks), ReservoirChangeCount(changes)]
    ensures intervals == [] ==> |lines| == 5 && lines[3] == NoReservoirChanges && lines[4] == VialHeading
    ensures intervals != [] ==>
              && |lines| == 6
              && lines[3].ShortestInterval? && lines[4].LongestInterval? && lines[5] == VialHeading
              && lines[3].days in intervals && lines[4].days in intervals
              && (forall x :: x in intervals ==> lines[3].days <= x <= lines[4].days)
    ensures forall l :: l in lines ==> !l.VialCount?
  {
    var spread := if intervals != [] then [ShortestInterval(MinOf(intervals)), LongestInterval(MaxOf(intervals))]
                  else [NoReservoirChanges];
    [Heading, TotalDuration(weeks), ReservoirChangeCount(changes)] + spread + [VialHeading]
  }

  /** The summary of a run: the overview, then the vial tally listing each ladder concentration
      with a count, lowest first. */
  function Summary(usage: map<real, nat>, changes: int, intervals: seq<int>, weeks: int): (lines: seq<Line>)
    ensures |lines| >= 5 && lines[..3] == [Heading, TotalDuration(weeks), ReservoirChangeCount(changes)]
    ensures NoReservoirChanges in lines <==> intervals == []
    ensures intervals != [] ==>
              && lines[3].ShortestInterval? && lines[4].LongestInterval?
              && lines[3].days in intervals && lines[4].days in intervals
              && (forall x :: x in intervals ==> lines[3].days <= x <= lines[4].days)
    ensures forall c :: c in Concentrations && c in usage ==> VialCount(usage[c], c) in lines
    ensures forall n, c :: VialCount(n, c) in lines ==> c in Concentrations && c in usage && usage[c] == n
  {
    var overview := Overview(changes, intervals, weeks);
    var vials := VialLines(Concentrations, usage);
    assert NoReservoirChanges !in vials;
    assert intervals == [] ==> overview[3] == NoReservoirChanges;
    assert (overview + vials)[..3] == overview[..3];
    assert (overview + vials)[3] == overview[3] && (overview + vials)[4] == overview[4];
    overview + vials
  }

  /** The vial tally of a summary runs from the lowest concentration to the highest. */
  lemma SummaryLowestFirst(usage: map<real, nat>, changes: int, intervals: seq<int>, weeks: int)
    ensures LowestFirst(Summary(usage, changes, intervals, weeks))
  {
    VialLinesAscending(Concentrations, usage);
    LowestFirstAfter(Overview(changes, intervals, weeks), VialLines(Concentrations, usage));
  }

  /** Lines without vial counts in front of a lowest-first list keep it lowest first. */
  lemma LowestFirstAfter(front: seq<Line>, vials: seq<Line>)
    requires forall l :: l in front ==> !l.VialCount?
    requires LowestFirst(vials)
    ensures LowestFirst(front + vials)
  {
    var lines := front + vials;
    forall i, j | 0 <= i < j < |lines| && lines[i].VialCount? && lines[j].VialCount?
      ensures lines[i].concentration < lines[j].concentration
    {
      if i < |front| {
        assert false;
      }
      assert lines[i] == vials[i - |front|] && lines[j] == vials[j - |front|];
    }
  }

  /** Sum of the counts on the vial lines. */
  function VialSum(lines: seq<Line>): nat {
    if lines == [] then 0
    else (if lines[0].VialCount? then lines[0].count else 0) + VialSum(lines[1..])
  }

  lemma {:induction false} VialSumAppend(a: seq<Line>, b: seq<Line>)
    ensures VialSum(a + b) == VialSum(a) + VialSum(b)
  {
    if a != [] {
      assert (a + b)[1..] == a[1..] + b;
      VialSumAppend(a[1..], b);
    } else {
      assert a + b == b;
    }
  }

  /** The vial lines add up to the tally's total over the listed concentrations. */
  lemma {:induction false} VialLinesSum(cs: seq<real>, usage: map<real, nat>)
    ensures VialSum(VialLines(cs, usage)) == SumOver(cs, usage)
  {
    if cs != [] {
      VialLinesSum(cs[1..], usage);
      var first := if cs[0] in usage then [VialCount(usage[cs[0]], cs[0])] else [];
      VialSumAppend(first, VialLines(cs[1..], usage));
    }
  }

  /** Lines that are not vial lines add nothing to the sum. */
  lemma {:induction false} VialSumWithoutVials(lines: seq<Line>)
    requires forall l :: l in lines ==> !l.VialCount?
    ensures VialSum(lines) == 0
  {
    if lines != [] {
      assert lines[0] in lines;
      assert forall l :: l in lines[1..] ==> l in lines;
      VialSumWithoutVials(lines[1..]);
    }
  }

  /** The vial lines of any summary add up to the tally's total over the ladder. */
  lemma {:induction false} SummaryVialSum(usage: map<real, nat>, changes: int, intervals: seq<int>, weeks: int)
    ensures VialSum(Summary(usage, changes, intervals, weeks)) == TotalVials(usage)
  {
    var overview := Overview(changes, intervals, weeks);
    VialSumWithoutVials(overview);
    VialSumAppend(overview, VialLines(Concentrations, usage));
    VialLinesSum(Concentrations, usage);
  }

  /** The summary of a completed run: it reports no intervals exactly when the run changed the
      reservoir at most once, it lists every vial of the tally, and its vial lines add up to one
      vial per vial change plus the one left in the pump. */
  lemma {:induction false} SummaryOfRun(plan: Plan, pr: Protocol)
    requires plan.Valid() && Simulated(plan, pr)
    ensures var lines := Summary(pr.vialUsage, pr.reservoirChanges, pr.reservoirIntervals, plan.weeks);
            && (NoReservoirChanges in lines <==> pr.reservoirChanges <= 1)
            && (forall c :: c in pr.vialUsage ==> VialCount(pr.vialUsage[c], c) in lines)
            && VialSum(lines) == CountVialChanges(pr.entries) + 1
  {
    IntervalsOfRun(plan, pr);
    VialTotals(plan, pr);
    SummaryVialSum(pr.vialUsage, pr.reservoirChanges, pr.reservoirIntervals, plan.weeks);
  }
}

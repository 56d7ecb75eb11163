/** Concurrent report creations sharing the per-(organization, year) counters. */
module ReportCounters {
  import opened Wrappers
  import opened ReportNumbers

  datatype Series = Series(organization: nat, year: nat)

  type Counters = map<Series, nat>

  /** The value the upsert writes and returns. */
  function Following(counters: Counters, series: Series): nat {
    if series in counters then counters[series] + 1 else 1
  }

  class CounterTable {
    var counters: Counters

    constructor ()
      ensures counters == map[]
    {
      counters := map[];
    }

    /** One statement: insert the first number or increment, and return what was written. */
    method AllocateHumanId(series: Series) returns (humanId: string)
      modifies this
      ensures counters == old(counters)[series := Following(old(counters), series)]
      ensures humanId == HumanId(series.year, counters[series])
    {
      var number := 1;
      if series in counters {
        number := counters[series] + 1;
      }
      counters := counters[series := number];
      humanId := HumanId(series.year, number);
    }
  }

  /** A creation that has allocated its number and holds the counter's row lock until it ends. */
  datatype Open = Open(series: Series, number: nat)

  /** Committed counters, open creations, and the numbers of committed reports in commit order. */
  datatype Sys = Sys(counters: Counters, open: map<nat, Open>, reports: map<Series, seq<nat>>)

  datatype Step = Allocate(pid: nat, series: Series) | Commit(pid: nat) | Abort(pid: nat)

  predicate Locked(s: Sys, series: Series) {
    exists pid <- s.open :: s.open[pid].series == series
  }

  function Numbers(s: Sys, series: Series): seq<nat> {
    if series in s.reports then s.reports[series] else []
  }

  /** A second creation in a locked series waits; ending by exception or crash rolls the counter back. */
  function Apply(s: Sys, step: Step): Option<Sys> {
    match step
    case Allocate(pid, series) =>
      if pid in s.open || Locked(s, series) then None
      else Some(s.(open := s.open[pid := Open(series, Following(s.counters, series))]))
    case Commit(pid) =>
      if pid !in s.open then None
      else
        var Open(series, number) := s.open[pid];
        Some(Sys(s.counters[series := number], s.open - {pid}, s.reports[series := Numbers(s, series) + [number]]))
    case Abort(pid) => if pid !in s.open then None else Some(s.(open := s.open - {pid}))
  }

  ghost predicate Run(trace: seq<Sys>, steps: seq<Step>) {
    && |trace| == |steps| + 1
    && trace[0] == Sys(map[], map[], map[])
    && forall i :: 0 <= i < |steps| ==> Apply(trace[i], steps[i]) == Some(trace[i + 1])
  }

  /** The numbers 1, 2, ..., n in order. */
  predicate Gapless(numbers: seq<nat>) {
    forall i :: 0 <= i < |numbers| ==> numbers[i] == i + 1
  }

  ghost predicate Inv(s: Sys) {
    && (forall series: Series :: Gapless(Numbers(s, series)) && Following(s.counters, series) == |Numbers(s, series)| + 1)
    && (forall pid <- s.open :: s.open[pid].number == Following(s.counters, s.open[pid].series))
    && (forall p <- s.open, q <- s.open :: s.open[p].series == s.open[q].series ==> p == q)
  }

  lemma StepInv(s: Sys, s': Sys, step: Step)
    requires Inv(s) && Apply(s, step) == Some(s')
    ensures Inv(s')
  {
    forall series: Series
      ensures Gapless(Numbers(s', series)) && Following(s'.counters, series) == |Numbers(s', series)| + 1
    {
      assert Gapless(Numbers(s, series));
      if step.Commit? && s.open[step.pid].series == series {
        assert Numbers(s', series) == Numbers(s, series) + [s.open[step.pid].number];
      } else {
        assert Numbers(s', series) == Numbers(s, series);
        assert Following(s'.counters, series) == Following(s.counters, series);
      }
    }
  }

  lemma {:induction false} Reachable(trace: seq<Sys>, steps: seq<Step>, i: nat)
    requires Run(trace, steps) && i < |trace|
    ensures Inv(trace[i])
  {
    hide Apply;
    if i > 0 {
      Reachable(trace, steps, i - 1);
      assert Apply(trace[i - 1], steps[i - 1]) == Some(trace[i - 1 + 1]);
      hide Inv;
      StepInv(trace[i - 1], trace[i], steps[i - 1]);
    }
  }

  /** However creations overlap and abort, a series' committed numbers are 1 up to its counter, each once. */
  lemma CommittedNumbersAreGapless(trace: seq<Sys>, steps: seq<Step>, i: nat, series: Series)
    requires Run(trace, steps) && i < |trace|
    ensures var numbers := Numbers(trace[i], series);
            && Gapless(numbers)
            && |numbers| == if series in trace[i].counters then trace[i].counters[series] else 0
  {
    Reachable(trace, steps, i);
    assert Gapless(Numbers(trace[i], series));
  }

  /** No two committed reports of one organization ever print alike. */
  lemma CommittedIdsAreUnique(trace: seq<Sys>, steps: seq<Step>, i: nat, x: Series, a: nat, y: Series, b: nat)
    requires Run(trace, steps) && i < |trace| && x.organization == y.organization
    requires a < |Numbers(trace[i], x)| && b < |Numbers(trace[i], y)|
    ensures HumanId(x.year, Numbers(trace[i], x)[a]) == HumanId(y.year, Numbers(trace[i], y)[b]) <==> x == y && a == b
  {
    hide HumanId;
    CommittedNumbersAreGapless(trace, steps, i, x);
    CommittedNumbersAreGapless(trace, steps, i, y);
    HumanIdInjective(x.year, Numbers(trace[i], x)[a], y.year, Numbers(trace[i], y)[b]);
  }
}

/** The telemetry store: one slot for the run in flight, per-step outcome counters, and a
    bounded history of finished runs, with the summary and history views derived from them.
    Clock readings (start and end times, durations, step timestamps) are not modelled. */
module Monitoring {
  import opened Wrappers
  import opened BoundedHistory

  const StatusSuccess: string := "success"
  const StatusFailure: string := "failure"
  const StatusRunning: string := "running"
  /** The counter key that every recorded step increments. */
  const TotalKey: string := "total"

  /** How many characters of the input a run keeps, and what marks a cut. */
  const PreviewLength: nat := 50
  const Ellipsis: string := "..."

  /** One stage outcome appended to the run in flight. */
  datatype StepRecord = StepRecord(name: string, status: string)

  /** A run: the shortened input, its steps in order, its status and an optional error. */
  datatype Execution = Execution(text: string, steps: seq<StepRecord>, status: string, error: Option<string>)

  /** The counters kept per step name and read back by the summary. */
  datatype Counter = Counter(total: nat, success: nat, failure: nat)

  /** The whole store: finished runs oldest first, counters per step name, and the run in flight. */
  datatype Metrics = Metrics(executions: seq<Execution>, stepMetrics: map<string, Counter>, current: Option<Execution>)

  /** Every recorded step was either a success or a failure. */
  predicate Balanced(c: Counter) {
    c.total == c.success + c.failure
  }

  /** What the counters satisfy whatever status strings were recorded. */
  predicate Consistent(c: Counter) {
    c.success + c.failure <= c.total
  }

  /** The two statuses the orchestrator ever records. */
  predicate IsOutcome(status: string) {
    status == StatusSuccess || status == StatusFailure
  }

  /** The invariant of every store reachable through the orchestrator. */
  predicate Valid(m: Metrics) {
    && |m.executions| <= Capacity
    && (forall n :: n in m.stepMetrics ==> Balanced(m.stepMetrics[n]))
    && (m.current.Some? ==> m.current.value.status == StatusRunning && m.current.value.error.None?)
  }

  /** A fresh store. */
  function Init(): (m: Metrics)
    ensures Valid(m)
    ensures m.executions == [] && m.stepMetrics == map[] && m.current.None?
  {
    Metrics([], map[], None)
  }

  /** The input as a run keeps it: unchanged up to 50 characters, otherwise its first 50
      characters followed by an ellipsis. */
  function Preview(text: string): (p: string)
    ensures |text| <= PreviewLength ==> p == text
    ensures |text| > PreviewLength ==> |p| == PreviewLength + |Ellipsis|
    ensures |text| > PreviewLength ==> p[..PreviewLength] == text[..PreviewLength] && p[PreviewLength..] == Ellipsis
  {
    if |text| > PreviewLength then text[..PreviewLength] + Ellipsis else text
  }

  /** Opens a new run, replacing whatever run was in flight. */
  function StartExecution(m: Metrics, text: string): (r: Metrics)
    ensures r.current == Some(Execution(Preview(text), [], StatusRunning, None))
    ensures r.executions == m.executions && r.stepMetrics == m.stepMetrics
    ensures Valid(m) ==> Valid(r)
  {
    m.(current := Some(Execution(Preview(text), [], StatusRunning, None)))
  }

  /** The counters of `name`, all zero for a name never recorded. */
  function CounterOf(counters: map<string, Counter>, name: string): Counter {
    if name in counters then counters[name] else Counter(0, 0, 0)
  }

  /** Counting one step: `total` goes up, then the key named by the status goes up, so a
      status spelled "total" raises the total twice and any other status raises a key the
      summary never reads. */
  function Bump(c: Counter, status: string): (r: Counter)
    ensures r.total == c.total + (if status == TotalKey then 2 else 1)
    ensures r.success == c.success + (if status == StatusSuccess then 1 else 0)
    ensures r.failure == c.failure + (if status == StatusFailure then 1 else 0)
  {
    var c1 := c.(total := c.total + 1);
    if status == StatusSuccess then c1.(success := c1.success + 1)
    else if status == StatusFailure then c1.(failure := c1.failure + 1)
    else if status == TotalKey then c1.(total := c1.total + 1)
    else c1
  }

  /** A balanced counter stays balanced after a step exactly when the step's status is one of
      the two outcomes; no status ever makes a consistent counter inconsistent. */
  lemma BumpBalancedIff(c: Counter, status: string)
    ensures Consistent(c) ==> Consistent(Bump(c, status))
    ensures Balanced(c) ==> (Balanced(Bump(c, status)) <==> IsOutcome(status))
  {
  }

  /** Records a step on the run in flight and counts it; without a run in flight nothing
      changes at all. */
  function RecordStep(m: Metrics, name: string, status: string): (r: Metrics)
    ensures m.current.None? ==> r == m
    ensures m.current.Some? ==>
              r.current == Some(m.current.value.(steps := m.current.value.steps + [StepRecord(name, status)]))
    ensures m.current.Some? ==> r.stepMetrics.Keys == m.stepMetrics.Keys + {name}
    ensures m.current.Some? ==> CounterOf(r.stepMetrics, name) == Bump(CounterOf(m.stepMetrics, name), status)
    ensures forall n :: n != name && n in m.stepMetrics ==> r.stepMetrics[n] == m.stepMetrics[n]
    ensures r.executions == m.executions
    ensures Valid(m) && IsOutcome(status) ==> Valid(r)
  {
    match m.current
    case None => m
    case Some(e) =>
      Metrics(m.executions,
              m.stepMetrics[name := Bump(CounterOf(m.stepMetrics, name), status)],
              Some(e.(steps := e.steps + [StepRecord(name, status)])))
  }

  /** Recording a success or failure moves only that step's counters: its total by one and
      exactly one of its success and failure counts by one. */
  lemma RecordStepCounts(m: Metrics, name: string, status: string)
    requires m.current.Some?
    requires IsOutcome(status)
    ensures forall n :: n != name ==>
              CounterOf(RecordStep(m, name, status).stepMetrics, n) == CounterOf(m.stepMetrics, n)
    ensures CounterOf(RecordStep(m, name, status).stepMetrics, name).total == CounterOf(m.stepMetrics, name).total + 1
    ensures CounterOf(RecordStep(m, name, status).stepMetrics, name).success - CounterOf(m.stepMetrics, name).success
            == (if status == StatusSuccess then 1 else 0)
    ensures CounterOf(RecordStep(m, name, status).stepMetrics, name).failure - CounterOf(m.stepMetrics, name).failure
            == (if status == StatusFailure then 1 else 0)
  {
  }

  /** The counters obtained by counting `steps` in order on top of `counters`. */
  function Tally(counters: map<string, Counter>, steps: seq<StepRecord>): map<string, Counter>
    decreases |steps|
  {
    if steps == [] then counters
    else
      var c := Tally(counters, steps[..|steps| - 1]);
      var s := steps[|steps| - 1];
      c[s.name := Bump(CounterOf(c, s.name), s.status)]
  }

  /** While a run is in flight, its counters are the tally of its steps: recording one more
      step keeps it so. */
  lemma RecordStepTallies(m: Metrics, base: map<string, Counter>, name: string, status: string)
    requires m.current.Some? && m.stepMetrics == Tally(base, m.current.value.steps)
    ensures RecordStep(m, name, status).current.Some?
    ensures RecordStep(m, name, status).stepMetrics == Tally(base, RecordStep(m, name, status).current.value.steps)
  {
    var steps := m.current.value.steps + [StepRecord(name, status)];
    assert steps[..|steps| - 1] == m.current.value.steps;
  }

  /** The number of steps in `steps` with the given name and status. */
  function Occurrences(steps: seq<StepRecord>, name: string, status: string): (k: nat)
    ensures k <= |steps|
    decreases |steps|
  {
    if steps == [] then 0
    else Occurrences(steps[..|steps| - 1], name, status)
         + (if steps[|steps| - 1] == StepRecord(name, status) then 1 else 0)
  }

  /** Counting successes and failures only: each name's success and failure counters grow by
      the number of its successful and failed steps, so balanced counters stay balanced. */
  lemma {:induction false} TallyCounts(counters: map<string, Counter>, steps: seq<StepRecord>, name: string)
    requires forall i :: 0 <= i < |steps| ==> IsOutcome(steps[i].status)
    ensures CounterOf(Tally(counters, steps), name).success
            == CounterOf(counters, name).success + Occurrences(steps, name, StatusSuccess)
    ensures CounterOf(Tally(counters, steps), name).failure
            == CounterOf(counters, name).failure + Occurrences(steps, name, StatusFailure)
    ensures CounterOf(Tally(counters, steps), name).total
            == CounterOf(counters, name).total
               + Occurrences(steps, name, StatusSuccess) + Occurrences(steps, name, StatusFailure)
    decreases |steps|
  {
    if steps != [] {
      var steps' := steps[..|steps| - 1];
      TallyCounts(counters, steps', name);
    }
  }

  /** Counting only successes and failures keeps every counter balanced. */
  lemma {:induction false} TallyBalanced(counters: map<string, Counter>, steps: seq<StepRecord>)
    requires forall n :: n in counters ==> Balanced(counters[n])
    requires forall i :: 0 <= i < |steps| ==> IsOutcome(steps[i].status)
    ensures forall n :: n in Tally(counters, steps) ==> Balanced(Tally(counters, steps)[n])
    decreases |steps|
  {
    if steps != [] {
      var steps' := steps[..|steps| - 1];
      TallyBalanced(counters, steps');
      var c := Tally(counters, steps');
      var s := steps[|steps| - 1];
      BumpBalancedIff(CounterOf(c, s.name), s.status);
    }
  }

  /** The run in flight as it is stored when it finishes; the error is kept only when one
      was supplied and it is not empty. */
  function Finished(e: Execution, status: string, error: Option<string>): (f: Execution)
    ensures f.text == e.text && f.steps == e.steps && f.status == status
    ensures error.Some? && error.value != "" ==> f.error == error
    ensures !(error.Some? && error.value != "") ==> f.error == e.error
  {
    if error.Some? && error.value != "" then e.(status := status, error := error)
    else e.(status := status)
  }

  /** Closes the run in flight and moves it into the bounded history; without a run in
      flight nothing changes. */
  function FinishExecution(m: Metrics, status: string, error: Option<string>): (r: Metrics)
    ensures m.current.None? ==> r == m
    ensures m.current.Some? ==> r.current.None? && r.stepMetrics == m.stepMetrics
    ensures m.current.Some? ==> r.executions == Push(m.executions, Finished(m.current.value, status, error), Capacity)
    ensures Valid(m) ==> Valid(r)
  {
    match m.current
    case None => m
    case Some(e) => Metrics(Push(m.executions, Finished(e, status, error), Capacity), m.stepMetrics, None)
  }

  /** Finishing a run adds exactly one record at the newest end, carrying the given status,
      with an error exactly when a non-empty one was supplied; a full history loses exactly
      its oldest record. */
  lemma FinishAppendsOne(m: Metrics, status: string, error: Option<string>)
    requires Valid(m) && m.current.Some?
    ensures var r := FinishExecution(m, status, error);
      && |r.executions| == Min(|m.executions| + 1, Capacity)
      && r.executions[|r.executions| - 1].status == status
      && r.executions[|r.executions| - 1].text == m.current.value.text
      && r.executions[|r.executions| - 1].steps == m.current.value.steps
      && (r.executions[|r.executions| - 1].error.Some? <==> error.Some? && error.value != "")
      && (r.executions[|r.executions| - 1].error.Some? ==> r.executions[|r.executions| - 1].error == error)
      && (|m.executions| == Capacity ==> r.executions == m.executions[1..] + [Finished(m.current.value, status, error)])
  {
    PushEvictsOldest(m.executions, Finished(m.current.value, status, error));
  }

  // ----- Summary -----

  datatype PipelineStats = PipelineStats(total: nat, successful: nat, failed: nat, successRate: real)
  datatype StepStats = StepStats(total: nat, success: nat, failure: nat, successRate: real)
  datatype Summary = Summary(pipelineStats: PipelineStats, stepStats: map<string, StepStats>)

  /** `part / whole`, or zero when `whole` is zero. */
  function Rate(part: nat, whole: nat): (r: real)
    ensures whole == 0 ==> r == 0.0
    ensures whole > 0 ==> r * (whole as real) == part as real
    ensures part <= whole ==> 0.0 <= r <= 1.0
  {
    if whole > 0 then (part as real) / (whole as real) else 0.0
  }

  /** The number of runs whose status is "success". */
  function CountSuccessful(es: seq<Execution>): (n: nat)
    ensures n <= |es|
  {
    if es == [] then 0
    else CountSuccessful(es[..|es| - 1]) + (if es[|es| - 1].status == StatusSuccess then 1 else 0)
  }

  /** Counting is additive over a split of the history, and counts every success. */
  lemma {:induction false} CountSuccessfulAppend(a: seq<Execution>, b: seq<Execution>)
    ensures CountSuccessful(a + b) == CountSuccessful(a) + CountSuccessful(b)
    decreases |b|
  {
    if b == [] {
      assert a + b == a;
    } else {
      var b' := b[..|b| - 1];
      CountSuccessfulAppend(a, b');
      assert (a + b)[..|a + b| - 1] == a + b';
    }
  }

  /** A history counts all its runs as successful exactly when every run succeeded. */
  lemma {:induction false} CountSuccessfulAll(es: seq<Execution>)
    ensures CountSuccessful(es) == |es| <==> forall i :: 0 <= i < |es| ==> es[i].status == StatusSuccess
    decreases |es|
  {
    if es != [] {
      var es' := es[..|es| - 1];
      CountSuccessfulAll(es');
      assert forall i :: 0 <= i < |es'| ==> es'[i] == es[i];
    }
  }

  function StepStatsOf(c: Counter): StepStats {
    StepStats(c.total, c.success, c.failure, Rate(c.success, c.total))
  }

  /** The pipeline and per-step statistics derived from the current state; host resource
      sampling is not modelled. */
  function GetSummary(m: Metrics): (s: Summary)
    ensures s.pipelineStats.total == |m.executions|
    ensures s.pipelineStats.successful == CountSuccessful(m.executions)
    ensures s.pipelineStats.successful + s.pipelineStats.failed == s.pipelineStats.total
    ensures s.pipelineStats.total == 0 ==> s.pipelineStats.successRate == 0.0
    ensures s.pipelineStats.total > 0 ==>
              s.pipelineStats.successRate * (s.pipelineStats.total as real) == s.pipelineStats.successful as real
    ensures 0.0 <= s.pipelineStats.successRate <= 1.0
    ensures s.stepStats.Keys == m.stepMetrics.Keys
    ensures forall n :: n in s.stepStats ==>
              && s.stepStats[n].total == m.stepMetrics[n].total
              && s.stepStats[n].success == m.stepMetrics[n].success
              && s.stepStats[n].failure == m.stepMetrics[n].failure
              && (s.stepStats[n].total == 0 ==> s.stepStats[n].successRate == 0.0)
              && (s.stepStats[n].total > 0 ==>
                    s.stepStats[n].successRate * (s.stepStats[n].total as real) == s.stepStats[n].success as real)
    ensures forall n :: n in s.stepStats && Consistent(m.stepMetrics[n]) ==> 0.0 <= s.stepStats[n].successRate <= 1.0
  {
    var total := |m.executions|;
    var successful := CountSuccessful(m.executions);
    Summary(PipelineStats(total, successful, total - successful, Rate(successful, total)),
            map n | n in m.stepMetrics :: StepStatsOf(m.stepMetrics[n]))
  }

  /** The summary of a fresh store is all zeros with no step statistics. */
  lemma EmptySummary()
    ensures GetSummary(Init()) == Summary(PipelineStats(0, 0, 0, 0.0), map[])
  {
  }

  /** The stored runs, oldest first, each with the same text, status, steps and error. */
  method GetExecutionHistory(m: Metrics) returns (history: seq<Execution>)
    ensures |history| == |m.executions|
    ensures forall i :: 0 <= i < |history| ==>
              && history[i].text == m.executions[i].text
              && history[i].status == m.executions[i].status
              && history[i].steps == m.executions[i].steps
              && history[i].error == m.executions[i].error
  {
    history := [];
    var i := 0;
    while i < |m.executions|
      invariant 0 <= i <= |m.executions|
      invariant |history| == i
      invariant forall j :: 0 <= j < i ==> history[j] == m.executions[j]
    {
      var e := m.executions[i];
      history := history + [Execution(e.text, e.steps, e.status, e.error)];
      i := i + 1;
    }
  }
}

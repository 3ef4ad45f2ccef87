/** The orchestrator: one run drives four named stages in a fixed order, each under the retry
    policy and each leaving exactly one step record, aborts at the first stage that fails
    for good, and always ends by finishing the run in the telemetry store. */
module Pipeline {
  import opened Wrappers
  import opened BoundedHistory
  import opened Monitoring
  import opened RetryPolicy

  const Tokenization: string := "tokenization"
  const EmbeddingGeneration: string := "embedding_generation"
  const SentimentAnalysis: string := "sentiment_analysis"
  const PostProcessing: string := "post_processing"

  /** The stage names in the order every run attempts them. */
  const StageNames: seq<string> := [Tokenization, EmbeddingGeneration, SentimentAnalysis, PostProcessing]

  /** The tokenizer's output; only the width of its id tensor is observed. */
  datatype Tokens = Tokens(inputIdsWidth: nat)
  /** The embedding vector; only its dimension is observed. */
  datatype Embedding = Embedding(dim: nat)
  /** The classifier's verdict. */
  datatype Sentiment = Sentiment(labelName: string, confidence: real)

  /** Everything the post-processing stage receives. */
  datatype StageData = StageData(text: string, tokens: Tokens, embeddings: Embedding, sentiment: Sentiment)

  /** The record a successful run returns (its timestamp is not modelled). */
  datatype PipelineResult = PipelineResult(
    text: string, textLength: nat, tokenCount: nat, embeddingDim: nat,
    sentiment: string, sentimentConfidence: real, status: string)

  /** The three model-backed stages, each given as what its call number `k` on a given input
      does; they may raise on any call. */
  datatype Action = Action(
    tokenize: (string, nat) -> Attempt<Tokens>,
    generateEmbeddings: (Tokens, nat) -> Attempt<Embedding>,
    analyzeSentiment: (string, nat) -> Attempt<Sentiment>)

  /** What a stage was handed. */
  datatype StageInput = TextInput(text: string) | TokensInput(tokens: Tokens) | DataInput(data: StageData)

  /** One stage of a run: its name, its input and how many times it was called. */
  datatype StageCall = StageCall(name: string, input: StageInput, calls: nat)

  /** The effect of one run: the store afterwards, the value returned or the error raised,
      the record the run left in the history, and the stages it went through. */
  datatype Run = Run(metrics: Metrics, outcome: Result<PipelineResult>, record: Execution, trace: seq<StageCall>)

  /** Builds the result record from the stage outputs. */
  function PostProcess(d: StageData): (r: PipelineResult)
    ensures r.text == d.text && r.textLength == |d.text|
    ensures r.tokenCount == d.tokens.inputIdsWidth && r.embeddingDim == d.embeddings.dim
    ensures r.sentiment == d.sentiment.labelName && r.sentimentConfidence == d.sentiment.confidence
    ensures r.status == StatusSuccess
  {
    PipelineResult(d.text, |d.text|, d.tokens.inputIdsWidth, d.embeddings.dim,
                   d.sentiment.labelName, d.sentiment.confidence, StatusSuccess)
  }

  /** Post-processing as a stage: it never raises. */
  function PostProcessStage(d: StageData, k: nat): Attempt<PipelineResult> {
    Returned(PostProcess(d))
  }

  /** Post-processing returns on its first call, so the retry policy calls it once. */
  lemma PostProcessOnce(d: StageData, maxAttempts: int)
    ensures Retry(PostProcessStage, d, maxAttempts) == StageOutcome(1, Returned(PostProcess(d)))
  {
  }

  /** The status a stage's step record gets. */
  function StepStatus<O>(o: StageOutcome<O>): (s: string)
    ensures IsOutcome(s)
    ensures s == StatusSuccess <==> o.result.Returned?
  {
    if o.result.Returned? then StatusSuccess else StatusFailure
  }

  /** The store after one stage and what the retry policy made of that stage. */
  datatype StepResult<O> = StepResult(metrics: Metrics, outcome: StageOutcome<O>)

  /** Runs one stage under the retry policy and records exactly one step for it: a success
      if some allowed call returned and a failure otherwise, however many calls were made. */
  function ProcessStep<I, O>(m: Metrics, name: string, stage: (I, nat) -> Attempt<O>, input: I, maxAttempts: int)
    : (r: StepResult<O>)
    ensures r.outcome == Retry(stage, input, maxAttempts)
    ensures 1 <= r.outcome.calls <= AttemptBound(maxAttempts)
    ensures m.current.None? ==> r.metrics == m
    ensures m.current.Some? ==>
              && r.metrics.current.Some?
              && r.metrics.current.value.steps == m.current.value.steps + [StepRecord(name, StepStatus(r.outcome))]
    ensures StepStatus(r.outcome) == StatusSuccess <==> Succeeds(stage, input, maxAttempts)
    ensures r.metrics == RecordStep(m, name, StepStatus(r.outcome))
    ensures Valid(m) ==> Valid(r.metrics)
  {
    var o := Retry(stage, input, maxAttempts);
    RetrySucceedsIff(stage, input, maxAttempts);
    StepResult(RecordStep(m, name, StepStatus(o)), o)
  }

  /** Ends a run whose stage used up its attempts, the last call raising `last`: the retry
      policy's exception is raised, and the run in flight moves into the history as a
      failure carrying that exception's text as its error. */
  function Abort(m: Metrics, last: string, trace: seq<StageCall>): (r: Run)
    requires m.current.Some?
    ensures r.outcome == Failure(RetryErrorText(last)) && r.trace == trace
    ensures r.metrics.current.None? && r.metrics.stepMetrics == m.stepMetrics
    ensures r.metrics.executions == Push(m.executions, r.record, Capacity)
    ensures r.record.text == m.current.value.text && r.record.steps == m.current.value.steps
    ensures r.record.status == StatusFailure && r.record.error == Some(RetryErrorText(last))
  {
    var err := RetryErrorText(last);
    Run(FinishExecution(m, StatusFailure, Some(err)), Failure(err),
        Finished(m.current.value, StatusFailure, Some(err)), trace)
  }

  /** Ends a run whose four stages all returned: the run in flight moves into the history as
      a success, keeping whatever error it had, and the result is returned. */
  function Complete(m: Metrics, result: PipelineResult, trace: seq<StageCall>): (r: Run)
    requires m.current.Some?
    ensures r.outcome == Success(result) && r.trace == trace
    ensures r.metrics.current.None? && r.metrics.stepMetrics == m.stepMetrics
    ensures r.metrics.executions == Push(m.executions, r.record, Capacity)
    ensures r.record.text == m.current.value.text && r.record.steps == m.current.value.steps
    ensures r.record.status == StatusSuccess && r.record.error == m.current.value.error
  {
    Run(FinishExecution(m, StatusSuccess, None), Success(result), Finished(m.current.value, StatusSuccess, None), trace)
  }

  /** The store while a run on `text`, started from the store `before`, is in flight after its
      first `k` stages: their steps are recorded in order, all successes except a failed last
      one when `failed` holds, and they are the only counters that moved. */
  predicate Reached(m: Metrics, before: Metrics, text: string, k: nat, failed: bool) {
    && m.current.Some?
    && m.current.value.text == Preview(text)
    && m.current.value.status == StatusRunning
    && m.current.value.error.None?
    && m.executions == before.executions
    && m.stepMetrics == Tally(before.stepMetrics, m.current.value.steps)
    && StagePrefix(m.current.value.steps, k, failed)
  }

  /** `steps` records the first `k` stages in order, all successes except a failed last one
      when `failed` holds. */
  predicate StagePrefix(steps: seq<StepRecord>, k: nat, failed: bool) {
    && k <= |StageNames|
    && |steps| == k
    && (forall i :: 0 <= i < k ==> steps[i].name == StageNames[i])
    && (forall i :: 0 <= i < k ==> steps[i].status == (if failed && i == k - 1 then StatusFailure else StatusSuccess))
  }

  lemma StagePrefixExtend(steps: seq<StepRecord>, k: nat, status: string)
    requires StagePrefix(steps, k, false) && k < |StageNames| && IsOutcome(status)
    ensures StagePrefix(steps + [StepRecord(StageNames[k], status)], k + 1, status == StatusFailure)
  {
    var steps' := steps + [StepRecord(StageNames[k], status)];
    forall i | 0 <= i < k + 1
      ensures steps'[i].name == StageNames[i]
      ensures steps'[i].status == (if status == StatusFailure && i == k then StatusFailure else StatusSuccess)
    {
      if i < k {
        assert steps'[i] == steps[i];
      }
    }
  }

  /** The steps of a whole run: the first `|steps|` stages in order, all succeeding except
      that the last failed when `failed` holds; a run that did not fail went through all four. */
  predicate StepsOfRun(steps: seq<StepRecord>, failed: bool) {
    && 1 <= |steps|
    && StagePrefix(steps, |steps|, failed)
    && (!failed ==> |steps| == |StageNames|)
  }

  /** How every run on `text` from the store `before` ends, whether it returns or raises:
      nothing is in flight, one record was pushed onto the bounded history, the counters
      moved by exactly the run's steps, and the record's status matches what the run returned
      or raised; a failed run always keeps the raised text as its error. The run's trace lists
      the stages from stage `k` on. */
  predicate Ends(r: Run, before: Metrics, text: string, k: nat) {
    && r.metrics.current.None?
    && r.metrics.executions == Push(before.executions, r.record, Capacity)
    && r.metrics.stepMetrics == Tally(before.stepMetrics, r.record.steps)
    && r.record.text == Preview(text)
    && StepsOfRun(r.record.steps, r.outcome.Failure?)
    && (r.outcome.Success? ==> r.record.status == StatusSuccess && r.record.error.None?)
    && (r.outcome.Failure? ==>
          && r.record.status == StatusFailure
          && r.record.error == Some(r.outcome.error))
    && k + |r.trace| == |r.record.steps|
  }

  /** Recording stage `k` of a run whose first `k` stages succeeded. */
  lemma Advance(m: Metrics, before: Metrics, text: string, k: nat, status: string)
    requires Reached(m, before, text, k, false) && k < |StageNames| && IsOutcome(status)
    ensures Reached(RecordStep(m, StageNames[k], status), before, text, k + 1, status == StatusFailure)
  {
    RecordStepTallies(m, before.stepMetrics, StageNames[k], status);
    StagePrefixExtend(m.current.value.steps, k, status);
  }

  /** A run aborted when its stage `k - 1` failed ends as a failure. */
  lemma AbortEnds(m: Metrics, before: Metrics, text: string, k: nat, last: string, call: StageCall)
    requires 1 <= k && Reached(m, before, text, k, true)
    ensures Ends(Abort(m, last, [call]), before, text, k - 1)
  {
  }

  /** A run whose four stages succeeded ends as a success. */
  lemma CompleteEnds(m: Metrics, before: Metrics, text: string, result: PipelineResult, call: StageCall)
    requires Reached(m, before, text, |StageNames|, false)
    ensures Ends(Complete(m, result, [call]), before, text, |StageNames| - 1)
  {
  }

  /** A run that ends well-formed leaves a well-formed store. */
  lemma EndsValid(r: Run, before: Metrics, text: string, k: nat)
    requires Ends(r, before, text, k) && Valid(before)
    ensures Valid(r.metrics)
  {
    TallyBalanced(before.stepMetrics, r.record.steps);
  }

  // ----- What a run does, without the telemetry -----

  /** The stages a run goes through and what it returns or raises. */
  datatype Plan = Plan(trace: seq<StageCall>, outcome: Result<PipelineResult>)

  function Prepend(call: StageCall, p: Plan): Plan {
    Plan([call] + p.trace, p.outcome)
  }

  /** The stages from tokenization on, computed from the stages alone. */
  function PlanRun(text: string, action: Action, maxAttempts: int): Plan {
    var o := Retry(action.tokenize, text, maxAttempts);
    var call := StageCall(Tokenization, TextInput(text), o.calls);
    if o.result.Raised? then Plan([call], Failure(RetryErrorText(o.result.message)))
    else Prepend(call, PlanFromEmbedding(text, o.result.value, action, maxAttempts))
  }

  /** The stages from embedding generation on. */
  function PlanFromEmbedding(text: string, tokens: Tokens, action: Action, maxAttempts: int): Plan {
    var o := Retry(action.generateEmbeddings, tokens, maxAttempts);
    var call := StageCall(EmbeddingGeneration, TokensInput(tokens), o.calls);
    if o.result.Raised? then Plan([call], Failure(RetryErrorText(o.result.message)))
    else Prepend(call, PlanFromSentiment(text, tokens, o.result.value, action, maxAttempts))
  }

  /** The stages from sentiment analysis on. */
  function PlanFromSentiment(text: string, tokens: Tokens, embeddings: Embedding, action: Action, maxAttempts: int)
    : Plan
  {
    var o := Retry(action.analyzeSentiment, text, maxAttempts);
    var call := StageCall(SentimentAnalysis, TextInput(text), o.calls);
    if o.result.Raised? then Plan([call], Failure(RetryErrorText(o.result.message)))
    else
      var data := StageData(text, tokens, embeddings, o.result.value);
      Plan([call, StageCall(PostProcessing, DataInput(data), 1)], Success(PostProcess(data)))
  }

  /** The first model-backed stage whose retries ended in a raise, with the description of
      its last failed call. */
  datatype StageFailure = StageFailure(stage: string, last: string)

  /** Which stage, if any, stops a run on `text`: the stages are tried in order, each on the
      input the one before produced, and the first that raises on every allowed call stops
      the run. Post-processing never raises. */
  function FirstFailure(text: string, action: Action, maxAttempts: int): Option<StageFailure> {
    var tok := Retry(action.tokenize, text, maxAttempts);
    if tok.result.Raised? then Some(StageFailure(Tokenization, tok.result.message))
    else
      var emb := Retry(action.generateEmbeddings, tok.result.value, maxAttempts);
      if emb.result.Raised? then Some(StageFailure(EmbeddingGeneration, emb.result.message))
      else
        var sen := Retry(action.analyzeSentiment, text, maxAttempts);
        if sen.result.Raised? then Some(StageFailure(SentimentAnalysis, sen.result.message))
        else None
  }

  // ----- The run with its telemetry -----

  /** One call of the orchestrator on `text`: open a run, go through the stages, finish the
      run. It returns or raises exactly what `PlanRun` says and goes through the stages
      `PlanRun` lists, one step record per stage; it leaves the store as `Ends` describes, in
      particular with the history grown by one record at its newest end, losing its oldest
      record only when 50 are already stored. */
  function ProcessText(m: Metrics, text: string, action: Action, maxAttempts: int): (r: Run)
    ensures Ends(r, m, text, 0)
    ensures r.trace == PlanRun(text, action, maxAttempts).trace
    ensures r.outcome == PlanRun(text, action, maxAttempts).outcome
    ensures Valid(m) ==> Valid(r.metrics)
    ensures Valid(m) ==> |r.metrics.executions| == Min(|m.executions| + 1, Capacity)
    ensures Valid(m) && |m.executions| == Capacity ==> r.metrics.executions == m.executions[1..] + [r.record]
    ensures Valid(m) && |m.executions| < Capacity ==> r.metrics.executions == m.executions + [r.record]
  {
    var m0 := StartExecution(m, text);
    assert m0.stepMetrics == Tally(m.stepMetrics, m0.current.value.steps);
    var r := TokenizationStage(m0, m, text, action, maxAttempts);
    PushEvictsOldest(m.executions, r.record);
    if Valid(m) then EndsValid(r, m, text, 0); r else r
  }

  /** Stage 1: tokenize the input. */
  function TokenizationStage(m0: Metrics, before: Metrics, text: string, action: Action, maxAttempts: int): (r: Run)
    requires Reached(m0, before, text, 0, false)
    ensures Ends(r, before, text, 0)
    ensures r.trace == PlanRun(text, action, maxAttempts).trace
    ensures r.outcome == PlanRun(text, action, maxAttempts).outcome
  {
    var s := ProcessStep(m0, Tokenization, action.tokenize, text, maxAttempts);
    var call := StageCall(Tokenization, TextInput(text), s.outcome.calls);
    Advance(m0, before, text, 0, StepStatus(s.outcome));
    if s.outcome.result.Raised? then
      AbortEnds(s.metrics, before, text, 1, s.outcome.result.message, call);
      Abort(s.metrics, s.outcome.result.message, [call])
    else
      var r := EmbeddingStage(s.metrics, before, text, s.outcome.result.value, action, maxAttempts);
      r.(trace := [call] + r.trace)
  }

  /** Stage 2: embed the tokens stage 1 returned. */
  function EmbeddingStage(m1: Metrics, before: Metrics, text: string, tokens: Tokens, action: Action, maxAttempts: int)
    : (r: Run)
    requires Reached(m1, before, text, 1, false)
    ensures Ends(r, before, text, 1)
    ensures r.trace == PlanFromEmbedding(text, tokens, action, maxAttempts).trace
    ensures r.outcome == PlanFromEmbedding(text, tokens, action, maxAttempts).outcome
  {
    var s := ProcessStep(m1, EmbeddingGeneration, action.generateEmbeddings, tokens, maxAttempts);
    var call := StageCall(EmbeddingGeneration, TokensInput(tokens), s.outcome.calls);
    Advance(m1, before, text, 1, StepStatus(s.outcome));
    if s.outcome.result.Raised? then
      AbortEnds(s.metrics, before, text, 2, s.outcome.result.message, call);
      Abort(s.metrics, s.outcome.result.message, [call])
    else
      var r := SentimentStage(s.metrics, before, text, tokens, s.outcome.result.value, action, maxAttempts);
      r.(trace := [call] + r.trace)
  }

  /** Stage 3: classify the raw input (not the tokens). */
  function SentimentStage(m2: Metrics, before: Metrics, text: string, tokens: Tokens, embeddings: Embedding,
                          action: Action, maxAttempts: int): (r: Run)
    requires Reached(m2, before, text, 2, false)
    ensures Ends(r, before, text, 2)
    ensures r.trace == PlanFromSentiment(text, tokens, embeddings, action, maxAttempts).trace
    ensures r.outcome == PlanFromSentiment(text, tokens, embeddings, action, maxAttempts).outcome
  {
    var s := ProcessStep(m2, SentimentAnalysis, action.analyzeSentiment, text, maxAttempts);
    var call := StageCall(SentimentAnalysis, TextInput(text), s.outcome.calls);
    Advance(m2, before, text, 2, StepStatus(s.outcome));
    if s.outcome.result.Raised? then
      AbortEnds(s.metrics, before, text, 3, s.outcome.result.message, call);
      Abort(s.metrics, s.outcome.result.message, [call])
    else
      var data := StageData(text, tokens, embeddings, s.outcome.result.value);
      var r := PostProcessingStage(s.metrics, before, data, maxAttempts);
      r.(trace := [call] + r.trace)
  }

  /** Stage 4: build the result record, which cannot fail, and finish the run as a success. */
  function PostProcessingStage(m3: Metrics, before: Metrics, data: StageData, maxAttempts: int): (r: Run)
    requires Reached(m3, before, data.text, 3, false)
    ensures Ends(r, before, data.text, 3)
    ensures r.trace == [StageCall(PostProcessing, DataInput(data), 1)]
    ensures r.outcome == Success(PostProcess(data))
  {
    PostProcessOnce(data, maxAttempts);
    var s := ProcessStep(m3, PostProcessing, PostProcessStage, data, maxAttempts);
    var call := StageCall(PostProcessing, DataInput(data), s.outcome.calls);
    Advance(m3, before, data.text, 3, StepStatus(s.outcome));
    CompleteEnds(s.metrics, before, data.text, PostProcess(data), call);
    Complete(s.metrics, PostProcess(data), [call])
  }

  // ----- Properties of a run -----

  /** A run goes through the stages in the fixed order, at least the first and at most all
      four, each called at least once and at most the attempt limit; it returns exactly when
      it went through all four. */
  lemma PlanStages(text: string, action: Action, maxAttempts: int)
    ensures var p := PlanRun(text, action, maxAttempts);
      && 1 <= |p.trace| <= |StageNames|
      && (forall i :: 0 <= i < |p.trace| ==> p.trace[i].name == StageNames[i])
      && (forall i :: 0 <= i < |p.trace| ==> 1 <= p.trace[i].calls <= AttemptBound(maxAttempts))
      && (p.outcome.Success? <==> |p.trace| == |StageNames|)
  {
    var tok := Retry(action.tokenize, text, maxAttempts);
    if tok.result.Returned? {
      var emb := Retry(action.generateEmbeddings, tok.result.value, maxAttempts);
      if emb.result.Returned? {
        var p := PlanFromSentiment(text, tok.result.value, emb.result.value, action, maxAttempts);
        assert PlanRun(text, action, maxAttempts).trace
            == [StageCall(Tokenization, TextInput(text), tok.calls),
                StageCall(EmbeddingGeneration, TokensInput(tok.result.value), emb.calls)] + p.trace;
      }
    }
  }

  /** What each stage is handed, and what the run returns or raises: the run gets past a
      stage exactly when the retry policy ends that stage with a returned value, and
      otherwise raises the retry policy's exception around that stage's last failure, so
      later stages are never called. The embedding stage is handed the tokens, the classifier the raw input, and
      post-processing everything, once. */
  lemma PlanDataFlow(text: string, action: Action, maxAttempts: int)
    ensures var p := PlanRun(text, action, maxAttempts);
      var tok := Retry(action.tokenize, text, maxAttempts);
      && p.trace[0] == StageCall(Tokenization, TextInput(text), tok.calls)
      && (tok.result.Raised? ==> |p.trace| == 1 && p.outcome == Failure(RetryErrorText(tok.result.message)))
      && (tok.result.Returned? ==>
            var emb := Retry(action.generateEmbeddings, tok.result.value, maxAttempts);
            && |p.trace| >= 2
            && p.trace[1] == StageCall(EmbeddingGeneration, TokensInput(tok.result.value), emb.calls)
            && (emb.result.Raised? ==> |p.trace| == 2 && p.outcome == Failure(RetryErrorText(emb.result.message)))
            && (emb.result.Returned? ==>
                  var sen := Retry(action.analyzeSentiment, text, maxAttempts);
                  && |p.trace| >= 3
                  && p.trace[2] == StageCall(SentimentAnalysis, TextInput(text), sen.calls)
                  && (sen.result.Raised? ==> |p.trace| == 3 && p.outcome == Failure(RetryErrorText(sen.result.message)))
                  && (sen.result.Returned? ==>
                        var data := StageData(text, tok.result.value, emb.result.value, sen.result.value);
                        && |p.trace| == 4
                        && p.trace[3] == StageCall(PostProcessing, DataInput(data), 1)
                        && p.outcome == Success(PostProcess(data)))))
  {
  }

  /** A run returns exactly when every model-backed stage has a call within the attempt
      limit that returns, on the input that stage is handed; the returned record repeats the
      input, its length and the classifier's label and confidence. */
  lemma ProcessTextSucceedsIff(m: Metrics, text: string, action: Action, maxAttempts: int)
    ensures var r := ProcessText(m, text, action, maxAttempts);
      var tok := Retry(action.tokenize, text, maxAttempts);
      && (r.outcome.Success? <==>
            && Succeeds(action.tokenize, text, maxAttempts)
            && Succeeds(action.generateEmbeddings, tok.result.value, maxAttempts)
            && Succeeds(action.analyzeSentiment, text, maxAttempts))
      && (r.outcome.Success? ==>
            var sen := Retry(action.analyzeSentiment, text, maxAttempts);
            && sen.result.Returned?
            && r.outcome.value.text == text
            && r.outcome.value.textLength == |text|
            && r.outcome.value.sentiment == sen.result.value.labelName
            && r.outcome.value.sentimentConfidence == sen.result.value.confidence
            && r.outcome.value.status == StatusSuccess)
  {
    RetrySucceedsIff(action.tokenize, text, maxAttempts);
    RetrySucceedsIff(action.analyzeSentiment, text, maxAttempts);
    var tok := Retry(action.tokenize, text, maxAttempts);
    if tok.result.Returned? {
      RetrySucceedsIff(action.generateEmbeddings, tok.result.value, maxAttempts);
    }
    PlanDataFlow(text, action, maxAttempts);
  }

  /** What `ProcessText` promises about the run it returns. */
  predicate IsRunOf(r: Run, m: Metrics, text: string, action: Action, maxAttempts: int) {
    && Ends(r, m, text, 0)
    && r.trace == PlanRun(text, action, maxAttempts).trace
    && r.outcome == PlanRun(text, action, maxAttempts).outcome
  }

  /** How a run fails: it raises exactly when some model-backed stage used up its attempts;
      then the first such stage is the last one it went through, the raised text is the retry
      policy's exception around that stage's last failure, and the history record keeps that
      text, never empty, as its error. */
  predicate FailureShape(r: Run, text: string, action: Action, maxAttempts: int) {
    var f := FirstFailure(text, action, maxAttempts);
    && (r.outcome.Failure? <==> f.Some?)
    && (r.outcome.Failure? ==>
          && f.Some?
          && r.outcome.error == RetryErrorText(f.value.last)
          && LastFailureOf(r.outcome.error) == Some(f.value.last)
          && r.outcome.error != ""
          && r.record.status == StatusFailure
          && r.record.error == Some(r.outcome.error)
          && 1 <= |r.trace| && r.trace[|r.trace| - 1].name == f.value.stage)
  }

  lemma ProcessTextFailureRecorded(m: Metrics, text: string, action: Action, maxAttempts: int)
    ensures FailureShape(ProcessText(m, text, action, maxAttempts), text, action, maxAttempts)
  {
    RunFailureRecorded(ProcessText(m, text, action, maxAttempts), m, text, action, maxAttempts);
  }

  lemma RunFailureRecorded(r: Run, m: Metrics, text: string, action: Action, maxAttempts: int)
    requires IsRunOf(r, m, text, action, maxAttempts)
    ensures FailureShape(r, text, action, maxAttempts)
  {
    PlanFailure(text, action, maxAttempts);
    var f := FirstFailure(text, action, maxAttempts);
    if f.Some? {
      LastFailureRoundTrip(f.value.last);
    }
  }

  /** A plan fails exactly when some model-backed stage used up its attempts, and then it
      stops at the first such stage and raises the retry exception around its last failure. */
  lemma PlanFailure(text: string, action: Action, maxAttempts: int)
    ensures var p := PlanRun(text, action, maxAttempts);
      var f := FirstFailure(text, action, maxAttempts);
      && (p.outcome.Failure? <==> f.Some?)
      && (f.Some? ==>
            && p.outcome == Failure(RetryErrorText(f.value.last))
            && 1 <= |p.trace| && p.trace[|p.trace| - 1].name == f.value.stage)
  {
    PlanDataFlow(text, action, maxAttempts);
  }

  /** The step shape of a run: its record lists one step per stage in its trace, under the
      same name and in the fixed order; stages before the last succeeded, and the last failed
      exactly when the run raised; a run that returned went through all four. */
  predicate StepShape(r: Run) {
    var steps := r.record.steps;
    && 1 <= |steps| == |r.trace| <= |StageNames|
    && (forall i :: 0 <= i < |steps| ==> steps[i].name == r.trace[i].name == StageNames[i])
    && (forall i :: 0 <= i < |steps| - 1 ==> steps[i].status == StatusSuccess)
    && steps[|steps| - 1].status == (if r.outcome.Failure? then StatusFailure else StatusSuccess)
    && (r.outcome.Success? ==> |steps| == |StageNames|)
  }

  lemma ProcessTextSteps(m: Metrics, text: string, action: Action, maxAttempts: int)
    ensures StepShape(ProcessText(m, text, action, maxAttempts))
  {
    RunSteps(ProcessText(m, text, action, maxAttempts), m, text, action, maxAttempts);
  }

  lemma RunSteps(r: Run, m: Metrics, text: string, action: Action, maxAttempts: int)
    requires IsRunOf(r, m, text, action, maxAttempts)
    ensures StepShape(r)
  {
    PlanStages(text, action, maxAttempts);
  }

  /** The stage names are pairwise different, so each run counts each stage at most once. */
  lemma StageNamesDistinct()
    ensures forall i, j :: 0 <= i < j < |StageNames| ==> StageNames[i] != StageNames[j]
  {
  }

  /** In the steps of a run, each stage name reached occurs exactly once, as a failure only
      for the failing last stage. */
  lemma {:induction false} OccurrencesInRun(steps: seq<StepRecord>, failed: bool, name: string, j: nat)
    requires StepsOfRun(steps, failed) && j <= |steps|
    ensures Occurrences(steps[..j], name, StatusSuccess) + Occurrences(steps[..j], name, StatusFailure)
            == (if name in StageNames[..j] then 1 else 0)
    ensures Occurrences(steps[..j], name, StatusFailure)
            == (if failed && j == |steps| && name == StageNames[j - 1] then 1 else 0)
    decreases j
  {
    if j > 0 {
      OccurrencesInRun(steps, failed, name, j - 1);
      StageNamesDistinct();
      var prefix := steps[..j];
      assert prefix[..j - 1] == steps[..j - 1];
      assert StageNames[..j] == StageNames[..j - 1] + [StageNames[j - 1]];
      assert prefix[j - 1] == steps[j - 1];
      if name == StageNames[j - 1] {
        var earlier := StageNames[..j - 1];
        assert forall i :: 0 <= i < |earlier| ==> earlier[i] == StageNames[i] != name;
        assert name !in earlier;
      }
    } else {
      assert steps[..0] == [];
    }
  }

  /** How a run started from the store `m` moves the counters of `name`: the total by one if
      the run reached that stage, the failure count by one if that stage failed the run, and
      the success count by one if the run got past it; nothing moves for any other name. */
  predicate CountShape(r: Run, m: Metrics, name: string) {
    && 1 <= |r.record.steps| <= |StageNames|
    && var reached := StageNames[..|r.record.steps|];
       var failedHere := r.outcome.Failure? && name == reached[|reached| - 1];
       && CounterOf(r.metrics.stepMetrics, name).total
            == CounterOf(m.stepMetrics, name).total + (if name in reached then 1 else 0)
       && CounterOf(r.metrics.stepMetrics, name).failure
            == CounterOf(m.stepMetrics, name).failure + (if failedHere then 1 else 0)
       && CounterOf(r.metrics.stepMetrics, name).success
            == CounterOf(m.stepMetrics, name).success + (if name in reached && !failedHere then 1 else 0)
  }

  lemma ProcessTextCounts(m: Metrics, text: string, action: Action, maxAttempts: int, name: string)
    ensures CountShape(ProcessText(m, text, action, maxAttempts), m, name)
  {
    RunCounts(ProcessText(m, text, action, maxAttempts), m, text, name);
  }

  lemma RunCounts(r: Run, m: Metrics, text: string, name: string)
    requires Ends(r, m, text, 0)
    ensures CountShape(r, m, name)
  {
    var steps := r.record.steps;
    assert forall i :: 0 <= i < |steps| ==> IsOutcome(steps[i].status);
    TallyCounts(m.stepMetrics, steps, name);
    OccurrencesInRun(steps, r.outcome.Failure?, name, |steps|);
    assert steps[..|steps|] == steps;
  }

  // ----- Worked examples -----

  /** A classifier returning POSITIVE with confidence 0.95 on "I love this food!" gives a
      returned record with that label and confidence, status "success" and the input's
      length, and a history record of four successful steps. */
  lemma ExamplePositive(m: Metrics)
    ensures var text := "I love this food!";
      var action := Action((t, k) => Returned(Tokens(7)), (t, k) => Returned(Embedding(768)),
                           (t, k) => Returned(Sentiment("POSITIVE", 0.95)));
      var r := ProcessText(m, text, action, 3);
      && r.outcome == Success(PipelineResult(text, 17, 7, 768, "POSITIVE", 0.95, StatusSuccess))
      && r.record.status == StatusSuccess
      && |r.record.steps| == 4
  {
    var text := "I love this food!";
    var action := Action((t, k) => Returned(Tokens(7)), (t, k) => Returned(Embedding(768)),
                         (t, k) => Returned(Sentiment("POSITIVE", 0.95)));
    PlanDataFlow(text, action, 3);
    PlanStages(text, action, 3);
  }

  /** With three attempts allowed, an embedding stage that raises twice and then returns is
      called three times and leaves a single successful step. */
  lemma ExampleRetryThenSucceed(m: Metrics, text: string)
    ensures var action := Action((t, k) => Returned(Tokens(4)),
                                 (t, k) => if k < 2 then Raised("timeout") else Returned(Embedding(8)),
                                 (t, k) => Returned(Sentiment("NEGATIVE", 0.5)));
      var r := ProcessText(m, text, action, 3);
      && r.outcome.Success?
      && r.trace[1] == StageCall(EmbeddingGeneration, TokensInput(Tokens(4)), 3)
      && r.record.steps[1] == StepRecord(EmbeddingGeneration, StatusSuccess)
  {
    var action := Action((t, k) => Returned(Tokens(4)),
                         (t, k) => if k < 2 then Raised("timeout") else Returned(Embedding(8)),
                         (t, k) => Returned(Sentiment("NEGATIVE", 0.5)));
    PlanDataFlow(text, action, 3);
    ProcessTextSteps(m, text, action, 3);
  }

  /** A classifier that raises on every one of three calls fails the run: two successful
      steps and a failed one are recorded, post-processing is never reached, and the retry
      policy's exception around the failure's description is both raised and kept as the run's
      error. */
  lemma ExampleExhausted(m: Metrics, text: string)
    ensures var action := Action((t, k) => Returned(Tokens(4)), (t, k) => Returned(Embedding(8)),
                                 (t, k) => Raised("model unavailable"));
      var r := ProcessText(m, text, action, 3);
      && r.outcome == Failure(RetryErrorText("model unavailable"))
      && |r.trace| == 3 && r.trace[2].calls == 3
      && r.record.steps == [StepRecord(Tokenization, StatusSuccess), StepRecord(EmbeddingGeneration, StatusSuccess),
                            StepRecord(SentimentAnalysis, StatusFailure)]
      && r.record.status == StatusFailure
      && r.record.error == Some(RetryErrorText("model unavailable"))
  {
    var action := Action((t, k) => Returned(Tokens(4)), (t, k) => Returned(Embedding(8)),
                         (t, k) => Raised("model unavailable"));
    ClassifierDownRun(ProcessText(m, text, action, 3), m, text, action, "model unavailable");
  }

  /** Whenever tokenization and embedding succeed and the classifier always raises `msg`,
      a run allowed three attempts calls the classifier three times, records the first two
      stages as successes and the classifier as a failure, and raises the retry policy's
      exception around `msg`, which the record keeps as its error even when `msg` is empty. */
  lemma ClassifierDownRun(r: Run, m: Metrics, text: string, action: Action, msg: string)
    requires IsRunOf(r, m, text, action, 3)
    requires forall t, k :: action.tokenize(t, k).Returned?
    requires forall t, k :: action.generateEmbeddings(t, k).Returned?
    requires forall t, k :: action.analyzeSentiment(t, k) == Raised(msg)
    ensures && r.outcome == Failure(RetryErrorText(msg))
            && |r.trace| == 3 && r.trace[2].calls == 3
            && r.record.steps == [StepRecord(Tokenization, StatusSuccess),
                                  StepRecord(EmbeddingGeneration, StatusSuccess),
                                  StepRecord(SentimentAnalysis, StatusFailure)]
            && r.record.status == StatusFailure
            && r.record.error == Some(RetryErrorText(msg))
  {
    ClassifierDownPlan(text, action, msg);
    RunSteps(r, m, text, action, 3);
    var steps := r.record.steps;
    assert steps[0] == StepRecord(Tokenization, StatusSuccess);
    assert steps[1] == StepRecord(EmbeddingGeneration, StatusSuccess);
    assert steps[2] == StepRecord(SentimentAnalysis, StatusFailure);
  }

  /** The plan of such a run: three stages reached, the classifier called three times. */
  lemma ClassifierDownPlan(text: string, action: Action, msg: string)
    requires forall t, k :: action.tokenize(t, k).Returned?
    requires forall t, k :: action.generateEmbeddings(t, k).Returned?
    requires forall t, k :: action.analyzeSentiment(t, k) == Raised(msg)
    ensures var p := PlanRun(text, action, 3);
      p.outcome == Failure(RetryErrorText(msg)) && |p.trace| == 3 && p.trace[2].calls == 3
  {
    var tok := Retry(action.tokenize, text, 3);
    var emb := Retry(action.generateEmbeddings, tok.result.value, 3);
    var sen := Retry(action.analyzeSentiment, text, 3);
    assert tok.result.Returned? && emb.result.Returned?;
    assert sen == StageOutcome(3, Raised(msg));
    PlanDataFlow(text, action, 3);
  }
}

/** The evaluation harness: an evaluation result holding a run's inputs,
    outputs and expected outputs, the dispatch of metric requests to the
    built-in scorers or to a caller-supplied metric, and the `eval` loop that
    runs a pipeline or component once per input. */
module Evaluation {
  import opened Wrappers
  import LexicalMetrics

  /** The built-in metrics. */
  datatype Metric = Recall | Mrr | Map | F1 | Em | Sas

  /** A value of a `MetricsResult` entry: Python's `None`, one number, or a
      list of numbers (the per-sample SAS scores). */
  datatype MetricValue = NotComputed | Number(x: real) | Numbers(xs: seq<real>)

  /** A `MetricsResult`: metric name to value. */
  type MetricsResult = map<string, MetricValue>

  /** The `ValueError`s raised here, and errors raised by collaborators
      (answer extraction, the runnable, the similarity model, a custom metric),
      which propagate unchanged. */
  datatype Error =
    | PredictionLabelMismatch
    | InputsExpectedMismatch(inputs: nat, expected: nat)
    | Raised(reason: string)

  /** Keyword options of `preprocess_text`. */
  datatype TextOptions = TextOptions(
    regexesToIgnore: Option<seq<string>>,
    ignoreCase: bool,
    ignorePunctuation: bool,
    ignoreNumbers: bool)

  /** Keyword options handed through to the semantic-similarity model. */
  datatype SasOptions = SasOptions(model: string, batchSize: int, device: Option<string>, token: Option<string>)

  /** The keyword arguments of a metric call. */
  datatype MetricOptions = MetricOptions(outputKey: string, text: TextOptions, sas: SasOptions)

  /** Code outside this model that the metrics call: `get_answers_from_output`
      (may raise), `preprocess_text` for one string, and the model-backed part
      of SAS for a non-empty sample set. */
  datatype Collaborators<-O> = Collaborators(
    getAnswers: (seq<O>, string, string) -> Result<seq<string>, Error>,
    preprocess: (string, TextOptions) -> string,
    similarity: (seq<string>, seq<string>, SasOptions) -> Result<MetricsResult, Error>)

  function Normalizer<O>(h: Collaborators<O>, text: TextOptions): string -> string {
    s => h.preprocess(s, text)
  }

  /** `runnable_type`: "pipeline" exactly for a runnable whose type is named
      `Pipeline`, "component" for everything else. */
  function RunnableTypeOf(typeName: string): (t: string)
    ensures t == "pipeline" || t == "component"
    ensures t == "pipeline" <==> typeName == "Pipeline"
  {
    if typeName == "Pipeline" then "pipeline" else "component"
  }

  /** A pipeline or component: something with a type name and a `run`
      operation. What `run` returns for an input is fixed by `behaviour`;
      `calls` records, in order, every input `run` has been given. */
  class Runnable<I, O> {
    const typeName: string
    const behaviour: I -> Result<O, Error>
    ghost var calls: seq<I>

    constructor (typeName: string, behaviour: I -> Result<O, Error>)
      ensures this.typeName == typeName && this.behaviour == behaviour
      ensures calls == []
    {
      this.typeName := typeName;
      this.behaviour := behaviour;
      calls := [];
    }

    method Run(input: I) returns (r: Result<O, Error>)
      modifies this
      ensures r == behaviour(input)
      ensures calls == old(calls) + [input]
    {
      r := behaviour(input);
      calls := calls + [input];
    }
  }

  /** A metric request: a built-in metric, or a caller-supplied function of
      the evaluation result and the options. */
  datatype MetricRequest<!I, !O> =
    | BuiltIn(metric: Metric)
    | Custom(compute: (EvaluationResult<I, O>, MetricOptions) -> Result<MetricsResult, Error>)

  class EvaluationResult<I, O> {
    const runnable: Runnable<I, O>
    const inputs: seq<I>
    const outputs: seq<O>
    const expectedOutputs: seq<O>
    const runnableType: string

    constructor (runnable: Runnable<I, O>, inputs: seq<I>, outputs: seq<O>, expectedOutputs: seq<O>)
      ensures this.runnable == runnable
      ensures this.inputs == inputs && this.outputs == outputs && this.expectedOutputs == expectedOutputs
      ensures runnableType == RunnableTypeOf(runnable.typeName)
    {
      this.runnable := runnable;
      this.inputs := inputs;
      this.outputs := outputs;
      this.expectedOutputs := expectedOutputs;
      runnableType := RunnableTypeOf(runnable.typeName);
    }

    /** The answers extracted from `outputs` (predictions) and from
        `expectedOutputs` (labels), in that order; the first failure wins. */
    function Answers(opts: MetricOptions, h: Collaborators<O>): (r: Result<(seq<string>, seq<string>), Error>)
      ensures var preds := h.getAnswers(outputs, opts.outputKey, runnableType);
              var labels := h.getAnswers(expectedOutputs, opts.outputKey, runnableType);
              && (preds.Failure? ==> r == Failure(preds.error))
              && (preds.Success? && labels.Failure? ==> r == Failure(labels.error))
              && (preds.Success? && labels.Success? ==> r == Success((preds.value, labels.value)))
    {
      var preds :- h.getAnswers(outputs, opts.outputKey, runnableType);
      var labels :- h.getAnswers(expectedOutputs, opts.outputKey, runnableType);
      Success((preds, labels))
    }

    function CalculateRecall(): (r: MetricsResult)
      ensures r.Keys == {"recall"} && r["recall"] == NotComputed
    {
      map["recall" := NotComputed]
    }

    function CalculateMap(): (r: MetricsResult)
      ensures r.Keys == {"mean_average_precision"} && r["mean_average_precision"] == NotComputed
    {
      map["mean_average_precision" := NotComputed]
    }

    function CalculateMrr(): (r: MetricsResult)
      ensures r.Keys == {"mean_reciprocal_rank"} && r["mean_reciprocal_rank"] == NotComputed
    {
      map["mean_reciprocal_rank" := NotComputed]
    }

    /** `_calculate_f1`: extraction errors propagate, answer lists of
        different lengths raise, and otherwise the result is the single entry
        "f1", a score in [0, 1] that is 0.0 for no samples. */
    function CalculateF1(opts: MetricOptions, h: Collaborators<O>): (r: Result<MetricsResult, Error>)
      ensures Answers(opts, h).Failure? ==> r == Failure(Answers(opts, h).error)
      ensures Answers(opts, h).Success? ==>
        var (preds, labels) := Answers(opts, h).value;
        && (|preds| != |labels| ==> r == Failure(PredictionLabelMismatch))
        && (|preds| == |labels| ==>
              && r.Success? && r.value.Keys == {"f1"} && r.value["f1"].Number?
              && r.value["f1"].x == LexicalMetrics.F1Score(preds, labels, Normalizer(h, opts.text)).value
              && 0.0 <= r.value["f1"].x <= 1.0
              && (|preds| == 0 ==> r.value["f1"].x == 0.0))
    {
      var (preds, labels) :- Answers(opts, h);
      match LexicalMetrics.F1Score(preds, labels, Normalizer(h, opts.text))
      case Failure(_) => Failure(PredictionLabelMismatch)
      case Success(f1) =>
        LexicalMetrics.F1ScoreBounds(preds, labels, Normalizer(h, opts.text));
        Success(map["f1" := Number(f1)])
    }

    /** `_calculate_em`: as for F1, with the single entry "exact_match", the
        fraction of samples whose normalised prediction equals the normalised
        label. */
    function CalculateEm(opts: MetricOptions, h: Collaborators<O>): (r: Result<MetricsResult, Error>)
      ensures Answers(opts, h).Failure? ==> r == Failure(Answers(opts, h).error)
      ensures Answers(opts, h).Success? ==>
        var (preds, labels) := Answers(opts, h).value;
        var norm := Normalizer(h, opts.text);
        && (|preds| != |labels| ==> r == Failure(PredictionLabelMismatch))
        && (|preds| == |labels| ==>
              && r.Success? && r.value.Keys == {"exact_match"} && r.value["exact_match"].Number?
              && (|preds| == 0 ==> r.value["exact_match"].x == 0.0)
              && (|preds| > 0 ==>
                    && r.value["exact_match"].x
                       == LexicalMetrics.MatchCount(LexicalMetrics.Normalized(preds, norm), LexicalMetrics.Normalized(labels, norm)) as real
                          / |preds| as real
                    && 0.0 <= r.value["exact_match"].x <= 1.0))
    {
      var (preds, labels) :- Answers(opts, h);
      match LexicalMetrics.ExactMatch(preds, labels, Normalizer(h, opts.text))
      case Failure(_) => Failure(PredictionLabelMismatch)
      case Success(em) =>
        if |preds| > 0 then
          LexicalMetrics.ExactMatchIsFraction(preds, labels, Normalizer(h, opts.text));
          LexicalMetrics.ExactMatchBounds(preds, labels, Normalizer(h, opts.text));
          Success(map["exact_match" := Number(em)])
        else
          Success(map["exact_match" := Number(em)])
    }

    /** `_calculate_sas` up to the model: extraction errors propagate,
        answer lists of different lengths raise, no samples give "sas" 0.0
        with the one-element score list [0.0], and a non-empty sample set is
        scored by the similarity model on the normalised answers. */
    function CalculateSas(opts: MetricOptions, h: Collaborators<O>): (r: Result<MetricsResult, Error>)
      ensures Answers(opts, h).Failure? ==> r == Failure(Answers(opts, h).error)
      ensures Answers(opts, h).Success? ==>
        var (preds, labels) := Answers(opts, h).value;
        var norm := Normalizer(h, opts.text);
        && (|preds| != |labels| ==> r == Failure(PredictionLabelMismatch))
        && (|preds| == |labels| == 0 ==> r == Success(map["sas" := Number(0.0), "scores" := Numbers([0.0])]))
        && (|preds| == |labels| > 0 ==>
              r == h.similarity(LexicalMetrics.Normalized(preds, norm), LexicalMetrics.Normalized(labels, norm), opts.sas))
    {
      var (preds, labels) :- Answers(opts, h);
      if |preds| != |labels| then
        Failure(PredictionLabelMismatch)
      else if |preds| == 0 then
        Success(map["sas" := Number(0.0), "scores" := Numbers([0.0])])
      else
        var norm := Normalizer(h, opts.text);
        h.similarity(LexicalMetrics.Normalized(preds, norm), LexicalMetrics.Normalized(labels, norm), opts.sas)
    }

    /** `calculate_metrics`: a built-in metric goes to its entry of the
        supported-metrics table, anything else is called with this result and
        the options. */
    function CalculateMetrics(request: MetricRequest<I, O>, opts: MetricOptions, h: Collaborators<O>): (r: Result<MetricsResult, Error>)
      ensures request.Custom? ==> r == request.compute(this, opts)
      ensures request == BuiltIn(Recall) ==> r == Success(CalculateRecall())
      ensures request == BuiltIn(Mrr) ==> r == Success(CalculateMrr())
      ensures request == BuiltIn(Map) ==> r == Success(CalculateMap())
      ensures request == BuiltIn(F1) ==> r == CalculateF1(opts, h)
      ensures request == BuiltIn(Em) ==> r == CalculateEm(opts, h)
      ensures request == BuiltIn(Sas) ==> r == CalculateSas(opts, h)
    {
      match request
      case Custom(compute) => compute(this, opts)
      case BuiltIn(m) =>
        match m
        case Recall => Success(CalculateRecall())
        case Mrr => Success(CalculateMrr())
        case Map => Success(CalculateMap())
        case F1 => CalculateF1(opts, h)
        case Em => CalculateEm(opts, h)
        case Sas => CalculateSas(opts, h)
    }
  }

  /** Recall, MRR and MAP are stubs: whatever the options and the outputs,
      they succeed with one entry whose value is "not computed", never a
      number. */
  lemma StubMetricsNotComputed<I, O>(e: EvaluationResult<I, O>, m: Metric, opts: MetricOptions, h: Collaborators<O>)
    requires m == Recall || m == Mrr || m == Map
    ensures var r := e.CalculateMetrics(BuiltIn(m), opts, h);
      && r.Success? && |r.value| == 1
      && forall k :: k in r.value ==> r.value[k] == NotComputed
  {
    var r := e.CalculateMetrics(BuiltIn(m), opts, h);
    match m
    case Recall => assert r.value == map["recall" := NotComputed];
    case Mrr => assert r.value == map["mean_reciprocal_rank" := NotComputed];
    case Map => assert r.value == map["mean_average_precision" := NotComputed];
  }

  /** `eval`: refuses inputs and expected outputs of different lengths before
      running anything; otherwise runs the runnable once per input, in order,
      stopping at the first failing run, whose error it returns; on success
      the outputs are the runs' results in input order. */
  method Eval<I, O>(runnable: Runnable<I, O>, inputs: seq<I>, expectedOutputs: seq<O>)
    returns (r: Result<EvaluationResult<I, O>, Error>)
    modifies runnable
    ensures |inputs| != |expectedOutputs| ==>
      r == Failure(InputsExpectedMismatch(|inputs|, |expectedOutputs|)) && runnable.calls == old(runnable.calls)
    ensures r.Success? <==>
      |inputs| == |expectedOutputs| && forall j :: 0 <= j < |inputs| ==> runnable.behaviour(inputs[j]).Success?
    ensures r.Success? ==>
      && fresh(r.value)
      && r.value.runnable == runnable
      && r.value.inputs == inputs
      && r.value.expectedOutputs == expectedOutputs
      && r.value.runnableType == RunnableTypeOf(runnable.typeName)
      && |r.value.outputs| == |inputs|
      && (forall j :: 0 <= j < |inputs| ==> r.value.outputs[j] == runnable.behaviour(inputs[j]).value)
      && runnable.calls == old(runnable.calls) + inputs
    ensures r.Failure? && |inputs| == |expectedOutputs| ==>
      exists k :: 0 <= k < |inputs|
        && (forall j :: 0 <= j < k ==> runnable.behaviour(inputs[j]).Success?)
        && runnable.behaviour(inputs[k]) == Failure(r.error)
        && runnable.calls == old(runnable.calls) + inputs[..k + 1]
  {
    var outputs: seq<O> := [];
    if |inputs| != |expectedOutputs| {
      return Failure(InputsExpectedMismatch(|inputs|, |expectedOutputs|));
    }
    var i := 0;
    while i < |inputs|
      invariant 0 <= i <= |inputs|
      invariant |outputs| == i
      invariant forall j :: 0 <= j < i ==> runnable.behaviour(inputs[j]).Success?
      invariant forall j :: 0 <= j < i ==> outputs[j] == runnable.behaviour(inputs[j]).value
      invariant runnable.calls == old(runnable.calls) + inputs[..i]
    {
      var output := runnable.Run(inputs[i]);
      assert inputs[..i + 1] == inputs[..i] + [inputs[i]];
      if output.Failure? {
        return Failure(output.error);
      }
      outputs := outputs + [output.value];
      i := i + 1;
    }
    assert inputs[..i] == inputs;
    var result := new EvaluationResult(runnable, inputs, outputs, expectedOutputs);
    return Success(result);
  }
}

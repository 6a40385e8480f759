/**
 * The evaluation roll-up: running the registered metrics on a line, on a whole text or line by
 * line, on every file of a directory tree (merging per-file figures into running weighted
 * means), and on every project directory of a root. The language model is threaded through as
 * an opaque state `S`, since every metric changes it.
 */
module Evaluation {
  import opened Util
  import opened Dicts
  import Metrics

  /** `DEFAULT_METRIC_NAME`. */
  const DefaultMetricName: string := "full_token_entropy"

  /** An `EvaluationCustomization`; its class is not part of this model, so only its identity counts. */
  datatype Customization = Customization(name: string)

  /** `EvaluationScenario`: the key under which a result is stored. */
  datatype Scenario = Scenario(metricName: string, customization: Customization)

  /** `EvaluationResult`: the per-item values and their aggregate. */
  datatype EvaluationResult = EvaluationResult(values: seq<real>, aggregatedValue: real)

  /** `Evaluation`: the evaluated text and one result per scenario. */
  datatype Evaluation = Evaluation(text: string, scenarios: Dict<Scenario, EvaluationResult>)

  /** What one metric returns for one line: a result per customization. */
  type MetricOutput = Dict<Customization, EvaluationResult>

  /**
   * `metric_dict` (metric names to metric identities `M`) together with how a metric runs: on
   * the model state, a line, the file extension, the `append_eof` flag and the customizations,
   * it returns its output and the new model state, or the exception the metric raises.
   */
  datatype Registry<!M, !S> = Registry(
    metricDict: Dict<string, M>,
    run: (M, S, string, string, bool, Option<set<Customization>>) -> Result<(MetricOutput, S), Error>)

  // ------------------------------------------------------------ metric names

  /** The first name under which `metric` is registered. */
  function FirstNameOf<M(==)>(metricDict: Dict<string, M>, metric: M): (r: Option<string>)
    ensures r.None? <==> forall i :: 0 <= i < |metricDict| ==> metricDict[i].1 != metric
    ensures r.Some? ==> exists i :: (0 <= i < |metricDict| && metricDict[i] == (r.value, metric) &&
      forall j :: 0 <= j < i ==> metricDict[j].1 != metric)
    decreases |metricDict|
  {
    if |metricDict| == 0 then None
    else if metricDict[0].1 == metric then Some(metricDict[0].0)
    else
      var rest := FirstNameOf(metricDict[1..], metric);
      assert forall i :: 1 <= i < |metricDict| ==> metricDict[i] == metricDict[1..][i - 1];
      rest
  }

  /** `get_metrics_name`: the first registered name of a metric, or `KeyError`. */
  method GetMetricsName<M(==)>(metricDict: Dict<string, M>, metric: M) returns (r: Result<string, Error>)
    ensures FirstNameOf(metricDict, metric).None? ==> r == Failure(KeyError)
    ensures FirstNameOf(metricDict, metric).Some? ==> r == Success(FirstNameOf(metricDict, metric).value)
  {
    var i := 0;
    while i < |metricDict|
      invariant 0 <= i <= |metricDict|
      invariant FirstNameOf(metricDict, metric) == FirstNameOf(metricDict[i..], metric)
    {
      var (k, v) := metricDict[i];
      if v == metric {
        return Success(k);
      }
      assert metricDict[i..][1..] == metricDict[i + 1..];
      i := i + 1;
    }
    return Failure(KeyError);
  }

  /** `_get_metric_by_name`: `metric_dict[name]`, or `KeyError`. */
  function MetricByName<M>(metricDict: Dict<string, M>, name: string): Result<M, Error>
  {
    match Get(metricDict, name)
    case Some(m) => Success(m)
    case None => Failure(KeyError)
  }

  /** The lookup fails, with `KeyError`, exactly for a name not registered, and otherwise finds the metric stored under it. */
  lemma MetricByNameSpec<M>(metricDict: Dict<string, M>, name: string)
    ensures var r := MetricByName(metricDict, name);
      (r.Failure? <==> name !in Keys(metricDict)) && (r.Failure? ==> r.error == KeyError) &&
      (r.Success? ==> exists i :: 0 <= i < |metricDict| && metricDict[i] == (name, r.value))
  {
    GetNone(metricDict, name);
    if name in Keys(metricDict) {
      GetFound(metricDict, name);
    }
  }

  /** Looking a metric up by the name `get_metrics_name` finds for it gives the metric back. */
  lemma MetricNameRoundTrip<M>(metricDict: Dict<string, M>, metric: M)
    requires DistinctKeys(metricDict) && FirstNameOf(metricDict, metric).Some?
    ensures MetricByName(metricDict, FirstNameOf(metricDict, metric).value) == Success(metric)
  {
    var i :| 0 <= i < |metricDict| && metricDict[i] == (FirstNameOf(metricDict, metric).value, metric);
    GetAt(metricDict, i);
  }

  // ------------------------------------------------------------------- lines

  /** Storing one metric's output: each customization's result under `Scenario(metricName, customization)`, in order. */
  function StoreOutput(results: Dict<Scenario, EvaluationResult>, metricName: string, output: MetricOutput)
    : Dict<Scenario, EvaluationResult>
    decreases |output|
  {
    if |output| == 0 then results
    else
      var n := |output| - 1;
      Put(StoreOutput(results, metricName, output[..n]), Scenario(metricName, output[n].0), output[n].1)
  }

  /** Storing keeps the scenario keys distinct. */
  lemma {:induction false} StoreOutputKeepsDistinct(results: Dict<Scenario, EvaluationResult>, metricName: string,
                                                    output: MetricOutput)
    requires DistinctKeys(results)
    ensures DistinctKeys(StoreOutput(results, metricName, output))
    decreases |output|
  {
    if |output| > 0 {
      var n := |output| - 1;
      StoreOutputKeepsDistinct(results, metricName, output[..n]);
      PutKeepsDistinct(StoreOutput(results, metricName, output[..n]), Scenario(metricName, output[n].0), output[n].1);
    }
  }

  /**
   * After storing a metric's output, each of its customizations holds the metric's result for
   * it, and the scenarios of other metrics are untouched.
   */
  lemma {:induction false} StoreOutputGet(results: Dict<Scenario, EvaluationResult>, metricName: string, output: MetricOutput)
    requires DistinctKeys(results) && DistinctKeys(output)
    ensures forall c :: (Get(StoreOutput(results, metricName, output), Scenario(metricName, c))
      == if c in Keys(output) then Get(output, c) else Get(results, Scenario(metricName, c)))
    ensures forall s: Scenario :: s.metricName != metricName ==> Get(StoreOutput(results, metricName, output), s) == Get(results, s)
    decreases |output|
  {
    if |output| > 0 {
      var n := |output| - 1;
      var front, last := output[..n], output[n];
      assert output == front + [last];
      assert DistinctKeys(front) by {
        forall i, j | 0 <= i < j < |front| ensures front[i].0 != front[j].0 {
          assert front[i] == output[i] && front[j] == output[j];
        }
      }
      StoreOutputGet(results, metricName, front);
      StoreOutputKeepsDistinct(results, metricName, front);
      var before := StoreOutput(results, metricName, front);
      PutGet(before, Scenario(metricName, last.0), last.1);
      forall c ensures Get(StoreOutput(results, metricName, output), Scenario(metricName, c))
        == if c in Keys(output) then Get(output, c) else Get(results, Scenario(metricName, c))
      {
        GetSnoc(front, last.0, last.1, c);
        assert Keys(output) == Keys(front) + [last.0];
      }
    }
  }

  /** Every stored scenario was there before or belongs to the metric whose output was stored. */
  lemma {:induction false} StoreOutputKeys(results: Dict<Scenario, EvaluationResult>, metricName: string, output: MetricOutput)
    ensures forall s :: s in Keys(StoreOutput(results, metricName, output)) ==> s in Keys(results) || s.metricName == metricName
    decreases |output|
  {
    if |output| > 0 {
      var n := |output| - 1;
      StoreOutputKeys(results, metricName, output[..n]);
      PutKeys(StoreOutput(results, metricName, output[..n]), Scenario(metricName, output[n].0), output[n].1);
    }
  }

  /** One pass of the loop of `_evaluate_model_on_line`: look the metric up by name, then run it on the line. */
  function MetricStep<M, S>(reg: Registry<M, S>, st: S, line: string, extension: string, name: string,
                            customizations: Option<set<Customization>>, appendEof: bool): Result<(MetricOutput, S), Error>
  {
    var metric :- MetricByName(reg.metricDict, name);
    reg.run(metric, st, line, extension, appendEof, customizations)
  }

  /** A step raises `KeyError` for an unknown name, and otherwise does what the metric registered under it does. */
  lemma MetricStepSpec<M, S>(reg: Registry<M, S>, st: S, line: string, extension: string, name: string,
                             customizations: Option<set<Customization>>, appendEof: bool)
    ensures name !in Keys(reg.metricDict) ==> MetricStep(reg, st, line, extension, name, customizations, appendEof) == Failure(KeyError)
    ensures name in Keys(reg.metricDict) ==>
      exists i :: 0 <= i < |reg.metricDict| && reg.metricDict[i].0 == name &&
        MetricStep(reg, st, line, extension, name, customizations, appendEof)
          == reg.run(reg.metricDict[i].1, st, line, extension, appendEof, customizations)
  {
    MetricByNameSpec(reg.metricDict, name);
  }

  /**
   * The loop of `_evaluate_model_on_line` from metric `i` on: for each remaining metric name, look
   * the metric up, run it on the line, and store its output; the first exception ends it.
   */
  function EvalLine<M, S>(reg: Registry<M, S>, st: S, line: string, extension: string, names: seq<string>, i: nat,
                          customizations: Option<set<Customization>>, appendEof: bool,
                          results: Dict<Scenario, EvaluationResult>): Result<(Dict<Scenario, EvaluationResult>, S), Error>
    requires i <= |names|
    decreases |names| - i
  {
    if i == |names| then Success((results, st))
    else
      var output :- MetricStep(reg, st, line, extension, names[i], customizations, appendEof);
      EvalLine(reg, output.1, line, extension, names, i + 1, customizations, appendEof, StoreOutput(results, names[i], output.0))
  }

  /** `_evaluate_model_on_line` as a value: the evaluation of the line and the model state after it. */
  function LineEvaluation<M, S>(reg: Registry<M, S>, st: S, line: string, extension: string, names: seq<string>,
                                customizations: Option<set<Customization>>, appendEof: bool): (r: Result<(Evaluation, S), Error>)
    ensures r.Success? ==> r.value.0.text == line
  {
    var done :- EvalLine(reg, st, line, extension, names, 0, customizations, appendEof, []);
    Success((Evaluation(line, done.0), done.1))
  }

  /**
   * The exception, if any, that the step of metric `k` raises when the loop reaches it from metric
   * `i`; `None` when an earlier step raised or this one does not.
   */
  function FailureAt<M, S>(reg: Registry<M, S>, st: S, line: string, extension: string, names: seq<string>, i: nat, k: nat,
                           customizations: Option<set<Customization>>, appendEof: bool,
                           results: Dict<Scenario, EvaluationResult>): Option<Error>
    requires i <= k < |names|
  {
    match EvalLine(reg, st, line, extension, names[..k], i, customizations, appendEof, results)
    case Failure(_) => None
    case Success(before) =>
      match MetricStep(reg, before.1, line, extension, names[k], customizations, appendEof)
      case Failure(e) => Some(e)
      case Success(_) => None
  }

  /** After a step that does not raise, the loop reaches each later metric as the loop from the next one does. */
  lemma FailureAtShift<M, S>(reg: Registry<M, S>, st: S, line: string, extension: string, names: seq<string>, i: nat,
                             customizations: Option<set<Customization>>, appendEof: bool,
                             results: Dict<Scenario, EvaluationResult>)
    requires i < |names| && MetricStep(reg, st, line, extension, names[i], customizations, appendEof).Success?
    ensures var output := MetricStep(reg, st, line, extension, names[i], customizations, appendEof).value;
      forall k :: i < k < |names| ==>
        FailureAt(reg, st, line, extension, names, i, k, customizations, appendEof, results)
          == FailureAt(reg, output.1, line, extension, names, i + 1, k, customizations, appendEof,
                       StoreOutput(results, names[i], output.0))
  {
    var output := MetricStep(reg, st, line, extension, names[i], customizations, appendEof).value;
    forall k | i < k < |names|
      ensures FailureAt(reg, st, line, extension, names, i, k, customizations, appendEof, results)
        == FailureAt(reg, output.1, line, extension, names, i + 1, k, customizations, appendEof,
                     StoreOutput(results, names[i], output.0))
    {
      assert names[..k][i] == names[i];
    }
  }

  /**
   * A line evaluation raises exactly when the loop reaches a step that raises, and then with that
   * step's exception, no earlier step having raised; an unknown metric name always makes it raise,
   * and when the metrics themselves never raise it raises `KeyError` exactly for an unknown name.
   * On success it keeps the scenario keys distinct, and every scenario belongs to a requested metric.
   */
  lemma {:induction false} EvalLineSpec<M, S>(reg: Registry<M, S>, st: S, line: string, extension: string, names: seq<string>,
                                              i: nat, customizations: Option<set<Customization>>, appendEof: bool,
                                              results: Dict<Scenario, EvaluationResult>)
    requires i <= |names| && DistinctKeys(results)
    ensures var r := EvalLine(reg, st, line, extension, names, i, customizations, appendEof, results);
      (r.Failure? <==>
        exists k :: i <= k < |names| &&
          FailureAt(reg, st, line, extension, names, i, k, customizations, appendEof, results).Some?) &&
      (r.Failure? ==>
        exists k :: i <= k < |names| &&
          FailureAt(reg, st, line, extension, names, i, k, customizations, appendEof, results) == Some(r.error) &&
          forall j :: i <= j < k ==> FailureAt(reg, st, line, extension, names, i, j, customizations, appendEof, results).None?)
    ensures var r := EvalLine(reg, st, line, extension, names, i, customizations, appendEof, results);
      ((exists k :: i <= k < |names| && names[k] !in Keys(reg.metricDict)) ==> r.Failure?) &&
      ((forall m, s :: reg.run(m, s, line, extension, appendEof, customizations).Success?) ==>
        (r.Failure? <==> exists k :: i <= k < |names| && names[k] !in Keys(reg.metricDict)) &&
        (r.Failure? ==> r.error == KeyError))
    ensures var r := EvalLine(reg, st, line, extension, names, i, customizations, appendEof, results);
      r.Success? ==> (DistinctKeys(r.value.0) &&
        forall s :: s in Keys(r.value.0) ==> s in Keys(results) || s.metricName in names[i..])
    decreases |names| - i
  {
    if i < |names| {
      MetricStepSpec(reg, st, line, extension, names[i], customizations, appendEof);
      assert |names[..i]| == i;
      var step := MetricStep(reg, st, line, extension, names[i], customizations, appendEof);
      if step.Success? {
        var output := step.value;
        var stored := StoreOutput(results, names[i], output.0);
        StoreOutputKeys(results, names[i], output.0);
        StoreOutputKeepsDistinct(results, names[i], output.0);
        EvalLineSpec(reg, output.1, line, extension, names, i + 1, customizations, appendEof, stored);
        FailureAtShift(reg, st, line, extension, names, i, customizations, appendEof, results);
        assert FailureAt(reg, st, line, extension, names, i, i, customizations, appendEof, results).None?;
        var r := EvalLine(reg, output.1, line, extension, names, i + 1, customizations, appendEof, stored);
        assert EvalLine(reg, st, line, extension, names, i, customizations, appendEof, results) == r;
        if r.Failure? {
          var next, from := output.1, i + 1;
          var k :| from <= k < |names| &&
            FailureAt(reg, next, line, extension, names, from, k, customizations, appendEof, stored) == Some(r.error) &&
            forall j :: from <= j < k ==> FailureAt(reg, next, line, extension, names, from, j, customizations, appendEof, stored).None?;
          assert FailureAt(reg, st, line, extension, names, i, k, customizations, appendEof, results) == Some(r.error);
        } else {
          forall k | i <= k < |names|
            ensures FailureAt(reg, st, line, extension, names, i, k, customizations, appendEof, results).None?
          {
            if k > i {
              assert FailureAt(reg, output.1, line, extension, names, i + 1, k, customizations, appendEof, stored).None?;
            }
          }
        }
        assert names[i..] == [names[i]] + names[i + 1..];
      } else {
        assert FailureAt(reg, st, line, extension, names, i, i, customizations, appendEof, results) == Some(step.error);
      }
    }
  }

  /** The inner loop of `_evaluate_model_on_line`: stores one metric's output, customization by customization. */
  method StoreMetricOutput(results: Dict<Scenario, EvaluationResult>, metricName: string, output: MetricOutput)
    returns (stored: Dict<Scenario, EvaluationResult>)
    ensures stored == StoreOutput(results, metricName, output)
  {
    stored := results;
    var j := 0;
    while j < |output|
      invariant 0 <= j <= |output|
      invariant stored == StoreOutput(results, metricName, output[..j])
    {
      assert output[..j + 1][..j] == output[..j];
      stored := Put(stored, Scenario(metricName, output[j].0), output[j].1);
      j := j + 1;
    }
    assert output[..j] == output;
  }

  /** `_evaluate_model_on_line`: fills the scenario dictionary metric by metric. */
  method EvaluateModelOnLine<M, S>(reg: Registry<M, S>, st: S, line: string, extension: string, names: seq<string>,
                                   customizations: Option<set<Customization>>, appendEof: bool)
    returns (r: Result<(Evaluation, S), Error>)
    ensures r == LineEvaluation(reg, st, line, extension, names, customizations, appendEof)
  {
    ghost var target := EvalLine(reg, st, line, extension, names, 0, customizations, appendEof, []);
    var results: Dict<Scenario, EvaluationResult> := [];
    var state := st;
    var i := 0;
    while i < |names|
      invariant 0 <= i <= |names|
      invariant EvalLine(reg, state, line, extension, names, i, customizations, appendEof, results) == target
    {
      var metricName := names[i];
      var metric := MetricByName(reg.metricDict, metricName);
      if metric.Failure? {
        return Failure(metric.error);
      }
      var output := reg.run(metric.value, state, line, extension, appendEof, customizations);
      if output.Failure? {
        return Failure(output.error);
      }
      results := StoreMetricOutput(results, metricName, output.value.0);
      state := output.value.1;
      i := i + 1;
    }
    return Success((Evaluation(line, results), state));
  }

  // -------------------------------------------------------------------- text

  /** `metrics or {DEFAULT_METRIC_NAME}`: the requested metric names, or the default one when none are given. */
  function MetricNames(metrics: Option<seq<string>>): seq<string>
  {
    if metrics.None? || |metrics.value| == 0 then [DefaultMetricName] else metrics.value
  }

  /** The texts `evaluate_model_on_string` evaluates: the `'\n'`-separated lines, or the whole text. */
  function TextLines(text: string, resultPerLine: bool): (r: seq<string>)
    ensures |r| >= 1
  {
    if resultPerLine then Split(text, '\n') else [text]
  }

  /** The texts of a list of evaluations. */
  function EvaluatedTexts(evaluations: seq<Evaluation>): (r: seq<string>)
    ensures |r| == |evaluations| && forall k :: 0 <= k < |evaluations| ==> r[k] == evaluations[k].text
  {
    seq(|evaluations|, k requires 0 <= k < |evaluations| => evaluations[k].text)
  }

  /**
   * The loop of `evaluate_model_on_string` from line `i` on, after the evaluations `done`: one line
   * evaluation per line, in order, threading the model state, with `append_eof` passed on to the
   * last line only.
   */
  function EvalLines<M, S>(reg: Registry<M, S>, st: S, lines: seq<string>, appendEof: bool, i: nat, extension: string,
                           names: seq<string>, customizations: Option<set<Customization>>, done: seq<Evaluation>)
    : (r: Result<(seq<Evaluation>, S), Error>)
    requires i <= |lines|
    ensures r.Success? ==> |r.value.0| == |done| + |lines| - i
    decreases |lines| - i
  {
    if i == |lines| then Success((done, st))
    else
      var first :- LineEvaluation(reg, st, lines[i], extension, names, customizations, appendEof && i == |lines| - 1);
      EvalLines(reg, first.1, lines, appendEof, i + 1, extension, names, customizations, done + [first.0])
  }

  /** The evaluations come out in the order of the lines, one per line. */
  lemma {:induction false} EvalLinesTexts<M, S>(reg: Registry<M, S>, st: S, lines: seq<string>, appendEof: bool, i: nat,
                                                extension: string, names: seq<string>,
                                                customizations: Option<set<Customization>>, done: seq<Evaluation>)
    requires i <= |lines|
    ensures var r := EvalLines(reg, st, lines, appendEof, i, extension, names, customizations, done);
      r.Success? ==> EvaluatedTexts(r.value.0) == EvaluatedTexts(done) + lines[i..]
    decreases |lines| - i
  {
    if i < |lines| {
      var first := LineEvaluation(reg, st, lines[i], extension, names, customizations, appendEof && i == |lines| - 1);
      if first.Success? {
        EvalLinesTexts(reg, first.value.1, lines, appendEof, i + 1, extension, names, customizations, done + [first.value.0]);
        assert EvaluatedTexts(done + [first.value.0]) == EvaluatedTexts(done) + [lines[i]];
        assert lines[i..] == [lines[i]] + lines[i + 1..];
      }
    }
  }

  /**
   * `append_eof` reaches the last line only: the loop from line `i` on is the loop over every line
   * but the last with `append_eof` off, followed by the last line with the caller's `append_eof`.
   */
  lemma {:induction false} EvalLinesEofOnLast<M, S>(reg: Registry<M, S>, st: S, lines: seq<string>, appendEof: bool, i: nat,
                                                    extension: string, names: seq<string>,
                                                    customizations: Option<set<Customization>>, done: seq<Evaluation>)
    requires i < |lines|
    ensures var n := |lines|;
      var front := EvalLines(reg, st, lines[..n - 1], false, i, extension, names, customizations, done);
      EvalLines(reg, st, lines, appendEof, i, extension, names, customizations, done) ==
        if front.Failure? then Failure(front.error)
        else
          var last := LineEvaluation(reg, front.value.1, lines[n - 1], extension, names, customizations, appendEof);
          if last.Failure? then Failure(last.error) else Success((front.value.0 + [last.value.0], last.value.1))
    decreases |lines| - i
  {
    var n := |lines|;
    var front := lines[..n - 1];
    var first := LineEvaluation(reg, st, lines[i], extension, names, customizations, appendEof && i == n - 1);
    if i < n - 1 {
      assert front[i] == lines[i];
      if first.Success? {
        EvalLinesEofOnLast(reg, first.value.1, lines, appendEof, i + 1, extension, names, customizations, done + [first.value.0]);
      }
    }
  }

  /** What `evaluate_model_on_string` returns: one evaluation per line, or the evaluation of the whole text. */
  datatype TextEvaluation = PerLine(lines: seq<Evaluation>) | Whole(whole: Evaluation)

  /** `evaluate_model_on_string` as a value, with the model state after it. */
  function StringEvaluation<M, S>(reg: Registry<M, S>, st: S, text: string, extension: string, metrics: Option<seq<string>>,
                                  customizations: Option<set<Customization>>, resultPerLine: bool, appendEof: bool)
    : Result<(TextEvaluation, S), Error>
  {
    var lines := TextLines(text, resultPerLine);
    var done :- EvalLines(reg, st, lines, appendEof, 0, extension, MetricNames(metrics), customizations, []);
    Success((if resultPerLine then PerLine(done.0) else Whole(done.0[0]), done.1))
  }

  /** Per line, the result holds one evaluation per `'\n'`-separated line, in order, and their texts join back to the text. */
  lemma PerLineEvaluations<M, S>(reg: Registry<M, S>, st: S, text: string, extension: string, metrics: Option<seq<string>>,
                                 customizations: Option<set<Customization>>, appendEof: bool)
    ensures var r := StringEvaluation(reg, st, text, extension, metrics, customizations, true, appendEof);
      r.Success? ==> (r.value.0.PerLine? && EvaluatedTexts(r.value.0.lines) == Split(text, '\n') &&
        Join(EvaluatedTexts(r.value.0.lines), "\n") == text)
  {
    var lines := TextLines(text, true);
    EvalLinesTexts(reg, st, lines, appendEof, 0, extension, MetricNames(metrics), customizations, []);
    assert EvaluatedTexts([]) + lines[0..] == lines;
    JoinSplit(text, '\n');
  }

  /**
   * Per line, every line but the last is evaluated with `append_eof` off, and the last one with
   * the caller's `append_eof`.
   */
  lemma AppendEofOnLastLine<M, S>(reg: Registry<M, S>, st: S, text: string, extension: string, metrics: Option<seq<string>>,
                                  customizations: Option<set<Customization>>, appendEof: bool)
    ensures var lines := Split(text, '\n');
      var names := MetricNames(metrics);
      var front := EvalLines(reg, st, lines[..|lines| - 1], false, 0, extension, names, customizations, []);
      var r := StringEvaluation(reg, st, text, extension, metrics, customizations, true, appendEof);
      (front.Failure? ==> r == Failure(front.error)) &&
      (front.Success? ==>
        var last := LineEvaluation(reg, front.value.1, lines[|lines| - 1], extension, names, customizations, appendEof);
        r == if last.Failure? then Failure(last.error) else Success((PerLine(front.value.0 + [last.value.0]), last.value.1)))
  {
    EvalLinesEofOnLast(reg, st, Split(text, '\n'), appendEof, 0, extension, MetricNames(metrics), customizations, []);
  }

  /** Without splitting, the text is evaluated once, as one line, with the caller's `append_eof`. */
  lemma WholeTextIsOneLine<M, S>(reg: Registry<M, S>, st: S, text: string, extension: string, metrics: Option<seq<string>>,
                                 customizations: Option<set<Customization>>, appendEof: bool)
    ensures var line := LineEvaluation(reg, st, text, extension, MetricNames(metrics), customizations, appendEof);
      StringEvaluation(reg, st, text, extension, metrics, customizations, false, appendEof)
        == if line.Success? then Success((Whole(line.value.0), line.value.1)) else Failure(line.error)
  {
    var lines := TextLines(text, false);
    var line := LineEvaluation(reg, st, text, extension, MetricNames(metrics), customizations, appendEof);
    assert lines == [text];
    if line.Success? {
      assert EvalLines(reg, line.value.1, lines, appendEof, 1, extension, MetricNames(metrics), customizations, [line.value.0])
        == Success(([line.value.0], line.value.1));
      assert [] + [line.value.0] == [line.value.0];
      assert EvalLines(reg, st, lines, appendEof, 0, extension, MetricNames(metrics), customizations, [])
        == Success(([line.value.0], line.value.1));
    }
  }

  /** `evaluate_model_on_string`: evaluates line after line (or the whole text), `append_eof` only on the last. */
  method EvaluateModelOnString<M, S>(reg: Registry<M, S>, st: S, text: string, extension: string, metrics: Option<seq<string>>,
                                     customizations: Option<set<Customization>>, resultPerLine: bool, appendEof: bool)
    returns (r: Result<(TextEvaluation, S), Error>)
    ensures r == StringEvaluation(reg, st, text, extension, metrics, customizations, resultPerLine, appendEof)
  {
    var names := MetricNames(metrics);
    var textLines := TextLines(text, resultPerLine);
    ghost var target := EvalLines(reg, st, textLines, appendEof, 0, extension, names, customizations, []);
    var modelEvaluation: seq<Evaluation> := [];
    var state := st;
    var i := 0;
    while i < |textLines|
      invariant 0 <= i <= |textLines| && |modelEvaluation| == i
      invariant target == EvalLines(reg, state, textLines, appendEof, i, extension, names, customizations, modelEvaluation)
    {
      var lastLine := i == |textLines| - 1;
      var lineEvaluation := EvaluateModelOnLine(reg, state, textLines[i], extension, names, customizations, appendEof && lastLine);
      if lineEvaluation.Failure? {
        return Failure(lineEvaluation.error);
      }
      modelEvaluation := modelEvaluation + [lineEvaluation.value.0];
      state := lineEvaluation.value.1;
      i := i + 1;
    }
    return Success((if resultPerLine then PerLine(modelEvaluation) else Whole(modelEvaluation[0]), state));
  }

  // -------------------------------------------------------------------- file

  /** A file found under the evaluated path: its suffix without the leading dot, and its contents. */
  datatype SourceFile = SourceFile(suffix: string, contents: string)

  /** What the file loop of `evaluate_model_on_path` gets for a file: its whole contents evaluated as one line, with `append_eof`. */
  function FileEvaluation<M, S>(reg: Registry<M, S>, st: S, file: SourceFile, metrics: Option<seq<string>>,
                                customizations: Option<set<Customization>>): Result<(Evaluation, S), Error>
  {
    LineEvaluation(reg, st, file.contents, file.suffix, MetricNames(metrics), customizations, true)
  }

  /**
   * `evaluate_model_on_file`: the contents evaluated with the suffix as extension and `append_eof`;
   * without splitting into lines, that is the file evaluated as one line.
   */
  method EvaluateModelOnFile<M, S>(reg: Registry<M, S>, st: S, file: SourceFile, metrics: Option<seq<string>>,
                                   customizations: Option<set<Customization>>, resultPerLine: bool)
    returns (r: Result<(TextEvaluation, S), Error>)
    ensures resultPerLine ==> r == StringEvaluation(reg, st, file.contents, file.suffix, metrics, customizations, true, true)
    ensures !resultPerLine ==> (var e := FileEvaluation(reg, st, file, metrics, customizations);
      (r.Failure? <==> e.Failure?) && (r.Failure? ==> r.error == e.error) &&
      (r.Success? ==> r.value == (Whole(e.value.0), e.value.1)))
  {
    r := EvaluateModelOnString(reg, st, file.contents, file.suffix, metrics, customizations, resultPerLine, true);
    WholeTextIsOneLine(reg, st, file.contents, file.suffix, metrics, customizations, true);
  }

  // ----------------------------------------------------------------- postfix

  /** A running figure of `evaluate_model_on_path`: a mean value and the number of values behind it. */
  datatype Stat = Stat(value: real, count: nat)

  /** `cumulative_metrics`: a running figure per scenario. */
  type Totals = Dict<Scenario, Stat>

  /** A progress-bar postfix: a label per scenario. */
  type Postfix = Dict<string, string>

  /**
   * The dictionary comprehension of `_format_postfix`: each scenario's label under its string
   * form, where a later scenario with the same string form overwrites an earlier one's label.
   * `show` stands for `str` and `fmt` for the number formatting, which are not modelled.
   */
  function FormatPostfix(current: Totals, show: Scenario -> string, fmt: Stat -> string): Postfix
    decreases |current|
  {
    if |current| == 0 then []
    else
      var n := |current| - 1;
      Put(FormatPostfix(current[..n], show, fmt), show(current[n].0), fmt(current[n].1))
  }

  /** `_format_postfix` as written: the guard is inverted, so a non-empty input gives the empty dictionary. */
  function FormatPostfixAsWritten(current: Totals, show: Scenario -> string, fmt: Stat -> string): Postfix
  {
    if |current| > 0 then [] else FormatPostfix(current, show, fmt)
  }

  /** As written, the postfix is empty for every input. */
  lemma FormatPostfixAsWrittenIsEmpty(current: Totals, show: Scenario -> string, fmt: Stat -> string)
    ensures FormatPostfixAsWritten(current, show, fmt) == []
  {
  }

  /** One running figure shows the difference: as written no label is displayed, as intended its label is. */
  lemma FormatPostfixDiscrepancy(show: Scenario -> string, fmt: Stat -> string)
    ensures var current := [(Scenario(DefaultMetricName, Customization("")), Stat(1.5, 2))];
      FormatPostfixAsWritten(current, show, fmt) == [] &&
      FormatPostfix(current, show, fmt) == [(show(current[0].0), fmt(current[0].1))]
  {
    var current := [(Scenario(DefaultMetricName, Customization("")), Stat(1.5, 2))];
    assert current[..0] == [];
  }

  /** The corrected postfix stores no key twice, and it is empty exactly when there is nothing to show. */
  lemma {:induction false} FormatPostfixKeys(current: Totals, show: Scenario -> string, fmt: Stat -> string)
    ensures var r := FormatPostfix(current, show, fmt);
      DistinctKeys(r) && (|r| == 0 <==> |current| == 0)
    decreases |current|
  {
    if |current| > 0 {
      var n := |current| - 1;
      var before := FormatPostfix(current[..n], show, fmt);
      FormatPostfixKeys(current[..n], show, fmt);
      PutKeepsDistinct(before, show(current[n].0), fmt(current[n].1));
      PutKeys(before, show(current[n].0), fmt(current[n].1));
      assert |Keys(FormatPostfix(current, show, fmt))| > 0;
    }
  }

  /** The corrected postfix has a label under the string form of every scenario. */
  lemma {:induction false} FormatPostfixCovers(current: Totals, show: Scenario -> string, fmt: Stat -> string)
    ensures forall k :: 0 <= k < |current| ==> show(current[k].0) in Keys(FormatPostfix(current, show, fmt))
    decreases |current|
  {
    if |current| > 0 {
      var n := |current| - 1;
      var front := current[..n];
      var before := FormatPostfix(front, show, fmt);
      FormatPostfixCovers(front, show, fmt);
      PutKeys(before, show(current[n].0), fmt(current[n].1));
      forall k | 0 <= k < n ensures show(current[k].0) in Keys(FormatPostfix(current, show, fmt)) {
        assert front[k] == current[k];
        assert show(current[k].0) in Keys(before);
      }
    }
  }

  /** Every label of the corrected postfix is under the string form of some scenario. */
  lemma {:induction false} FormatPostfixOnlyShown(current: Totals, show: Scenario -> string, fmt: Stat -> string)
    ensures forall key :: key in Keys(FormatPostfix(current, show, fmt)) ==>
      exists k :: 0 <= k < |current| && key == show(current[k].0)
    decreases |current|
  {
    if |current| > 0 {
      var n := |current| - 1;
      var front := current[..n];
      var before := FormatPostfix(front, show, fmt);
      FormatPostfixOnlyShown(front, show, fmt);
      PutKeys(before, show(current[n].0), fmt(current[n].1));
      forall key | key in Keys(FormatPostfix(current, show, fmt)) ensures exists k :: 0 <= k < |current| && key == show(current[k].0) {
        if key == show(current[n].0) {
          assert 0 <= n < |current|;
        } else {
          assert key in Keys(before);
          var k :| 0 <= k < n && key == show(front[k].0);
          assert front[k] == current[k];
        }
      }
    }
  }

  /** When distinct scenarios have distinct string forms, each scenario's label is its formatted figure. */
  lemma {:induction false} FormatPostfixValues(current: Totals, show: Scenario -> string, fmt: Stat -> string)
    requires forall i, j :: 0 <= i < |current| && 0 <= j < |current| && show(current[i].0) == show(current[j].0) ==> i == j
    ensures forall k :: 0 <= k < |current| ==> Get(FormatPostfix(current, show, fmt), show(current[k].0)) == Some(fmt(current[k].1))
    decreases |current|
  {
    if |current| > 0 {
      var n := |current| - 1;
      var front := current[..n];
      assert forall i :: 0 <= i < n ==> front[i] == current[i];
      FormatPostfixValues(front, show, fmt);
      FormatPostfixKeys(front, show, fmt);
      PutGet(FormatPostfix(front, show, fmt), show(current[n].0), fmt(current[n].1));
    }
  }

  // -------------------------------------------------------------------- path

  /** `current_file_metrics`: each scenario's aggregated value and number of values. */
  function FileStats(scenarios: Dict<Scenario, EvaluationResult>): Totals
  {
    seq(|scenarios|, i requires 0 <= i < |scenarios| =>
      (scenarios[i].0, Stat(scenarios[i].1.aggregatedValue, |scenarios[i].1.values|)))
  }

  /** A file's figures are kept under the file's scenarios, in the same order. */
  lemma FileStatsKeys(scenarios: Dict<Scenario, EvaluationResult>)
    ensures Keys(FileStats(scenarios)) == Keys(scenarios)
    ensures DistinctKeys(scenarios) ==> DistinctKeys(FileStats(scenarios))
  {
    var r := FileStats(scenarios);
    assert forall i :: 0 <= i < |r| ==> r[i].0 == scenarios[i].0;
  }

  /**
   * `avg_func` on two figures: `np.average` of the two values weighted by their counts, or
   * `ZeroDivisionError` when the counts sum to zero.
   */
  function PairAverage(v1: real, n1: real, v2: real, n2: real): Result<real, Error>
  {
    if n1 + n2 == 0.0 then Failure(ZeroDivisionError) else Success((v1 * n1 + v2 * n2) / (n1 + n2))
  }

  /** The two-figure average is `np.average` over the two values with the two counts as weights. */
  lemma PairAverageIsWeightedMean(v1: real, n1: real, v2: real, n2: real)
    ensures PairAverage(v1, n1, v2, n2) == Metrics.WeightedMean([v1, v2], [n1, n2])
  {
    if n1 + n2 == 0.0 {
      assert Sum([n1, n2]) == n1 + Sum([n2]);
    } else {
      Metrics.WeightedMeanOfTwo(v1, n1, v2, n2);
    }
  }

  /** The merge of one cumulative entry with the file's figure for its scenario (`avg_func`). */
  function MergeEntry(entry: (Scenario, Stat), current: Totals): Result<(Scenario, Stat), Error>
  {
    match Get(current, entry.0)
    case None => Failure(KeyError)
    case Some(c) =>
      var mean :- PairAverage(entry.1.value, entry.1.count as real, c.value, c.count as real);
      Success((entry.0, Stat(mean, entry.1.count + c.count)))
  }

  /** A count-weighted mean times the total count is the sum of the weighted values. */
  lemma MeanTimesCount(v1: real, n1: real, v2: real, n2: real)
    requires n1 + n2 != 0.0
    ensures ((v1 * n1 + v2 * n2) / (n1 + n2)) * (n1 + n2) == v1 * n1 + v2 * n2
  {
    var mass, n := v1 * n1 + v2 * n2, n1 + n2;
    assert (mass / n) * n == mass;
  }

  /**
   * A scenario the file lacks raises `KeyError`; two counts summing to zero raise
   * `ZeroDivisionError`; otherwise the counts add up and the value is their weighted mean.
   */
  lemma MergeEntrySpec(entry: (Scenario, Stat), current: Totals)
    ensures var r := MergeEntry(entry, current);
      (entry.0 !in Keys(current) ==> r == Failure(KeyError)) &&
      (Get(current, entry.0).Some? ==> (
        var c := Get(current, entry.0).value;
        (entry.1.count + c.count == 0 ==> r == Failure(ZeroDivisionError)) &&
        (entry.1.count + c.count > 0 ==> (r.Success? && r.value.0 == entry.0 &&
          r.value.1.count == entry.1.count + c.count &&
          r.value.1.value * (r.value.1.count as real)
            == entry.1.value * (entry.1.count as real) + c.value * (c.count as real)))))
  {
    GetNone(current, entry.0);
    if entry.0 in Keys(current) {
      var c := Get(current, entry.0).value;
      var n1, n2 := entry.1.count as real, c.count as real;
      if entry.1.count + c.count > 0 {
        MeanTimesCount(entry.1.value, n1, c.value, n2);
        assert ((entry.1.count + c.count) as real) == n1 + n2;
      }
    }
  }

  /** The merge outcome of every cumulative entry. */
  function MergeEntries(cumulative: Totals, current: Totals): (r: seq<Result<(Scenario, Stat), Error>>)
    ensures |r| == |cumulative| && forall k :: 0 <= k < |cumulative| ==> r[k] == MergeEntry(cumulative[k], current)
  {
    seq(|cumulative|, k requires 0 <= k < |cumulative| => MergeEntry(cumulative[k], current))
  }

  /**
   * The update of `cumulative_metrics` by one file: the first figures are taken unchanged;
   * afterwards every cumulative scenario is merged with the file's figure for it, in order,
   * stopping at the first error.
   */
  function MergeFile(cumulative: Totals, current: Totals): Result<Totals, Error>
  {
    if |cumulative| == 0 then Success(current) else Collect(MergeEntries(cumulative, current))
  }

  /**
   * `merged` is `entry` merged with the file's figure for its scenario: same scenario, the counts
   * added up, and the value their count-weighted mean (stated as value times count).
   */
  predicate MergedFrom(entry: (Scenario, Stat), current: Totals, merged: (Scenario, Stat))
  {
    merged.0 == entry.0 && Get(current, entry.0).Some? &&
    var c := Get(current, entry.0).value;
    merged.1.count == entry.1.count + c.count &&
    merged.1.value * (merged.1.count as real) == entry.1.value * (entry.1.count as real) + c.value * (c.count as real)
  }

  /** A successful merge of one entry is the weighted merge of the two figures. */
  lemma MergeEntrySucceeded(entry: (Scenario, Stat), current: Totals, merged: (Scenario, Stat))
    requires MergeEntry(entry, current) == Success(merged)
    ensures MergedFrom(entry, current, merged)
  {
    MergeEntrySpec(entry, current);
  }

  /**
   * Merging into existing figures fails if the file lacks a cumulative scenario. On success it
   * keeps the cumulative scenarios in their order and merges each with the file's figure for it.
   */
  lemma MergeFileFigures(cumulative: Totals, current: Totals)
    requires |cumulative| > 0
    ensures var r := MergeFile(cumulative, current);
      ((exists k :: 0 <= k < |cumulative| && cumulative[k].0 !in Keys(current)) ==> r.Failure?) &&
      (r.Success? ==> (|r.value| == |cumulative| &&
        forall k :: 0 <= k < |cumulative| ==> MergedFrom(cumulative[k], current, r.value[k])))
  {
    var each := MergeEntries(cumulative, current);
    CollectSucceeds(each);
    var r := MergeFile(cumulative, current);
    if exists k :: 0 <= k < |cumulative| && cumulative[k].0 !in Keys(current) {
      var k :| 0 <= k < |cumulative| && cumulative[k].0 !in Keys(current);
      MergeEntrySpec(cumulative[k], current);
    }
    if r.Success? {
      forall k | 0 <= k < |cumulative| ensures MergedFrom(cumulative[k], current, r.value[k]) {
        MergeEntrySucceeded(cumulative[k], current, r.value[k]);
      }
    }
  }

  /** Merging keeps the cumulative scenario keys, hence their distinctness. */
  lemma MergeFileKeys(cumulative: Totals, current: Totals)
    requires |cumulative| > 0 && MergeFile(cumulative, current).Success?
    ensures Keys(MergeFile(cumulative, current).value) == Keys(cumulative)
    ensures DistinctKeys(cumulative) ==> DistinctKeys(MergeFile(cumulative, current).value)
  {
    MergeFileFigures(cumulative, current);
    var r := MergeFile(cumulative, current).value;
    assert forall k :: 0 <= k < |r| ==> MergedFrom(cumulative[k], current, r[k]);
  }

  /** The inner loop of `evaluate_model_on_path`: rewrites each cumulative entry in place. */
  method MergeInto(cumulative: Totals, current: Totals) returns (r: Result<Totals, Error>)
    requires |cumulative| > 0 && DistinctKeys(cumulative)
    ensures r == MergeFile(cumulative, current)
  {
    ghost var each := MergeEntries(cumulative, current);
    var merged := cumulative;
    var i := 0;
    while i < |cumulative|
      invariant 0 <= i <= |cumulative| && |merged| == |cumulative|
      invariant forall k :: 0 <= k < |cumulative| ==> merged[k].0 == cumulative[k].0
      invariant forall k :: 0 <= k < i ==> each[k] == Success(merged[k])
      invariant forall k :: i <= k < |cumulative| ==> merged[k] == cumulative[k]
    {
      var (scenario, cumulativeResult) := merged[i];
      var fileResult := Get(current, scenario);
      if fileResult.None? {
        CollectFirstFailure(each, i);
        return Failure(KeyError);
      }
      var mean := PairAverage(cumulativeResult.value, cumulativeResult.count as real,
                              fileResult.value.value, fileResult.value.count as real);
      if mean.Failure? {
        CollectFirstFailure(each, i);
        return Failure(mean.error);
      }
      var updated := Stat(mean.value, cumulativeResult.count + fileResult.value.count);
      assert DistinctKeys(merged) by {
        forall a, b | 0 <= a < b < |merged| ensures merged[a].0 != merged[b].0 {
          assert merged[a].0 == cumulative[a].0 && merged[b].0 == cumulative[b].0;
        }
      }
      PutAt(merged, i, updated);
      merged := Put(merged, scenario, updated);
      i := i + 1;
    }
    CollectAllSucceed(each, merged);
    return Success(merged);
  }

  /** What `evaluate_model_on_path` ends with: its outcome, and the postfix shown for each file started. */
  datatype PathRun<S> = PathRun(result: Result<(Totals, S), Error>, shown: seq<Postfix>)

  /**
   * The body of the file loop of `evaluate_model_on_path` for one file: evaluate the whole file and
   * merge its figures into the running ones (or take them, when there are none yet).
   */
  function FileStep<M, S>(reg: Registry<M, S>, st: S, file: SourceFile, metrics: Option<seq<string>>,
                          customizations: Option<set<Customization>>, cumulative: Totals): Result<(Totals, S), Error>
  {
    var evaluation :- FileEvaluation(reg, st, file, metrics, customizations);
    var merged :- MergeFile(cumulative, FileStats(evaluation.0.scenarios));
    Success((merged, evaluation.1))
  }

  /**
   * The file loop of `evaluate_model_on_path` from file `i` on: show the postfix of the running
   * figures, then run the loop body on the file.
   */
  function EvalPath<M, S>(reg: Registry<M, S>, st: S, files: seq<SourceFile>, i: nat, metrics: Option<seq<string>>,
                          customizations: Option<set<Customization>>, show: Scenario -> string, fmt: Stat -> string,
                          cumulative: Totals, shown: seq<Postfix>): PathRun<S>
    requires i <= |files|
    decreases |files| - i
  {
    if i == |files| then PathRun(Success((cumulative, st)), shown)
    else
      var shownNow := shown + [FormatPostfix(cumulative, show, fmt)];
      var next := FileStep(reg, st, files[i], metrics, customizations, cumulative);
      if next.Failure? then PathRun(Failure(next.error), shownNow)
      else EvalPath(reg, next.value.1, files, i + 1, metrics, customizations, show, fmt, next.value.0, shownNow)
  }

  /** `evaluate_model_on_path` as a value: the file loop from no figures, and the error when none came out. */
  function PathEvaluation<M, S>(reg: Registry<M, S>, st: S, files: seq<SourceFile>, metrics: Option<seq<string>>,
                                customizations: Option<set<Customization>>, show: Scenario -> string,
                                fmt: Stat -> string): PathRun<S>
  {
    var run := EvalPath(reg, st, files, 0, metrics, customizations, show, fmt, [], []);
    if run.result.Success? && |run.result.value.0| == 0 then PathRun(Failure(NoFilesToEvaluate), run.shown) else run
  }

  /** The loop body of `evaluate_model_on_path`: evaluates one file and merges its figures into the running ones in place. */
  method EvaluateAndMerge<M, S>(reg: Registry<M, S>, st: S, file: SourceFile, metrics: Option<seq<string>>,
                                customizations: Option<set<Customization>>, cumulative: Totals)
    returns (r: Result<(Totals, S), Error>)
    requires DistinctKeys(cumulative)
    ensures r == FileStep(reg, st, file, metrics, customizations, cumulative)
    ensures r.Success? ==> DistinctKeys(r.value.0)
  {
    var evaluation := EvaluateModelOnFile(reg, st, file, metrics, customizations, false);
    if evaluation.Failure? {
      return Failure(evaluation.error);
    }
    var e := FileEvaluation(reg, st, file, metrics, customizations);
    EvalLineSpec(reg, st, file.contents, file.suffix, MetricNames(metrics), 0, customizations, true, []);
    FileStatsKeys(e.value.0.scenarios);
    var currentFileMetrics := FileStats(evaluation.value.0.whole.scenarios);
    if |cumulative| > 0 {
      var merged := MergeInto(cumulative, currentFileMetrics);
      if merged.Failure? {
        return Failure(merged.error);
      }
      MergeFileKeys(cumulative, currentFileMetrics);
      return Success((merged.value, evaluation.value.1));
    }
    return Success((currentFileMetrics, evaluation.value.1));
  }

  /** `evaluate_model_on_path`: evaluates file after file, updating `cumulative_metrics` in place. */
  method EvaluateModelOnPath<M, S>(reg: Registry<M, S>, st: S, files: seq<SourceFile>, metrics: Option<seq<string>>,
                                   customizations: Option<set<Customization>>, show: Scenario -> string,
                                   fmt: Stat -> string)
    returns (r: Result<(Totals, S), Error>, shown: seq<Postfix>)
    ensures PathRun(r, shown) == PathEvaluation(reg, st, files, metrics, customizations, show, fmt)
  {
    ghost var target := EvalPath(reg, st, files, 0, metrics, customizations, show, fmt, [], []);
    var cumulativeMetrics: Totals := [];
    var state := st;
    shown := [];
    var i := 0;
    while i < |files|
      invariant 0 <= i <= |files| && DistinctKeys(cumulativeMetrics)
      invariant EvalPath(reg, state, files, i, metrics, customizations, show, fmt, cumulativeMetrics, shown) == target
    {
      var postfix := FormatPostfix(cumulativeMetrics, show, fmt);
      shown := shown + [postfix];
      var next := EvaluateAndMerge(reg, state, files[i], metrics, customizations, cumulativeMetrics);
      if next.Failure? {
        r := Failure(next.error);
        return;
      }
      cumulativeMetrics := next.value.0;
      state := next.value.1;
      i := i + 1;
    }
    if |cumulativeMetrics| == 0 {
      r := Failure(NoFilesToEvaluate);
      return;
    }
    r := Success((cumulativeMetrics, state));
  }

  // ------------------------------------------------------------ path figures

  /**
   * The figures of each file the loop of `evaluate_model_on_path` evaluates from file `i` on, in
   * order, up to the first file whose evaluation fails.
   */
  function FileFiguresRun<M, S>(reg: Registry<M, S>, st: S, files: seq<SourceFile>, i: nat, metrics: Option<seq<string>>,
                                customizations: Option<set<Customization>>): seq<Totals>
    requires i <= |files|
    decreases |files| - i
  {
    if i == |files| then []
    else
      var evaluation := FileEvaluation(reg, st, files[i], metrics, customizations);
      if evaluation.Failure? then []
      else [FileStats(evaluation.value.0.scenarios)] + FileFiguresRun(reg, evaluation.value.1, files, i + 1, metrics, customizations)
  }

  /** The number of values behind a scenario over several files' figures (zero for a file without it). */
  function CountSum(figures: seq<Totals>, key: Scenario): nat
  {
    if |figures| == 0 then 0
    else (match Get(figures[0], key) case Some(s) => s.count case None => 0) + CountSum(figures[1..], key)
  }

  /** The sum of a scenario's values over several files' figures: each file's mean times its count. */
  function MassSum(figures: seq<Totals>, key: Scenario): real
  {
    if |figures| == 0 then 0.0
    else (match Get(figures[0], key) case Some(s) => s.value * (s.count as real) case None => 0.0) + MassSum(figures[1..], key)
  }

  /**
   * `total` is `base` with the figures of `key` over `figures` folded in: the counts add up, and
   * the value is the count-weighted mean of everything (stated as value times count).
   */
  predicate Tallies(total: Stat, base: Stat, figures: seq<Totals>, key: Scenario)
  {
    total.count == base.count + CountSum(figures, key) &&
    total.value * (total.count as real) == base.value * (base.count as real) + MassSum(figures, key)
  }

  /** A successful file step evaluated the file, and its figures are those the step merged. */
  lemma FileStepEvaluated<M, S>(reg: Registry<M, S>, st: S, file: SourceFile, metrics: Option<seq<string>>,
                                customizations: Option<set<Customization>>, cumulative: Totals)
    requires FileStep(reg, st, file, metrics, customizations, cumulative).Success?
    ensures var evaluation := FileEvaluation(reg, st, file, metrics, customizations);
      var next := FileStep(reg, st, file, metrics, customizations, cumulative);
      evaluation.Success? && DistinctKeys(FileStats(evaluation.value.0.scenarios)) &&
      next.value.1 == evaluation.value.1 &&
      Success(next.value.0) == MergeFile(cumulative, FileStats(evaluation.value.0.scenarios))
  {
    var evaluation := FileEvaluation(reg, st, file, metrics, customizations);
    EvalLineSpec(reg, st, file.contents, file.suffix, MetricNames(metrics), 0, customizations, true, []);
    FileStatsKeys(evaluation.value.0.scenarios);
  }

  /**
   * The running figures after merging the figures of several files in turn, stopping at the first
   * merge that fails.
   */
  function Roll(cumulative: Totals, figures: seq<Totals>): Result<Totals, Error>
    decreases |figures|
  {
    if |figures| == 0 then Success(cumulative)
    else
      var merged :- MergeFile(cumulative, figures[0]);
      Roll(merged, figures[1..])
  }

  /**
   * A successful file loop evaluated every remaining file, each file's figures have distinct
   * scenarios, and its result rolls them into the running figures.
   */
  lemma {:induction false} EvalPathRolls<M, S>(reg: Registry<M, S>, st: S, files: seq<SourceFile>, i: nat,
                                               metrics: Option<seq<string>>, customizations: Option<set<Customization>>,
                                               show: Scenario -> string, fmt: Stat -> string, cumulative: Totals,
                                               shown: seq<Postfix>)
    requires i <= |files|
    ensures var run := EvalPath(reg, st, files, i, metrics, customizations, show, fmt, cumulative, shown);
      var figures := FileFiguresRun(reg, st, files, i, metrics, customizations);
      run.result.Success? ==> (|figures| == |files| - i && (forall j :: 0 <= j < |figures| ==> DistinctKeys(figures[j])) &&
        Roll(cumulative, figures) == Success(run.result.value.0))
    decreases |files| - i
  {
    var run := EvalPath(reg, st, files, i, metrics, customizations, show, fmt, cumulative, shown);
    if i < |files| && run.result.Success? {
      var next := FileStep(reg, st, files[i], metrics, customizations, cumulative);
      FileStepEvaluated(reg, st, files[i], metrics, customizations, cumulative);
      var evaluation := FileEvaluation(reg, st, files[i], metrics, customizations).value;
      var shownNow := shown + [FormatPostfix(cumulative, show, fmt)];
      EvalPathRolls(reg, evaluation.1, files, i + 1, metrics, customizations, show, fmt, next.value.0, shownNow);
      var current := FileStats(evaluation.0.scenarios);
      var rest := FileFiguresRun(reg, evaluation.1, files, i + 1, metrics, customizations);
      var figures := FileFiguresRun(reg, st, files, i, metrics, customizations);
      assert figures == [current] + rest;
      assert figures[1..] == rest;
    }
  }

  /** Folding one more file's figures into a scenario's tally, through one merge. */
  lemma TalliesStep(entry: (Scenario, Stat), current: Totals, merged: (Scenario, Stat), total: Stat, rest: seq<Totals>)
    requires MergedFrom(entry, current, merged) && Tallies(total, merged.1, rest, entry.0)
    ensures Tallies(total, entry.1, [current] + rest, entry.0)
  {
    assert ([current] + rest)[0] == current && ([current] + rest)[1..] == rest;
  }

  /**
   * Rolling files' figures into non-empty running figures keeps their scenarios in their order,
   * and folds into each the figures of that scenario from every file.
   */
  lemma {:induction false} RollFigures(cumulative: Totals, figures: seq<Totals>)
    requires |cumulative| > 0 && DistinctKeys(cumulative)
    ensures var r := Roll(cumulative, figures);
      r.Success? ==> (Keys(r.value) == Keys(cumulative) &&
        forall k :: 0 <= k < |cumulative| ==> Tallies(r.value[k].1, cumulative[k].1, figures, cumulative[k].0))
    decreases |figures|
  {
    var r := Roll(cumulative, figures);
    if |figures| > 0 && r.Success? {
      var current := figures[0];
      var merged := MergeFile(cumulative, current).value;
      MergeFileFigures(cumulative, current);
      MergeFileKeys(cumulative, current);
      RollFigures(merged, figures[1..]);
      assert figures == [current] + figures[1..];
      forall k | 0 <= k < |cumulative| ensures Tallies(r.value[k].1, cumulative[k].1, figures, cumulative[k].0) {
        assert Keys(merged)[k] == cumulative[k].0;
        TalliesStep(cumulative[k], current, merged[k], r.value[k].1, figures[1..]);
      }
    } else if r.Success? {
      forall k | 0 <= k < |cumulative| ensures Tallies(r.value[k].1, cumulative[k].1, figures, cumulative[k].0) {
      }
    }
  }

  /**
   * Rolling files' figures, each with distinct scenarios, into no figures: a non-empty result has
   * each scenario once, and each scenario's figure folds that scenario's figures from every file.
   */
  lemma {:induction false} RollFromEmpty(figures: seq<Totals>)
    requires forall j :: 0 <= j < |figures| ==> DistinctKeys(figures[j])
    ensures var r := Roll([], figures);
      (r.Success? && |r.value| > 0) ==> (DistinctKeys(r.value) &&
        forall k :: 0 <= k < |r.value| ==> Tallies(r.value[k].1, Stat(0.0, 0), figures, r.value[k].0))
    decreases |figures|
  {
    var r := Roll([], figures);
    if |figures| > 0 && r.Success? {
      var current := figures[0];
      var rest := figures[1..];
      assert figures == [current] + rest;
      if |current| == 0 {
        assert forall j :: 0 <= j < |rest| ==> rest[j] == figures[j + 1];
        RollFromEmpty(rest);
      } else {
        RollFromFirst(current, rest, r.value);
      }
    }
  }

  /** Rolling from the first figures on: each scenario of the result carries the tally over all files. */
  lemma RollFromFirst(current: Totals, rest: seq<Totals>, totals: Totals)
    requires |current| > 0 && DistinctKeys(current) && Roll(current, rest) == Success(totals)
    ensures DistinctKeys(totals)
    ensures forall k :: 0 <= k < |totals| ==> Tallies(totals[k].1, Stat(0.0, 0), [current] + rest, totals[k].0)
  {
    RollFigures(current, rest);
    SameKeysDistinct(totals, current);
    forall k | 0 <= k < |totals| ensures Tallies(totals[k].1, Stat(0.0, 0), [current] + rest, totals[k].0) {
      assert Keys(totals)[k] == Keys(current)[k];
      TalliesFromFirst(current, k, totals[k].1, rest);
    }
  }

  /** The first figures of a scenario start its tally from nothing. */
  lemma TalliesFromFirst(current: Totals, k: nat, total: Stat, rest: seq<Totals>)
    requires DistinctKeys(current) && k < |current| && Tallies(total, current[k].1, rest, current[k].0)
    ensures Tallies(total, Stat(0.0, 0), [current] + rest, current[k].0)
  {
    GetAt(current, k);
    assert ([current] + rest)[0] == current && ([current] + rest)[1..] == rest;
  }

  /**
   * What `evaluate_model_on_path` promises: without files it raises; otherwise each scenario of
   * the result appears once, with the total number of values over all files and their
   * count-weighted mean.
   */
  lemma PathFigures<M, S>(reg: Registry<M, S>, st: S, files: seq<SourceFile>, metrics: Option<seq<string>>,
                          customizations: Option<set<Customization>>, show: Scenario -> string, fmt: Stat -> string)
    ensures var run := PathEvaluation(reg, st, files, metrics, customizations, show, fmt);
      var figures := FileFiguresRun(reg, st, files, 0, metrics, customizations);
      (|files| == 0 ==> run.result == Failure(NoFilesToEvaluate)) &&
      (run.result.Success? ==> (|run.result.value.0| > 0 && DistinctKeys(run.result.value.0) &&
        forall k :: 0 <= k < |run.result.value.0| ==> Tallies(run.result.value.0[k].1, Stat(0.0, 0), figures, run.result.value.0[k].0)))
  {
    var run := EvalPath(reg, st, files, 0, metrics, customizations, show, fmt, [], []);
    EvalPathRolls(reg, st, files, 0, metrics, customizations, show, fmt, [], []);
    if run.result.Success? {
      RollFromEmpty(FileFiguresRun(reg, st, files, 0, metrics, customizations));
    }
  }

  // ------------------------------------------------------------- project set

  /** The result of `evaluate_model_on_project_set`: the figures of each project, under its directory name. */
  type ProjectTotals = Dict<string, Totals>

  /**
   * The project loop of `evaluate_model_on_project_set` from directory `i` on: evaluate the
   * project's files and store its figures under the directory name.
   */
  function EvalProjects<M, S>(reg: Registry<M, S>, st: S, dirs: seq<string>, i: nat, filesOf: string -> seq<SourceFile>,
                              metrics: Option<seq<string>>, customizations: Option<set<Customization>>,
                              show: Scenario -> string, fmt: Stat -> string, result: ProjectTotals)
    : Result<(ProjectTotals, S), Error>
    requires i <= |dirs|
    decreases |dirs| - i
  {
    if i == |dirs| then Success((result, st))
    else
      var project :- PathEvaluation(reg, st, filesOf(dirs[i]), metrics, customizations, show, fmt).result;
      EvalProjects(reg, project.1, dirs, i + 1, filesOf, metrics, customizations, show, fmt, Put(result, dirs[i], project.0))
  }

  /**
   * `evaluate_model_on_project_set` as a value. `dirs` is what listing the path gives: nothing
   * when it is a file or missing, otherwise its sub-directories, the projects.
   */
  function ProjectSetEvaluation<M, S>(reg: Registry<M, S>, st: S, dirs: Option<seq<string>>,
                                      filesOf: string -> seq<SourceFile>, metrics: Option<seq<string>>,
                                      customizations: Option<set<Customization>>, show: Scenario -> string,
                                      fmt: Stat -> string): Result<(ProjectTotals, S), Error>
  {
    match dirs
    case None => Failure(ValueError(NotADirectory))
    case Some(projects) =>
      if |projects| == 0 then Failure(ValueError(NoProjects))
      else EvalProjects(reg, st, projects, 0, filesOf, metrics, customizations, show, fmt, [])
  }

  /** `evaluate_model_on_project_set`: evaluates each project directory in turn. */
  method EvaluateModelOnProjectSet<M, S>(reg: Registry<M, S>, st: S, dirs: Option<seq<string>>,
                                         filesOf: string -> seq<SourceFile>, metrics: Option<seq<string>>,
                                         customizations: Option<set<Customization>>, show: Scenario -> string,
                                         fmt: Stat -> string)
    returns (r: Result<(ProjectTotals, S), Error>)
    ensures r == ProjectSetEvaluation(reg, st, dirs, filesOf, metrics, customizations, show, fmt)
  {
    var result: ProjectTotals := [];
    if dirs.None? {
      return Failure(ValueError(NotADirectory));
    }
    var projects := dirs.value;
    if |projects| == 0 {
      return Failure(ValueError(NoProjects));
    }
    ghost var target := EvalProjects(reg, st, projects, 0, filesOf, metrics, customizations, show, fmt, []);
    var state := st;
    var i := 0;
    while i < |projects|
      invariant 0 <= i <= |projects|
      invariant EvalProjects(reg, state, projects, i, filesOf, metrics, customizations, show, fmt, result) == target
    {
      var project, _ := EvaluateModelOnPath(reg, state, filesOf(projects[i]), metrics, customizations, show, fmt);
      if project.Failure? {
        return Failure(project.error);
      }
      result := Put(result, projects[i], project.value.0);
      state := project.value.1;
      i := i + 1;
    }
    return Success((result, state));
  }

  /** Directory names listed once each, as a directory listing gives them. */
  predicate DistinctNames(names: seq<string>)
  {
    forall a, b :: 0 <= a < b < |names| ==> names[a] != names[b]
  }

  /** From directory `i` on, the project loop stores every remaining project, in order, with non-empty figures. */
  lemma {:induction false} EvalProjectsKeys<M, S>(reg: Registry<M, S>, st: S, dirs: seq<string>, i: nat,
                                                  filesOf: string -> seq<SourceFile>, metrics: Option<seq<string>>,
                                                  customizations: Option<set<Customization>>, show: Scenario -> string,
                                                  fmt: Stat -> string, result: ProjectTotals)
    requires i <= |dirs| && DistinctNames(dirs) && Keys(result) == dirs[..i]
    requires forall j :: 0 <= j < |result| ==> |result[j].1| > 0
    ensures var r := EvalProjects(reg, st, dirs, i, filesOf, metrics, customizations, show, fmt, result);
      r.Success? ==> (Keys(r.value.0) == dirs && forall j :: 0 <= j < |r.value.0| ==> |r.value.0[j].1| > 0)
    decreases |dirs| - i
  {
    if i == |dirs| {
      assert dirs[..i] == dirs;
    } else {
      var project := PathEvaluation(reg, st, filesOf(dirs[i]), metrics, customizations, show, fmt).result;
      if project.Success? {
        assert dirs[i] !in Keys(result) by {
          forall j | 0 <= j < |result| ensures Keys(result)[j] != dirs[i] {
            assert Keys(result)[j] == dirs[j];
          }
        }
        var stored := Put(result, dirs[i], project.value.0);
        PutIndexOf(result, dirs[i], project.value.0);
        PutKeys(result, dirs[i], project.value.0);
        assert stored == result + [(dirs[i], project.value.0)];
        assert dirs[..i + 1] == dirs[..i] + [dirs[i]];
        EvalProjectsKeys(reg, project.value.1, dirs, i + 1, filesOf, metrics, customizations, show, fmt, stored);
      }
    }
  }

  /**
   * What `evaluate_model_on_project_set` promises: `ValueError` for a path that is not a
   * directory and for one without projects; otherwise the figures of every project, each under
   * its directory name, in listing order, none of them empty.
   */
  lemma ProjectSetKeys<M, S>(reg: Registry<M, S>, st: S, dirs: Option<seq<string>>, filesOf: string -> seq<SourceFile>,
                             metrics: Option<seq<string>>, customizations: Option<set<Customization>>,
                             show: Scenario -> string, fmt: Stat -> string)
    ensures var r := ProjectSetEvaluation(reg, st, dirs, filesOf, metrics, customizations, show, fmt);
      (dirs.None? ==> r == Failure(ValueError(NotADirectory))) &&
      (dirs == Some([]) ==> r == Failure(ValueError(NoProjects))) &&
      ((r.Success? && dirs.Some? && DistinctNames(dirs.value)) ==>
        (Keys(r.value.0) == dirs.value && forall j :: 0 <= j < |r.value.0| ==> |r.value.0[j].1| > 0))
  {
    if dirs.Some? && DistinctNames(dirs.value) {
      assert dirs.value[..0] == [];
      EvalProjectsKeys(reg, st, dirs.value, 0, filesOf, metrics, customizations, show, fmt, []);
    }
  }
}

/**
 * The `custom_evaluation` component, which exists in two copies with the
 * same logic (vertex-pipelines/components/evaluators/custom_evaluation.py and
 * pipelines/components/evaluators/custom_evaluation.py): score the four
 * trained models in a fixed order, keep the best score seen so far,
 * replacing it only on a strictly greater one, and publish the winner's
 * path. Loading a model and computing its ROC AUC on the test set is an
 * oracle from the model's path to a score.
 */
module CustomEvaluation {
  import opened Wrappers
  import opened PyRuntime
  import opened Kfp

  /** The keys of the `models` dict, in insertion order. */
  const CandidateNames: seq<string> := ["logistic_regression", "xgboost", "random_forest", "decision_tree"]

  /** The `models` dict: each candidate's name with its model's path. */
  function ModelsDict(paths: seq<string>): (m: map<string, string>)
    requires |paths| == 4
    ensures m.Keys == set i | 0 <= i < 4 :: CandidateNames[i]
    ensures forall i :: 0 <= i < 4 ==> m[CandidateNames[i]] == paths[i]
  {
    map[CandidateNames[0] := paths[0], CandidateNames[1] := paths[1],
        CandidateNames[2] := paths[2], CandidateNames[3] := paths[3]]
  }

  /** A candidate's name and score. */
  datatype Scored = Scored(name: string, auc: real)

  /** The candidates with the scores the oracle gives their models. */
  function ScoresOf(paths: seq<string>, score: string -> real): (s: seq<Scored>)
    requires |paths| == 4
    ensures |s| == 4 && forall i :: 0 <= i < 4 ==> s[i] == Scored(CandidateNames[i], score(paths[i]))
  {
    seq(4, i requires 0 <= i < 4 => Scored(CandidateNames[i], score(paths[i])))
  }

  /** The pair `(best_model_name, best_auc_roc)` after the candidates of `scored`. */
  function Best(scored: seq<Scored>): Scored
    decreases |scored|
  {
    if scored == [] then Scored("", 0.0)
    else
      var prev := Best(scored[..|scored| - 1]);
      var last := scored[|scored| - 1];
      if last.auc > prev.auc then last else prev
  }

  /**
   * The best score is the maximum of 0.0 and the scores seen, and the best
   * pair is the initial one or one of the candidates.
   */
  lemma {:induction false} BestIsMaximum(scored: seq<Scored>)
    ensures Best(scored).auc >= 0.0
    ensures forall i :: 0 <= i < |scored| ==> scored[i].auc <= Best(scored).auc
    ensures Best(scored) == Scored("", 0.0) || exists i :: 0 <= i < |scored| && scored[i] == Best(scored)
    decreases |scored|
  {
    if scored != [] {
      var init := scored[..|scored| - 1];
      BestIsMaximum(init);
      assert forall i :: 0 <= i < |init| ==> init[i] == scored[i];
    }
  }

  /**
   * The winner is the first candidate with the top score: every earlier
   * candidate scored strictly less, so ties keep the earlier one.
   */
  lemma {:induction false} BestIsEarliest(scored: seq<Scored>, i: nat)
    requires i < |scored| && scored[i] == Best(scored) && Best(scored).auc > 0.0
    requires forall j :: 0 <= j < i ==> scored[j] != Best(scored)
    ensures forall j :: 0 <= j < i ==> scored[j].auc < Best(scored).auc
    decreases |scored|
  {
    var init := scored[..|scored| - 1];
    var prev := Best(init);
    assert forall j :: 0 <= j < |init| ==> init[j] == scored[j];
    BestIsMaximum(init);
    if i < |scored| - 1 {
      assert scored[i].auc <= prev.auc by {
        assert init[i] == scored[i];
      }
      assert Best(scored) == prev;
      BestIsEarliest(init, i);
    }
  }

  /**
   * When no score exceeds 0.0 the initial pair survives, and otherwise the
   * winner is a candidate with a positive score.
   */
  lemma {:induction false} BestWhenNonePositive(scored: seq<Scored>)
    ensures (forall i :: 0 <= i < |scored| ==> scored[i].auc <= 0.0) <==> Best(scored) == Scored("", 0.0)
    decreases |scored|
  {
    BestIsMaximum(scored);
    if scored != [] {
      var init := scored[..|scored| - 1];
      assert forall i :: 0 <= i < |init| ==> init[i] == scored[i];
      BestWhenNonePositive(init);
    }
  }

  /** The name a candidate's score is logged under (line 60, line 48 of the other copy). */
  function AucMetricName(name: string): string
  {
    name + " (AUC ROC)"
  }

  /** The score metrics the loop logs for the candidates of `scored`, in order. */
  function AucLogs(scored: seq<Scored>): (ms: seq<LoggedMetric>)
    ensures |ms| == |scored|
    ensures forall i :: 0 <= i < |scored| ==> ms[i] == LoggedMetric(AucMetricName(scored[i].name), Num(scored[i].auc))
  {
    seq(|scored|, i requires 0 <= i < |scored| => LoggedMetric(AucMetricName(scored[i].name), Num(scored[i].auc)))
  }

  /** The two metrics logged once the winner's path is set. */
  function WinnerLogs(best: Scored): seq<LoggedMetric>
  {
    [LoggedMetric("best_model_name", Text(best.name)), LoggedMetric("best_auc_roc", Num(best.auc))]
  }

  lemma RecordOneMore(log: MetricLog, ms: seq<LoggedMetric>, m: LoggedMetric)
    ensures RecordAll(log, ms + [m]) == Record(RecordAll(log, ms), m)
  {
    RecordAllAppend(log, ms, [m]);
    assert [m][1..] == [];
  }

  /**
   * Lines 54-64 (42-52 in the other copy): score the candidates in order,
   * logging each score, and keep the best pair, replaced only by a strictly
   * greater score.
   */
  method ScoreCandidates(paths: seq<string>, score: string -> real, metrics: Metrics)
    returns (bestName: string, bestAuc: real)
    requires |paths| == 4
    modifies metrics
    ensures Scored(bestName, bestAuc) == Best(ScoresOf(paths, score))
    ensures metrics.State() == RecordAll(old(metrics.State()), AucLogs(ScoresOf(paths, score)))
  {
    ghost var scored := ScoresOf(paths, score);
    bestName, bestAuc := "", 0.0;
    var i := 0;
    while i < 4
      invariant 0 <= i <= 4
      invariant Scored(bestName, bestAuc) == Best(scored[..i])
      invariant metrics.State() == RecordAll(old(metrics.State()), AucLogs(scored[..i]))
    {
      var auc := score(paths[i]);
      ghost var logged := LoggedMetric(AucMetricName(CandidateNames[i]), Num(auc));
      RecordOneMore(old(metrics.State()), AucLogs(scored[..i]), logged);
      assert AucLogs(scored[..i + 1]) == AucLogs(scored[..i]) + [logged];
      metrics.LogMetric(AucMetricName(CandidateNames[i]), Num(auc));
      assert scored[..i + 1][..i] == scored[..i];
      if auc > bestAuc {
        bestAuc := auc;
        bestName := CandidateNames[i];
      }
      i := i + 1;
    }
    assert scored[..4] == scored;
  }

  /** A best pair with a name is one of the candidates, so the `models` lookup finds it. */
  lemma WinnerIsCandidate(paths: seq<string>, score: string -> real)
    requires |paths| == 4
    ensures var best := Best(ScoresOf(paths, score));
      best.name == "" || best.name in ModelsDict(paths)
  {
    BestIsMaximum(ScoresOf(paths, score));
  }

  lemma RecordWinner(log: MetricLog, ms: seq<LoggedMetric>, best: Scored)
    ensures RecordAll(log, ms + WinnerLogs(best)) ==
      Record(Record(RecordAll(log, ms), WinnerLogs(best)[0]), WinnerLogs(best)[1])
  {
    var w := WinnerLogs(best);
    RecordAllAppend(log, ms, w);
    var mid := RecordAll(log, ms);
    assert w[1..] == [w[1]] && w[1..][1..] == [];
    assert RecordAll(Record(mid, w[0]), [w[1]]) == Record(Record(mid, w[0]), w[1]);
  }

  /**
   * The whole component after the models are loaded. With a winner, its
   * path becomes the output model's path and the metrics artifact receives
   * one score per candidate, then the winner's name and score; with no
   * positive score, the lookup of `""` raises KeyError after the scores are
   * logged, and the output path is untouched.
   */
  method Evaluate(paths: seq<string>, score: string -> real, metrics: Metrics, output: Model)
    returns (err: Option<PyError>)
    requires |paths| == 4
    modifies metrics, output
    ensures var scored := ScoresOf(paths, score);
      var best := Best(scored);
      (best.name == "" ==>
         err == Some(KeyError("")) && output.path == old(output.path) &&
         metrics.State() == RecordAll(old(metrics.State()), AucLogs(scored))) &&
      (best.name != "" ==>
         err == None && best.name in ModelsDict(paths) && output.path == ModelsDict(paths)[best.name] &&
         metrics.State() == RecordAll(old(metrics.State()), AucLogs(scored) + WinnerLogs(best)))
  {
    var models := ModelsDict(paths);
    var bestName, bestAuc := ScoreCandidates(paths, score, metrics);
    WinnerIsCandidate(paths, score);
    if bestName !in models {
      return Some(KeyError(bestName));
    }
    output.path := models[bestName];
    metrics.LogMetric("best_model_name", Text(bestName));
    metrics.LogMetric("best_auc_roc", Num(bestAuc));
    RecordWinner(old(metrics.State()), AucLogs(ScoresOf(paths, score)), Scored(bestName, bestAuc));
    return None;
  }

  /** The six names a successful evaluation logs, in order. */
  const EvaluationLogNames: seq<string> :=
    ["logistic_regression (AUC ROC)", "xgboost (AUC ROC)", "random_forest (AUC ROC)",
     "decision_tree (AUC ROC)", "best_model_name", "best_auc_roc"]

  lemma EvaluationLogsNamed(scored: seq<Scored>, best: Scored)
    requires |scored| == 4 && forall i :: 0 <= i < 4 ==> scored[i].name == CandidateNames[i]
    ensures DistinctNames(AucLogs(scored) + WinnerLogs(best))
    ensures NamesOf(AucLogs(scored) + WinnerLogs(best)) == EvaluationLogNames
  {
    var ms := AucLogs(scored) + WinnerLogs(best);
    assert |ms| == 6;
    assert forall i :: 0 <= i < 6 ==> ms[i].name == EvaluationLogNames[i];
    assert forall i, j :: 0 <= i < j < 6 ==> EvaluationLogNames[i] != EvaluationLogNames[j];
    NamesOfIndex(ms);
  }

  /**
   * On a fresh metrics artifact, the logged names are the four score names
   * in candidate order followed by `best_model_name` and `best_auc_roc`,
   * each holding the value logged under it.
   */
  lemma EvaluationLogOrder(paths: seq<string>, score: string -> real)
    requires |paths| == 4
    ensures var scored := ScoresOf(paths, score);
      var best := Best(scored);
      var log := RecordAll(MetricLog([], map[]), AucLogs(scored) + WinnerLogs(best));
      log.names == EvaluationLogNames &&
      (forall i :: 0 <= i < 4 ==> AucMetricName(CandidateNames[i]) in log.values &&
                                  log.values[AucMetricName(CandidateNames[i])] == Num(scored[i].auc)) &&
      "best_model_name" in log.values && log.values["best_model_name"] == Text(best.name) &&
      "best_auc_roc" in log.values && log.values["best_auc_roc"] == Num(best.auc)
  {
    var scored := ScoresOf(paths, score);
    var ms := AucLogs(scored) + WinnerLogs(Best(scored));
    EvaluationLogsNamed(scored, Best(scored));
    RecordAllFreshNames(MetricLog([], map[]), ms);
    RecordAllFreshValues(MetricLog([], map[]), ms);
    assert ms[4] == LoggedMetric("best_model_name", Text(Best(scored).name));
    assert ms[5] == LoggedMetric("best_auc_roc", Num(Best(scored).auc));
    assert forall i :: 0 <= i < 4 ==> ms[i] == LoggedMetric(AucMetricName(CandidateNames[i]), Num(scored[i].auc));
  }

  lemma {:induction false} NamesOfIndex(ms: seq<LoggedMetric>)
    ensures forall i :: 0 <= i < |ms| ==> NamesOf(ms)[i] == ms[i].name
    decreases |ms|
  {
    if ms != [] {
      NamesOfIndex(ms[1..]);
    }
  }
}

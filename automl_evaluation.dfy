/**
 * The `automl_evaluation` component of
 * src/components/evaluators/automl_evaluation.py: read the AutoML model's
 * evaluations, record the first one's ROC curve, confusion matrix and
 * textual metrics, and decide from the thresholds whether the model may be
 * deployed. The model's evaluation list and `json.dumps` are oracles.
 */
module AutomlEvaluation {
  import opened Wrappers
  import opened PyRuntime
  import opened Kfp

  // ---------------------------------------------------------------------
  // Threshold check (lines 54-63)

  /** The threshold keys compared at line 57; for both, higher is better. */
  predicate Watched(key: string)
  {
    key == "auRoc" || key == "auPrc"
  }

  /** Where the loop over the thresholds ends. */
  datatype Verdict =
    | Pass(auRoc: Json)
    | Fail(key: string)
    | CheckError(err: PyError)

  /**
   * Lines 55-58 and 61-63: go through the thresholds in order, skip keys
   * other than `auRoc` and `auPrc`, stop at the first metric strictly below
   * its threshold, and otherwise read `auRoc`. A missing metric raises
   * KeyError and an incomparable pair TypeError.
   */
  function Check(metricsDict: Json, thresholds: seq<Member>): Verdict
    decreases |thresholds|
  {
    if thresholds == [] then
      match Subscript(metricsDict, "auRoc")
      case Ok(a) => Pass(a)
      case Err(e) => CheckError(e)
    else
      var t := thresholds[0];
      if !Watched(t.key) then Check(metricsDict, thresholds[1..])
      else
        match Subscript(metricsDict, t.key)
        case Err(e) => CheckError(e)
        case Ok(m) =>
          (match Less(m, t.value)
           case None => CheckError(TypeError)
           case Some(below) => if below then Fail(t.key) else Check(metricsDict, thresholds[1..]))
  }

  /** A threshold the metric meets: an unwatched key, or a present metric not below it. */
  predicate Meets(metricsDict: Json, t: Member)
  {
    !Watched(t.key) ||
    (Subscript(metricsDict, t.key).Ok? && Less(Subscript(metricsDict, t.key).value, t.value) == Some(false))
  }

  /** A watched threshold the metric is strictly below. */
  predicate Misses(metricsDict: Json, t: Member)
  {
    Watched(t.key) &&
    Subscript(metricsDict, t.key).Ok? && Less(Subscript(metricsDict, t.key).value, t.value) == Some(true)
  }

  /** The thresholds with a watched key. */
  function WatchedOnly(thresholds: seq<Member>): (w: seq<Member>)
    ensures forall i :: 0 <= i < |w| ==> Watched(w[i].key)
    decreases |thresholds|
  {
    if thresholds == [] then []
    else if Watched(thresholds[0].key) then [thresholds[0]] + WatchedOnly(thresholds[1..])
    else WatchedOnly(thresholds[1..])
  }

  /** Only `auRoc` and `auPrc` thresholds matter: dropping every other key changes nothing. */
  lemma {:induction false} CheckIgnoresUnwatched(metricsDict: Json, thresholds: seq<Member>)
    ensures Check(metricsDict, thresholds) == Check(metricsDict, WatchedOnly(thresholds))
    decreases |thresholds|
  {
    if thresholds != [] {
      CheckIgnoresUnwatched(metricsDict, thresholds[1..]);
      if Watched(thresholds[0].key) {
        var w := WatchedOnly(thresholds);
        assert w[0] == thresholds[0] && w[1..] == WatchedOnly(thresholds[1..]);
      }
    }
  }

  /**
   * The check rejects with key `k` exactly when some threshold with that key
   * is missed and every threshold before it is met: it stops at the first
   * failure.
   */
  lemma {:induction false} CheckFailsIff(metricsDict: Json, thresholds: seq<Member>, k: string)
    ensures Check(metricsDict, thresholds) == Fail(k) <==>
      exists i :: 0 <= i < |thresholds| && Misses(metricsDict, thresholds[i]) && thresholds[i].key == k &&
                  forall j :: 0 <= j < i ==> Meets(metricsDict, thresholds[j])
    decreases |thresholds|
  {
    if thresholds != [] {
      var rest := thresholds[1..];
      CheckFailsIff(metricsDict, rest, k);
      assert forall i :: 1 <= i < |thresholds| ==> thresholds[i] == rest[i - 1];
      if Check(metricsDict, thresholds) == Fail(k) && !Misses(metricsDict, thresholds[0]) {
        var i :| 0 <= i < |rest| && Misses(metricsDict, rest[i]) && rest[i].key == k &&
                 forall j :: 0 <= j < i ==> Meets(metricsDict, rest[j]);
        assert forall j :: 1 <= j < i + 1 ==> Meets(metricsDict, thresholds[j]) by {
          forall j | 1 <= j < i + 1
            ensures Meets(metricsDict, thresholds[j])
          {
            assert thresholds[j] == rest[j - 1];
          }
        }
      }
      if exists i :: 0 <= i < |thresholds| && Misses(metricsDict, thresholds[i]) && thresholds[i].key == k &&
                     forall j :: 0 <= j < i ==> Meets(metricsDict, thresholds[j]) {
        var i :| 0 <= i < |thresholds| && Misses(metricsDict, thresholds[i]) && thresholds[i].key == k &&
                 forall j :: 0 <= j < i ==> Meets(metricsDict, thresholds[j]);
        if i > 0 {
          assert Meets(metricsDict, thresholds[0]);
          assert Misses(metricsDict, rest[i - 1]) && rest[i - 1].key == k;
          assert forall j :: 0 <= j < i - 1 ==> Meets(metricsDict, rest[j]) by {
            forall j | 0 <= j < i - 1
              ensures Meets(metricsDict, rest[j])
            {
              assert rest[j] == thresholds[j + 1];
            }
          }
        }
      }
    }
  }

  /**
   * The check passes exactly when every threshold is met and `auRoc` is
   * present, and then it returns the `auRoc` metric.
   */
  lemma {:induction false} CheckPassesIff(metricsDict: Json, thresholds: seq<Member>)
    ensures Check(metricsDict, thresholds).Pass? <==>
      (forall i :: 0 <= i < |thresholds| ==> Meets(metricsDict, thresholds[i])) &&
      Subscript(metricsDict, "auRoc").Ok?
    ensures Check(metricsDict, thresholds).Pass? ==>
      Check(metricsDict, thresholds).auRoc == Subscript(metricsDict, "auRoc").value
    decreases |thresholds|
  {
    if thresholds != [] {
      var rest := thresholds[1..];
      CheckPassesIff(metricsDict, rest);
      assert forall i :: 1 <= i < |thresholds| ==> thresholds[i] == rest[i - 1];
      if (forall i :: 0 <= i < |thresholds| ==> Meets(metricsDict, thresholds[i])) {
        assert forall i :: 0 <= i < |rest| ==> Meets(metricsDict, rest[i]) by {
          forall i | 0 <= i < |rest|
            ensures Meets(metricsDict, rest[i])
          {
            assert rest[i] == thresholds[i + 1];
          }
        }
        assert Meets(metricsDict, thresholds[0]);
      }
    }
  }

  /** A metric equal to its threshold meets it: the comparison is strict. */
  lemma EqualMetricMeetsThreshold(metricsDict: Json, t: Member)
    requires Subscript(metricsDict, t.key) == Ok(t.value) && (IsNumber(t.value) || t.value.JStr?)
    ensures Meets(metricsDict, t)
  {
    LessIrreflexive(t.value);
  }

  /**
   * Lines 54-63 and 114 as written. On a rejection, line 59 formats
   * `metrics[k]`, where `metrics` is the component's `Metrics` artifact,
   * which cannot be subscripted, so the call raises TypeError; were it to
   * return, the bare `False` could not be unpacked into two names at line
   * 114 either. A pass gives `automl_auc`.
   */
  function ThresholdsCheckAsWritten(metricsDict: Json, thresholds: seq<Member>): (r: Result<Json, PyError>)
    ensures Check(metricsDict, thresholds).Fail? ==> r == Err(TypeError)
    ensures r.Ok? <==> Check(metricsDict, thresholds).Pass?
  {
    match Check(metricsDict, thresholds)
    case Pass(a) => Ok(a)
    case Fail(_) => Err(TypeError)
    case CheckError(e) => Err(e)
  }

  /** The deployment decision and the component's `automl_auc` output. */
  datatype Decision = Decision(deploy: bool, automlAuc: Json)

  /**
   * The evident intent: a rejection decides against deployment and leaves
   * `automl_auc` at its initial 0.0 (line 26); a pass deploys and reports
   * `auRoc`.
   */
  function ThresholdsDecision(metricsDict: Json, thresholds: seq<Member>): (r: Result<Decision, PyError>)
    ensures r.Ok? <==> Check(metricsDict, thresholds).Pass? || Check(metricsDict, thresholds).Fail?
    ensures r.Ok? ==> (r.value.deploy <==> Check(metricsDict, thresholds).Pass?)
    ensures r.Ok? && !r.value.deploy ==> r.value.automlAuc == JNum(0.0)
  {
    match Check(metricsDict, thresholds)
    case Pass(a) => Ok(Decision(true, a))
    case Fail(_) => Ok(Decision(false, JNum(0.0)))
    case CheckError(e) => Err(e)
  }

  /**
   * The two agree on every pass, and every rejection the intended check
   * decides against deployment is a TypeError as written.
   */
  lemma AsWrittenRaisesOnRejection(metricsDict: Json, thresholds: seq<Member>)
    ensures var intended := ThresholdsDecision(metricsDict, thresholds);
      var asWritten := ThresholdsCheckAsWritten(metricsDict, thresholds);
      (intended.Ok? && intended.value.deploy ==> asWritten == Ok(intended.value.automlAuc)) &&
      (intended.Ok? && !intended.value.deploy ==> asWritten == Err(TypeError))
  {
  }

  /** A metrics dict with an `auRoc` of 0.5 against a threshold of 0.9. */
  lemma RejectionExample()
    ensures var m := JObj([Member("auRoc", JNum(0.5))]);
      var ts := [Member("auRoc", JNum(0.9))];
      ThresholdsCheckAsWritten(m, ts) == Err(TypeError) &&
      ThresholdsDecision(m, ts) == Ok(Decision(false, JNum(0.0)))
  {
    var m := JObj([Member("auRoc", JNum(0.5))]);
    var ts := [Member("auRoc", JNum(0.9))];
    assert Get(m.members, "auRoc") == Some(JNum(0.5));
    assert Check(m, ts) == Fail("auRoc");
  }

  /** Line 113 onwards needs a dict: `.items()` on any other JSON value raises AttributeError. */
  function ThresholdItems(thresholds: Json): (r: Result<seq<Member>, PyError>)
    ensures r.Ok? <==> thresholds.JObj?
    ensures r.Ok? ==> r.value == thresholds.members
    ensures r.Err? ==> r.error == AttributeError
  {
    if thresholds.JObj? then Ok(thresholds.members) else Err(AttributeError)
  }

  // ---------------------------------------------------------------------
  // ROC curve lists (lines 70-80)

  /** Every confidence-metrics item is a dict, so `item.get` exists. */
  predicate AllDicts(items: seq<Json>)
  {
    forall i :: 0 <= i < |items| ==> items[i].JObj?
  }

  /** One ROC list: the field of every item, 0.0 where it is missing. */
  function FieldOrZero(items: seq<Json>, key: string): (column: seq<Json>)
    requires AllDicts(items)
    ensures |column| == |items|
  {
    seq(|items|, i requires 0 <= i < |items| => GetOr(items[i].members, key, JNum(0.0)))
  }

  /** The curve the loop builds, or AttributeError when some item is not a dict. */
  function RocOf(items: seq<Json>): (r: Result<RocCurve, PyError>)
    ensures r.Ok? <==> AllDicts(items)
    ensures r.Err? ==> r.error == AttributeError
  {
    if AllDicts(items) then
      Ok(RocCurve(FieldOrZero(items, "falsePositiveRate"), FieldOrZero(items, "recall"),
                  FieldOrZero(items, "confidenceThreshold")))
    else Err(AttributeError)
  }

  /**
   * The three lists have one entry per item, in order: the item's false
   * positive rate, recall and confidence threshold, each 0.0 when the item
   * lacks it.
   */
  lemma RocOfShape(items: seq<Json>)
    requires AllDicts(items)
    ensures var c := RocOf(items).value;
      |c.fpr| == |items| && |c.tpr| == |items| && |c.thresholds| == |items| &&
      forall i :: 0 <= i < |items| ==>
        c.fpr[i] == GetOr(items[i].members, "falsePositiveRate", JNum(0.0)) &&
        c.tpr[i] == GetOr(items[i].members, "recall", JNum(0.0)) &&
        c.thresholds[i] == GetOr(items[i].members, "confidenceThreshold", JNum(0.0)) &&
        ("falsePositiveRate" !in Keys(items[i].members) ==> c.fpr[i] == JNum(0.0)) &&
        ("recall" !in Keys(items[i].members) ==> c.tpr[i] == JNum(0.0)) &&
        ("confidenceThreshold" !in Keys(items[i].members) ==> c.thresholds[i] == JNum(0.0))
  {
  }

  /** Appending one dict to the items appends its field to the column. */
  lemma FieldOrZeroStep(items: seq<Json>, i: nat, key: string)
    requires i < |items| && AllDicts(items[..i]) && items[i].JObj?
    ensures AllDicts(items[..i + 1])
    ensures FieldOrZero(items[..i + 1], key) == FieldOrZero(items[..i], key) + [GetOr(items[i].members, key, JNum(0.0))]
  {
    assert items[..i + 1] == items[..i] + [items[i]];
  }

  /** Lines 70-76: the three lists, built by appending one entry per item. */
  method RocCurveLists(items: seq<Json>) returns (r: Result<RocCurve, PyError>)
    ensures r == RocOf(items)
  {
    var fpr: seq<Json> := [];
    var tpr: seq<Json> := [];
    var thresholds: seq<Json> := [];
    var i := 0;
    while i < |items|
      invariant 0 <= i <= |items| && AllDicts(items[..i])
      invariant fpr == FieldOrZero(items[..i], "falsePositiveRate")
      invariant tpr == FieldOrZero(items[..i], "recall")
      invariant thresholds == FieldOrZero(items[..i], "confidenceThreshold")
    {
      if !items[i].JObj? {
        return Err(AttributeError);
      }
      var item := items[i].members;
      FieldOrZeroStep(items, i, "falsePositiveRate");
      FieldOrZeroStep(items, i, "recall");
      FieldOrZeroStep(items, i, "confidenceThreshold");
      fpr := fpr + [GetOr(item, "falsePositiveRate", JNum(0.0))];
      tpr := tpr + [GetOr(item, "recall", JNum(0.0))];
      thresholds := thresholds + [GetOr(item, "confidenceThreshold", JNum(0.0))];
      i := i + 1;
    }
    assert items[..i] == items;
    r := Ok(RocCurve(fpr, tpr, thresholds));
  }

  // ---------------------------------------------------------------------
  // Confusion-matrix annotations (lines 83-85)

  /** Line 85 for one annotation spec. */
  function DisplayName(spec: Json): Result<Json, PyError>
  {
    Subscript(spec, "displayName")
  }

  /**
   * Lines 83-85: collect the display names by appending, in the order of
   * the specs; the first spec without one stops the loop.
   */
  method Annotations(specs: seq<Json>) returns (r: Result<seq<Json>, PyError>)
    ensures r == Collect(specs, DisplayName)
  {
    var names: seq<Json> := [];
    var i := 0;
    while i < |specs|
      invariant 0 <= i <= |specs|
      invariant Collect(specs[..i], DisplayName) == Ok(names)
    {
      assert specs[..i + 1][..i] == specs[..i];
      match DisplayName(specs[i]) {
        case Err(e) =>
          CollectErrorSticks(specs, DisplayName, i + 1);
          return Err(e);
        case Ok(n) =>
          names := names + [n];
      }
      i := i + 1;
    }
    assert specs[..i] == specs;
    r := Ok(names);
  }

  // ---------------------------------------------------------------------
  // Textual metrics (lines 93-96)

  /** What logging one member of the metrics dict adds: nothing for `confidenceMetrics`, else its JSON text. */
  function TextMetric(m: Member, dumps: Json -> string): seq<LoggedMetric>
  {
    if m.key != "confidenceMetrics" then [LoggedMetric(m.key, Text(dumps(m.value)))] else []
  }

  /** The metrics the loop logs for `members`, in order. */
  function TextMetrics(members: seq<Member>, dumps: Json -> string): seq<LoggedMetric>
    decreases |members|
  {
    if members == [] then []
    else TextMetrics(members[..|members| - 1], dumps) + TextMetric(members[|members| - 1], dumps)
  }

  /**
   * Every logged name is a key of the metrics other than
   * `confidenceMetrics`, with its JSON text, and every such key is logged.
   */
  lemma {:induction false} TextMetricsCover(members: seq<Member>, dumps: Json -> string)
    ensures forall j :: 0 <= j < |TextMetrics(members, dumps)| ==>
      TextMetrics(members, dumps)[j].name != "confidenceMetrics" &&
      exists i :: 0 <= i < |members| &&
        TextMetrics(members, dumps)[j] == LoggedMetric(members[i].key, Text(dumps(members[i].value)))
    ensures forall i :: 0 <= i < |members| && members[i].key != "confidenceMetrics" ==>
      LoggedMetric(members[i].key, Text(dumps(members[i].value))) in TextMetrics(members, dumps)
    decreases |members|
  {
    if members != [] {
      var n := |members| - 1;
      var init := members[..n];
      TextMetricsCover(init, dumps);
      assert forall i :: 0 <= i < |init| ==> init[i] == members[i];
      var t := TextMetrics(members, dumps);
      var prev := TextMetrics(init, dumps);
      assert t == prev + TextMetric(members[n], dumps);
      forall j | 0 <= j < |t|
        ensures t[j].name != "confidenceMetrics" &&
          exists i :: 0 <= i < |members| && t[j] == LoggedMetric(members[i].key, Text(dumps(members[i].value)))
      {
        if j >= |prev| {
          assert t[j] == LoggedMetric(members[n].key, Text(dumps(members[n].value)));
        } else {
          assert t[j] == prev[j];
          var i :| 0 <= i < |init| && prev[j] == LoggedMetric(init[i].key, Text(dumps(init[i].value)));
          assert init[i] == members[i];
        }
      }
    }
  }

  /** Logging the first `i + 1` members is logging the first `i`, then member `i` if it is not `confidenceMetrics`. */
  lemma TextLogStep(start: MetricLog, members: seq<Member>, i: nat, dumps: Json -> string)
    requires i < |members|
    ensures RecordAll(start, TextMetrics(members[..i + 1], dumps)) ==
      (if members[i].key != "confidenceMetrics"
       then Record(RecordAll(start, TextMetrics(members[..i], dumps)), LoggedMetric(members[i].key, Text(dumps(members[i].value))))
       else RecordAll(start, TextMetrics(members[..i], dumps)))
  {
    assert members[..i + 1][..i] == members[..i];
    RecordAllAppend(start, TextMetrics(members[..i], dumps), TextMetric(members[i], dumps));
    if members[i].key != "confidenceMetrics" {
      assert [LoggedMetric(members[i].key, Text(dumps(members[i].value)))][1..] == [];
    }
  }

  /** Lines 93-96: log every metric but `confidenceMetrics` as JSON text. */
  method LogTextMetrics(members: seq<Member>, dumps: Json -> string, metrics: Metrics)
    modifies metrics
    ensures metrics.State() == RecordAll(old(metrics.State()), TextMetrics(members, dumps))
  {
    var i := 0;
    while i < |members|
      invariant 0 <= i <= |members|
      invariant metrics.State() == RecordAll(old(metrics.State()), TextMetrics(members[..i], dumps))
    {
      TextLogStep(old(metrics.State()), members, i, dumps);
      if members[i].key != "confidenceMetrics" {
        metrics.LogMetric(members[i].key, Text(dumps(members[i].value)));
      }
      i := i + 1;
    }
    assert members[..i] == members;
  }

  // ---------------------------------------------------------------------
  // Evaluation list (lines 30-50)

  /** Lines 37-40 for one evaluation: its name, schema and metrics must be present and the metrics a dict. */
  function EvalMetrics(evaluation: seq<Member>): (r: Result<Json, PyError>)
    ensures r.Ok? <==> Get(evaluation, "name").Some? && Get(evaluation, "metricsSchemaUri").Some? &&
                       Get(evaluation, "metrics").Some? && Get(evaluation, "metrics").value.JObj?
    ensures r.Ok? ==> Get(evaluation, "metrics") == Some(r.value)
    ensures r.Err? ==> r.error == AttributeError || r.error.KeyError?
  {
    if Get(evaluation, "name").None? then Err(KeyError("name"))
    else if Get(evaluation, "metricsSchemaUri").None? then Err(KeyError("metricsSchemaUri"))
    else if Get(evaluation, "metrics").None? then Err(KeyError("metrics"))
    else
      var m := Get(evaluation, "metrics").value;
      if m.JObj? then Ok(m) else Err(AttributeError)
  }

  /** What `get_eval_info` returns. */
  datatype EvalInfo = EvalInfo(name: Json, metricsList: seq<Json>, metricsStrings: seq<string>)

  /**
   * Lines 30-50: one metrics dict and its JSON text per evaluation, in
   * order, and the last evaluation's name; with no evaluations, the final
   * read of `evaluation` raises UnboundLocalError.
   */
  method GetEvalInfo(evaluations: seq<seq<Member>>, dumps: Json -> string) returns (r: Result<EvalInfo, PyError>)
    ensures evaluations == [] ==> r == Err(UnboundLocalError("evaluation"))
    ensures evaluations != [] && Collect(evaluations, EvalMetrics).Err? ==>
      r == Err(Collect(evaluations, EvalMetrics).error)
    ensures evaluations != [] && Collect(evaluations, EvalMetrics).Ok? ==>
      r.Ok? && r.value.metricsList == Collect(evaluations, EvalMetrics).value &&
      |r.value.metricsStrings| == |r.value.metricsList| &&
      (forall i :: 0 <= i < |r.value.metricsStrings| ==> r.value.metricsStrings[i] == dumps(r.value.metricsList[i])) &&
      Get(evaluations[|evaluations| - 1], "name") == Some(r.value.name)
  {
    var metricsList: seq<Json> := [];
    var metricsStrings: seq<string> := [];
    var i := 0;
    while i < |evaluations|
      invariant 0 <= i <= |evaluations|
      invariant Collect(evaluations[..i], EvalMetrics) == Ok(metricsList)
      invariant |metricsStrings| == |metricsList|
      invariant forall j :: 0 <= j < |metricsStrings| ==> metricsStrings[j] == dumps(metricsList[j])
    {
      assert evaluations[..i + 1][..i] == evaluations[..i];
      var m := EvalMetrics(evaluations[i]);
      if m.Err? {
        CollectErrorSticks(evaluations, EvalMetrics, i + 1);
        return Err(m.error);
      }
      metricsList := metricsList + [m.value];
      metricsStrings := metricsStrings + [dumps(m.value)];
      i := i + 1;
    }
    assert evaluations[..i] == evaluations;
    if evaluations == [] {
      return Err(UnboundLocalError("evaluation"));
    }
    r := Ok(EvalInfo(Get(evaluations[|evaluations| - 1], "name").value, metricsList, metricsStrings));
  }

  // ---------------------------------------------------------------------
  // Recording the first evaluation (lines 65-96)

  /** What `log_metrics` records: the curve, the matrix and the textual metrics. */
  datatype Recorded = Recorded(roc: RocCurve, matrix: ConfusionMatrix, text: seq<LoggedMetric>)

  /**
   * The reads of lines 66-90 in order; each missing key, wrong type, empty
   * list or confusion matrix that KFP refuses raises where the source would.
   */
  function PlanLogMetrics(metricsList: seq<Json>, dumps: Json -> string): Result<Recorded, PyError>
  {
    if metricsList == [] then Err(IndexError)
    else
      var first := metricsList[0];
      match Subscript(first, "confusionMatrix")
      case Err(e) => Err(e)
      case Ok(cm) =>
        match Subscript(cm, "rows")
        case Err(e) => Err(e)
        case Ok(rows) =>
          match Subscript(first, "confidenceMetrics")
          case Err(e) => Err(e)
          case Ok(conf) =>
            match Iterate(conf)
            case Err(e) => Err(e)
            case Ok(items) =>
              match RocOf(items)
              case Err(e) => Err(e)
              case Ok(roc) =>
                match Subscript(cm, "annotationSpecs")
                case Err(e) => Err(e)
                case Ok(specsValue) =>
                  match Iterate(specsValue)
                  case Err(e) => Err(e)
                  case Ok(specs) =>
                    match Collect(specs, DisplayName)
                    case Err(e) => Err(e)
                    case Ok(names) =>
                      var log := LogMatrix(names, rows);
                      match log.error
                      case Some(e) => Err(e)
                      case None =>
                        Ok(Recorded(roc, ConfusionMatrix(names, log.stored), TextMetrics(first.members, dumps)))
  }

  /**
   * Lines 65-96: record the ROC curve, then the confusion matrix with the
   * annotation names, then every metric but `confidenceMetrics` as text.
   * On success the artifacts hold exactly what the plan says; on an error
   * the metrics artifact is untouched.
   */
  method LogMetrics(metricsList: seq<Json>, dumps: Json -> string, metrics: Metrics, metricsc: ClassificationMetrics)
    returns (err: Option<PyError>)
    modifies metrics, metricsc
    ensures var plan := PlanLogMetrics(metricsList, dumps);
      (plan.Err? ==> err == Some(plan.error) && metrics.State() == old(metrics.State())) &&
      (plan.Ok? ==> err == None && metricsc.rocCurve == Some(plan.value.roc) &&
                    metricsc.confusionMatrix == Some(plan.value.matrix) &&
                    metrics.State() == RecordAll(old(metrics.State()), plan.value.text))
  {
    if metricsList == [] {
      return Some(IndexError);
    }
    var first := metricsList[0];
    var cm := Subscript(first, "confusionMatrix");
    if cm.Err? {
      return Some(cm.error);
    }
    var rows := Subscript(cm.value, "rows");
    if rows.Err? {
      return Some(rows.error);
    }
    var conf := Subscript(first, "confidenceMetrics");
    if conf.Err? {
      return Some(conf.error);
    }
    var items := Iterate(conf.value);
    if items.Err? {
      return Some(items.error);
    }
    var roc := RocCurveLists(items.value);
    if roc.Err? {
      return Some(roc.error);
    }
    metricsc.LogRocCurve(roc.value.fpr, roc.value.tpr, roc.value.thresholds);
    var specsValue := Subscript(cm.value, "annotationSpecs");
    if specsValue.Err? {
      return Some(specsValue.error);
    }
    var specs := Iterate(specsValue.value);
    if specs.Err? {
      return Some(specs.error);
    }
    var names := Annotations(specs.value);
    if names.Err? {
      return Some(names.error);
    }
    var refused := metricsc.LogConfusionMatrix(names.value, rows.value);
    if refused.Some? {
      return refused;
    }
    LogTextMetrics(first.members, dumps, metrics);
    return None;
  }

  // ---------------------------------------------------------------------
  // The component (lines 98-123)

  /** The metrics list `get_eval_info` yields, or what it raises. */
  function MetricsListOf(evaluations: seq<seq<Member>>): Result<seq<Json>, PyError>
  {
    if evaluations == [] then Err(UnboundLocalError("evaluation")) else Collect(evaluations, EvalMetrics)
  }

  /**
   * The component body after the model is looked up: read the evaluations,
   * record the first, then decide from the thresholds. It follows the
   * intended decision, so a rejection yields `automl_auc` 0.0 rather than
   * the TypeError of the code as written.
   */
  method EvaluateAutoml(evaluations: seq<seq<Member>>, thresholds: Json, dumps: Json -> string,
                        metrics: Metrics, metricsc: ClassificationMetrics)
    returns (r: Result<Decision, PyError>)
    modifies metrics, metricsc
    ensures var got := MetricsListOf(evaluations);
      (got.Err? ==> r == Err(got.error) && metrics.State() == old(metrics.State())) &&
      (got.Ok? && PlanLogMetrics(got.value, dumps).Err? ==>
         r == Err(PlanLogMetrics(got.value, dumps).error) && metrics.State() == old(metrics.State())) &&
      (got.Ok? && PlanLogMetrics(got.value, dumps).Ok? ==>
         metrics.State() == RecordAll(old(metrics.State()), PlanLogMetrics(got.value, dumps).value.text) &&
         r == (match ThresholdItems(thresholds)
               case Err(e) => Err(e)
               case Ok(ts) => ThresholdsDecision(got.value[0], ts)))
  {
    var got := GetEvalInfo(evaluations, dumps);
    if got.Err? {
      return Err(got.error);
    }
    var logged := LogMetrics(got.value.metricsList, dumps, metrics, metricsc);
    if logged.Some? {
      return Err(logged.value);
    }
    var ts := ThresholdItems(thresholds);
    if ts.Err? {
      return Err(ts.error);
    }
    r := ThresholdsDecision(got.value.metricsList[0], ts.value);
  }
}

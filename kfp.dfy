/**
 * The KFP output artifacts the components write to: `Metrics`, whose
 * `log_metric` stores a value under a name in the artifact's metadata dict
 * (a name logged again keeps its place and takes the new value),
 * `ClassificationMetrics`, which records a ROC curve and a confusion matrix,
 * and `Model`, of which only the path matters here.
 */
module Kfp {
  import opened Wrappers
  import opened PyRuntime

  datatype MetricValue = Num(n: real) | Text(s: string)

  datatype LoggedMetric = LoggedMetric(name: string, value: MetricValue)

  /** The contents of a metadata dict: its keys in insertion order and its values. */
  datatype MetricLog = MetricLog(names: seq<string>, values: map<string, MetricValue>)

  /** The keys are distinct and are exactly the dict's keys. */
  predicate WellFormed(log: MetricLog)
  {
    (forall i, j :: 0 <= i < j < |log.names| ==> log.names[i] != log.names[j]) &&
    log.values.Keys == (set n | n in log.names)
  }

  /** One `log_metric` call. */
  function Record(log: MetricLog, m: LoggedMetric): MetricLog
  {
    MetricLog(if m.name in log.values then log.names else log.names + [m.name],
              log.values[m.name := m.value])
  }

  /** A run of `log_metric` calls, in order. */
  function RecordAll(log: MetricLog, ms: seq<LoggedMetric>): MetricLog
    decreases |ms|
  {
    if ms == [] then log else RecordAll(Record(log, ms[0]), ms[1..])
  }

  /** Logging keeps a well-formed dict well formed. */
  lemma {:induction false} RecordAllWellFormed(log: MetricLog, ms: seq<LoggedMetric>)
    requires WellFormed(log)
    ensures WellFormed(RecordAll(log, ms))
    decreases |ms|
  {
    if ms != [] {
      RecordWellFormed(log, ms[0]);
      RecordAllWellFormed(Record(log, ms[0]), ms[1..]);
    }
  }

  lemma RecordWellFormed(log: MetricLog, m: LoggedMetric)
    requires WellFormed(log)
    ensures WellFormed(Record(log, m))
  {
  }

  /** Logging `ms` and then `more` is logging `ms + more`. */
  lemma {:induction false} RecordAllAppend(log: MetricLog, ms: seq<LoggedMetric>, more: seq<LoggedMetric>)
    ensures RecordAll(log, ms + more) == RecordAll(RecordAll(log, ms), more)
    decreases |ms|
  {
    if ms == [] {
      assert ms + more == more;
    } else {
      assert (ms + more)[1..] == ms[1..] + more;
      RecordAllAppend(Record(log, ms[0]), ms[1..], more);
    }
  }

  /** The names of a run of calls. */
  function NamesOf(ms: seq<LoggedMetric>): (ns: seq<string>)
    ensures |ns| == |ms|
  {
    if ms == [] then [] else [ms[0].name] + NamesOf(ms[1..])
  }

  /** Pairwise distinct names. */
  predicate DistinctNames(ms: seq<LoggedMetric>)
  {
    forall i, j :: 0 <= i < j < |ms| ==> ms[i].name != ms[j].name
  }

  /** None of the names in `ms` is logged in `log` yet. */
  predicate FreshFor(log: MetricLog, ms: seq<LoggedMetric>)
  {
    forall i :: 0 <= i < |ms| ==> ms[i].name !in log.values
  }

  lemma FreshAfterFirst(log: MetricLog, ms: seq<LoggedMetric>)
    requires ms != [] && DistinctNames(ms) && FreshFor(log, ms)
    ensures DistinctNames(ms[1..]) && FreshFor(Record(log, ms[0]), ms[1..])
  {
    assert forall i :: 0 <= i < |ms[1..]| ==> ms[1..][i] == ms[i + 1];
  }

  /** The names set by a run of calls are the earlier ones and the logged ones. */
  lemma {:induction false} RecordAllKeys(log: MetricLog, ms: seq<LoggedMetric>)
    ensures RecordAll(log, ms).values.Keys == log.values.Keys + (set n | n in NamesOf(ms))
    decreases |ms|
  {
    if ms != [] {
      RecordAllKeys(Record(log, ms[0]), ms[1..]);
    }
  }

  /**
   * Logging metrics with distinct names, none logged before, appends the
   * names in order.
   */
  lemma {:induction false} RecordAllFreshNames(log: MetricLog, ms: seq<LoggedMetric>)
    requires DistinctNames(ms) && FreshFor(log, ms)
    ensures RecordAll(log, ms).names == log.names + NamesOf(ms)
    decreases |ms|
  {
    if ms != [] {
      var next := Record(log, ms[0]);
      assert next.names == log.names + [ms[0].name] by {
        assert ms[0].name !in log.values;
      }
      FreshAfterFirst(log, ms);
      RecordAllFreshNames(next, ms[1..]);
      assert RecordAll(log, ms) == RecordAll(next, ms[1..]);
      assert NamesOf(ms) == [ms[0].name] + NamesOf(ms[1..]);
      assert (log.names + [ms[0].name]) + NamesOf(ms[1..]) == log.names + ([ms[0].name] + NamesOf(ms[1..]));
    }
  }

  /** ... and stores each value under its name, leaving earlier entries alone. */
  lemma {:induction false} RecordAllFreshValues(log: MetricLog, ms: seq<LoggedMetric>)
    requires DistinctNames(ms) && FreshFor(log, ms)
    ensures forall i :: 0 <= i < |ms| ==>
      ms[i].name in RecordAll(log, ms).values && RecordAll(log, ms).values[ms[i].name] == ms[i].value
    ensures forall n :: n in log.values ==> n in RecordAll(log, ms).values && RecordAll(log, ms).values[n] == log.values[n]
    decreases |ms|
  {
    if ms != [] {
      var next := Record(log, ms[0]);
      FreshAfterFirst(log, ms);
      RecordAllFreshValues(next, ms[1..]);
      forall i | 0 <= i < |ms|
        ensures ms[i].name in RecordAll(log, ms).values && RecordAll(log, ms).values[ms[i].name] == ms[i].value
      {
        if i > 0 {
          assert ms[1..][i - 1] == ms[i];
        }
      }
    }
  }

  /** The `Metrics` artifact. */
  class Metrics {
    var names: seq<string>
    var values: map<string, MetricValue>

    function State(): MetricLog
      reads this
    {
      MetricLog(names, values)
    }

    constructor ()
      ensures State() == MetricLog([], map[])
    {
      names := [];
      values := map[];
    }

    method LogMetric(name: string, value: MetricValue)
      modifies this
      ensures State() == Record(old(State()), LoggedMetric(name, value))
    {
      if name !in values {
        names := names + [name];
      }
      values := values[name := value];
    }
  }

  datatype RocCurve = RocCurve(fpr: seq<Json>, tpr: seq<Json>, thresholds: seq<Json>)

  /** The matrix KFP stores: the categories and one row per category slot. */
  datatype ConfusionMatrix = ConfusionMatrix(categories: seq<Json>, rows: seq<Json>)

  /** The row `set_confusion_matrix_categories` puts in every slot: `n` zeros. */
  function ZeroRow(n: nat): Json
  {
    JArr(seq(n, _ => JNum(0.0)))
  }

  function ZeroRows(n: nat): seq<Json>
  {
    seq(n, _ => ZeroRow(n))
  }

  /** The check of one row: `len(row)` must be the number of categories. */
  function RowSize(n: nat, row: Json): Result<nat, PyError>
  {
    match Len(row)
    case Err(e) => Err(e)
    case Ok(k) => if k == n then Ok(k) else Err(ValueError)
  }

  /** `categories.index(c)`: the first slot holding `c`. */
  function IndexOf(categories: seq<Json>, c: Json): (i: nat)
    requires c in categories
    ensures i < |categories| && categories[i] == c
    ensures forall j :: 0 <= j < i ==> categories[j] != c
  {
    if categories[0] == c then 0 else 1 + IndexOf(categories[1..], c)
  }

  /** Row `j` of the matrix can be read and is as long as there are categories. */
  predicate RowFits(n: nat, rows: Json, j: nat)
  {
    At(rows, j).Ok? && Len(At(rows, j).value) == Ok(n)
  }

  /** The stored rows after a run of `log_confusion_matrix`, and what it raised, if anything. */
  datatype MatrixLog = MatrixLog(stored: seq<Json>, error: Option<PyError>)

  /**
   * The row loop after its first `i` turns: turn `j` reads `rows[j]`, checks
   * its length and writes it into the slot of `categories[j]` (the first
   * slot with that name); the first failing turn stops the loop and keeps
   * what was written before it.
   */
  function LogRows(categories: seq<Json>, rows: Json, i: nat): (r: MatrixLog)
    requires i <= |categories|
    ensures |r.stored| == |categories|
    decreases i
  {
    if i == 0 then MatrixLog(ZeroRows(|categories|), None)
    else
      var prev := LogRows(categories, rows, i - 1);
      if prev.error.Some? then prev
      else
        match At(rows, i - 1)
        case Err(e) => MatrixLog(prev.stored, Some(e))
        case Ok(row) =>
          match RowSize(|categories|, row)
          case Err(e) => MatrixLog(prev.stored, Some(e))
          case Ok(_) => MatrixLog(prev.stored[IndexOf(categories, categories[i - 1]) := row], None)
  }

  /**
   * `log_confusion_matrix`: the zero matrix, then a row count that must be
   * the category count (ValueError otherwise; TypeError when the rows have
   * no length), then the row loop.
   */
  function LogMatrix(categories: seq<Json>, rows: Json): MatrixLog
  {
    match Len(rows)
    case Err(e) => MatrixLog(ZeroRows(|categories|), Some(e))
    case Ok(k) =>
      if k != |categories| then MatrixLog(ZeroRows(|categories|), Some(ValueError))
      else LogRows(categories, rows, |categories|)
  }

  /** Once a turn fails, the later turns change nothing. */
  lemma {:induction false} LogRowsErrorSticks(categories: seq<Json>, rows: Json, i: nat, m: nat)
    requires i <= m <= |categories| && LogRows(categories, rows, i).error.Some?
    ensures LogRows(categories, rows, m) == LogRows(categories, rows, i)
    decreases m
  {
    if m > i {
      LogRowsErrorSticks(categories, rows, i, m - 1);
    }
  }

  /** Rows `0..k-1` all fit. */
  predicate AllFit(n: nat, rows: Json, k: nat)
  {
    forall m :: 0 <= m < k ==> RowFits(n, rows, m)
  }

  /** The first `i` turns all succeed iff each of the first `i` rows fits. */
  lemma {:induction false} LogRowsSucceedIff(categories: seq<Json>, rows: Json, i: nat)
    requires i <= |categories|
    ensures LogRows(categories, rows, i).error.None? <==> AllFit(|categories|, rows, i)
    decreases i
  {
    if i > 0 {
      LogRowsSucceedIff(categories, rows, i - 1);
      assert AllFit(|categories|, rows, i) <==>
        AllFit(|categories|, rows, i - 1) && RowFits(|categories|, rows, i - 1);
    }
  }

  /**
   * The matrix is accepted exactly when the rows have one row per category
   * and every row can be read and is as long as there are categories; a
   * wrong row count raises ValueError.
   */
  lemma MatrixErrorIff(categories: seq<Json>, rows: Json)
    ensures LogMatrix(categories, rows).error.None? <==>
      Len(rows) == Ok(|categories|) && forall j :: 0 <= j < |categories| ==> RowFits(|categories|, rows, j)
    ensures Len(rows).Ok? && Len(rows).value != |categories| ==> LogMatrix(categories, rows).error == Some(ValueError)
  {
    LogRowsSucceedIff(categories, rows, |categories|);
  }

  /** No name appears twice. */
  predicate Distinct(categories: seq<Json>)
  {
    forall i, j :: 0 <= i < j < |categories| ==> categories[i] != categories[j]
  }

  /** What slot `j` holds after `i` turns with distinct categories: row `j` once written, else zeros. */
  function SlotAfter(n: nat, rows: Json, i: nat, j: nat): Json
  {
    if j < i && RowFits(n, rows, j) && AllFit(n, rows, j) then At(rows, j).value else ZeroRow(n)
  }

  /**
   * With distinct categories, after `i` turns slot `j` holds row `j` when
   * that turn ran and rows `0..j` all fit, and zeros otherwise.
   */
  lemma {:induction false} LogRowsStored(categories: seq<Json>, rows: Json, i: nat)
    requires i <= |categories| && Distinct(categories)
    ensures forall j :: 0 <= j < |categories| ==>
      LogRows(categories, rows, i).stored[j] == SlotAfter(|categories|, rows, i, j)
    decreases i
  {
    var n := |categories|;
    if i > 0 {
      LogRowsStored(categories, rows, i - 1);
      LogRowsSucceedIff(categories, rows, i - 1);
      var prev := LogRows(categories, rows, i - 1);
      var now := LogRows(categories, rows, i);
      if prev.error.None? && RowFits(n, rows, i - 1) {
        assert IndexOf(categories, categories[i - 1]) == i - 1;
        assert now.stored == prev.stored[i - 1 := At(rows, i - 1).value];
      } else {
        assert now.stored == prev.stored;
        assert SlotAfter(n, rows, i, i - 1) == ZeroRow(n);
      }
      forall j | 0 <= j < n
        ensures now.stored[j] == SlotAfter(n, rows, i, j)
      {
        if j != i - 1 {
          assert SlotAfter(n, rows, i, j) == SlotAfter(n, rows, i - 1, j);
        }
      }
    }
  }

  /**
   * A matrix refused at row `k` after a correct row count has already
   * written rows `0..k-1` (with distinct categories); the later slots keep
   * their zeros. An accepted matrix is stored row for row.
   */
  lemma MatrixStoredRows(categories: seq<Json>, rows: Json, k: nat)
    requires Distinct(categories) && Len(rows) == Ok(|categories|) && k <= |categories|
    requires AllFit(|categories|, rows, k)
    requires k < |categories| ==> !RowFits(|categories|, rows, k)
    ensures LogMatrix(categories, rows).error.None? <==> k == |categories|
    ensures forall j :: 0 <= j < |categories| ==>
      LogMatrix(categories, rows).stored[j] == if j < k then Iterate(rows).value[j] else ZeroRow(|categories|)
  {
    var n := |categories|;
    LogRowsStored(categories, rows, n);
    LogRowsSucceedIff(categories, rows, n);
    forall j | 0 <= j < n
      ensures LogMatrix(categories, rows).stored[j] == if j < k then Iterate(rows).value[j] else ZeroRow(n)
    {
      if j < k {
        assert AllFit(n, rows, j) && RowFits(n, rows, j);
      } else if j > k {
        assert !AllFit(n, rows, j) by { assert !RowFits(n, rows, k); }
      }
    }
  }

  /** Two categories with the single row `[1]` are refused with ValueError, leaving zeros. */
  lemma TooFewRowsRefused()
    ensures LogMatrix([JStr("a"), JStr("b")], JArr([JArr([JNum(1.0)])])) ==
      MatrixLog(ZeroRows(2), Some(ValueError))
  {
  }

  /**
   * A repeated category name writes its row into the slot of the first
   * occurrence, and its own slot keeps its zeros.
   */
  lemma DuplicateCategoryOverwrites(a: Json, r0: Json, r1: Json)
    requires Len(r0) == Ok(2) && Len(r1) == Ok(2)
    ensures LogMatrix([a, a], JArr([r0, r1])) == MatrixLog([r1, ZeroRow(2)], None)
  {
    assert LogRows([a, a], JArr([r0, r1]), 1) == MatrixLog([r0, ZeroRow(2)], None);
  }

  /** Rows given as a dict cannot be indexed by position: the first turn raises KeyError(0). */
  lemma DictRowsRaiseKeyError(categories: seq<Json>, rows: Json)
    requires rows.JObj? && |rows.members| == |categories| > 0
    ensures LogMatrix(categories, rows).error == Some(IntKeyError(0))
  {
    LogRowsErrorSticks(categories, rows, 1, |categories|);
  }

  /** The `ClassificationMetrics` artifact: the curve and matrix last logged. */
  class ClassificationMetrics {
    var rocCurve: Option<RocCurve>
    var confusionMatrix: Option<ConfusionMatrix>

    constructor ()
      ensures rocCurve == None && confusionMatrix == None
    {
      rocCurve := None;
      confusionMatrix := None;
    }

    method LogRocCurve(fpr: seq<Json>, tpr: seq<Json>, thresholds: seq<Json>)
      modifies this`rocCurve
      ensures rocCurve == Some(RocCurve(fpr, tpr, thresholds))
    {
      rocCurve := Some(RocCurve(fpr, tpr, thresholds));
    }

    /**
     * KFP's `log_confusion_matrix`: the categories with a zero matrix, the
     * row count, then each row in turn checked and written into its
     * category's slot; an error leaves the rows written so far.
     */
    method LogConfusionMatrix(categories: seq<Json>, rows: Json) returns (err: Option<PyError>)
      modifies this`confusionMatrix
      ensures err == LogMatrix(categories, rows).error
      ensures confusionMatrix == Some(ConfusionMatrix(categories, LogMatrix(categories, rows).stored))
    {
      var n := |categories|;
      var matrix := ZeroRows(n);
      confusionMatrix := Some(ConfusionMatrix(categories, matrix));
      var count := Len(rows);
      if count.Err? {
        return Some(count.error);
      }
      if count.value != n {
        return Some(ValueError);
      }
      var index := 0;
      while index < n
        invariant 0 <= index <= n
        invariant LogRows(categories, rows, index) == MatrixLog(matrix, None)
        invariant confusionMatrix == Some(ConfusionMatrix(categories, matrix))
      {
        var row := At(rows, index);
        if row.Err? {
          LogRowsErrorSticks(categories, rows, index + 1, n);
          return Some(row.error);
        }
        var size := RowSize(n, row.value);
        if size.Err? {
          LogRowsErrorSticks(categories, rows, index + 1, n);
          return Some(size.error);
        }
        matrix := matrix[IndexOf(categories, categories[index]) := row.value];
        confusionMatrix := Some(ConfusionMatrix(categories, matrix));
        index := index + 1;
      }
      return None;
    }
  }

  /** The `Model` artifact. */
  class Model {
    var path: string

    constructor (path: string)
      ensures this.path == path
    {
      this.path := path;
    }
  }
}

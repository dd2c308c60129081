/**
 * The pure parts of the `split_data` component of
 * vertex-pipelines/components/utils/custom_split.py: finding the BigQuery
 * table behind a Vertex AI dataset from its `bq://` URI, and replacing the
 * bean class names by integer labels in the `Class` column.
 */
module CustomSplit {
  import opened Wrappers
  import opened Text
  import opened PyRuntime

  // ---------------------------------------------------------------------
  // BigQuery source URI (lines 50-52)

  /**
   * Line 50: `data["metadata"]["inputConfig"]["bigquerySource"]["uri"]`,
   * which `.split` needs to be a string. It succeeds exactly when all four
   * subscripts do and the URI is a string; otherwise it raises what the
   * first failing subscript raises, or AttributeError for a URI that is not
   * a string.
   */
  function SourceUri(data: Json): (r: Result<string, PyError>)
    ensures var m := Subscript(data, "metadata");
      m.Err? ==> r == Err(m.error)
    ensures var m := Subscript(data, "metadata");
      m.Ok? ==> var c := Subscript(m.value, "inputConfig");
      c.Err? ==> r == Err(c.error)
    ensures var m := Subscript(data, "metadata");
      m.Ok? ==> var c := Subscript(m.value, "inputConfig");
      c.Ok? ==> var b := Subscript(c.value, "bigquerySource");
      b.Err? ==> r == Err(b.error)
    ensures var m := Subscript(data, "metadata");
      m.Ok? ==> var c := Subscript(m.value, "inputConfig");
      c.Ok? ==> var b := Subscript(c.value, "bigquerySource");
      b.Ok? ==> var u := Subscript(b.value, "uri");
      (u.Err? ==> r == Err(u.error)) && (u.Ok? && !u.value.JStr? ==> r == Err(AttributeError))
    ensures r.Ok? <==>
      Subscript(data, "metadata").Ok? &&
      Subscript(Subscript(data, "metadata").value, "inputConfig").Ok? &&
      Subscript(Subscript(Subscript(data, "metadata").value, "inputConfig").value, "bigquerySource").Ok? &&
      Subscript(Subscript(Subscript(Subscript(data, "metadata").value, "inputConfig").value, "bigquerySource").value, "uri").Ok? &&
      Subscript(Subscript(Subscript(Subscript(data, "metadata").value, "inputConfig").value, "bigquerySource").value, "uri").value.JStr?
    ensures r.Ok? ==>
      Subscript(data, "metadata").Ok? &&
      Subscript(Subscript(data, "metadata").value, "inputConfig").Ok? &&
      Subscript(Subscript(Subscript(data, "metadata").value, "inputConfig").value, "bigquerySource").Ok? &&
      Subscript(Subscript(Subscript(Subscript(data, "metadata").value, "inputConfig").value, "bigquerySource").value, "uri")
        == Ok(JStr(r.value))
  {
    match Subscript(data, "metadata")
    case Err(e) => Err(e)
    case Ok(metadata) =>
      match Subscript(metadata, "inputConfig")
      case Err(e) => Err(e)
      case Ok(inputConfig) =>
        match Subscript(inputConfig, "bigquerySource")
        case Err(e) => Err(e)
        case Ok(source) =>
          match Subscript(source, "uri")
          case Err(e) => Err(e)
          case Ok(uri) => if uri.JStr? then Ok(uri.s) else Err(AttributeError)
  }

  /** The text the URI is split at: `bq://` followed by the project and a dot. */
  function ProjectPrefix(projectId: string): (p: string)
    ensures |p| > 4 && p[4] == '/'
  {
    "bq://" + projectId + "."
  }

  /**
   * Lines 51-52: what follows the last occurrence of the project prefix; the
   * whole URI when the prefix does not occur. No occurrence of the prefix
   * remains in it.
   */
  function Remainder(uri: string, projectId: string): (rest: string)
    ensures !Contains(uri, ProjectPrefix(projectId)) ==> rest == uri
    ensures Contains(uri, ProjectPrefix(projectId)) ==> FollowsSeparator(uri, ProjectPrefix(projectId), rest)
    ensures !Contains(rest, ProjectPrefix(projectId))
  {
    var p := ProjectPrefix(projectId);
    SplitLastIsSuffix(uri, p);
    SplitPiecesAreFree(uri, p);
    Last(Split(uri, p))
  }

  /** The dataset and table the component reads. */
  datatype TableRef = TableRef(datasetId: string, tableId: string)

  /**
   * Lines 51-52: the first two dot-separated segments of the remainder;
   * with fewer than two, `[1]` raises IndexError. The remainder begins with
   * the dataset id, a dot and the table id, followed by its end or another
   * dot, and neither id holds a dot.
   */
  function ParseBigQueryUri(uri: string, projectId: string): (r: Result<TableRef, PyError>)
    ensures r.Ok? <==> '.' in Remainder(uri, projectId)
    ensures r.Err? ==> r.error == IndexError
    ensures r.Ok? ==> var rest := Remainder(uri, projectId);
      var d := r.value.datasetId; var t := r.value.tableId; var n := |d| + 1 + |t|;
      n <= |rest| && rest[..n] == d + "." + t && (n == |rest| || rest[n] == '.') &&
      !Contains(d, ".") && !Contains(t, ".")
  {
    var rest := Remainder(uri, projectId);
    var parts := Split(rest, ".");
    SplitPiecesCount(rest);
    SplitPiecesAreFree(rest, ".");
    if |parts| < 2 then Err(IndexError)
    else
      TwoSegments(rest);
      Ok(TableRef(parts[0], parts[1]))
  }

  /**
   * With a dot in `s`, its first two pieces at `.` are the text up to the
   * first dot and the text from there up to the next dot or the end.
   */
  lemma TwoSegments(s: string)
    requires '.' in s
    ensures |Split(s, ".")| >= 2
    ensures var p := Split(s, "."); var n := |p[0]| + 1 + |p[1]|;
      n <= |s| && s[..n] == p[0] + "." + p[1] && (n == |s| || s[n] == '.')
  {
    var k := FirstDotIndex(s);
    var a := s[..k];
    var tail := s[k + 1..];
    assert s == a + "." + tail;
    TwoSegmentsOf(a, tail);
  }

  /** The same for a string cut at its first dot into `a` and `tail`. */
  lemma TwoSegmentsOf(a: string, tail: string)
    requires '.' !in a
    ensures var s := a + "." + tail; var p := Split(s, ".");
      |p| >= 2 && p[0] == a &&
      var n := |a| + 1 + |p[1]|;
      n <= |s| && s[..n] == a + "." + p[1] && (n == |s| || s[n] == '.')
  {
    SplitAtChar(a, '.', tail);
    FirstPieceEnds(tail);
    var t := Split(tail, ".")[0];
    var s := a + "." + tail;
    assert s[..|a| + 1 + |t|] == a + "." + tail[..|t|];
    if |a| + 1 + |t| < |s| {
      assert s[|a| + 1 + |t|] == tail[|t|];
    }
  }

  /** The index of the first dot of a string that has one. */
  lemma FirstDotIndex(s: string) returns (k: nat)
    requires '.' in s
    ensures k < |s| && s[k] == '.' && '.' !in s[..k]
  {
    k :| 0 <= k < |s| && s[k] == '.' && forall j :: 0 <= j < k ==> s[j] != '.' by {
      FirstDot(s);
    }
    assert forall j :: 0 <= j < k ==> s[..k][j] == s[j];
  }

  /** The first piece at `.` begins the string and ends at its end or at a dot. */
  lemma FirstPieceEnds(s: string)
    ensures var t := Split(s, ".")[0];
      |t| <= |s| && s[..|t|] == t && (|t| == |s| || s[|t|] == '.')
  {
    if '.' in s {
      SplitPiecesCount(s);
      var t := Split(s, ".")[0];
      assert s[..|t| + 1][|t|] == '.';
      assert s[..|t|] == s[..|t| + 1][..|t|];
    } else {
      SplitWithoutChar(s, '.');
    }
  }

  /** A string splits into at least two pieces at `.` exactly when it holds a dot, and then the first piece and a dot begin it. */
  lemma SplitPiecesCount(s: string)
    ensures |Split(s, ".")| >= 2 <==> '.' in s
    ensures '.' in s ==> |Split(s, ".")[0]| < |s| && s[..|Split(s, ".")[0]| + 1] == Split(s, ".")[0] + "."
  {
    if '.' in s {
      var k :| 0 <= k < |s| && s[k] == '.' && forall j :: 0 <= j < k ==> s[j] != '.' by {
        FirstDot(s);
      }
      var a := s[..k];
      assert s == a + ['.'] + s[k + 1..];
      assert '.' !in a;
      SplitAtChar(a, '.', s[k + 1..]);
    } else {
      SplitWithoutChar(s, '.');
    }
  }

  /** Every string with a dot has a first one. */
  lemma {:induction false} FirstDot(s: string)
    requires '.' in s
    ensures exists k :: 0 <= k < |s| && s[k] == '.' && forall j :: 0 <= j < k ==> s[j] != '.'
  {
    if s[0] != '.' {
      FirstDot(s[1..]);
      var k :| 0 <= k < |s[1..]| && s[1..][k] == '.' && forall j :: 0 <= j < k ==> s[1..][j] != '.';
      assert s[k + 1] == '.';
      assert forall j :: 0 <= j < k + 1 ==> s[j] != '.' by {
        forall j | 0 <= j < k + 1
          ensures s[j] != '.'
        {
          if j > 0 {
            assert s[j] == s[1..][j - 1];
          }
        }
      }
    } else {
      assert s[0] == '.';
    }
  }

  /** A string without `/` contains no project prefix, which always holds one. */
  lemma NoSlashNoPrefix(s: string, projectId: string)
    requires '/' !in s
    ensures FindFrom(s, ProjectPrefix(projectId), 0).None?
  {
    var p := ProjectPrefix(projectId);
    forall j | 0 <= j && j + |p| <= |s|
      ensures !OccursAt(p, s, j)
    {
      assert s[j..j + |p|][4] == s[j + 4] != p[4];
    }
  }

  /**
   * The intended use: for `bq://P.D.T` read with project `P`, where the
   * dataset and table ids hold neither `.` nor `/`, the component finds
   * dataset `D` and table `T`.
   */
  lemma ParseRoundTrip(projectId: string, datasetId: string, tableId: string)
    requires '.' !in datasetId && '/' !in datasetId && '.' !in tableId && '/' !in tableId
    ensures ParseBigQueryUri(ProjectPrefix(projectId) + datasetId + "." + tableId, projectId)
            == Ok(TableRef(datasetId, tableId))
  {
    var p := ProjectPrefix(projectId);
    var rest := datasetId + "." + tableId;
    var uri := p + rest;
    assert uri == ProjectPrefix(projectId) + datasetId + "." + tableId;
    assert '/' !in rest;
    assert uri[0..|p|] == p;
    assert FindFrom(uri, p, 0) == Some(0);
    SplitStep(uri, p, 0);
    assert uri[|p|..] == rest;
    NoSlashNoPrefix(rest, projectId);
    assert Split(rest, p) == [rest];
    assert Remainder(uri, projectId) == rest;
    SplitAtChar(datasetId, '.', tableId);
    SplitWithoutChar(tableId, '.');
    assert Split(rest, ".") == [datasetId, tableId];
  }

  /**
   * A URI that does not name the component's project is split whole, so
   * `bq://Q.D.T` read with another project `P` yields dataset `bq://Q` and
   * table `D`.
   */
  lemma OtherProjectUsesWholeUri(uri: string, projectId: string)
    requires !Contains(uri, ProjectPrefix(projectId))
    ensures ParseBigQueryUri(uri, projectId).Ok? <==> '.' in uri
    ensures ParseBigQueryUri(uri, projectId).Ok? ==> ParseBigQueryUri(uri, projectId).value.datasetId == Split(uri, ".")[0]
  {
  }

  /** Lines 50-52 together: the table behind the dataset's metadata. */
  function TableOf(data: Json, projectId: string): (r: Result<TableRef, PyError>)
    ensures SourceUri(data).Err? ==> r == Err(SourceUri(data).error)
    ensures SourceUri(data).Ok? ==> r == ParseBigQueryUri(SourceUri(data).value, projectId)
  {
    match SourceUri(data)
    case Err(e) => Err(e)
    case Ok(uri) => ParseBigQueryUri(uri, projectId)
  }

  // ---------------------------------------------------------------------
  // Class labels (lines 68-79)

  /** The label map of lines 69-77. */
  const ClassLabels: map<string, int> :=
    map["DERMASON" := 0, "SIRA" := 1, "SEKER" := 2, "HOROZ" := 3, "CALI" := 4, "BARBUNYA" := 5, "BOMBAY" := 6]

  /** The class name a code stands for, if any. */
  function ClassName(code: int): Option<string>
  {
    match code
    case 0 => Some("DERMASON")
    case 1 => Some("SIRA")
    case 2 => Some("SEKER")
    case 3 => Some("HOROZ")
    case 4 => Some("CALI")
    case 5 => Some("BARBUNYA")
    case 6 => Some("BOMBAY")
    case _ => None
  }

  /** Each of the seven class names gets a code 0..6, and `ClassName` gives the name back. */
  lemma ClassLabelsDecode()
    ensures forall name :: name in ClassLabels ==> 0 <= ClassLabels[name] < 7 && ClassName(ClassLabels[name]) == Some(name)
  {
  }

  /** Every code 0..6 is the label of exactly the name `ClassName` gives. */
  lemma ClassNameEncodes()
    ensures forall code :: 0 <= code < 7 ==> ClassName(code).Some? && ClassName(code).value in ClassLabels &&
                                             ClassLabels[ClassName(code).value] == code
  {
  }

  /** The map is injective: two names never share a code. */
  lemma ClassLabelsInjective()
    ensures forall a, b :: a in ClassLabels && b in ClassLabels && ClassLabels[a] == ClassLabels[b] ==> a == b
  {
    ClassLabelsDecode();
  }

  /** The map has the seven class names as its keys. */
  lemma ClassLabelsKeys()
    ensures ClassLabels.Keys == {"DERMASON", "SIRA", "SEKER", "HOROZ", "CALI", "BARBUNYA", "BOMBAY"}
    ensures |ClassLabels| == 7
  {
    assert ClassLabels.Keys == {"DERMASON", "SIRA", "SEKER", "HOROZ", "CALI", "BARBUNYA", "BOMBAY"};
  }

  /** A value of the `Class` column: its text before relabelling, an integer after. */
  datatype Cell = Str(s: string) | Int(i: int)

  /** `Series.replace` with the label map on one value: known names become labels, all else is kept. */
  function Relabel(c: Cell): Cell
  {
    if c.Str? && c.s in ClassLabels then Int(ClassLabels[c.s]) else c
  }

  /**
   * The whole column, value by value: a cell holding a class name becomes
   * that class's label, and every other cell is kept.
   */
  function RelabelColumn(column: seq<Cell>): (r: seq<Cell>)
    ensures |r| == |column|
    ensures forall i :: 0 <= i < |column| && column[i].Str? && column[i].s in ClassLabels ==>
      r[i] == Int(ClassLabels[column[i].s])
    ensures forall i :: 0 <= i < |column| && !(column[i].Str? && column[i].s in ClassLabels) ==>
      r[i] == column[i]
  {
    seq(|column|, i requires 0 <= i < |column| => Relabel(column[i]))
  }

  /** Turning a label back into its class name. */
  function Unlabel(c: Cell): Cell
  {
    if c.Int? && ClassName(c.i).Some? then Str(ClassName(c.i).value) else c
  }

  /**
   * On a column of known class names, relabelling gives labels 0..6 and
   * loses nothing: every name is recovered from its label.
   */
  lemma RelabelColumnInvertible(column: seq<Cell>)
    requires forall i :: 0 <= i < |column| ==> column[i].Str? && column[i].s in ClassLabels
    ensures forall i :: 0 <= i < |column| ==>
      RelabelColumn(column)[i].Int? && 0 <= RelabelColumn(column)[i].i < 7 &&
      Unlabel(RelabelColumn(column)[i]) == column[i]
  {
    ClassLabelsDecode();
  }

  /** Relabelling twice is relabelling once: labels are never names. */
  lemma RelabelColumnIdempotent(column: seq<Cell>)
    ensures RelabelColumn(RelabelColumn(column)) == RelabelColumn(column)
  {
  }

  /** The rows read from BigQuery, column by column. */
  class DataFrame {
    var columns: map<string, seq<Cell>>

    constructor(columns: map<string, seq<Cell>>)
      ensures this.columns == columns
    {
      this.columns := columns;
    }

    /**
     * Lines 68-79: relabel the `Class` column in place; every other column
     * is left as it was, and a frame without `Class` raises KeyError.
     */
    method ReplaceClassLabels() returns (err: Option<PyError>)
      modifies this
      ensures "Class" !in old(columns) ==> err == Some(KeyError("Class")) && columns == old(columns)
      ensures "Class" in old(columns) ==>
        err == None && columns.Keys == old(columns).Keys &&
        columns["Class"] == RelabelColumn(old(columns)["Class"]) &&
        forall k :: k in columns && k != "Class" ==> columns[k] == old(columns)[k]
    {
      if "Class" !in columns {
        return Some(KeyError("Class"));
      }
      columns := columns["Class" := RelabelColumn(columns["Class"])];
      return None;
    }
  }
}

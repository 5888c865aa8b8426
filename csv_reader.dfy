/** `read_csv_data`: rows of a delimited file become points. Leading lines are
    discarded unconditionally; each row's declared fields are coerced in place
    and written to a new point; the first `ValueError` or `KeyError` ends the
    import but keeps every earlier point, and an import without points creates
    no object. */
module CsvReader {
  import opened PyValues
  import opened Sink
  import opened DataFields
  import opened Reports

  /** One row as `csv.DictReader` yields it: header name to cell text, `None`
      where the row is too short to have that cell. */
  type Row = map<string, PyValue>

  // ---------------------------------------------------------------------------
  // Discarding leading lines
  // ---------------------------------------------------------------------------

  /** `csv_file.readline()` on what is left of the file: one line is consumed;
      at the end of the file nothing is. */
  function ReadLine(rest: seq<string>): (r: seq<string>)
    ensures rest != [] ==> r == rest[1..]
    ensures rest == [] ==> r == []
  {
    if rest == [] then [] else rest[1..]
  }

  /** The discard loop: `count` calls of `readline()`, whatever the lines hold. */
  method DiscardLeadingLines(lines: seq<string>, count: int) returns (rest: seq<string>)
    ensures count <= 0 ==> rest == lines
    ensures count > 0 && count <= |lines| ==> rest == lines[count..]
    ensures count > |lines| ==> rest == []
  {
    rest := lines;
    var discarded := 0;
    while discarded < count
      invariant 0 <= discarded && (discarded == 0 || discarded <= count)
      invariant discarded <= |lines| ==> rest == lines[discarded..]
      invariant discarded > |lines| ==> rest == []
      decreases count - discarded
    {
      rest := ReadLine(rest);
      discarded := discarded + 1;
    }
  }

  /** The lines the discard loop leaves. */
  function Remaining(lines: seq<string>, count: int): seq<string>
  {
    if count <= 0 then lines else if count <= |lines| then lines[count..] else []
  }

  // ---------------------------------------------------------------------------
  // One row
  // ---------------------------------------------------------------------------

  predicate DistinctNames(fields: seq<DataField>)
  {
    forall i, j :: 0 <= i < j < |fields| ==> fields[i].name != fields[j].name
  }

  /** The coercion loop of one row: field after field, the cell is looked up
      (a missing column raises `KeyError(name)`), coerced, and written back into
      the row, so a later field with the same name sees the coerced value. */
  function CoerceRow(fields: seq<DataField>, row: Row): (r: Outcome<Row>)
    ensures r.Returned? ==> r.value.Keys == row.Keys
    ensures r.Returned? ==> forall j :: 0 <= j < |fields| ==> fields[j].name in row
    ensures r.Raised? ==> r.error.KeyError? || r.error.ValueError? || r.error.TypeError?
  {
    if fields == [] then Returned(row)
    else
      var f := fields[0];
      if f.name !in row then Raised(KeyError(StrRepr(f.name)))
      else
        match Coerce(f.dataType, row[f.name])
        case Raised(e) => Raised(e)
        case Returned(v) =>
          var r := CoerceRow(fields[1..], row[f.name := v]);
          assert r.Returned? ==> forall j :: 1 <= j < |fields| ==> fields[j] == fields[1..][j - 1];
          r
  }

  /** With distinct field names a row goes through exactly when every field has
      a column whose cell converts; each field's cell then holds its converted
      value and every other cell is untouched. */
  lemma {:induction false} CoerceRowDistinct(fields: seq<DataField>, row: Row)
    requires DistinctNames(fields)
    ensures CoerceRow(fields, row).Returned? <==>
      forall j :: 0 <= j < |fields| ==> fields[j].name in row && Coerce(fields[j].dataType, row[fields[j].name]).Returned?
    ensures CoerceRow(fields, row).Returned? ==>
      forall j :: 0 <= j < |fields| ==>
        CoerceRow(fields, row).value[fields[j].name] == Coerce(fields[j].dataType, row[fields[j].name]).value
    ensures CoerceRow(fields, row).Returned? ==>
      forall c :: c in row && (forall j :: 0 <= j < |fields| ==> fields[j].name != c) ==> CoerceRow(fields, row).value[c] == row[c]
  {
    if fields != [] {
      var f := fields[0];
      var rest := fields[1..];
      assert forall j :: 1 <= j < |fields| ==> fields[j] == rest[j - 1];
      if f.name in row && Coerce(f.dataType, row[f.name]).Returned? {
        var v := Coerce(f.dataType, row[f.name]).value;
        var row' := row[f.name := v];
        CoerceRowDistinct(rest, row');
        assert forall c :: c in row && c != f.name ==> row'[c] == row[c];
      }
    }
  }

  /** The coercion loop as the reader runs it, mutating the row in place. */
  method CoerceFields(fields: seq<DataField>, row0: Row) returns (r: Outcome<Row>)
    ensures r == CoerceRow(fields, row0)
  {
    var row := row0;
    for j := 0 to |fields|
      invariant CoerceRow(fields, row0) == CoerceRow(fields[j..], row)
    {
      var f := fields[j];
      assert fields[j..][1..] == fields[j + 1..];
      if f.name !in row {
        return Raised(KeyError(StrRepr(f.name)));
      }
      var value := Coerce(f.dataType, row[f.name]);
      if value.Raised? {
        return Raised(value.error);
      }
      row := row[f.name := value.value];
    }
    r := Returned(row);
  }

  /** The values a coerced row writes, one per field, in field order. */
  function PointValues(fields: seq<DataField>, row: Row): (vs: seq<PyValue>)
    requires forall j :: 0 <= j < |fields| ==> fields[j].name in row
    ensures |vs| == |fields|
    ensures forall j :: 0 <= j < |fields| ==> vs[j] == row[fields[j].name]
  {
    seq(|fields|, j requires 0 <= j < |fields| => row[fields[j].name])
  }

  /** The attribute loop of one row: each field's value written to point `i`. */
  method WriteRow(m: Mesh, fields: seq<DataField>, row: Row, i: nat)
    requires forall j :: 0 <= j < |fields| ==> fields[j].name in row
    requires forall j :: 0 <= j < |fields| ==> AttributeName(fields[j].name) in m.attributes
    requires i < |m.vertices|
    modifies m
    ensures m.Data() == old(m.Data()).(attributes := WritePoint(old(m.attributes), i, PointRecord(fields, PointValues(fields, row))))
  {
    var values := PointValues(fields, row);
    for j := 0 to |fields|
      invariant m.Data() == old(m.Data()).(attributes := WritePoint(old(m.attributes), i, PointRecord(fields[..j], values[..j])))
    {
      var name := AttributeName(fields[j].name);
      StoreIntoPoint(old(m.attributes), i, PointRecord(fields[..j], values[..j]), name, values[j]);
      PointRecordStep(fields, values, j);
      m.SetValue(name, i, row[fields[j].name]);
    }
    assert fields[..|fields|] == fields && values[..|values|] == values;
  }

  // ---------------------------------------------------------------------------
  // The row loop and its exception handlers
  // ---------------------------------------------------------------------------

  /** How the row loop ended: every row read, stopped by an exception the
      handlers catch (`ValueError`, `KeyError`), or left by one they do not. */
  datatype Stop = Exhausted | Caught(error: PyError) | Escaped(error: PyError)

  function Classify(e: PyError): (s: Stop)
    ensures s.Caught? <==> e.ValueError? || e.KeyError?
    ensures s.Caught? || s.Escaped?
    ensures s.error == e
  {
    if e.ValueError? || e.KeyError? then Caught(e) else Escaped(e)
  }

  /** The points the loop created (their values, in row order) and how it ended. */
  datatype RowLoop = RowLoop(points: seq<seq<PyValue>>, stop: Stop)

  /** The row loop: rows in order, each coerced and turned into a point; the
      first row that raises ends the loop and creates no point. */
  function ProcessRows(fields: seq<DataField>, rows: seq<Row>): (r: RowLoop)
    ensures |r.points| <= |rows|
    ensures forall i :: 0 <= i < |r.points| ==>
      CoerceRow(fields, rows[i]).Returned? && r.points[i] == PointValues(fields, CoerceRow(fields, rows[i]).value)
    ensures r.stop.Exhausted? <==> |r.points| == |rows|
    ensures !r.stop.Exhausted? ==>
      CoerceRow(fields, rows[|r.points|]).Raised? && r.stop == Classify(CoerceRow(fields, rows[|r.points|]).error)
  {
    if rows == [] then RowLoop([], Exhausted)
    else
      var n := |rows| - 1;
      var p := ProcessRows(fields, rows[..n]);
      assert forall i :: 0 <= i < n ==> rows[..n][i] == rows[i];
      if !p.stop.Exhausted? then p
      else
        match CoerceRow(fields, rows[n])
        case Raised(e) => RowLoop(p.points, Classify(e))
        case Returned(row) => RowLoop(p.points + [PointValues(fields, row)], Exhausted)
  }

  /** One more row: a stopped loop stays stopped, a running one coerces the row. */
  lemma ProcessRowsStep(fields: seq<DataField>, rows: seq<Row>, k: nat)
    requires k < |rows|
    ensures var p := ProcessRows(fields, rows[..k]);
      ProcessRows(fields, rows[..k + 1]) ==
        if !p.stop.Exhausted? then p
        else if CoerceRow(fields, rows[k]).Raised? then RowLoop(p.points, Classify(CoerceRow(fields, rows[k]).error))
        else RowLoop(p.points + [PointValues(fields, CoerceRow(fields, rows[k]).value)], Exhausted)
  {
    assert rows[..k + 1][..k] == rows[..k];
  }

  /** Once the loop has stopped on a prefix, later rows change nothing. */
  lemma ProcessRowsStopped(fields: seq<DataField>, rows: seq<Row>, k: nat)
    requires k <= |rows| && !ProcessRows(fields, rows[..k]).stop.Exhausted?
    ensures ProcessRows(fields, rows) == ProcessRows(fields, rows[..k])
  {
    var p := ProcessRows(fields, rows[..k]);
    var q := ProcessRows(fields, rows);
    var n := |p.points|;
    assert forall i :: 0 <= i < k ==> rows[..k][i] == rows[i];
    assert CoerceRow(fields, rows[n]).Raised?;
    assert |q.points| == n;
    assert q.points == p.points;
  }

  // ---------------------------------------------------------------------------
  // The report
  // ---------------------------------------------------------------------------

  /** What the reader returns or raises, and whether it created an object. */
  datatype CsvResult = CsvResult(outcome: Outcome<Report>, objectCreated: bool)

  const FailedMessage: string := "Import failed. Check if import options match CSV File!"

  /** `"Imported {i} lines from \"{file_name}\"."` */
  function ImportedLinesMessage(n: int, fileName: string): string
  {
    "Imported " + ShowInt(n) + " lines from \"" + fileName + "\"."
  }

  /** The tail of the reader: an object and the count message when points exist,
      the failure message and ERROR otherwise; then a newline and the caught
      exception's repr (empty when nothing was caught). */
  function CsvReport(n: nat, stop: Stop, path: string): CsvResult
  {
    match stop
    case Escaped(e) => CsvResult(Raised(e), false)
    case _ =>
      var errorMessage := if stop.Caught? then ExceptionRepr(stop.error) else "";
      var severity := if stop.Caught? then WARNING else INFO;
      if n > 0 then
        CsvResult(Returned(Report(ImportedLinesMessage(n, Basename(path)) + "\n" + errorMessage, severity)), true)
      else
        CsvResult(Returned(Report(FailedMessage + "\n" + errorMessage, ERROR)), false)
  }

  // ---------------------------------------------------------------------------
  // The whole reader
  // ---------------------------------------------------------------------------

  datatype CsvRun = CsvRun(data: MeshData, result: CsvResult)

  /** The error `csv.reader` raises for a delimiter that is not one character. */
  const DelimiterError: PyError := TypeError("\"delimiter\" must be a 1-character string")

  /** `read_csv_data` on a file whose decoded lines are `lines`, with
      `csv.DictReader` given as `parse`. The mesh, created first, ends with one
      point per imported row, placed by index, holding the row's values. */
  function CsvImport(parse: (char, seq<string>) -> seq<Row>, path: string, lines: seq<string>,
                     fields: seq<DataField>, delimiter: string, leadingLines: int): CsvRun
  {
    var attrs := DeclareAll(map[], fields);
    if |delimiter| != 1 then CsvRun(MeshData([], [], attrs), CsvResult(Raised(DelimiterError), false))
    else
      var rest := Remaining(lines, leadingLines);
      var loop := ProcessRows(fields, parse(delimiter[0], rest));
      var n := |loop.points|;
      CsvRun(MeshData(Placeholders(n), [], Fill(attrs, Records(fields, loop.points))), CsvReport(n, loop.stop, path))
  }

  /** The body of the row loop after coercion: one vertex, the row's values
      at its index, the placeholder position. */
  method AppendPoint(mesh: Mesh, fields: seq<DataField>, row: Row, i: nat, ghost attrs: map<string, Attribute>, ghost points: seq<seq<PyValue>>)
    requires i == |points|
    requires forall j :: 0 <= j < |fields| ==> fields[j].name in row
    requires forall j :: 0 <= j < |fields| ==> AttributeName(fields[j].name) in attrs
    requires forall p :: p in points ==> |p| == |fields|
    requires mesh.Data() == MeshData(Placeholders(|points|), [], Fill(attrs, Records(fields, points)))
    modifies mesh
    ensures mesh.Data() == MeshData(Placeholders(|points| + 1), [], Fill(attrs, Records(fields, points + [PointValues(fields, row)])))
  {
    AppendedPoint(attrs, fields, points, PointValues(fields, row));
    mesh.AddVertices(1);
    WriteRow(mesh, fields, row, i);
    mesh.SetPosition(i, Placeholder(i));
  }

  /** The state `AppendPoint` reaches, stated on values: one more record
      filled in at the next index, one more placeholder position. */
  lemma AppendedPoint(attrs: map<string, Attribute>, fields: seq<DataField>, points: seq<seq<PyValue>>, p: seq<PyValue>)
    requires forall q :: q in points ==> |q| == |fields|
    requires |p| == |fields|
    ensures Fill(attrs, Records(fields, points + [p])) == WritePoint(Fill(attrs, Records(fields, points)), |points|, PointRecord(fields, p))
    ensures Placeholders(|points| + 1) == (Placeholders(|points|) + [Origin])[|points| := Placeholder(|points|)]
  {
    FillStep(attrs, Records(fields, points), PointRecord(fields, p));
    RecordsStep(fields, points, p);
  }

  /** The `try` block: the row loop, left at the first exception. */
  method RunRows(mesh: Mesh, fields: seq<DataField>, rows: seq<Row>, ghost attrs: map<string, Attribute>)
    returns (i: nat, stop: Stop)
    requires forall j :: 0 <= j < |fields| ==> AttributeName(fields[j].name) in attrs
    requires mesh.Data() == MeshData([], [], attrs)
    modifies mesh
    ensures i == |ProcessRows(fields, rows).points| && stop == ProcessRows(fields, rows).stop
    ensures mesh.Data() == MeshData(Placeholders(i), [], Fill(attrs, Records(fields, ProcessRows(fields, rows).points)))
  {
    i := 0;
    stop := Exhausted;
    var k := 0;
    ghost var points: seq<seq<PyValue>> := [];
    FillNothing(attrs);
    assert Records(fields, points) == [];
    while k < |rows| && stop.Exhausted?
      invariant k <= |rows|
      invariant ProcessRows(fields, rows[..k]) == RowLoop(points, stop)
      invariant i == |points|
      invariant mesh.Data() == MeshData(Placeholders(i), [], Fill(attrs, Records(fields, points)))
      decreases |rows| - k
    {
      ProcessRowsStep(fields, rows, k);
      var row := CoerceFields(fields, rows[k]);
      if row.Raised? {
        stop := Classify(row.error);
      } else {
        AppendPoint(mesh, fields, row.value, i, attrs, points);
        points := points + [PointValues(fields, row.value)];
        i := i + 1;
      }
      k := k + 1;
    }
    if stop.Exhausted? {
      assert rows[..k] == rows;
    } else {
      ProcessRowsStopped(fields, rows, k);
    }
  }

  /** `read_csv_data(context, path, fields, encoding, delimiter, leading_lines)`. */
  method ReadCsv(parse: (char, seq<string>) -> seq<Row>, path: string, lines: seq<string>,
                 fields: seq<DataField>, delimiter: string, leadingLines: int)
    returns (mesh: Mesh, result: CsvResult)
    ensures fresh(mesh) && mesh.name == "csv_data"
    ensures CsvRun(mesh.Data(), result) == CsvImport(parse, path, lines, fields, delimiter, leadingLines)
  {
    mesh := new Mesh("csv_data");
    AddDataFields(mesh, fields);
    var attrs := mesh.attributes;
    assert forall j :: 0 <= j < |fields| ==> AttributeName(fields[j].name) in attrs by {
      assert forall j :: 0 <= j < |fields| ==> fields[j] in fields;
    }
    var rest := DiscardLeadingLines(lines, leadingLines);
    if |delimiter| != 1 {
      return mesh, CsvResult(Raised(DelimiterError), false);
    }
    var rows := parse(delimiter[0], rest);
    var i, stop := RunRows(mesh, fields, rows, attrs);
    result := CsvReport(i, stop, path);
  }

  // ---------------------------------------------------------------------------
  // Properties
  // ---------------------------------------------------------------------------

  /** Severity and object creation by outcome: no point means ERROR and no
      object; otherwise an object, WARNING after a caught exception and INFO
      after a clean run. */
  lemma CsvSeverity(n: nat, stop: Stop, path: string)
    requires !stop.Escaped?
    ensures CsvReport(n, stop, path).outcome.Returned?
    ensures CsvReport(n, stop, path).objectCreated <==> n > 0
    ensures CsvReport(n, stop, path).outcome.value.severity == ERROR <==> n == 0
    ensures CsvReport(n, stop, path).outcome.value.severity == WARNING <==> n > 0 && stop.Caught?
    ensures CsvReport(n, stop, path).outcome.value.severity == INFO <==> n > 0 && stop.Exhausted?
  {
  }

  /** The message: the count of imported rows or the failure text, then a
      newline, then the caught exception's repr. */
  lemma CsvMessage(n: nat, stop: Stop, path: string)
    requires !stop.Escaped?
    ensures var m := CsvReport(n, stop, path).outcome.value.message;
      var caught := if stop.Caught? then ExceptionRepr(stop.error) else "";
      (n > 0 ==> m == ImportedLinesMessage(n, Basename(path)) + "\n" + caught) &&
      (n == 0 ==> m == FailedMessage + "\n" + caught)
  {
  }

  /** The rows are processed in order: the imported points are the first rows,
      coerced, and the loop stopped at the first row that raised, classified by
      its exception; on an escaping exception the reader raises it. */
  lemma CsvRowsInOrder(parse: (char, seq<string>) -> seq<Row>, path: string, lines: seq<string>,
                       fields: seq<DataField>, delimiter: string, leadingLines: int)
    requires |delimiter| == 1
    ensures var rest := Remaining(lines, leadingLines);
      var rows := parse(delimiter[0], rest);
      var r := CsvImport(parse, path, lines, fields, delimiter, leadingLines);
      var n := |r.data.vertices|;
      n <= |rows| &&
      (forall i :: 0 <= i < n ==> CoerceRow(fields, rows[i]).Returned?) &&
      (n < |rows| ==>
         CoerceRow(fields, rows[n]).Raised? &&
         var e := CoerceRow(fields, rows[n]).error;
         (e.ValueError? || e.KeyError? ==> r.result.outcome.Returned? && r.result.outcome.value.severity != INFO) &&
         (e.TypeError? ==> r.result.outcome == Raised(e) && !r.result.objectCreated)) &&
      (n == |rows| ==> r.result.outcome.Returned? && r.result.outcome.value.severity == (if n == 0 then ERROR else INFO))
  {
  }

  /** Field `f`'s converted cell in each of the first `n` rows. */
  function ConvertedCells(rows: seq<Row>, f: DataField, n: nat): (col: seq<PyValue>)
    requires n <= |rows|
    requires forall i :: 0 <= i < n ==> f.name in rows[i] && Coerce(f.dataType, rows[i][f.name]).Returned?
    ensures |col| == n
    ensures forall i :: 0 <= i < n ==> col[i] == Coerce(f.dataType, rows[i][f.name]).value
  {
    seq(n, i requires 0 <= i < n => Coerce(f.dataType, rows[i][f.name]).value)
  }

  /** Field `j`'s value at every point the loop created is its converted cell. */
  lemma LoopFieldColumn(fields: seq<DataField>, rows: seq<Row>, j: nat)
    requires j < |fields| && DistinctNames(fields)
    ensures var points := ProcessRows(fields, rows).points;
      (forall p :: p in points ==> |p| == |fields|) &&
      (forall i :: 0 <= i < |points| ==> fields[j].name in rows[i] && Coerce(fields[j].dataType, rows[i][fields[j].name]).Returned?) &&
      FieldColumn(points, j) == ConvertedCells(rows, fields[j], |points|)
  {
    var points := ProcessRows(fields, rows).points;
    var n := |points|;
    var f := fields[j];
    forall i | 0 <= i < n
      ensures f.name in rows[i] && Coerce(f.dataType, rows[i][f.name]).Returned?
      ensures points[i][j] == Coerce(f.dataType, rows[i][f.name]).value
    {
      CoerceRowDistinct(fields, rows[i]);
    }
    assert FieldColumn(points, j) == ConvertedCells(rows, f, n);
  }

  /** The channel the row loop leaves for a field whose attribute name no other
      field shares: that field's converted cell of every imported row. */
  lemma LoopColumn(fields: seq<DataField>, rows: seq<Row>, j: nat)
    requires j < |fields| && DistinctNames(fields)
    requires forall k :: 0 <= k < |fields| && k != j ==> AttributeName(fields[k].name) != AttributeName(fields[j].name)
    ensures var points := ProcessRows(fields, rows).points;
      (forall i :: 0 <= i < |points| ==> fields[j].name in rows[i] && Coerce(fields[j].dataType, rows[i][fields[j].name]).Returned?) &&
      AttributeName(fields[j].name) in Fill(DeclareAll(map[], fields), Records(fields, points)) &&
      Fill(DeclareAll(map[], fields), Records(fields, points))[AttributeName(fields[j].name)] ==
        Attribute(AttributeTypeOf(fields[j].dataType), Column(ConvertedCells(rows, fields[j], |points|)))
  {
    var points := ProcessRows(fields, rows).points;
    LoopFieldColumn(fields, rows, j);
    FilledDeclaredColumn(fields, points, j);
  }

  /** Every point kept holds its row's coerced values: with distinct field names
      whose attribute names are also distinct, a field's channel holds exactly
      the field's converted cells of the imported rows, at the rows' indices. */
  lemma CsvImportedColumn(parse: (char, seq<string>) -> seq<Row>, path: string, lines: seq<string>,
                          fields: seq<DataField>, delimiter: string, leadingLines: int, j: nat)
    requires |delimiter| == 1 && j < |fields| && DistinctNames(fields)
    requires forall k :: 0 <= k < |fields| && k != j ==> AttributeName(fields[k].name) != AttributeName(fields[j].name)
    ensures var rows := parse(delimiter[0], Remaining(lines, leadingLines));
      var data := CsvImport(parse, path, lines, fields, delimiter, leadingLines).data;
      var n := |data.vertices|;
      n <= |rows| &&
      (forall i :: 0 <= i < n ==> fields[j].name in rows[i] && Coerce(fields[j].dataType, rows[i][fields[j].name]).Returned?) &&
      AttributeName(fields[j].name) in data.attributes &&
      data.attributes[AttributeName(fields[j].name)] == Attribute(AttributeTypeOf(fields[j].dataType), Column(ConvertedCells(rows, fields[j], n)))
  {
    LoopColumn(fields, parse(delimiter[0], Remaining(lines, leadingLines)), j);
  }

  /** The numeric texts of the worked example below, read by `float()`. */
  lemma ExampleFloats()
    ensures FloatOfStr("1.0") == Returned(1.0)
    ensures FloatOfStr("2.0") == Returned(2.0)
    ensures FloatOfStr("3.0") == Returned(3.0)
  {
    FloatOfShortDecimal("1.0");
    FloatOfShortDecimal("2.0");
    FloatOfShortDecimal("3.0");
  }

  /** The worked example's bad cell, as `repr` quotes it. */
  lemma ExampleRepr()
    ensures StrRepr("abc") == "'abc'"
  {
    EscapePlain("abc", '\'');
    assert '\'' !in "abc";
  }

  /** The worked example's bad cell: `float('abc')` raises, quoting the text. */
  lemma ExampleWord()
    ensures FloatOfStr("abc") == Raised(ValueError("could not convert string to float: 'abc'"))
  {
    FloatOfWord("abc");
    ExampleRepr();
    assert "could not convert string to float: " + "'abc'" == "could not convert string to float: 'abc'";
  }

  /** A row whose two FLOAT cells convert: both replaced, in field order. */
  lemma FloatRowConverts(x: string, y: string, a: string, b: string, row: Row)
    requires x != y && row == map[x := Str(a), y := Str(b)]
    requires FloatOfStr(a).Returned? && FloatOfStr(b).Returned?
    ensures CoerceRow([DataField(x, FLOAT), DataField(y, FLOAT)], row).Returned?
    ensures PointValues([DataField(x, FLOAT), DataField(y, FLOAT)], CoerceRow([DataField(x, FLOAT), DataField(y, FLOAT)], row).value)
         == [Float(FloatOfStr(a).value), Float(FloatOfStr(b).value)]
  {
    var fields := [DataField(x, FLOAT), DataField(y, FLOAT)];
    var row0 := row[x := Float(FloatOfStr(a).value)][y := Float(FloatOfStr(b).value)];
    assert CoerceRow(fields[1..][1..], row0) == Returned(row0);
    assert CoerceRow(fields[1..], row[x := Float(FloatOfStr(a).value)]) == Returned(row0);
    assert CoerceRow(fields, row) == Returned(row0);
  }

  /** A row whose first FLOAT cell converts and whose second does not. */
  lemma FloatRowFails(x: string, y: string, c: string, d: string, row: Row)
    requires x != y && row == map[x := Str(c), y := Str(d)]
    requires FloatOfStr(c).Returned? && FloatOfStr(d).Raised?
    ensures CoerceRow([DataField(x, FLOAT), DataField(y, FLOAT)], row) == Raised(FloatOfStr(d).error)
  {
    var fields := [DataField(x, FLOAT), DataField(y, FLOAT)];
    assert CoerceRow(fields[1..], row[x := Float(FloatOfStr(c).value)]) == Raised(FloatOfStr(d).error);
  }

  /** Two FLOAT fields over two rows whose first row converts and whose
      second row's second cell does not: one point, then the caught error. */
  lemma TwoFloatRows(x: string, y: string, a: string, b: string, c: string, d: string, rows: seq<Row>)
    requires x != y
    requires rows == [map[x := Str(a), y := Str(b)], map[x := Str(c), y := Str(d)]]
    requires FloatOfStr(a).Returned? && FloatOfStr(b).Returned? && FloatOfStr(c).Returned? && FloatOfStr(d).Raised?
    ensures ProcessRows([DataField(x, FLOAT), DataField(y, FLOAT)], rows)
         == RowLoop([[Float(FloatOfStr(a).value), Float(FloatOfStr(b).value)]], Caught(FloatOfStr(d).error))
  {
    FloatRowConverts(x, y, a, b, rows[0]);
    FloatRowFails(x, y, c, d, rows[1]);
    GoodThenBad([DataField(x, FLOAT), DataField(y, FLOAT)], rows);
  }

  /** Two rows, the first coerced and the second raising: one point, and the
      loop stopped by the second row's exception. */
  lemma GoodThenBad(fields: seq<DataField>, rows: seq<Row>)
    requires |rows| == 2 && CoerceRow(fields, rows[0]).Returned? && CoerceRow(fields, rows[1]).Raised?
    ensures ProcessRows(fields, rows)
         == RowLoop([PointValues(fields, CoerceRow(fields, rows[0]).value)], Classify(CoerceRow(fields, rows[1]).error))
  {
    assert rows[..1] == [rows[0]];
    assert rows[..1][..0] == [];
  }

  /** The worked example's rows through the coercion loop: the first row
      becomes the point (1.0, 2.0), the second stops the loop with the caught
      conversion error. */
  lemma ExampleLoop(rows: seq<Row>)
    requires rows == [map["x" := Str("1.0"), "y" := Str("2.0")], map["x" := Str("3.0"), "y" := Str("abc")]]
    ensures ProcessRows([DataField("x", FLOAT), DataField("y", FLOAT)], rows)
         == RowLoop([[Float(1.0), Float(2.0)]], Caught(ValueError("could not convert string to float: 'abc'")))
  {
    ExampleFloats();
    ExampleWord();
    TwoFloatRows("x", "y", "1.0", "2.0", "3.0", "abc", rows);
  }

  /** A loop that caught an error after at least one point: the object, the
      count line and the caught error's repr, as a WARNING. */
  lemma CaughtAfterPoints(parse: (char, seq<string>) -> seq<Row>, path: string, lines: seq<string>,
                          fields: seq<DataField>, delimiter: string, points: seq<seq<PyValue>>, e: PyError)
    requires |delimiter| == 1 && |points| > 0
    requires ProcessRows(fields, parse(delimiter[0], lines)) == RowLoop(points, Caught(e))
    ensures CsvImport(parse, path, lines, fields, delimiter, 0).data.vertices == Placeholders(|points|)
    ensures CsvImport(parse, path, lines, fields, delimiter, 0).result ==
      CsvResult(Returned(Report(ImportedLinesMessage(|points|, Basename(path)) + "\n" + ExceptionRepr(e), WARNING)), true)
  {
    assert Remaining(lines, 0) == lines;
  }

  /** The worked example's file name. */
  lemma ExampleBasename()
    ensures Basename("data.csv") == "data.csv"
  {
    BasenameOfPlainName("data.csv");
  }

  /** The count line of the worked example. */
  lemma ExampleMessage()
    ensures ImportedLinesMessage(1, "data.csv") + "\n" == "Imported 1 lines from \"data.csv\".\n"
  {
    assert ShowInt(1) == "1";
  }

  /** The worked example's import before its strings are spelled out:
      the loop kept one point and caught `e`. */
  lemma TwoRowImport(parse: (char, seq<string>) -> seq<Row>, lines: seq<string>, path: string,
                     fields: seq<DataField>, e: PyError)
    requires ProcessRows(fields, parse(',', lines)) == RowLoop([[Float(1.0), Float(2.0)]], Caught(e))
    ensures var r := CsvImport(parse, path, lines, fields, ",", 0);
      r.data.vertices == [Placeholder(0)] && r.result.objectCreated &&
      r.result.outcome == Returned(Report(ImportedLinesMessage(1, Basename(path)) + "\n" + ExceptionRepr(e), WARNING))
  {
    assert Placeholders(1) == [Placeholder(0)] by {
      assert Placeholders(1)[0] == Placeholder(0);
    }
    CaughtAfterPoints(parse, path, lines, fields, ",", [[Float(1.0), Float(2.0)]], e);
  }

  /** The worked example: header `x,y`, rows `1.0,2.0` and `3.0,abc`, both
      fields FLOAT, nothing discarded: one point at the placeholder position,
      an object, and a WARNING whose message is the count line, a newline and
      the float conversion error's repr. */
  lemma TwoRowExample(parse: (char, seq<string>) -> seq<Row>, lines: seq<string>)
    requires parse(',', lines) == [map["x" := Str("1.0"), "y" := Str("2.0")], map["x" := Str("3.0"), "y" := Str("abc")]]
    ensures var r := CsvImport(parse, "data.csv", lines, [DataField("x", FLOAT), DataField("y", FLOAT)], ",", 0);
      r.data.vertices == [Placeholder(0)] && r.result.objectCreated &&
      r.result.outcome == Returned(Report(
        "Imported 1 lines from \"data.csv\".\n" + ExceptionRepr(ValueError("could not convert string to float: 'abc'")), WARNING))
  {
    ExampleLoop(parse(',', lines));
    TwoRowImport(parse, lines, "data.csv", [DataField("x", FLOAT), DataField("y", FLOAT)],
                 ValueError("could not convert string to float: 'abc'"));
    ExampleBasename();
    ExampleMessage();
  }
}

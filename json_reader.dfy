/** `read_json_data`: the records of one named array of a JSON document become
    points. All points are added up front; record after record, each field is
    looked up, converted and written at once, and the point is then moved to
    its placeholder position. Nothing is caught: the first missing key or
    failed conversion ends the import with that exception. */
module JsonReader {
  import opened PyValues
  import opened Sink
  import opened DataFields
  import opened Reports

  /** One element of the data array: a JSON object, key to scalar value. */
  type Record = map<string, PyValue>

  /** The top-level JSON object, reduced to its arrays of records. */
  type Document = map<string, seq<Record>>

  /** One field of one record: `k[name]` (a missing key raises `KeyError`),
      then converted by the field's type. */
  function FieldValue(f: DataField, rec: Record): Outcome<PyValue>
  {
    if f.name !in rec then Raised(KeyError(StrRepr(f.name))) else Coerce(f.dataType, rec[f.name])
  }

  /** How far the field loop of one record got: every field's value written,
      or the values written before the field that raised, and its exception. */
  datatype RecordPass = Complete(values: seq<PyValue>) | Broken(values: seq<PyValue>, error: PyError)

  /** `FieldValue` for one record, as a function of the field. */
  function FieldValueOf(rec: Record): DataField -> Outcome<PyValue>
  {
    f => FieldValue(f, rec)
  }

  /** The field loop, in field order, with `fieldValue` giving what each field
      yields: the first field that raises breaks the loop. */
  function FieldLoop(fieldValue: DataField -> Outcome<PyValue>, fields: seq<DataField>): (r: RecordPass)
    ensures r.Complete? ==> |r.values| == |fields|
    ensures r.Broken? ==> |r.values| < |fields| && fieldValue(fields[|r.values|]) == Raised(r.error)
    ensures forall j :: 0 <= j < |r.values| ==> fieldValue(fields[j]) == Returned(r.values[j])
  {
    if fields == [] then Complete([])
    else
      var n := |fields| - 1;
      var p := FieldLoop(fieldValue, fields[..n]);
      assert forall j :: 0 <= j < n ==> fields[..n][j] == fields[j];
      if p.Broken? then p
      else
        match fieldValue(fields[n])
        case Raised(e) => Broken(p.values, e)
        case Returned(v) => Complete(p.values + [v])
  }

  /** Once the field loop broke on a prefix of the fields, the rest are never reached. */
  lemma {:induction false} FieldLoopBrokenPrefix(fieldValue: DataField -> Outcome<PyValue>, fields: seq<DataField>, j: nat)
    requires j <= |fields| && FieldLoop(fieldValue, fields[..j]).Broken?
    ensures FieldLoop(fieldValue, fields) == FieldLoop(fieldValue, fields[..j])
  {
    if j < |fields| {
      var n := |fields| - 1;
      assert fields[..n][..j] == fields[..j];
      FieldLoopBrokenPrefix(fieldValue, fields[..n], j);
    } else {
      assert fields[..j] == fields;
    }
  }

  /** The field loop of one record. */
  function WriteRecord(fields: seq<DataField>, rec: Record): RecordPass
  {
    FieldLoop(FieldValueOf(rec), fields)
  }

  /** The field loop's contract, stated on the record's own fields. */
  lemma WriteRecordFacts(fields: seq<DataField>, rec: Record)
    ensures var r := WriteRecord(fields, rec);
      (r.Complete? ==> |r.values| == |fields|) &&
      (r.Broken? ==> |r.values| < |fields| && FieldValue(fields[|r.values|], rec) == Raised(r.error)) &&
      (forall j :: 0 <= j < |r.values| ==> FieldValue(fields[j], rec) == Returned(r.values[j]))
  {
  }

  /** A record goes through exactly when every field's key is present and its
      value converts; its values are then the converted values in field order. */
  lemma WriteRecordComplete(fields: seq<DataField>, rec: Record)
    ensures WriteRecord(fields, rec).Complete? <==>
      forall j :: 0 <= j < |fields| ==> fields[j].name in rec && Coerce(fields[j].dataType, rec[fields[j].name]).Returned?
    ensures WriteRecord(fields, rec).Complete? ==>
      forall j :: 0 <= j < |fields| ==> WriteRecord(fields, rec).values[j] == Coerce(fields[j].dataType, rec[fields[j].name]).value
  {
  }

  /** How the record loop ended: every record written, or stopped inside a
      record, with the values that record had written and the exception. */
  datatype LoopEnd = Finished | Stopped(partial: seq<PyValue>, error: PyError)

  /** The points the loop completed (their values, in record order) and how it ended. */
  datatype JsonLoop = JsonLoop(points: seq<seq<PyValue>>, stop: LoopEnd)

  /** The record loop: records in order; the first record whose field loop
      breaks ends the loop. */
  function ProcessRecords(fields: seq<DataField>, records: seq<Record>): (r: JsonLoop)
    ensures |r.points| <= |records|
    ensures forall i :: 0 <= i < |r.points| ==> WriteRecord(fields, records[i]) == Complete(r.points[i])
    ensures r.stop.Finished? <==> |r.points| == |records|
    ensures r.stop.Stopped? ==> WriteRecord(fields, records[|r.points|]) == Broken(r.stop.partial, r.stop.error)
  {
    if records == [] then JsonLoop([], Finished)
    else
      var n := |records| - 1;
      var p := ProcessRecords(fields, records[..n]);
      assert forall i :: 0 <= i < n ==> records[..n][i] == records[i];
      if p.stop.Stopped? then p
      else
        match WriteRecord(fields, records[n])
        case Broken(vs, e) => JsonLoop(p.points, Stopped(vs, e))
        case Complete(vs) => JsonLoop(p.points + [vs], Finished)
  }

  lemma ProcessRecordsStep(fields: seq<DataField>, records: seq<Record>, k: nat)
    requires k < |records|
    ensures var p := ProcessRecords(fields, records[..k]);
      ProcessRecords(fields, records[..k + 1]) ==
        if p.stop.Stopped? then p
        else if WriteRecord(fields, records[k]).Broken? then
          JsonLoop(p.points, Stopped(WriteRecord(fields, records[k]).values, WriteRecord(fields, records[k]).error))
        else JsonLoop(p.points + [WriteRecord(fields, records[k]).values], Finished)
  {
    assert records[..k + 1][..k] == records[..k];
  }

  /** Once the loop has stopped on a prefix, later records change nothing. */
  lemma ProcessRecordsStopped(fields: seq<DataField>, records: seq<Record>, k: nat)
    requires k <= |records| && ProcessRecords(fields, records[..k]).stop.Stopped?
    ensures ProcessRecords(fields, records) == ProcessRecords(fields, records[..k])
  {
    var p := ProcessRecords(fields, records[..k]);
    var q := ProcessRecords(fields, records);
    assert forall i :: 0 <= i < k ==> records[..k][i] == records[i];
    assert WriteRecord(fields, records[|p.points|]).Broken?;
    assert |q.points| == |p.points|;
    assert q.points == p.points;
  }

  /** Point positions once the first `k` of `n` points were placed: those at
      their placeholders, the rest still at the origin. */
  function Placed(k: nat, n: nat): (vs: seq<Vec3>)
    requires k <= n
    ensures |vs| == n
    ensures forall i :: 0 <= i < k ==> vs[i] == Placeholder(i)
    ensures forall i :: k <= i < n ==> vs[i] == Origin
  {
    Placeholders(k) + seq(n - k, _ => Origin)
  }

  /** Placing point `k` moves the boundary by one. */
  lemma PlacedStep(k: nat, n: nat)
    requires k < n
    ensures Placed(k, n)[k := Placeholder(k)] == Placed(k + 1, n)
  {
  }

  /** The mesh state and what the reader returns or raises. */
  datatype JsonRun = JsonRun(data: MeshData, outcome: Outcome<Report>)

  /** The mesh `read_json_data` leaves once the array is found: every point
      added at the origin, completed records written and placed; after an
      exception the broken record's earlier fields are written too and the
      later points stay at the origin. */
  function JsonData(records: seq<Record>, fields: seq<DataField>): MeshData
  {
    var loop := ProcessRecords(fields, records);
    var n := |loop.points|;
    assert forall p :: p in loop.points ==> |p| == |fields|;
    var filled := Fill(DeclareAll(map[], fields), Records(fields, loop.points));
    var written :=
      if loop.stop.Stopped? then WritePoint(filled, n, PointRecord(fields[..|loop.stop.partial|], loop.stop.partial))
      else filled;
    MeshData(Placed(n, |records|), [], written)
  }

  /** What `read_json_data` returns once the array is found: the count report
      after the last record, or the exception that stopped the loop. */
  function JsonOutcome(records: seq<Record>, path: string, fields: seq<DataField>): Outcome<Report>
  {
    var loop := ProcessRecords(fields, records);
    if loop.stop.Stopped? then Raised(loop.stop.error) else Returned(ImportedReport(|loop.points|, path))
  }

  function JsonImport(records: seq<Record>, path: string, fields: seq<DataField>): JsonRun
  {
    JsonRun(JsonData(records, fields), JsonOutcome(records, path, fields))
  }

  // ---------------------------------------------------------------------------
  // The reader
  // ---------------------------------------------------------------------------

  /** A point's record before any field is written changes no channel. */
  lemma WritePointNothing(attrs: map<string, Attribute>, i: nat)
    ensures WritePoint(attrs, i, map[]) == attrs
  {
  }

  /** `mesh.attributes[name].data[i].value = value` for field `j` of record `i`:
      one more entry of the point's record. */
  method StoreField(mesh: Mesh, fields: seq<DataField>, j: nat, values: seq<PyValue>, i: nat, v: PyValue,
                    ghost base: map<string, Attribute>)
    requires j < |fields| && |values| == j && i < |mesh.vertices|
    requires AttributeName(fields[j].name) in base
    requires mesh.attributes == WritePoint(base, i, PointRecord(fields[..j], values))
    modifies mesh
    ensures mesh.attributes == WritePoint(base, i, PointRecord(fields[..j + 1], values + [v]))
    ensures mesh.vertices == old(mesh.vertices) && mesh.edges == old(mesh.edges)
  {
    var a := AttributeName(fields[j].name);
    StoreIntoPoint(base, i, PointRecord(fields[..j], values), a, v);
    mesh.SetValue(a, i, v);
    assert fields[..j + 1][..j] == fields[..j];
    assert (values + [v])[..j] == values;
  }

  /** The field loop of record `i`: each field's key looked up, its value
      converted and written at once. */
  method WriteRecordInto(mesh: Mesh, fields: seq<DataField>, rec: Record, i: nat) returns (r: RecordPass)
    requires i < |mesh.vertices|
    requires forall j :: 0 <= j < |fields| ==> AttributeName(fields[j].name) in mesh.attributes
    modifies mesh
    ensures r == WriteRecord(fields, rec)
    ensures mesh.attributes == WritePoint(old(mesh.attributes), i, PointRecord(fields[..|r.values|], r.values))
    ensures mesh.vertices == old(mesh.vertices) && mesh.edges == old(mesh.edges)
  {
    var values: seq<PyValue> := [];
    WritePointNothing(mesh.attributes, i);
    for j := 0 to |fields|
      invariant |values| == j
      invariant FieldLoop(FieldValueOf(rec), fields[..j]) == Complete(values)
      invariant mesh.attributes == WritePoint(old(mesh.attributes), i, PointRecord(fields[..j], values))
      invariant mesh.vertices == old(mesh.vertices) && mesh.edges == old(mesh.edges)
    {
      var f := fields[j];
      assert fields[..j + 1][..j] == fields[..j];
      if f.name !in rec {
        FieldLoopBrokenPrefix(FieldValueOf(rec), fields, j + 1);
        return Broken(values, KeyError(StrRepr(f.name)));
      }
      var value := Coerce(f.dataType, rec[f.name]);
      if value.Raised? {
        FieldLoopBrokenPrefix(FieldValueOf(rec), fields, j + 1);
        return Broken(values, value.error);
      }
      StoreField(mesh, fields, j, values, i, value.value, old(mesh.attributes));
      values := values + [value.value];
    }
    assert fields[..|fields|] == fields;
    r := Complete(values);
  }

  /** The body of the record loop for record `k` of `n`: its fields written,
      then, when all went through, the point moved to its placeholder. */
  method PlaceRecord(mesh: Mesh, fields: seq<DataField>, rec: Record, k: nat, n: nat,
                     ghost attrs: map<string, Attribute>, ghost points: seq<seq<PyValue>>)
    returns (r: RecordPass)
    requires k < n && |points| == k
    requires forall p :: p in points ==> |p| == |fields|
    requires forall j :: 0 <= j < |fields| ==> AttributeName(fields[j].name) in attrs
    requires mesh.Data() == MeshData(Placed(k, n), [], Fill(attrs, Records(fields, points)))
    modifies mesh
    ensures r == WriteRecord(fields, rec)
    ensures r.Complete? ==> mesh.Data() == MeshData(Placed(k + 1, n), [], Fill(attrs, Records(fields, points + [r.values])))
    ensures r.Broken? ==>
      mesh.Data() == MeshData(Placed(k, n), [], WritePoint(Fill(attrs, Records(fields, points)), k, PointRecord(fields[..|r.values|], r.values)))
  {
    r := WriteRecordInto(mesh, fields, rec, k);
    if r.Complete? {
      PlacedRecord(attrs, fields, points, r.values, n);
      mesh.SetPosition(k, Placeholder(k));
    }
  }

  /** The state `PlaceRecord` reaches for a complete record, stated on values:
      the record filled in at index `k`, point `k` at its placeholder. */
  lemma PlacedRecord(attrs: map<string, Attribute>, fields: seq<DataField>, points: seq<seq<PyValue>>, p: seq<PyValue>, n: nat)
    requires |points| < n
    requires forall q :: q in points ==> |q| == |fields|
    requires |p| == |fields|
    ensures Fill(attrs, Records(fields, points + [p]))
         == WritePoint(Fill(attrs, Records(fields, points)), |points|, PointRecord(fields[..|p|], p))
    ensures Placed(|points|, n)[|points| := Placeholder(|points|)] == Placed(|points| + 1, n)
  {
    FillStep(attrs, Records(fields, points), PointRecord(fields, p));
    RecordsStep(fields, points, p);
    assert fields[..|p|] == fields;
    PlacedStep(|points|, n);
  }

  /** The record loop and the report, on the mesh the reader has just set up. */
  method RunRecords(mesh: Mesh, fields: seq<DataField>, records: seq<Record>, path: string)
    returns (result: Outcome<Report>)
    requires mesh.Data() == MeshData(Placed(0, |records|), [], DeclareAll(map[], fields))
    modifies mesh
    ensures JsonRun(mesh.Data(), result) == JsonImport(records, path, fields)
  {
    ghost var attrs := mesh.attributes;
    assert forall j :: 0 <= j < |fields| ==> AttributeName(fields[j].name) in attrs by {
      assert forall j :: 0 <= j < |fields| ==> fields[j] in fields;
    }
    ghost var points: seq<seq<PyValue>> := [];
    FillNothing(attrs);
    assert Records(fields, points) == [];
    for k := 0 to |records|
      invariant |points| == k
      invariant ProcessRecords(fields, records[..k]) == JsonLoop(points, Finished)
      invariant forall p :: p in points ==> |p| == |fields|
      invariant mesh.Data() == MeshData(Placed(k, |records|), [], Fill(attrs, Records(fields, points)))
    {
      ProcessRecordsStep(fields, records, k);
      var r := PlaceRecord(mesh, fields, records[k], k, |records|, attrs, points);
      if r.Broken? {
        ProcessRecordsStopped(fields, records, k + 1);
        return Raised(r.error);
      }
      points := points + [r.values];
    }
    assert records[..|records|] == records;
    result := Returned(ImportedReport(|records|, path));
  }

  /** `read_json_data(context, path, array_name, fields, encoding)` on the
      outcome of loading the document. */
  method ReadJson(loaded: Outcome<Document>, path: string, arrayName: string, fields: seq<DataField>)
    returns (mesh: Mesh?, result: Outcome<Report>)
    ensures loaded.Raised? ==> mesh == null && result == Raised(loaded.error)
    ensures loaded.Returned? && arrayName !in loaded.value ==> mesh == null && result == Raised(KeyError(StrRepr(arrayName)))
    ensures loaded.Returned? && arrayName in loaded.value ==>
      mesh != null && fresh(mesh) && mesh.name == "json_" + arrayName &&
      JsonRun(mesh.Data(), result) == JsonImport(loaded.value[arrayName], path, fields)
  {
    if loaded.Raised? {
      return null, Raised(loaded.error);
    }
    var data := loaded.value;
    if arrayName !in data {
      return null, Raised(KeyError(StrRepr(arrayName)));
    }
    var records := data[arrayName];
    var m := new Mesh("json_" + arrayName);
    mesh := m;
    m.AddVertices(|records|);
    assert m.vertices == Placed(0, |records|);
    AddDataFields(m, fields);
    result := RunRecords(m, fields, records, path);
  }

  // ---------------------------------------------------------------------------
  // Properties
  // ---------------------------------------------------------------------------

  /** The import returns exactly when the record loop finished; the mesh then
      holds every record's point at its placeholder and every record's values. */
  lemma JsonImportFinished(records: seq<Record>, path: string, fields: seq<DataField>)
    ensures JsonOutcome(records, path, fields).Returned? <==> ProcessRecords(fields, records).stop.Finished?
    ensures ProcessRecords(fields, records).stop.Finished? ==>
      var points := ProcessRecords(fields, records).points;
      (forall p :: p in points ==> |p| == |fields|) &&
      JsonData(records, fields) == MeshData(Placeholders(|records|), [], Fill(DeclareAll(map[], fields), Records(fields, points)))
    ensures ProcessRecords(fields, records).stop.Stopped? ==>
      JsonOutcome(records, path, fields) == Raised(ProcessRecords(fields, records).stop.error)
  {
    var loop := ProcessRecords(fields, records);
    if loop.stop.Finished? {
      assert Placed(|loop.points|, |records|) == Placeholders(|records|);
    }
  }

  /** Every point exists from the start: the mesh always has one point per
      record, and no edges. */
  lemma JsonPointCount(records: seq<Record>, fields: seq<DataField>)
    ensures |JsonData(records, fields).vertices| == |records|
    ensures JsonData(records, fields).edges == []
  {
  }

  /** The import succeeds exactly when every record has every field's key and
      every value converts; it then reports all records, and every point sits
      at its own placeholder position. */
  lemma JsonImportSucceeds(records: seq<Record>, path: string, fields: seq<DataField>)
    ensures JsonOutcome(records, path, fields).Returned? <==>
      forall i, j :: 0 <= i < |records| && 0 <= j < |fields| ==>
        fields[j].name in records[i] && Coerce(fields[j].dataType, records[i][fields[j].name]).Returned?
    ensures JsonOutcome(records, path, fields).Returned? ==>
      JsonOutcome(records, path, fields) == Returned(ImportedReport(|records|, path)) &&
      JsonData(records, fields).vertices == Placeholders(|records|)
  {
    JsonImportFinished(records, path, fields);
    if ProcessRecords(fields, records).stop.Finished? {
      FinishedConverts(records, fields);
    } else {
      StoppedFails(records, fields);
    }
  }

  /** A finished loop met every key and converted every value. */
  lemma FinishedConverts(records: seq<Record>, fields: seq<DataField>)
    requires ProcessRecords(fields, records).stop.Finished?
    ensures forall i, j :: 0 <= i < |records| && 0 <= j < |fields| ==>
      fields[j].name in records[i] && Coerce(fields[j].dataType, records[i][fields[j].name]).Returned?
  {
    forall i, j | 0 <= i < |records| && 0 <= j < |fields|
      ensures fields[j].name in records[i] && Coerce(fields[j].dataType, records[i][fields[j].name]).Returned?
    {
      WriteRecordComplete(fields, records[i]);
    }
  }

  /** A stopped loop met a missing key or a value that does not convert. */
  lemma StoppedFails(records: seq<Record>, fields: seq<DataField>)
    requires ProcessRecords(fields, records).stop.Stopped?
    ensures exists i, j ::
      0 <= i < |records| && 0 <= j < |fields| &&
      !(fields[j].name in records[i] && Coerce(fields[j].dataType, records[i][fields[j].name]).Returned?)
  {
    var i := |ProcessRecords(fields, records).points|;
    WriteRecordComplete(fields, records[i]);
    var j :| 0 <= j < |fields| && !(fields[j].name in records[i] && Coerce(fields[j].dataType, records[i][fields[j].name]).Returned?);
  }

  /** A failed import raises the exception of the first failing field of the
      first failing record: every earlier record went through, and so did every
      earlier field of that record. */
  lemma JsonFirstError(records: seq<Record>, path: string, fields: seq<DataField>) returns (i: nat, j: nat)
    requires JsonOutcome(records, path, fields).Raised?
    ensures i < |records| && j < |fields|
    ensures forall i', j' :: 0 <= i' < i && 0 <= j' < |fields| ==> FieldValue(fields[j'], records[i']).Returned?
    ensures forall j' :: 0 <= j' < j ==> FieldValue(fields[j'], records[i]).Returned?
    ensures FieldValue(fields[j], records[i]) == Raised(JsonOutcome(records, path, fields).error)
    ensures JsonOutcome(records, path, fields).error.KeyError? ==> fields[j].name !in records[i]
  {
    var loop := ProcessRecords(fields, records);
    JsonImportFinished(records, path, fields);
    i := |loop.points|;
    j := |loop.stop.partial|;
    WriteRecordFacts(fields, records[i]);
    forall i', j' | 0 <= i' < i && 0 <= j' < |fields|
      ensures FieldValue(fields[j'], records[i']).Returned?
    {
      WriteRecordFacts(fields, records[i']);
    }
  }

  /** Field `f`'s converted value in every record, in record order. */
  function ConvertedColumn(records: seq<Record>, f: DataField): (col: seq<PyValue>)
    requires forall i :: 0 <= i < |records| ==> FieldValue(f, records[i]).Returned?
    ensures |col| == |records|
    ensures forall i :: 0 <= i < |records| ==> col[i] == FieldValue(f, records[i]).value
  {
    seq(|records|, i requires 0 <= i < |records| => FieldValue(f, records[i]).value)
  }

  /** Each completed point holds, for each field, the record's converted value. */
  lemma LoopValue(fields: seq<DataField>, records: seq<Record>, i: nat, j: nat)
    requires i < |ProcessRecords(fields, records).points| && j < |fields|
    ensures |ProcessRecords(fields, records).points[i]| == |fields|
    ensures FieldValue(fields[j], records[i]) == Returned(ProcessRecords(fields, records).points[i][j])
  {
    var p := ProcessRecords(fields, records).points[i];
    assert FieldLoop(FieldValueOf(records[i]), fields) == Complete(p);
    assert FieldValueOf(records[i])(fields[j]) == Returned(p[j]);
  }

  /** After a finished loop, field `j`'s values over the points are its
      converted values over the records. */
  lemma LoopFieldColumn(fields: seq<DataField>, records: seq<Record>, j: nat)
    requires j < |fields| && ProcessRecords(fields, records).stop.Finished?
    ensures var points := ProcessRecords(fields, records).points;
      (forall p :: p in points ==> |p| == |fields|) &&
      (forall i :: 0 <= i < |records| ==> FieldValue(fields[j], records[i]).Returned?) &&
      FieldColumn(points, j) == ConvertedColumn(records, fields[j])
  {
    var points := ProcessRecords(fields, records).points;
    forall i | 0 <= i < |records|
      ensures FieldValue(fields[j], records[i]) == Returned(points[i][j])
    {
      LoopValue(fields, records, i, j);
    }
    assert FieldColumn(points, j) == ConvertedColumn(records, fields[j]);
  }

  /** The channel a field whose attribute name no other field shares ends up
      with after a successful import: that field's converted value of every
      record (its key is present and its value converts), at the record's index. */
  lemma JsonImportedColumn(records: seq<Record>, path: string, fields: seq<DataField>, j: nat)
    requires j < |fields|
    requires forall k :: 0 <= k < |fields| && k != j ==> AttributeName(fields[k].name) != AttributeName(fields[j].name)
    requires JsonOutcome(records, path, fields).Returned?
    ensures forall i :: 0 <= i < |records| ==> FieldValue(fields[j], records[i]).Returned?
    ensures AttributeName(fields[j].name) in JsonData(records, fields).attributes
    ensures JsonData(records, fields).attributes[AttributeName(fields[j].name)] ==
      Attribute(AttributeTypeOf(fields[j].dataType), Column(ConvertedColumn(records, fields[j])))
  {
    JsonImportFinished(records, path, fields);
    LoopFieldColumn(fields, records, j);
    FilledDeclaredColumn(fields, ProcessRecords(fields, records).points, j);
  }
}

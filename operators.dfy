/** The import operator and the two operators that edit its field list:
    dispatch on the file name's extension, the report the host shows, and the
    active-index bookkeeping of adding and removing a field. */
module Operators {
  import opened PyValues
  import opened Sink
  import opened DataFields
  import opened Reports
  import opened CsvReader
  import opened JsonReader
  import opened GeoPackage

  // ---------------------------------------------------------------------------
  // Dispatch on the extension
  // ---------------------------------------------------------------------------

  /** Python's `str.endswith`: case-sensitive comparison of the tail. */
  predicate EndsWith(s: string, suffix: string)
  {
    |suffix| <= |s| && s[|s| - |suffix|..] == suffix
  }

  datatype Format = Json | Csv | Gpkg | Unknown

  /** The `if`/`elif` chain of `execute`. */
  function FormatOf(path: string): (f: Format)
    ensures f == Json <==> EndsWith(path, ".json")
    ensures f == Csv <==> EndsWith(path, ".csv")
    ensures f == Gpkg <==> EndsWith(path, ".gpkg")
  {
    SuffixesExclusive(path);
    if EndsWith(path, ".json") then Json
    else if EndsWith(path, ".csv") then Csv
    else if EndsWith(path, ".gpkg") then Gpkg
    else Unknown
  }

  /** A name ends with at most one of the three extensions, so the order of
      the tests in `execute` does not matter. */
  lemma SuffixesExclusive(path: string)
    ensures EndsWith(path, ".json") ==> !EndsWith(path, ".csv") && !EndsWith(path, ".gpkg")
    ensures EndsWith(path, ".csv") ==> !EndsWith(path, ".gpkg")
  {
    if EndsWith(path, ".json") {
      assert path[|path| - 1] == ".json"[4];
    }
    if EndsWith(path, ".csv") {
      assert path[|path| - 1] == ".csv"[3];
    }
    if EndsWith(path, ".gpkg") {
      assert path[|path| - 1] == ".gpkg"[4];
    }
  }

  /** Any stem followed by one of the extensions goes to that reader. */
  lemma FormatOfExtension(stem: string)
    ensures FormatOf(stem + ".json") == Json
    ensures FormatOf(stem + ".csv") == Csv
    ensures FormatOf(stem + ".gpkg") == Gpkg
  {
    assert (stem + ".json")[|stem + ".json"| - 5..] == ".json";
    assert (stem + ".csv")[|stem + ".csv"| - 4..] == ".csv";
    assert (stem + ".gpkg")[|stem + ".gpkg"| - 5..] == ".gpkg";
  }

  /** The test is case-sensitive: an upper-case extension reaches no reader. */
  lemma UpperCaseExtension()
    ensures FormatOf("data.CSV") == Unknown
  {
    assert "data.CSV"[7] == 'V';
    assert "data.CSV"[7] != ".json"[4] && "data.CSV"[7] != ".gpkg"[4];
  }

  /** With no branch taken, the call that shows the report evaluates its first
      argument, the set holding `report_type`, before any assignment to it. */
  const UnboundReport: PyError := UnboundLocalError("local variable 'report_type' referenced before assignment")

  /** `read_json_data` seen from the operator: the load, the array lookup, the import. */
  function JsonReadOutcome(loaded: Outcome<Document>, path: string, arrayName: string, fields: seq<DataField>): Outcome<Report>
  {
    if loaded.Raised? then Raised(loaded.error)
    else if arrayName !in loaded.value then Raised(KeyError(StrRepr(arrayName)))
    else JsonImport(loaded.value[arrayName], path, fields).outcome
  }

  /** `read_gpkg_data` seen from the operator: the layer read, then the import. */
  function GpkgReadOutcome(readFile: LayerRequest -> Outcome<Layer>, path: string, layerName: string, fields: seq<DataField>): Outcome<Report>
  {
    var loaded := readFile(RequestFor(layerName));
    if loaded.Raised? then Raised(loaded.error) else Import(loaded.value, path, fields).outcome
  }

  /** The report `execute` passes to the host, or the exception it lets out.
      The file contents reach the readers as their parsers' results. */
  function ExecuteOutcome(path: string, arrayName: string, fields: seq<DataField>, delimiter: string, leadingLines: int,
                          loaded: Outcome<Document>, parse: (char, seq<string>) -> seq<Row>, lines: seq<string>,
                          readFile: LayerRequest -> Outcome<Layer>): Outcome<Report>
  {
    match FormatOf(path)
    case Json => JsonReadOutcome(loaded, path, arrayName, fields)
    case Csv => CsvImport(parse, path, lines, fields, delimiter, leadingLines).result.outcome
    case Gpkg => GpkgReadOutcome(readFile, path, arrayName, fields)
    case Unknown => Raised(UnboundReport)
  }

  /** A file whose name has none of the three extensions makes `execute` raise
      and show nothing, whatever the readers would have produced. */
  lemma ExecuteUnknown(path: string, arrayName: string, fields: seq<DataField>, delimiter: string, leadingLines: int,
                       loaded: Outcome<Document>, parse: (char, seq<string>) -> seq<Row>, lines: seq<string>,
                       readFile: LayerRequest -> Outcome<Layer>)
    requires !EndsWith(path, ".json") && !EndsWith(path, ".csv") && !EndsWith(path, ".gpkg")
    ensures ExecuteOutcome(path, arrayName, fields, delimiter, leadingLines, loaded, parse, lines, readFile) == Raised(UnboundReport)
  {
  }

  // ---------------------------------------------------------------------------
  // The field list
  // ---------------------------------------------------------------------------

  /** The operator's field list and the index of its selected entry. */
  datatype FieldList = FieldList(fields: seq<DataField>, active: int)

  /** `data_fields.add()`, then the new last entry selected. */
  function AddField(l: FieldList): (r: FieldList)
    ensures r.fields == l.fields + [DefaultField]
    ensures 0 <= r.active < |r.fields| && r.fields[r.active] == DefaultField
  {
    FieldList(l.fields + [DefaultField], |l.fields + [DefaultField]| - 1)
  }

  /** The error the host collection raises for an index outside the list
      (`KeyError` carries the repr of its message). */
  const InvalidIndex: PyError := KeyError("'bpy_prop_collection.remove(), not found, invalid index'")

  /** The selection after removing entry `index` from a list left with `n` entries. */
  function ActiveAfterRemove(index: int, n: nat): (a: int)
    ensures n > 0 ==> 0 <= a < n
    ensures n == 0 ==> a == -1
    ensures 0 < index <= n ==> a == index - 1
    ensures index <= 0 && n > 0 ==> a == 0
  {
    var lower := if 0 > index - 1 then 0 else index - 1;
    if lower < n - 1 then lower else n - 1
  }

  /** `data_fields.remove(index)` at the selected index, then the selection
      moved to the entry before it; an index outside the list raises. */
  function RemoveField(l: FieldList): (r: Outcome<FieldList>)
    ensures r.Raised? <==> !(0 <= l.active < |l.fields|)
    ensures r.Raised? ==> r.error == InvalidIndex
    ensures r.Returned? ==> |r.value.fields| == |l.fields| - 1
    ensures r.Returned? && r.value.fields != [] ==> 0 <= r.value.active < |r.value.fields|
    ensures r.Returned? && r.value.fields == [] ==> r.value.active == -1
  {
    if !(0 <= l.active < |l.fields|) then Raised(InvalidIndex)
    else
      var rest := l.fields[..l.active] + l.fields[l.active + 1..];
      Returned(FieldList(rest, ActiveAfterRemove(l.active, |rest|)))
  }

  /** Removal takes out exactly the selected entry and keeps the others in order. */
  lemma RemovedEntries(l: FieldList)
    requires 0 <= l.active < |l.fields|
    ensures forall k :: 0 <= k < l.active ==> RemoveField(l).value.fields[k] == l.fields[k]
    ensures forall k :: l.active <= k < |l.fields| - 1 ==> RemoveField(l).value.fields[k] == l.fields[k + 1]
  {
    var rest := RemoveField(l).value.fields;
    assert rest == l.fields[..l.active] + l.fields[l.active + 1..];
    forall k | l.active <= k < |l.fields| - 1
      ensures rest[k] == l.fields[k + 1]
    {
      assert rest[k] == l.fields[l.active + 1..][k - l.active];
    }
  }

  /** Removing right after adding takes the new entry away again and selects
      the entry that was last before it (none for an empty list). */
  lemma RemoveAfterAdd(l: FieldList)
    ensures RemoveField(AddField(l)) == Returned(FieldList(l.fields, |l.fields| - 1))
  {
    var added := AddField(l);
    assert added.fields[..added.active] == l.fields;
    assert added.fields[added.active + 1..] == [];
    assert added.fields[..added.active] + added.fields[added.active + 1..] == l.fields;
  }

  /** Removing keeps the selection on the entry that preceded the removed one. */
  lemma RemoveSelectsPrevious(l: FieldList)
    requires 0 < l.active < |l.fields|
    ensures RemoveField(l).Returned?
    ensures RemoveField(l).value.fields[RemoveField(l).value.active] == l.fields[l.active - 1]
  {
    RemovedEntries(l);
  }

  // ---------------------------------------------------------------------------
  // The operator
  // ---------------------------------------------------------------------------

  datatype Status = FINISHED

  /** `ImportSpreadsheetData`: its settings, its field list and the reports it
      has passed to the host. */
  class ImportOperator {
    var filepath: string
    var arrayName: string
    var dataFields: seq<DataField>
    var activeDataFieldIndex: int
    var csvDelimiter: string
    var csvLeadingLines: int
    var reports: seq<Report>

    function Fields(): FieldList
      reads this
    {
      FieldList(dataFields, activeDataFieldIndex)
    }

    /** The settings' defaults. */
    constructor(filepath: string)
      ensures this.filepath == filepath && arrayName == ""
      ensures dataFields == [] && activeDataFieldIndex == 0
      ensures csvDelimiter == "," && csvLeadingLines == 0
      ensures reports == []
    {
      this.filepath := filepath;
      arrayName := "";
      dataFields := [];
      activeDataFieldIndex := 0;
      csvDelimiter := ",";
      csvLeadingLines := 0;
      reports := [];
    }

    /** `execute`: the reader chosen by the extension, its report shown. */
    method Execute(loaded: Outcome<Document>, parse: (char, seq<string>) -> seq<Row>, lines: seq<string>,
                   readFile: LayerRequest -> Outcome<Layer>)
      returns (result: Outcome<Status>)
      modifies this
      ensures filepath == old(filepath) && arrayName == old(arrayName) && Fields() == old(Fields())
      ensures csvDelimiter == old(csvDelimiter) && csvLeadingLines == old(csvLeadingLines)
      ensures var outcome := ExecuteOutcome(filepath, arrayName, dataFields, csvDelimiter, csvLeadingLines,
                                            loaded, parse, lines, readFile);
        if outcome.Returned? then result == Returned(FINISHED) && reports == old(reports) + [outcome.value]
        else result == Raised(outcome.error) && reports == old(reports)
    {
      var outcome: Outcome<Report>;
      if EndsWith(filepath, ".json") {
        var _, r := ReadJson(loaded, filepath, arrayName, dataFields);
        outcome := r;
      } else if EndsWith(filepath, ".csv") {
        var _, r := ReadCsv(parse, filepath, lines, dataFields, csvDelimiter, csvLeadingLines);
        outcome := r.outcome;
      } else if EndsWith(filepath, ".gpkg") {
        var _, r := ReadGpkg(readFile, filepath, arrayName, dataFields);
        outcome := r;
      } else {
        outcome := Raised(UnboundReport);
      }
      if outcome.Raised? {
        return Raised(outcome.error);
      }
      reports := reports + [outcome.value];
      result := Returned(FINISHED);
    }

    /** `AddDataFieldOperator.execute`. */
    method AddDataField()
      modifies this
      ensures Fields() == AddField(old(Fields()))
      ensures filepath == old(filepath) && arrayName == old(arrayName) && reports == old(reports)
      ensures csvDelimiter == old(csvDelimiter) && csvLeadingLines == old(csvLeadingLines)
    {
      dataFields := dataFields + [DefaultField];
      activeDataFieldIndex := |dataFields| - 1;
    }

    /** `RemoveDataFieldOperator.execute`: an index outside the list raises
        before anything changes. */
    method RemoveDataField() returns (result: Outcome<Status>)
      modifies this
      ensures RemoveField(old(Fields())).Raised? ==>
        result == Raised(RemoveField(old(Fields())).error) && Fields() == old(Fields())
      ensures RemoveField(old(Fields())).Returned? ==>
        result == Returned(FINISHED) && Fields() == RemoveField(old(Fields())).value
      ensures filepath == old(filepath) && arrayName == old(arrayName) && reports == old(reports)
      ensures csvDelimiter == old(csvDelimiter) && csvLeadingLines == old(csvLeadingLines)
    {
      var index := activeDataFieldIndex;
      if !(0 <= index < |dataFields|) {
        return Raised(InvalidIndex);
      }
      dataFields := dataFields[..index] + dataFields[index + 1..];
      activeDataFieldIndex := ActiveAfterRemove(index, |dataFields|);
      result := Returned(FINISHED);
    }
  }
}

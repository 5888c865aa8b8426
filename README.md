# Geo Data Importer — a Dafny model of its import core

The Blender add-on "Geo Data Importer" (`__init__.py`) reads JSON, CSV and
GeoPackage files into a mesh. Each record, row or feature becomes a point, and
each declared data field becomes a per-point attribute. This project models
that core with the host mesh treated as a plain sink: a vertex list, an edge
list, and a map from attribute name to a typed per-point value store. The
model covers:

- **Sink** (`mesh.dfy`): the mesh as a `class` whose methods stand for the host
  calls the readers make (`attributes.new`, `vertices.add`, one value set,
  `foreach_set`, `edges.add`).
- **PyValues** (`py_values.dfy`): the Python scalars the parsers yield, the
  exceptions the readers raise or catch, and the builtins `int()`, `float()`,
  `bool()`, `str()` and `repr()` on them.
- **DataFields** (`data_fields.dfy`): what happens to each field.
  - Attribute naming: an empty name becomes `empty_key_string`.
  - Storage type: ENUM is stored as 8-bit integers.
  - Coercion by type tag, as the CSV and JSON readers do it.
  - `add_data_fields`, and the per-point writes.
- **Enums** (`enum_table.dfy`): the GeoPackage reader's enum code table, which
  is `unique()` followed by `dict(zip(...))`.
- **LineEdges** (`line_edges.dfy`): the line topology. Coordinate runs are
  flattened, and the edge builder loop keeps a running `index`.
- **GeoPackage** (`gpkg_reader.dfy`): `read_gpkg_data`.
  - The enum-table pass, then the column pass.
  - A three-way geometry branch decided by the first feature: lines, points,
    or nothing.
- **CsvReader** (`csv_reader.dfy`): `read_csv_data`.
  - The leading-line discard loop.
  - The row loop with its two exception handlers.
  - The severity and message policy.
- **JsonReader** (`json_reader.dfy`): `read_json_data`.
  - All points are added up front.
  - Values are coerced and written record by record.
  - No exception is caught.
- **Operators** (`operators.dfy`):
  - dispatch on the file extension in `ImportSpreadsheetData.execute`
  - the report shown to the host
  - the selection-index bookkeeping of the add-field and remove-field operators

The parsers are parameters. `csv.DictReader` is a function from a delimiter and
the remaining lines to rows, `json.load` is an `Outcome` holding a document,
and `gpd.read_file` is a function from a layer request to an `Outcome` holding
a layer. Each reader is a method on a fresh `Mesh`. It is proved equal to a
functional specification: `CsvImport`, `JsonImport`, or `Import` for
GeoPackage. The lemmas about those specifications state what the add-on
promises. The model's readers also hand back the mesh they built, so that these
contracts can describe it; the Python readers return only the report message
and its type.

The specification functions carry no `ensures` of their own; the lemmas in the
table below state what they mean. They model these lines of `__init__.py`:
`CsvReader.CsvImport` lines 161-231 and `CsvReader.CsvReport` lines 222-229;
`JsonReader.JsonImport` lines 130-159; `GeoPackage.Import` lines 37-98;
`GeoPackage.FamilyOf` the geometry-type tests at lines 61 and 83;
`LineEdges.Edges`
the edge builder at lines 70-77 and `LineEdges.Flatten` the vertex list at
lines 67-69 and 79; `Enums.EncodeColumn` the mapped column at line 54 and
`Enums.EnumTable` the code table at lines 48-49; `Operators.ExecuteOutcome`
the dispatch and report at lines 363-371; `PyValues.Truth` the `bool()`
conversions at lines 141 and 194.

The model follows the code where its behaviour is easy to overlook:

- Only the GeoPackage reader builds enum code tables. The CSV and JSON readers
  store an ENUM field's raw value unchanged.
- The GeoPackage column pass looks the channel up under the field's raw name,
  not under `empty_key_string`. A field with an empty name therefore makes
  that reader raise the host's `KeyError`. (`add_data_fields` declared the
  channel as `empty_key_string`.)
- The CSV reader catches only `ValueError` and `KeyError`. A row too short to
  hold a declared column yields `None`, and `float(None)` or `int(None)`
  raises `TypeError`. That exception leaves the reader uncaught, and no report
  is made.
- `execute` has no branch for other extensions. For such a file, line 371
  evaluates its first argument, `{report_type}`, before anything has been
  assigned to `report_type`. That raises an `UnboundLocalError` naming
  `report_type`.
- The GeoPackage column pass bulk-writes each field's column at line 57, onto
  a mesh that has no vertices yet: they are added only at line 86. The host
  checks that a bulk write has one value per point, so a layer with a field
  and at least one feature would fail at that write. The model does not check
  lengths (see `Sink.Mesh.SetColumn` below). `GeoPackage.ImportSucceeds` and
  `GeoPackage.ImportedColumn` therefore describe the import as if that write
  went through.
- The geometry branch tests the first feature's type name for the substrings
  "LineString" and then "Point". A layer whose first feature is a MultiPoint
  therefore takes the point branch, where `gdf.geometry.x` raises `ValueError`.
  In a line layer, on the other hand, every type with "Multi" in its name is
  flattened through its parts. A MultiPoint feature there becomes a run of its
  points, and a MultiPolygon raises shapely's polygon error. A GeometryCollection
  is asked for its own coordinates and raises the multi-part error.
- The remove-field operator calls the host collection's `remove` with the
  selected index. An index outside the list raises `KeyError` before any state
  changes. This includes removing from an empty list.

## Model

| member | source | states |
|---|---|---|
| `PyValues.MapOutcome` | __init__.py:67-69 | a comprehension either returns one result per element, each the call's value, or raises the error of a first raising element, every earlier element having returned |
| `PyValues.MapOutcomeAllReturned` | __init__.py:67-69 | when every call returns, the comprehension returns exactly those values |
| `PyValues.MapOutcomeFirstRaise` | __init__.py:84 | the first raising element decides the exception of the whole comprehension |
| `PyValues.ShowNat` | __init__.py:224 | `str()` of a natural number is non-empty decimal digits with no leading zero |
| `PyValues.ShowInt` | __init__.py:96 | `str()` of an integer starts with '-' exactly for negative numbers |
| `PyValues.ShowNatValue` | __init__.py:224 | the digits `str()` prints spell the number back |
| `PyValues.IntOfStr` | __init__.py:192 | `int()` of text fails only with `ValueError` |
| `PyValues.IntOfShowInt` | __init__.py:139 | `int(str(n)) == n` for every integer |
| `PyValues.FloatOfStr` | __init__.py:190 | `float()` of text fails only with `ValueError` |
| `PyValues.FloatOfShowInt` | __init__.py:137 | `float(str(n))` is n as a real, for every integer |
| `PyValues.FloatOfShortDecimal` | __init__.py:190 | `float("d.e")` is d + e/10 |
| `PyValues.FloatOfWord` | __init__.py:190 | text starting with an ASCII letter that cannot open `inf`, `infinity` or `nan` raises `ValueError` quoting the text with `repr` |
| `PyValues.StrRepr` | __init__.py:207 | `repr` of a string is enclosed in matching single or double quotes |
| `PyValues.EscapePlain` | __init__.py:207 | text without quote, backslash or control characters is shown unescaped by `repr` |
| `PyValues.ExceptionRepr` | __init__.py:207 | `repr(e)` ends with the closing parenthesis after the argument |
| `PyValues.Truncate` | __init__.py:139 | `int()` of a float truncates toward zero: within one of the value, keeping its sign |
| `PyValues.ToFloat` | __init__.py:137 | `float(v)` gives a float, and raises exactly for `None` or text that is no float literal |
| `PyValues.ToInt` | __init__.py:139 | `int(v)` gives an int, and raises exactly for `None` or text that is no integer literal |
| `Reports.Basename` | __init__.py:92 | the file name is a '/'-free suffix of the path, preceded by '/' when shorter than the path |
| `Reports.BasenameOfPlainName` | __init__.py:153 | a path without '/' is its own file name |
| `Reports.ImportedMessage` | __init__.py:157 | the success text opens with "Imported " and the count, and closes with the file name in double quotes |
| `Reports.ImportedCount` | __init__.py:157 | the count in the success text reads back as the number of imported points |
| `Reports.ImportedReport` | __init__.py:96-98 | the JSON and GeoPackage success report is always INFO |
| `Reports.ImportedReportText` | __init__.py:91-96 | the success report's message opens with "Imported " and closes with the path's file name in double quotes |
| `Sink.Declare` | __init__.py:237 | declaring an attribute adds its name with an empty store and keeps every existing channel |
| `Sink.Store` | __init__.py:143 | setting one point's value changes only that entry of that channel |
| `Sink.Column` | __init__.py:57 | a bulk write holds value i at point i, for exactly the indices of the column |
| `Sink.Mesh.constructor` | __init__.py:167 | a new mesh has its name and no vertices, edges or attributes |
| `Sink.Mesh.NewAttribute` | __init__.py:237 | the mesh's channels become `Declare` of the old ones; vertices and edges unchanged |
| `Sink.Mesh.AddVertices` | __init__.py:197 | n points are appended at the origin |
| `Sink.Mesh.SetPosition` | __init__.py:204 | one point's position changes, nothing else |
| `Sink.Mesh.SetPositions` | __init__.py:87 | every position is replaced at once |
| `Sink.Mesh.SetValue` | __init__.py:202 | one point's value in one channel changes, nothing else |
| `Sink.Mesh.SetColumn` | __init__.py:57 | a channel's whole store is replaced, keeping its storage type |
| `Sink.Mesh.AddEdges` | __init__.py:81-82 | the edges are appended, nothing else changes |
| `DataFields.AttributeName` | __init__.py:237 | the attribute name is never empty, is the field's name exactly when that is non-empty, and `empty_key_string` otherwise |
| `DataFields.AttributeTypeOf` | __init__.py:237 | ENUM is stored as INT8 and every other tag as its own type, both directions |
| `DataFields.Coerce` | __init__.py:136-141 | FLOAT gives a float, INT an int, BOOLEAN the truthiness, ENUM the value unchanged; only FLOAT and INT raise, with `ValueError` on text or `TypeError` on `None` |
| `DataFields.CoerceIdempotent` | __init__.py:189-194 | coercing a coerced value again changes nothing |
| `DataFields.BooleanOfText` | __init__.py:194 | a BOOLEAN cell is true exactly when its text is non-empty |
| `DataFields.NumericText` | __init__.py:189-192 | integer text reads as that integer for INT and the same number for FLOAT |
| `DataFields.DeclareAll` | __init__.py:234-237 | after `add_data_fields` the channels are the old ones plus one per field's attribute name, the old ones unchanged |
| `DataFields.DeclaredType` | __init__.py:237 | the first field with an attribute name decides its storage type, and its store starts empty |
| `DataFields.AddDataFields` | __init__.py:234-237 | the field loop leaves the mesh's channels equal to `DeclareAll`, and vertices and edges unchanged |
| `DataFields.PointRecordAt` | __init__.py:201-202 | a point's channel for a field holds that field's value unless a later field shares the attribute name |
| `DataFields.PointRecordStep` | __init__.py:201-202 | writing one more field extends the point's record by that value |
| `DataFields.WritePoint` | __init__.py:202 | writing a point never adds or removes a channel |
| `DataFields.StoreIntoPoint` | __init__.py:143 | one value write is one more entry in that point's record |
| `DataFields.ColumnOfStep` | __init__.py:202 | one more row adds at most the next index to a channel |
| `DataFields.Fill` | __init__.py:201-202 | the row writes keep the channel set and each channel's storage type |
| `DataFields.FillNothing` | __init__.py:182 | before the first row, no channel has changed |
| `DataFields.FillStep` | __init__.py:201-202 | the channels after one more row are one more `WritePoint` at the next index |
| `DataFields.FillStepAt` | __init__.py:202 | `FillStep` for a single channel |
| `DataFields.FilledColumn` | __init__.py:201-204 | a freshly declared channel ends holding exactly its field's value of every row, at the row's index |
| `DataFields.FilledDeclaredColumn` | __init__.py:234-237 | on a new mesh, a field with its own attribute name gets its declared type and exactly its own value of every row |
| `DataFields.RecordsColumn` | __init__.py:201-202 | the channel built from the rows' records is that field's column |
| `DataFields.RecordsStep` | __init__.py:197-202 | one more point is one more record |
| `DataFields.Placeholder` | __init__.py:204 | a point's placeholder position lies on the non-negative x axis |
| `DataFields.Placeholders` | __init__.py:145 | one placeholder per point, strictly increasing in x with the index |
| `Enums.FirstIndex` | __init__.py:48 | the position of a value's first occurrence |
| `Enums.Unique` | __init__.py:48 | `unique()` holds each value of the column exactly once |
| `Enums.UniqueInOrder` | __init__.py:48 | `unique()` lists values in order of first appearance |
| `Enums.CodeTable` | __init__.py:49 | the table maps exactly the unique values, each to a code below their count |
| `Enums.CodeTableAt` | __init__.py:49 | on distinct values each value's code is its position |
| `Enums.MapThrough` | __init__.py:54 | mapping keeps the column's length and replaces each tabled value by its code |
| `Enums.EncodeColumnCodes` | __init__.py:45-54 | every entry gets a code in [0, n) naming its value in `unique()`; equal values get equal codes and different values different ones, both directions; every code is used |
| `Enums.EncodedAt` | __init__.py:54 | entry i's code names its value's position in `unique()` |
| `Enums.CodeUsed` | __init__.py:49 | every code below the number of distinct values is some entry's code |
| `LineEdges.RunEdges` | __init__.py:75 | a run of n points has n − 1 edges, or none when it is empty |
| `LineEdges.RunEdgeMembership` | __init__.py:73-75 | a run's edges are exactly the pairs (a, a + 1) inside the run |
| `LineEdges.NonEmptyRuns` | __init__.py:72 | the number of non-empty runs is at most the number of runs |
| `LineEdges.BuildEdges` | __init__.py:70-77 | the edge builder loop with its running `index` yields `Edges(runs)` |
| `LineEdges.StartStep` | __init__.py:77 | the next run starts right after the current one |
| `LineEdges.StartMonotone` | __init__.py:73-77 | run starts never decrease |
| `LineEdges.StartBound` | __init__.py:73-79 | every run starts within the flattened list |
| `LineEdges.FlattenAt` | __init__.py:79 | point j of run k is vertex `Start(k) + j` of the flattened list |
| `LineEdges.FlattenLength` | __init__.py:79 | the vertex count is the sum of the run lengths |
| `LineEdges.EdgeMembership` | __init__.py:70-77 | (a, b) is an edge exactly when b = a + 1 and both lie in one run |
| `LineEdges.EdgeCount` | __init__.py:70-77 | the edge count is the vertex count minus the number of non-empty runs |
| `LineEdges.EdgeCountAllNonEmpty` | __init__.py:70-77 | with every run non-empty there are Σnᵢ − k edges |
| `LineEdges.RunsDisjoint` | __init__.py:72-77 | the last point of a run is never inside a later run's edge span |
| `LineEdges.NoEdgeBetweenRuns` | __init__.py:72-77 | no edge joins the last point of one feature to the first point of the next |
| `LineEdges.EdgesInRange` | __init__.py:70-82 | every edge joins two existing vertices, lower index first |
| `LineEdges.EdgeInsideRun` | __init__.py:73-79 | consecutive points of a run are consecutive vertices joined by an edge |
| `LineEdges.EdgeOfRun` | __init__.py:75 | a point with a successor in its run has an edge to it |
| `LineEdges.RunBoundary` | __init__.py:68 | the last point of one part directly precedes the first point of the next in the flattened list |
| `LineEdges.NestedRunsJoined` | __init__.py:67-77 | when a run is the concatenation of parts, consecutive parts are joined by an edge |
| `GeoPackage.RequestFor` | __init__.py:41 | an empty layer name requests layer 0, any other that named layer |
| `GeoPackage.EnumMaps` | __init__.py:45-49 | the first pass returns exactly when every ENUM field has a column, with one table per ENUM field built by `EnumTable`; otherwise `KeyError` |
| `GeoPackage.EnumMapsFirstMissing` | __init__.py:46-48 | the first ENUM field without a column decides the `KeyError` |
| `GeoPackage.EnumMapsRaisedPrefix` | __init__.py:46-49 | once the pass raised, later fields change nothing |
| `GeoPackage.WriteColumns` | __init__.py:51-57 | the column pass keeps the channel set and storage types, and halts only with `KeyError` |
| `GeoPackage.WriteColumnsHaltedPrefix` | __init__.py:51-57 | once the column pass halted, later fields change nothing |
| `GeoPackage.WrittenColumn` | __init__.py:51-57 | after a completed pass, a field's channel holds its column, or the column's codes for ENUM, unless a later field shares the name |
| `GeoPackage.PointPosition` | __init__.py:84 | a point feature gives (x, y, 0); any other feature raises `ValueError` |
| `GeoPackage.Positions` | __init__.py:67 | coordinates are lifted to z = 0, one vertex each |
| `GeoPackage.ShapeOf` | __init__.py:59-87 | the geometry branch leaves every vertex at z = 0 |
| `GeoPackage.BuildEnumMaps` | __init__.py:45-49 | the first loop computes `EnumMaps` |
| `GeoPackage.WriteColumnsInto` | __init__.py:51-57 | the second loop leaves the channels of `WriteColumns` and halts as it does; vertices and edges unchanged |
| `GeoPackage.BuildShape` | __init__.py:59-84 | the geometry branch with the edge builder computes `ShapeOf` |
| `GeoPackage.ReadGpkg` | __init__.py:37-98 | a failed read raises before any mesh exists; otherwise a new `gpkg_`-named mesh and the outcome equal `Import` of the layer |
| `GeoPackage.ImportSucceeds` | __init__.py:37-98 | the reader returns exactly when both passes complete, the layer has a feature and its geometry reads; the mesh then holds the columns and the shape, and the report counts the features |
| `GeoPackage.ShapeCounts` | __init__.py:59-87 | a line layer has one vertex per flattened coordinate and exactly the within-run edges; a point layer has one vertex per feature and no edges; any other layer has nothing |
| `GeoPackage.ShapeFailures` | __init__.py:67-84 | a line layer fails exactly when a feature has no coordinates (a Polygon, a GeometryCollection, a MultiPolygon with a part); a point layer fails exactly when a feature is not a Point, a MultiPoint included; other layers never fail |
| `GeoPackage.LineRunsFail` | __init__.py:67-69 | the line layer's coordinate comprehension raises exactly when some feature has no coordinates, and then with a `NotImplementedError` |
| `GeoPackage.LineRun` | __init__.py:67-68 | a feature yields a run exactly when it has coordinates; otherwise it raises shapely's `NotImplementedError` |
| `GeoPackage.MultiPointRun` | __init__.py:68 | a MultiPoint flattened through its parts is its points, in order |
| `GeoPackage.LineRunValue` | __init__.py:67-68 | a point gives its one coordinate, a MultiPoint its points, a LineString its coordinates, a MultiLineString its parts concatenated, an empty MultiPolygon nothing |
| `GeoPackage.PositionsFail` | __init__.py:84 | the point layer's position comprehension raises exactly when some feature is not a point |
| `GeoPackage.ShapePoint` | __init__.py:83-84 | in a point layer, vertex i is feature i's point |
| `GeoPackage.ShapeRun` | __init__.py:67-82 | in a line layer, point j of feature k is vertex `Start(k) + j`, joined by an edge to the next point of its run |
| `GeoPackage.MultiPartJoined` | __init__.py:67-77 | the parts of a MultiLineString form one run: the last point of a part is joined to the first point of the next part |
| `GeoPackage.ImportedColumn` | __init__.py:51-57 | after a successful import a field's channel holds the layer's column, or for ENUM its `EncodeColumn` codes |
| `GeoPackage.ImportedPerFeature` | __init__.py:51-57 | on a layer with one entry per feature in every column, a successful import leaves each field's channel with exactly one value per feature |
| `GeoPackage.ImportWritten` | __init__.py:44-57 | a returning import completed both passes, and its channels are the column pass's |
| `GeoPackage.ImportErrors` | __init__.py:45-59 | the errors come in order: a missing ENUM column, a missing column or channel, an empty layer; each is a `KeyError` and no edge is left behind |
| `CsvReader.DiscardLeadingLines` | __init__.py:173-177 | the discard loop drops the first `count` lines, all of them when there are fewer, and none for a non-positive count |
| `CsvReader.CoerceRow` | __init__.py:187-195 | a coerced row keeps its columns and has every field's column; it fails only with `KeyError`, `ValueError` or `TypeError` |
| `CsvReader.CoerceRowDistinct` | __init__.py:187-195 | with distinct names a row goes through exactly when every field has a column whose cell converts; each field's cell then holds its converted value and other cells are untouched |
| `CsvReader.CoerceFields` | __init__.py:187-195 | the in-place coercion loop computes `CoerceRow` |
| `CsvReader.PointValues` | __init__.py:202 | one value per field, the row's cell for that field |
| `CsvReader.WriteRow` | __init__.py:201-202 | the attribute loop writes the row's `PointRecord` at point i and changes nothing else |
| `CsvReader.Classify` | __init__.py:206-211 | an exception is caught exactly when it is a `ValueError` or `KeyError` |
| `CsvReader.ProcessRows` | __init__.py:184-211 | the loop's points are the first rows coerced, in order; it stops only at a raising row, classified by its exception, and runs through otherwise |
| `CsvReader.ProcessRowsStep` | __init__.py:184-211 | one more row: a stopped loop stays stopped, a running one coerces the row |
| `CsvReader.ProcessRowsStopped` | __init__.py:183-211 | after the first exception the remaining rows are skipped |
| `CsvReader.AppendPoint` | __init__.py:197-205 | the loop body adds one vertex at its placeholder and the row's record at the next index |
| `CsvReader.AppendedPoint` | __init__.py:197-204 | the state after one more point, stated on values |
| `CsvReader.RunRows` | __init__.py:181-211 | the `try` block leaves one placeholder vertex per kept row and those rows' values; the count and stop are `ProcessRows`'s |
| `CsvReader.ReadCsv` | __init__.py:161-231 | the reader creates a `csv_data` mesh, and it and the result equal `CsvImport` |
| `CsvReader.CsvSeverity` | __init__.py:164 | no point means ERROR and no object; otherwise an object, WARNING after a caught exception and INFO after a clean run; each in both directions |
| `CsvReader.CsvMessage` | __init__.py:222-229 | the message is the count line or the failure text, then a newline, then the caught exception's repr |
| `CsvReader.CsvRowsInOrder` | __init__.py:183-211 | imported points are a prefix of the rows; the first raising row stops the loop; a caught error gives a non-INFO report, an escaping one is raised with no object |
| `CsvReader.LoopFieldColumn` | __init__.py:187-202 | field j's value at each created point is its converted cell |
| `CsvReader.LoopColumn` | __init__.py:184-205 | a field's channel after the loop holds its declared type and its converted cells |
| `CsvReader.CsvImportedColumn` | __init__.py:161-231 | after the reader, a field's channel holds exactly the field's converted cells of the imported rows, at their indices |
| `CsvReader.ExampleFloats` | __init__.py:190 | "1.0", "2.0" and "3.0" read as 1, 2 and 3 |
| `CsvReader.ExampleRepr` | __init__.py:207 | `repr("abc")` is `'abc'` |
| `CsvReader.ExampleWord` | __init__.py:190 | `float("abc")` raises the conversion `ValueError` |
| `CsvReader.FloatRowConverts` | __init__.py:187-195 | a row of two converting FLOAT cells gives both floats in field order |
| `CsvReader.FloatRowFails` | __init__.py:187-195 | a row whose second FLOAT cell does not convert raises that cell's error |
| `CsvReader.TwoFloatRows` | __init__.py:184-211 | a good row then a bad row give one point and the caught error |
| `CsvReader.GoodThenBad` | __init__.py:184-211 | with a coerced row then a raising row, the loop keeps one point and stops with the second row's exception |
| `CsvReader.ExampleLoop` | __init__.py:184-211 | the worked example keeps the point (1.0, 2.0) and catches the `ValueError` |
| `CsvReader.CaughtAfterPoints` | __init__.py:206-229 | points and then a caught error give an object, the count line and the error's repr, as WARNING |
| `CsvReader.ExampleBasename` | __init__.py:218 | "data.csv" is its own file name |
| `CsvReader.ExampleMessage` | __init__.py:224 | the worked example's count line |
| `CsvReader.TwoRowImport` | __init__.py:206-229 | one kept point and a caught error give one vertex, an object and a WARNING with the count line and the error |
| `CsvReader.TwoRowExample` | __init__.py:161-231 | rows `1.0,2.0` and `3.0,abc` as FLOAT fields give one point, an object and a WARNING with the count line and the repr of the conversion error |
| `JsonReader.FieldLoop` | __init__.py:134-143 | the field loop either writes every field's value, or stops at the first raising field; the values before it are the earlier fields' |
| `JsonReader.FieldLoopBrokenPrefix` | __init__.py:134-143 | once a field raised, later fields are never reached |
| `JsonReader.WriteRecordFacts` | __init__.py:134-143 | the field loop's contract for one record |
| `JsonReader.WriteRecordComplete` | __init__.py:134-143 | a record goes through exactly when every key is present and every value converts; its values are then the converted ones |
| `JsonReader.ProcessRecords` | __init__.py:131-146 | completed points are the first records' values in order; the loop finishes exactly when all records complete, and otherwise stops inside the first broken one |
| `JsonReader.ProcessRecordsStep` | __init__.py:131-146 | one more record: a stopped loop stays stopped, a running one writes the record |
| `JsonReader.ProcessRecordsStopped` | __init__.py:131-146 | after the first exception, later records change nothing |
| `JsonReader.Placed` | __init__.py:145 | the first k points are at their placeholders, the rest at the origin |
| `JsonReader.PlacedStep` | __init__.py:145 | placing point k moves that boundary by one |
| `JsonReader.WritePointNothing` | __init__.py:134 | a record with no fields written changes no channel |
| `JsonReader.StoreField` | __init__.py:143 | one field's write adds that entry to the point's record |
| `JsonReader.WriteRecordInto` | __init__.py:134-143 | the field loop computes `WriteRecord`, and has written exactly the values it got before stopping |
| `JsonReader.PlaceRecord` | __init__.py:131-146 | a complete record is written and its point placed; a broken one leaves its earlier fields written and its point at the origin |
| `JsonReader.PlacedRecord` | __init__.py:143-145 | the state after a complete record, stated on values |
| `JsonReader.RunRecords` | __init__.py:130-159 | the record loop and report produce `JsonImport` |
| `JsonReader.ReadJson` | __init__.py:101-159 | a failed load or a missing array raises before any mesh; otherwise a new `json_`-named mesh and the outcome equal `JsonImport` |
| `JsonReader.JsonImportFinished` | __init__.py:130-159 | the import returns exactly when the loop finished; the mesh then holds every record's values and placeholder; otherwise it raises the loop's exception |
| `JsonReader.JsonPointCount` | __init__.py:116 | the mesh always has one point per record, and no edges |
| `JsonReader.JsonImportSucceeds` | __init__.py:130-157 | the import succeeds exactly when every record has every key and every value converts; it then reports all records, each at its placeholder |
| `JsonReader.FinishedConverts` | __init__.py:134-143 | a finished loop met every key and converted every value |
| `JsonReader.StoppedFails` | __init__.py:134-143 | a stopped loop met a missing key or a value that does not convert |
| `JsonReader.JsonFirstError` | __init__.py:131-143 | a failed import raises the first failing field of the first failing record; a `KeyError` means that key is missing |
| `JsonReader.LoopValue` | __init__.py:135-143 | each completed point holds each field's converted value |
| `JsonReader.LoopFieldColumn` | __init__.py:134-143 | after a finished loop, field j's values over the points are its converted values over the records |
| `JsonReader.JsonImportedColumn` | __init__.py:127-146 | after a successful import, a field's channel has its declared type and exactly its converted values, at the records' indices |
| `Operators.FormatOf` | __init__.py:364-369 | JSON, CSV or GeoPackage exactly when the name ends with that extension |
| `Operators.SuffixesExclusive` | __init__.py:364-368 | a name ends with at most one of the three extensions |
| `Operators.FormatOfExtension` | __init__.py:364-369 | any stem plus an extension goes to that reader |
| `Operators.UpperCaseExtension` | __init__.py:366 | the test is case-sensitive: "data.CSV" reaches no reader |
| `Operators.ExecuteUnknown` | __init__.py:363-371 | a name with none of the extensions makes `execute` raise the `UnboundLocalError` for `report_type` |
| `Operators.AddField` | __init__.py:381-383 | adding appends the default field and selects it as the last entry |
| `Operators.ActiveAfterRemove` | __init__.py:396 | `min(max(0, index − 1), len − 1)`: in [0, len) for a non-empty list, −1 for an empty one, and the previous entry when there is one |
| `Operators.RemoveField` | __init__.py:394-396 | removal raises exactly for an index outside the list; otherwise one entry fewer, with the selection in range or −1 |
| `Operators.RemovedEntries` | __init__.py:395 | removal takes out exactly the selected entry and keeps the others in order |
| `Operators.RemoveAfterAdd` | __init__.py:381-396 | removing right after adding restores the list and selects its last entry |
| `Operators.RemoveSelectsPrevious` | __init__.py:394-396 | after removal the selection is the entry that preceded the removed one |
| `Operators.ImportOperator.constructor` | __init__.py:308-350 | the settings start with no fields, selection 0, an empty array name, the delimiter "," and no lines discarded |
| `Operators.ImportOperator.Execute` | __init__.py:363-372 | the extension's reader runs; its report is appended and FINISHED returned, or its exception is raised with no report; settings unchanged |
| `Operators.ImportOperator.AddDataField` | __init__.py:378-385 | the field list becomes `AddField` of the old one; other settings unchanged |
| `Operators.ImportOperator.RemoveDataField` | __init__.py:391-397 | the field list becomes `RemoveField` of the old one, or stays unchanged when that raises |

## Left out

- The host's scene and UI are not part of this model. This covers
  `create_object`, `mesh.update` and `mesh.validate`, panels, lists, menus,
  `register`/`unregister`, and the runtime `pip` install of geopandas. The
  model records only whether the CSV reader would create an object.
- File opening, text encodings, `csv.DictReader`, `json.load` and
  `gpd.read_file` are foreign parsers. Their results are parameters of the
  readers. Errors from `csv.DictReader` itself (such as `csv.Error`, or
  `restkey` for overlong rows) are not modelled.
- The JSON document is reduced to a map from array name to records. A
  top-level value that is not an object, and array elements that are not
  objects, are not modelled.
- The mesh each of the model's readers returns is not kept by the operator.
  The Python readers do not return it at all.
- Floating point is modelled as exact reals. The placeholder position
  `0.01 * i` is exact here.
- PyValues.FloatOfStr: accepts only an optional sign, digits and at most one
  '.'. Exponents, `inf`, `nan`, surrounding whitespace, underscores and non-ASCII
  Unicode decimal digits are not modelled, so such texts raise here where Python would convert them.
- PyValues.IntOfStr: does not accept surrounding whitespace, underscores or
  non-ASCII Unicode decimal digits, which Python's `int()` allows.
- PyValues.FloatOfWord: covers only texts opening with an ASCII letter other
  than i, I, n and N. Python's `float()` converts `inf`, `infinity` and `nan` in
  any case, and texts with surrounding whitespace or non-ASCII digits.
- Reports.Basename: splits only at '/', as on POSIX. On Windows,
  `bpy.path.basename` also splits at a backslash and after a drive prefix.
- PyValues.StrRepr: escapes only backslash, the quote, `\n`, `\r` and `\t`.
  Other non-printable characters are shown as they are.
- Enums.Unique: values of different Python types are never equal here, while
  in Python `1`, `1.0` and `True` are. Python's NaN is not modelled.
- Enums.MapThrough: the `astype('uint8')` wrap-around for more than 256 codes
  is not modelled, because codes stay unbounded naturals. A missing code
  (NaN in pandas) stands as `None`.
- Sink.Mesh.SetColumn: the host checks that a bulk write has one value per
  point and converts the values to the channel's type. Neither is modelled;
  the values are stored as given. Because of this, the GeoPackage reader's
  column write onto a mesh with no vertices succeeds here, where the host
  would raise.
- Sink.Declare: the host gives a duplicate attribute name a new, suffixed
  channel. The model keeps the existing channel, which is the one every later
  lookup by that name finds.
- DataFields.Coerce: the host's check that a written value fits the
  attribute's type is not modelled. Neither is the 32-bit range of INT
  attributes.
- GeoPackage.ShapeOf: the geometry types are shapely's seven: Point,
  MultiPoint, LineString, MultiLineString, Polygon, MultiPolygon and
  GeometryCollection. LinearRing, empty geometries and missing (`None`)
  geometries are not modelled. The `reshape` of the flat coordinate array is a
  representation detail and is not modelled either.
- Operators.ImportOperator.constructor: the encoding settings and the file
  filter are not modelled. The `min=0` bound of the discard count is also not
  modelled, since the reader treats a non-positive count as zero anyway.
- The texts of exceptions raised by the host and by libraries are not in
  `__init__.py`; the model's texts for them are assumptions. This covers
  `Operators.InvalidIndex` (the collection's `remove`),
  `GeoPackage.AttributeNotFound` (the attribute lookup),
  `CsvReader.DelimiterError` (`csv.DictReader`'s delimiter check),
  `GeoPackage.PolygonCoordinates` and `GeoPackage.MultiPartCoordinates`
  (shapely), the `ValueError` of `GeoPackage.PointPosition` (geopandas), and the `TypeError` texts of
  `PyValues.ToFloat` and `PyValues.ToInt` on `None`.

/** `read_gpkg_data`: one GeoPackage layer becomes a point cloud or a polyline
    mesh. The declared fields are copied column by column (ENUM columns through
    their code table); the first feature's geometry family decides whether the
    features become line runs joined by edges, one point each, or nothing. */
module GeoPackage {
  import opened PyValues
  import opened Sink
  import opened DataFields
  import opened Enums
  import opened LineEdges
  import opened Reports

  datatype Coord = Coord(x: real, y: real)

  /** A feature's geometry, one constructor per shapely geometry type a
      GeoPackage layer holds. Polygons carry no coordinates here, since the reader
      never reaches them; a MultiPolygon carries only its number of parts. */
  datatype Geometry =
    | Point(x: real, y: real)
    | MultiPoint(points: seq<Coord>)
    | LineString(coords: seq<Coord>)
    | MultiLineString(parts: seq<seq<Coord>>)
    | Polygon
    | MultiPolygon(polygonCount: nat)
    | GeometryCollection

  /** What `gpd.read_file` yields: named columns and the geometry column, one
      entry per feature. */
  datatype Layer = Layer(columns: map<string, seq<PyValue>>, geometry: seq<Geometry>)

  /** The `layer=` argument: the named layer, or layer 0 when no name is given. */
  datatype LayerRequest = FirstLayer | NamedLayer(name: string)

  function RequestFor(layerName: string): (q: LayerRequest)
    ensures q == FirstLayer <==> layerName == ""
    ensures q.NamedLayer? ==> q.name == layerName
  {
    if |layerName| > 0 then NamedLayer(layerName) else FirstLayer
  }

  // ---------------------------------------------------------------------------
  // First pass: the enum code tables
  // ---------------------------------------------------------------------------

  predicate EnumReady(layer: Layer, f: DataField)
  {
    f.dataType == ENUM ==> f.name in layer.columns
  }

  /** `enum_maps`: one code table per ENUM field, built from its column; an
      ENUM field without a column raises `KeyError`. */
  function EnumMaps(layer: Layer, fields: seq<DataField>): (r: Outcome<map<string, map<PyValue, nat>>>)
    ensures r.Returned? <==> forall j :: 0 <= j < |fields| ==> EnumReady(layer, fields[j])
    ensures r.Returned? ==> forall j :: 0 <= j < |fields| && fields[j].dataType == ENUM ==> fields[j].name in r.value
    ensures r.Returned? ==> forall c :: c in r.value ==> c in layer.columns && r.value[c] == EnumTable(layer.columns[c])
    ensures r.Raised? ==> r.error.KeyError?
  {
    if fields == [] then Returned(map[])
    else
      var n := |fields| - 1;
      var f := fields[n];
      assert forall j :: 0 <= j < n ==> fields[j] == fields[..n][j];
      match EnumMaps(layer, fields[..n])
      case Raised(e) => Raised(e)
      case Returned(maps) =>
        if f.dataType != ENUM then Returned(maps)
        else if f.name !in layer.columns then Raised(KeyError(StrRepr(f.name)))
        else Returned(maps[f.name := EnumTable(layer.columns[f.name])])
  }

  /** The first ENUM field without a column decides the `KeyError`. */
  lemma {:induction false} EnumMapsFirstMissing(layer: Layer, fields: seq<DataField>, k: nat)
    requires k < |fields| && !EnumReady(layer, fields[k])
    requires forall j :: 0 <= j < k ==> EnumReady(layer, fields[j])
    ensures EnumMaps(layer, fields) == Raised(KeyError(StrRepr(fields[k].name)))
  {
    var n := |fields| - 1;
    if k < n {
      assert forall j :: 0 <= j < k ==> fields[..n][j] == fields[j];
      EnumMapsFirstMissing(layer, fields[..n], k);
    } else {
      assert forall j :: 0 <= j < n ==> fields[..n][j] == fields[j];
    }
  }

  /** Once a prefix of the fields raises, the whole pass raises the same. */
  lemma {:induction false} EnumMapsRaisedPrefix(layer: Layer, fields: seq<DataField>, j: nat)
    requires j <= |fields| && EnumMaps(layer, fields[..j]).Raised?
    ensures EnumMaps(layer, fields) == EnumMaps(layer, fields[..j])
  {
    if j < |fields| {
      var n := |fields| - 1;
      assert fields[..n][..j] == fields[..j];
      EnumMapsRaisedPrefix(layer, fields[..n], j);
    } else {
      assert fields[..j] == fields;
    }
  }

  // ---------------------------------------------------------------------------
  // Second pass: whole-column writes
  // ---------------------------------------------------------------------------

  /** How a field-by-field pass ended. */
  datatype Halt = Completed | Halted(error: PyError)

  /** The attribute channels after a pass, and how it ended. */
  datatype Pass = Pass(attrs: map<string, Attribute>, halt: Halt)

  /** What the host raises for `mesh.attributes[name]` when no channel has that name. */
  function AttributeNotFound(name: string): PyError
  {
    KeyError(StrRepr("bpy_prop_collection[key]: key \"" + name + "\" not found"))
  }

  /** The values written for a field: the column mapped through its code table
      for ENUM, the column itself otherwise. */
  function ColumnValues(layer: Layer, maps: map<string, map<PyValue, nat>>, f: DataField): seq<PyValue>
    requires f.name in layer.columns && (f.dataType == ENUM ==> f.name in maps)
  {
    if f.dataType == ENUM then MapThrough(layer.columns[f.name], maps[f.name]) else layer.columns[f.name]
  }

  predicate MapsCover(layer: Layer, maps: map<string, map<PyValue, nat>>, fields: seq<DataField>)
  {
    forall j :: 0 <= j < |fields| && fields[j].dataType == ENUM && fields[j].name in layer.columns ==> fields[j].name in maps
  }

  /** The column pass: field after field, the column is looked up (a missing one
      raises `KeyError(name)`), then the channel under the field's raw name (a
      missing one raises the host's `KeyError`), and the whole channel replaced. */
  function WriteColumns(attrs: map<string, Attribute>, layer: Layer, maps: map<string, map<PyValue, nat>>, fields: seq<DataField>): (p: Pass)
    requires MapsCover(layer, maps, fields)
    ensures p.attrs.Keys == attrs.Keys
    ensures forall a :: a in attrs ==> p.attrs[a].kind == attrs[a].kind
    ensures p.halt.Halted? ==> p.halt.error.KeyError?
  {
    if fields == [] then Pass(attrs, Completed)
    else
      var n := |fields| - 1;
      var f := fields[n];
      assert MapsCover(layer, maps, fields[..n]) by {
        assert forall j :: 0 <= j < n ==> fields[..n][j] == fields[j];
      }
      var p := WriteColumns(attrs, layer, maps, fields[..n]);
      if p.halt.Halted? then p
      else if f.name !in layer.columns then Pass(p.attrs, Halted(KeyError(StrRepr(f.name))))
      else if f.name !in p.attrs then Pass(p.attrs, Halted(AttributeNotFound(f.name)))
      else Pass(p.attrs[f.name := Attribute(p.attrs[f.name].kind, Column(ColumnValues(layer, maps, f)))], Completed)
  }

  lemma {:induction false} WriteColumnsHaltedPrefix(attrs: map<string, Attribute>, layer: Layer, maps: map<string, map<PyValue, nat>>, fields: seq<DataField>, j: nat)
    requires MapsCover(layer, maps, fields)
    requires j <= |fields|
    requires MapsCover(layer, maps, fields[..j])
    requires WriteColumns(attrs, layer, maps, fields[..j]).halt.Halted?
    ensures WriteColumns(attrs, layer, maps, fields) == WriteColumns(attrs, layer, maps, fields[..j])
  {
    if j < |fields| {
      var n := |fields| - 1;
      assert fields[..n][..j] == fields[..j];
      assert forall i :: 0 <= i < n ==> fields[..n][i] == fields[i];
      WriteColumnsHaltedPrefix(attrs, layer, maps, fields[..n], j);
    } else {
      assert fields[..j] == fields;
    }
  }

  /** A completed pass leaves in each field's channel that field's column, unless
      a later field writes the same channel. */
  lemma {:induction false} WrittenColumn(attrs: map<string, Attribute>, layer: Layer, maps: map<string, map<PyValue, nat>>, fields: seq<DataField>, j: nat)
    requires MapsCover(layer, maps, fields)
    requires WriteColumns(attrs, layer, maps, fields).halt == Completed
    requires j < |fields|
    requires forall k :: j < k < |fields| ==> fields[k].name != fields[j].name
    ensures fields[j].name in layer.columns && fields[j].name in attrs
    ensures WriteColumns(attrs, layer, maps, fields).attrs[fields[j].name]
         == Attribute(attrs[fields[j].name].kind, Column(ColumnValues(layer, maps, fields[j])))
  {
    var n := |fields| - 1;
    assert forall i :: 0 <= i < n ==> fields[..n][i] == fields[i];
    if j < n {
      WrittenColumn(attrs, layer, maps, fields[..n], j);
    }
  }

  // ---------------------------------------------------------------------------
  // Geometry
  // ---------------------------------------------------------------------------

  datatype Family = LineFamily | PointFamily | NoFamily

  /** The branch the first feature's `geom_type` selects: "LineString" is looked
      for first, then "Point", as substrings of the type name, so the multi-part
      types follow their parts. */
  function FamilyOf(g: Geometry): Family
  {
    match g
    case LineString(_) => LineFamily
    case MultiLineString(_) => LineFamily
    case Point(_, _) => PointFamily
    case MultiPoint(_) => PointFamily
    case Polygon => NoFamily
    case MultiPolygon(_) => NoFamily
    case GeometryCollection => NoFamily
  }

  /** Whether the line comprehension finds coordinates for a feature: polygons
      have none, a MultiPolygon has none as soon as it has a part, and a
      GeometryCollection (no "Multi" in its name) is asked for `coords` itself. */
  predicate HasCoordinates(g: Geometry)
  {
    !(g.Polygon? || g.GeometryCollection? || (g.MultiPolygon? && g.polygonCount > 0))
  }

  /** The coordinate lists of a MultiPoint's parts, `[geo.coords for geo in g.geoms]`:
      one single-coordinate list per point. */
  function PointParts(ps: seq<Coord>): (parts: seq<seq<Coord>>)
    ensures |parts| == |ps|
    ensures forall i :: 0 <= i < |ps| ==> parts[i] == [ps[i]]
  {
    seq(|ps|, i requires 0 <= i < |ps| => [ps[i]])
  }

  /** One feature's run in a line layer. A type with "Multi" in its name is
      flattened through its parts (`g.geoms`); any other type is asked for its
      `coords`, which a point has (its one coordinate) and a polygon or a
      collection does not. */
  function LineRun(g: Geometry): (r: Outcome<seq<Coord>>)
    ensures r.Returned? <==> HasCoordinates(g)
    ensures r.Raised? ==> r.error.NotImplementedError?
  {
    match g
    case Point(x, y) => Returned([Coord(x, y)])
    case MultiPoint(ps) => Returned(Flatten(PointParts(ps)))
    case LineString(cs) => Returned(cs)
    case MultiLineString(parts) => Returned(Flatten(parts))
    case Polygon => Raised(PolygonCoordinates)
    case MultiPolygon(n) => if n == 0 then Returned([]) else Raised(PolygonCoordinates)
    case GeometryCollection => Raised(MultiPartCoordinates)
  }

  /** shapely's error for the `coords` of a polygon. */
  const PolygonCoordinates: PyError :=
    NotImplementedError("Component rings have coordinate sequences, but the polygon does not")

  /** shapely's error for the `coords` of a multi-part geometry. */
  const MultiPartCoordinates: PyError :=
    NotImplementedError("Sub-geometries may have coordinate sequences, but multi-part geometries do not")

  /** A MultiPoint feature in a line layer is one run: its points, in order. */
  lemma {:induction false} MultiPointRun(ps: seq<Coord>)
    ensures Flatten(PointParts(ps)) == ps
  {
    if ps != [] {
      var n := |ps| - 1;
      assert PointParts(ps)[..n] == PointParts(ps[..n]);
      MultiPointRun(ps[..n]);
      assert ps == ps[..n] + [ps[n]];
    }
  }

  /** The run of a feature in a line layer that has coordinates: what each type yields. */
  lemma LineRunValue(g: Geometry)
    requires HasCoordinates(g)
    ensures g.Point? ==> LineRun(g).value == [Coord(g.x, g.y)]
    ensures g.MultiPoint? ==> LineRun(g).value == g.points
    ensures g.LineString? ==> LineRun(g).value == g.coords
    ensures g.MultiLineString? ==> LineRun(g).value == Flatten(g.parts)
    ensures g.MultiPolygon? ==> LineRun(g).value == []
  {
    if g.MultiPoint? {
      MultiPointRun(g.points);
    }
  }

  /** One feature's vertex in a point layer: `geometry.x` and `geometry.y`
      exist only for points. */
  function PointPosition(g: Geometry): (r: Outcome<Vec3>)
    ensures r.Returned? <==> g.Point?
    ensures r.Returned? ==> r.value == Vec3(g.x, g.y, 0.0)
    ensures r.Raised? ==> r.error.ValueError?
  {
    if g.Point? then Returned(Vec3(g.x, g.y, 0.0))
    else Raised(ValueError("x attribute access only provided for Point geometries"))
  }

  /** Coordinates lifted onto the ground plane: `(x, y, 0)`. */
  function Positions(cs: seq<Coord>): (vs: seq<Vec3>)
    ensures |vs| == |cs|
    ensures forall i :: 0 <= i < |cs| ==> vs[i] == Vec3(cs[i].x, cs[i].y, 0.0)
  {
    seq(|cs|, i requires 0 <= i < |cs| => Vec3(cs[i].x, cs[i].y, 0.0))
  }

  /** The vertices and edges a layer's geometry column becomes. */
  datatype Shape = Shape(vertices: seq<Vec3>, edges: seq<(nat, nat)>)

  /** The geometry branch: the first feature's family decides; a line layer gives
      the flattened runs and their edges, a point layer one vertex per feature,
      any other layer nothing. Every vertex lies on z = 0. */
  function ShapeOf(geometry: seq<Geometry>): (r: Outcome<Shape>)
    requires |geometry| > 0
    ensures r.Returned? ==> forall i :: 0 <= i < |r.value.vertices| ==> r.value.vertices[i].z == 0.0
  {
    match FamilyOf(geometry[0])
    case LineFamily =>
      (match MapOutcome(LineRun, geometry)
       case Raised(e) => Raised(e)
       case Returned(runs) => Returned(Shape(Positions(Flatten(runs)), Edges(runs))))
    case PointFamily =>
      (match MapOutcome(PointPosition, geometry)
       case Raised(e) => Raised(e)
       case Returned(vs) => Returned(Shape(vs, [])))
    case NoFamily => Returned(Shape([], []))
  }

  // ---------------------------------------------------------------------------
  // The whole reader
  // ---------------------------------------------------------------------------

  /** The mesh a run leaves behind and what the reader returns or raises. */
  datatype Run = Run(data: MeshData, outcome: Outcome<Report>)

  /** `read_gpkg_data` once the layer is loaded, on a fresh mesh. */
  function Import(layer: Layer, path: string, fields: seq<DataField>): Run
  {
    var attrs := DeclareAll(map[], fields);
    var start := MeshData([], [], attrs);
    match EnumMaps(layer, fields)
    case Raised(e) => Run(start, Raised(e))
    case Returned(maps) =>
      var p := WriteColumns(attrs, layer, maps, fields);
      var written := start.(attributes := p.attrs);
      if p.halt.Halted? then Run(written, Raised(p.halt.error))
      else if |layer.geometry| == 0 then Run(written, Raised(KeyError("0")))
      else
        match ShapeOf(layer.geometry)
        case Raised(e) => Run(written, Raised(e))
        case Returned(shape) =>
          Run(written.(vertices := shape.vertices, edges := shape.edges), Returned(ImportedReport(|layer.geometry|, path)))
  }

  /** The first loop: `enum_maps` built field by field. */
  method BuildEnumMaps(layer: Layer, fields: seq<DataField>) returns (r: Outcome<map<string, map<PyValue, nat>>>)
    ensures r == EnumMaps(layer, fields)
  {
    var maps: map<string, map<PyValue, nat>> := map[];
    for j := 0 to |fields|
      invariant EnumMaps(layer, fields[..j]) == Returned(maps)
    {
      var f := fields[j];
      assert fields[..j + 1][..j] == fields[..j];
      if f.dataType == ENUM {
        if f.name !in layer.columns {
          EnumMapsRaisedPrefix(layer, fields, j + 1);
          return Raised(KeyError(StrRepr(f.name)));
        }
        var uniqueValues := Unique(layer.columns[f.name]);
        maps := maps[f.name := CodeTable(uniqueValues)];
      }
    }
    assert fields[..|fields|] == fields;
    r := Returned(maps);
  }

  /** The second loop: each field's column written into its channel. */
  method WriteColumnsInto(m: Mesh, layer: Layer, maps: map<string, map<PyValue, nat>>, fields: seq<DataField>) returns (halt: Halt)
    requires MapsCover(layer, maps, fields)
    modifies m
    ensures Pass(m.attributes, halt) == WriteColumns(old(m.attributes), layer, maps, fields)
    ensures m.vertices == old(m.vertices) && m.edges == old(m.edges)
  {
    for j := 0 to |fields|
      invariant MapsCover(layer, maps, fields[..j])
      invariant WriteColumns(old(m.attributes), layer, maps, fields[..j]) == Pass(m.attributes, Completed)
      invariant m.vertices == old(m.vertices) && m.edges == old(m.edges)
    {
      var f := fields[j];
      assert fields[..j + 1][..j] == fields[..j];
      assert MapsCover(layer, maps, fields[..j + 1]) by {
        assert forall i :: 0 <= i < j + 1 ==> fields[..j + 1][i] == fields[i];
      }
      if f.name !in layer.columns {
        WriteColumnsHaltedPrefix(old(m.attributes), layer, maps, fields, j + 1);
        return Halted(KeyError(StrRepr(f.name)));
      }
      var column := layer.columns[f.name];
      var v := if f.dataType == ENUM then MapThrough(column, maps[f.name]) else column;
      if f.name !in m.attributes {
        WriteColumnsHaltedPrefix(old(m.attributes), layer, maps, fields, j + 1);
        return Halted(AttributeNotFound(f.name));
      }
      m.SetColumn(f.name, v);
    }
    assert fields[..|fields|] == fields;
    halt := Completed;
  }

  /** The geometry branch: `linestring_set`, the edge loop and the flattened
      vertex list for a line layer; `(x, y, 0)` per feature for a point layer. */
  method BuildShape(geometry: seq<Geometry>) returns (r: Outcome<Shape>)
    requires |geometry| > 0
    ensures r == ShapeOf(geometry)
  {
    match FamilyOf(geometry[0]) {
      case LineFamily =>
        var lineSet := MapOutcome(LineRun, geometry);
        if lineSet.Raised? {
          return Raised(lineSet.error);
        }
        var edges := BuildEdges(lineSet.value);
        r := Returned(Shape(Positions(Flatten(lineSet.value)), edges));
      case PointFamily =>
        var points := MapOutcome(PointPosition, geometry);
        if points.Raised? {
          return Raised(points.error);
        }
        r := Returned(Shape(points.value, []));
      case NoFamily =>
        r := Returned(Shape([], []));
    }
  }

  /** `read_gpkg_data(context, path, layer_name, fields)` with `gpd.read_file`
      given as `readFile`. A failing read raises before any mesh exists. */
  method ReadGpkg(readFile: LayerRequest -> Outcome<Layer>, path: string, layerName: string, fields: seq<DataField>)
    returns (mesh: Mesh?, result: Outcome<Report>)
    ensures readFile(RequestFor(layerName)).Raised? ==>
      mesh == null && result == Raised(readFile(RequestFor(layerName)).error)
    ensures readFile(RequestFor(layerName)).Returned? ==>
      mesh != null && fresh(mesh) && mesh.name == "gpkg_" + layerName &&
      Run(mesh.Data(), result) == Import(readFile(RequestFor(layerName)).value, path, fields)
  {
    var loaded := readFile(RequestFor(layerName));
    if loaded.Raised? {
      return null, Raised(loaded.error);
    }
    var layer := loaded.value;
    var m := new Mesh("gpkg_" + layerName);
    mesh := m;
    AddDataFields(m, fields);
    ghost var attrs := DeclareAll(map[], fields);
    assert m.Data() == MeshData([], [], attrs);
    var maps := BuildEnumMaps(layer, fields);
    if maps.Raised? {
      return m, Raised(maps.error);
    }
    var halt := WriteColumnsInto(m, layer, maps.value, fields);
    ghost var written := WriteColumns(attrs, layer, maps.value, fields).attrs;
    assert m.Data() == MeshData([], [], written);
    if halt.Halted? {
      return m, Raised(halt.error);
    }
    if |layer.geometry| == 0 {
      return m, Raised(KeyError("0"));
    }
    var shape := BuildShape(layer.geometry);
    if shape.Raised? {
      return m, Raised(shape.error);
    }
    m.AddEdges(shape.value.edges);
    m.AddVertices(|shape.value.vertices|);
    m.SetPositions(shape.value.vertices);
    assert m.Data() == MeshData(shape.value.vertices, shape.value.edges, written);
    result := Returned(ImportedReport(|layer.geometry|, path));
  }

  // ---------------------------------------------------------------------------
  // Properties
  // ---------------------------------------------------------------------------

  /** The reader returns exactly when every ENUM field has a column, every field
      has a column and a channel, the layer is not empty and its geometry can be
      read; the mesh then holds the written channels and the layer's shape, and
      the report counts the features. */
  lemma ImportSucceeds(layer: Layer, path: string, fields: seq<DataField>)
    ensures Import(layer, path, fields).outcome.Returned? <==>
      EnumMaps(layer, fields).Returned? &&
      WriteColumns(DeclareAll(map[], fields), layer, EnumMaps(layer, fields).value, fields).halt == Completed &&
      |layer.geometry| > 0 && ShapeOf(layer.geometry).Returned?
    ensures Import(layer, path, fields).outcome.Returned? ==>
      Import(layer, path, fields).outcome.value == ImportedReport(|layer.geometry|, path) &&
      Import(layer, path, fields).data == MeshData(
        ShapeOf(layer.geometry).value.vertices, ShapeOf(layer.geometry).value.edges,
        WriteColumns(DeclareAll(map[], fields), layer, EnumMaps(layer, fields).value, fields).attrs)
  {
  }

  /** A line layer's shape: one vertex per coordinate of the flattened runs and
      exactly the within-run edges; a point layer's: one vertex per feature and
      no edges; any other layer's: nothing. */
  lemma ShapeCounts(geometry: seq<Geometry>)
    requires |geometry| > 0 && ShapeOf(geometry).Returned?
    ensures FamilyOf(geometry[0]) == LineFamily ==>
      MapOutcome(LineRun, geometry).Returned? &&
      |ShapeOf(geometry).value.vertices| == |Flatten(MapOutcome(LineRun, geometry).value)| &&
      ShapeOf(geometry).value.edges == Edges(MapOutcome(LineRun, geometry).value)
    ensures FamilyOf(geometry[0]) == PointFamily ==>
      |ShapeOf(geometry).value.vertices| == |geometry| && ShapeOf(geometry).value.edges == []
    ensures FamilyOf(geometry[0]) == NoFamily ==>
      ShapeOf(geometry).value == Shape([], [])
  {
  }

  /** Which layers fail in the geometry branch: a line layer holding a feature
      with no coordinate sequence, a point layer holding a feature that is not a
      point. */
  lemma ShapeFailures(geometry: seq<Geometry>)
    requires |geometry| > 0
    ensures FamilyOf(geometry[0]) == LineFamily ==>
      (ShapeOf(geometry).Raised? <==> exists k :: 0 <= k < |geometry| && !HasCoordinates(geometry[k]))
    ensures FamilyOf(geometry[0]) == PointFamily ==>
      (ShapeOf(geometry).Raised? <==> exists k :: 0 <= k < |geometry| && !geometry[k].Point?)
    ensures FamilyOf(geometry[0]) == NoFamily ==> ShapeOf(geometry).Returned?
  {
    LineRunsFail(geometry);
    PositionsFail(geometry);
  }

  /** The line branch's comprehension raises exactly for a feature with no
      coordinates, and then with shapely's `NotImplementedError`. */
  lemma LineRunsFail(geometry: seq<Geometry>)
    ensures MapOutcome(LineRun, geometry).Raised? <==> exists k :: 0 <= k < |geometry| && !HasCoordinates(geometry[k])
    ensures MapOutcome(LineRun, geometry).Raised? ==> MapOutcome(LineRun, geometry).error.NotImplementedError?
  {
    if exists k :: 0 <= k < |geometry| && !HasCoordinates(geometry[k]) {
      var k :| 0 <= k < |geometry| && !HasCoordinates(geometry[k]);
      assert LineRun(geometry[k]).Raised?;
    }
  }

  /** The point branch's comprehension raises exactly for a feature that is not a point. */
  lemma PositionsFail(geometry: seq<Geometry>)
    ensures MapOutcome(PointPosition, geometry).Raised? <==> exists k :: 0 <= k < |geometry| && !geometry[k].Point?
  {
    if exists k :: 0 <= k < |geometry| && !geometry[k].Point? {
      var k :| 0 <= k < |geometry| && !geometry[k].Point?;
      assert PointPosition(geometry[k]).Raised?;
    }
  }

  /** In a point layer's shape, vertex `i` is feature `i`'s point. */
  lemma ShapePoint(geometry: seq<Geometry>, i: nat)
    requires |geometry| > 0 && ShapeOf(geometry).Returned?
    requires FamilyOf(geometry[0]) == PointFamily && i < |geometry|
    ensures geometry[i].Point?
    ensures ShapeOf(geometry).value.vertices[i] == Vec3(geometry[i].x, geometry[i].y, 0.0)
  {
    var vs := MapOutcome(PointPosition, geometry);
    assert PointPosition(geometry[i]) == Returned(vs.value[i]);
  }

  /** In a line layer's shape, point `j` of feature `k`'s run is vertex
      `Start(runs, k) + j`, and it is joined by an edge to the next point of its run. */
  lemma ShapeRun(geometry: seq<Geometry>, k: nat, j: nat)
    requires |geometry| > 0 && FamilyOf(geometry[0]) == LineFamily
    requires MapOutcome(LineRun, geometry).Returned?
    requires k < |geometry| && j < |MapOutcome(LineRun, geometry).value[k]|
    ensures var runs: seq<seq<Coord>> := MapOutcome(LineRun, geometry).value;
      var g := Start(runs, k) + j;
      ShapeOf(geometry).Returned? &&
      g < |ShapeOf(geometry).value.vertices| &&
      ShapeOf(geometry).value.vertices[g] == Vec3(runs[k][j].x, runs[k][j].y, 0.0) &&
      (j + 1 < |runs[k]| ==> (g, g + 1) in ShapeOf(geometry).value.edges)
  {
    var runs := MapOutcome(LineRun, geometry).value;
    assert ShapeOf(geometry) == Returned(Shape(Positions(Flatten(runs)), Edges(runs)));
    FlattenAt(runs, k, j);
    if j + 1 < |runs[k]| {
      EdgeInsideRun(runs, k, j);
    }
  }

  /** The parts of a MultiLineString form one run: the last point of a part is
      joined by an edge to the first point of the next part. */
  lemma MultiPartJoined(geometry: seq<Geometry>, k: nat, m: nat)
    requires MapOutcome(LineRun, geometry).Returned?
    requires k < |geometry| && geometry[k].MultiLineString?
    requires m + 1 < |geometry[k].parts| && geometry[k].parts[m] != [] && geometry[k].parts[m + 1] != []
    ensures var runs: seq<seq<Coord>> := MapOutcome(LineRun, geometry).value;
      var parts := geometry[k].parts;
      var g := Start(runs, k) + Start(parts, m + 1);
      0 < g < |Flatten(runs)| &&
      Flatten(runs)[g - 1] == parts[m][|parts[m]| - 1] &&
      Flatten(runs)[g] == parts[m + 1][0] &&
      (g - 1, g) in Edges(runs)
  {
    var runs := MapOutcome(LineRun, geometry).value;
    var parts := geometry[k].parts;
    assert runs[k] == Flatten(parts) by {
      assert LineRun(geometry[k]) == Returned(runs[k]);
    }
    NestedRunsJoined(runs, k, parts, m);
  }

  /** Field columns after a successful import: a field's channel holds the
      layer's column as it is, or for ENUM its codes from `EncodeColumn`. */
  lemma ImportedColumn(layer: Layer, path: string, fields: seq<DataField>, j: nat)
    requires Import(layer, path, fields).outcome.Returned?
    requires j < |fields|
    requires forall k :: j < k < |fields| ==> fields[k].name != fields[j].name
    ensures fields[j].name in layer.columns && fields[j].name in Import(layer, path, fields).data.attributes
    ensures Import(layer, path, fields).data.attributes[fields[j].name].values
         == Column(if fields[j].dataType == ENUM then EncodeColumn(layer.columns[fields[j].name])
                   else layer.columns[fields[j].name])
  {
    var attrs := DeclareAll(map[], fields);
    var maps := EnumMaps(layer, fields).value;
    ImportWritten(layer, path, fields);
    WrittenColumn(attrs, layer, maps, fields, j);
  }

  /** What geopandas guarantees of a layer it read: every column has one entry
      per feature. */
  predicate WellFormed(layer: Layer)
  {
    forall name :: name in layer.columns ==> |layer.columns[name]| == |layer.geometry|
  }

  /** On a well-formed layer, a successful import leaves each field's channel
      with exactly one value per feature. */
  lemma ImportedPerFeature(layer: Layer, path: string, fields: seq<DataField>, j: nat)
    requires WellFormed(layer)
    requires Import(layer, path, fields).outcome.Returned?
    requires j < |fields|
    requires forall k :: j < k < |fields| ==> fields[k].name != fields[j].name
    ensures fields[j].name in Import(layer, path, fields).data.attributes
    ensures forall i: nat :: i in Import(layer, path, fields).data.attributes[fields[j].name].values
                         <==> i < |layer.geometry|
  {
    ImportedColumn(layer, path, fields, j);
    EncodeColumnCodes(layer.columns[fields[j].name]);
  }

  /** A returning import has built every table and completed the column pass;
      its channels are the pass's. */
  lemma ImportWritten(layer: Layer, path: string, fields: seq<DataField>)
    requires Import(layer, path, fields).outcome.Returned?
    ensures EnumMaps(layer, fields).Returned?
    ensures MapsCover(layer, EnumMaps(layer, fields).value, fields)
    ensures WriteColumns(DeclareAll(map[], fields), layer, EnumMaps(layer, fields).value, fields).halt == Completed
    ensures Import(layer, path, fields).data.attributes
         == WriteColumns(DeclareAll(map[], fields), layer, EnumMaps(layer, fields).value, fields).attrs
  {
    ImportSucceeds(layer, path, fields);
  }

  /** The error cases, in the order the reader meets them: a missing ENUM column,
      then a missing column or channel, then an empty layer. Every one is a
      `KeyError`, and none leaves an edge behind. */
  lemma ImportErrors(layer: Layer, path: string, fields: seq<DataField>)
    ensures EnumMaps(layer, fields).Raised? ==>
      Import(layer, path, fields).outcome == Raised(EnumMaps(layer, fields).error)
    ensures EnumMaps(layer, fields).Returned? && |layer.geometry| == 0 ==>
      Import(layer, path, fields).outcome.Raised? && Import(layer, path, fields).outcome.error.KeyError?
    ensures Import(layer, path, fields).outcome.Raised? ==> Import(layer, path, fields).data.edges == []
  {
  }
}

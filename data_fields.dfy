/** Field descriptors and what every reader does with them: the attribute name
    and storage type a field gets (`add_data_fields`), the coercion by type tag
    the CSV and JSON readers apply, and the per-point writes into the sink. */
module DataFields {
  import opened PyValues
  import opened Sink

  /** The type tag a user picks for a field. */
  datatype DataType = FLOAT | INT | BOOLEAN | ENUM

  datatype DataField = DataField(name: string, dataType: DataType)

  /** The new entry `data_fields.add()` appends: empty name, type FLOAT. */
  const DefaultField: DataField := DataField("", FLOAT)

  /** The host refuses an empty attribute name, so this one stands in for it. */
  const EmptyKeyName: string := "empty_key_string"

  /** The attribute name a field is stored under. */
  function AttributeName(name: string): (a: string)
    ensures a != ""
    ensures a == name <==> name != ""
    ensures name == "" ==> a == EmptyKeyName
  {
    if name != "" then name else EmptyKeyName
  }

  /** The storage type a field is allocated with: ENUM is stored as 8-bit codes,
      every other tag as its own type. */
  function AttributeTypeOf(t: DataType): (k: AttributeType)
    ensures k == Int8Attribute <==> t == ENUM
    ensures k == FloatAttribute <==> t == FLOAT
    ensures k == IntAttribute <==> t == INT
    ensures k == BooleanAttribute <==> t == BOOLEAN
  {
    match t
    case FLOAT => FloatAttribute
    case INT => IntAttribute
    case BOOLEAN => BooleanAttribute
    case ENUM => Int8Attribute
  }

  /** Whether a coerced value has the Python type its tag converts to. */
  predicate HasTagType(v: PyValue, t: DataType)
  {
    match t
    case FLOAT => v.Float?
    case INT => v.Int?
    case BOOLEAN => v.Bool?
    case ENUM => true
  }

  /** The per-field conversion of the CSV and JSON readers: `float()` for FLOAT,
      `int()` for INT, `bool()` for BOOLEAN; an ENUM value is left as it is. */
  function Coerce(t: DataType, v: PyValue): (r: Outcome<PyValue>)
    ensures r.Returned? ==> HasTagType(r.value, t)
    ensures t == ENUM ==> r == Returned(v)
    ensures t == BOOLEAN ==> r == Returned(Bool(Truth(v)))
    ensures r.Raised? ==> (t == FLOAT || t == INT)
    ensures r.Raised? ==> (r.error.ValueError? && v.Str?) || (r.error.TypeError? && v == NoneValue)
  {
    match t
    case FLOAT => ToFloat(v)
    case INT => ToInt(v)
    case BOOLEAN => Returned(Bool(Truth(v)))
    case ENUM => Returned(v)
  }

  /** Coercing an already coerced value changes nothing. */
  lemma CoerceIdempotent(t: DataType, v: PyValue)
    requires Coerce(t, v).Returned?
    ensures Coerce(t, Coerce(t, v).value) == Coerce(t, v)
  {
  }

  /** Any non-empty text is true for a BOOLEAN field; only the empty text is false. */
  lemma BooleanOfText(s: string)
    ensures Coerce(BOOLEAN, Str(s)) == Returned(Bool(s != ""))
  {
  }

  /** Decimal integer text is read as that integer by an INT field and as the
      same number by a FLOAT field. */
  lemma NumericText(n: int)
    ensures Coerce(INT, Str(ShowInt(n))) == Returned(Int(n))
    ensures Coerce(FLOAT, Str(ShowInt(n))) == Returned(Float(n as real))
  {
    IntOfShowInt(n);
    FloatOfShowInt(n);
  }

  // ---------------------------------------------------------------------------
  // add_data_fields
  // ---------------------------------------------------------------------------

  /** The attribute channels after declaring one per field, in field order. */
  function DeclareAll(attrs: map<string, Attribute>, fields: seq<DataField>): (r: map<string, Attribute>)
    ensures r.Keys == attrs.Keys + set f | f in fields :: AttributeName(f.name)
    ensures forall a :: a in attrs ==> r[a] == attrs[a]
  {
    if fields == [] then attrs
    else
      var last := fields[|fields| - 1];
      var init := fields[..|fields| - 1];
      assert forall f :: f in fields <==> f in init || f == last;
      Declare(DeclareAll(attrs, init), AttributeName(last.name), AttributeTypeOf(last.dataType))
  }

  /** The first field with a given attribute name decides its storage type, and
      a freshly declared channel holds no values. */
  lemma {:induction false} DeclaredType(attrs: map<string, Attribute>, fields: seq<DataField>, j: nat)
    requires j < |fields| && AttributeName(fields[j].name) !in attrs
    requires forall k :: 0 <= k < j ==> AttributeName(fields[k].name) != AttributeName(fields[j].name)
    ensures DeclareAll(attrs, fields)[AttributeName(fields[j].name)] == Attribute(AttributeTypeOf(fields[j].dataType), map[])
  {
    var init := fields[..|fields| - 1];
    if j < |fields| - 1 {
      DeclaredType(attrs, init, j);
    } else {
      assert AttributeName(fields[j].name) !in DeclareAll(attrs, init);
    }
  }

  /** `add_data_fields(mesh, data_fields)`. */
  method AddDataFields(mesh: Mesh, fields: seq<DataField>)
    modifies mesh
    ensures mesh.Data() == old(mesh.Data()).(attributes := DeclareAll(old(mesh.attributes), fields))
  {
    for j := 0 to |fields|
      invariant mesh.Data() == old(mesh.Data()).(attributes := DeclareAll(old(mesh.attributes), fields[..j]))
    {
      var f := fields[j];
      mesh.NewAttribute(AttributeName(f.name), AttributeTypeOf(f.dataType));
      assert fields[..j + 1][..j] == fields[..j];
    }
    assert fields[..|fields|] == fields;
  }

  // ---------------------------------------------------------------------------
  // Per-point writes
  // ---------------------------------------------------------------------------

  /** What one point writes: for each field in order, its value goes to the
      field's attribute name, so a later field sharing a name overwrites. */
  function PointRecord(fields: seq<DataField>, values: seq<PyValue>): (m: map<string, PyValue>)
    requires |values| == |fields|
  {
    if fields == [] then map[]
    else
      var n := |fields| - 1;
      PointRecord(fields[..n], values[..n])[AttributeName(fields[n].name) := values[n]]
  }

  /** The value a field's channel receives is that field's own, unless a later
      field shares its attribute name. */
  lemma {:induction false} PointRecordAt(fields: seq<DataField>, values: seq<PyValue>, j: nat)
    requires |values| == |fields| && j < |fields|
    requires forall k :: j < k < |fields| ==> AttributeName(fields[k].name) != AttributeName(fields[j].name)
    ensures AttributeName(fields[j].name) in PointRecord(fields, values)
    ensures PointRecord(fields, values)[AttributeName(fields[j].name)] == values[j]
  {
    var n := |fields| - 1;
    var a := AttributeName(fields[j].name);
    assert PointRecord(fields, values) == PointRecord(fields[..n], values[..n])[AttributeName(fields[n].name) := values[n]];
    if j < n {
      assert AttributeName(fields[n].name) != a;
      assert fields[..n][j] == fields[j] && values[..n][j] == values[j];
      assert forall k :: j < k < n ==> fields[..n][k] == fields[k];
      PointRecordAt(fields[..n], values[..n], j);
    }
  }

  /** Writing one more field's value extends the point's record by that value. */
  lemma PointRecordStep(fields: seq<DataField>, values: seq<PyValue>, j: nat)
    requires |values| == |fields| && j < |fields|
    ensures PointRecord(fields[..j + 1], values[..j + 1])
         == PointRecord(fields[..j], values[..j])[AttributeName(fields[j].name) := values[j]]
  {
    assert fields[..j + 1][..j] == fields[..j];
    assert values[..j + 1][..j] == values[..j];
  }

  /** The channels after point `i` writes `rec`; channels it does not name are untouched. */
  function WritePoint(attrs: map<string, Attribute>, i: nat, rec: map<string, PyValue>): (r: map<string, Attribute>)
    ensures r.Keys == attrs.Keys
  {
    map a | a in attrs :: if a in rec then attrs[a].(values := attrs[a].values[i := rec[a]]) else attrs[a]
  }

  /** One `SetValue` at point `i` is one more entry of that point's record. */
  lemma StoreIntoPoint(attrs: map<string, Attribute>, i: nat, rec: map<string, PyValue>, a: string, v: PyValue)
    requires a in attrs
    ensures Store(WritePoint(attrs, i, rec), a, i, v) == WritePoint(attrs, i, rec[a := v])
  {
    var l := Store(WritePoint(attrs, i, rec), a, i, v);
    var r := WritePoint(attrs, i, rec[a := v]);
    forall b | b in attrs
      ensures l[b] == r[b]
    {
      if b == a {
        var m := WritePoint(attrs, i, rec)[a].values;
        assert m[i := v] == attrs[a].values[i := v] by {
          assert m - {i} == attrs[a].values - {i};
        }
      }
    }
  }

  /** The channel of attribute `a` after rows `records` were written at their indices. */
  function ColumnOf(records: seq<map<string, PyValue>>, a: string): (m: map<nat, PyValue>)
    ensures forall i: nat :: i in m <==> i < |records| && a in records[i]
  {
    map i | 0 <= i < |records| && a in records[i] :: records[i][a]
  }

  lemma ColumnOfStep(records: seq<map<string, PyValue>>, rec: map<string, PyValue>, a: string)
    ensures ColumnOf(records + [rec], a)
         == if a in rec then ColumnOf(records, a)[|records| := rec[a]] else ColumnOf(records, a)
  {
    var n := |records|;
    var rs := records + [rec];
    var c := ColumnOf(records, a);
    var c' := ColumnOf(rs, a);
    var e := if a in rec then c[n := rec[a]] else c;
    forall i: nat
      ensures (i in c' <==> i in e) && (i in c' ==> c'[i] == e[i])
    {
      if i < n { assert rs[i] == records[i]; }
    }
  }

  /** The channels after every row of `records` was written at its index. */
  function Fill(attrs: map<string, Attribute>, records: seq<map<string, PyValue>>): (r: map<string, Attribute>)
    ensures r.Keys == attrs.Keys
    ensures forall a :: a in attrs ==> r[a].kind == attrs[a].kind
  {
    map a | a in attrs :: attrs[a].(values := attrs[a].values + ColumnOf(records, a))
  }

  /** Writing no rows changes no channel. */
  lemma FillNothing(attrs: map<string, Attribute>)
    ensures Fill(attrs, []) == attrs
  {
    forall a | a in attrs
      ensures Fill(attrs, [])[a] == attrs[a]
    {
      assert ColumnOf([], a) == map[];
      assert attrs[a].values + map[] == attrs[a].values;
    }
  }

  lemma UnionUpdate(x: map<nat, PyValue>, c: map<nat, PyValue>, n: nat, v: PyValue)
    ensures (x + c)[n := v] == x + c[n := v]
  {
  }

  /** Filling row by row: one more row is one more `WritePoint` at the next index. */
  lemma FillStep(attrs: map<string, Attribute>, records: seq<map<string, PyValue>>, rec: map<string, PyValue>)
    ensures Fill(attrs, records + [rec]) == WritePoint(Fill(attrs, records), |records|, rec)
  {
    var l := Fill(attrs, records + [rec]);
    var r := WritePoint(Fill(attrs, records), |records|, rec);
    forall a | a in attrs
      ensures l[a] == r[a]
    {
      FillStepAt(attrs, records, rec, a);
    }
    assert l.Keys == r.Keys;
  }

  /** `FillStep` for one channel. */
  lemma FillStepAt(attrs: map<string, Attribute>, records: seq<map<string, PyValue>>, rec: map<string, PyValue>, a: string)
    requires a in attrs
    ensures Fill(attrs, records + [rec])[a] == WritePoint(Fill(attrs, records), |records|, rec)[a]
  {
    var c := ColumnOf(records, a);
    assert ColumnOf(records + [rec], a) == if a in rec then c[|records| := rec[a]] else c by {
      ColumnOfStep(records, rec, a);
    }
    if a in rec {
      assert (attrs[a].values + c)[|records| := rec[a]] == attrs[a].values + c[|records| := rec[a]] by {
        UnionUpdate(attrs[a].values, c, |records|, rec[a]);
      }
    }
  }

  /** Filling freshly declared channels: the channel of a field that no later
      field shares holds exactly that field's value of every row, at the row's index. */
  lemma FilledColumn(attrs: map<string, Attribute>, fields: seq<DataField>, points: seq<seq<PyValue>>, j: nat)
    requires forall p :: p in points ==> |p| == |fields|
    requires j < |fields| && AttributeName(fields[j].name) in attrs
    requires attrs[AttributeName(fields[j].name)].values == map[]
    requires forall k :: j < k < |fields| ==> AttributeName(fields[k].name) != AttributeName(fields[j].name)
    ensures Fill(attrs, Records(fields, points))[AttributeName(fields[j].name)].values
         == Column(FieldColumn(points, j))
  {
    var a := AttributeName(fields[j].name);
    var recs := Records(fields, points);
    assert Fill(attrs, recs)[a].values == map[] + ColumnOf(recs, a);
    assert map[] + ColumnOf(recs, a) == ColumnOf(recs, a);
    RecordsColumn(fields, points, j);
  }

  /** Filling the channels `add_data_fields` declares on an empty mesh: a field
      whose attribute name no other field has gets its declared storage type and
      exactly its own value of every row. */
  lemma FilledDeclaredColumn(fields: seq<DataField>, points: seq<seq<PyValue>>, j: nat)
    requires forall p :: p in points ==> |p| == |fields|
    requires j < |fields|
    requires forall k :: 0 <= k < |fields| && k != j ==> AttributeName(fields[k].name) != AttributeName(fields[j].name)
    ensures AttributeName(fields[j].name) in Fill(DeclareAll(map[], fields), Records(fields, points))
    ensures Fill(DeclareAll(map[], fields), Records(fields, points))[AttributeName(fields[j].name)]
         == Attribute(AttributeTypeOf(fields[j].dataType), Column(FieldColumn(points, j)))
  {
    var attrs := DeclareAll(map[], fields);
    DeclaredType(map[], fields, j);
    FilledColumn(attrs, fields, points, j);
  }

  /** The values of field `j` across the rows. */
  function FieldColumn(points: seq<seq<PyValue>>, j: nat): (col: seq<PyValue>)
    requires forall p :: p in points ==> j < |p|
    ensures |col| == |points|
    ensures forall i :: 0 <= i < |points| ==> col[i] == points[i][j]
  {
    seq(|points|, i requires 0 <= i < |points| => points[i][j])
  }

  lemma RecordsColumn(fields: seq<DataField>, points: seq<seq<PyValue>>, j: nat)
    requires forall p :: p in points ==> |p| == |fields|
    requires j < |fields|
    requires forall k :: j < k < |fields| ==> AttributeName(fields[k].name) != AttributeName(fields[j].name)
    ensures ColumnOf(Records(fields, points), AttributeName(fields[j].name)) == Column(FieldColumn(points, j))
  {
    var a := AttributeName(fields[j].name);
    var recs := Records(fields, points);
    var got := ColumnOf(recs, a);
    var want := Column(FieldColumn(points, j));
    forall i: nat | i < |points|
      ensures a in recs[i] && recs[i][a] == points[i][j]
    {
      assert points[i] in points;
      PointRecordAt(fields, points[i], j);
    }
    assert forall i: nat :: i in got <==> i in want;
    assert forall i: nat :: i in got ==> got[i] == want[i];
  }

  /** The record each row of `points` writes. */
  function Records(fields: seq<DataField>, points: seq<seq<PyValue>>): (rs: seq<map<string, PyValue>>)
    requires forall p :: p in points ==> |p| == |fields|
    ensures |rs| == |points|
    ensures forall i :: 0 <= i < |points| ==> rs[i] == PointRecord(fields, points[i])
  {
    seq(|points|, i requires 0 <= i < |points| => PointRecord(fields, points[i]))
  }

  /** One more point is one more record. */
  lemma RecordsStep(fields: seq<DataField>, points: seq<seq<PyValue>>, p: seq<PyValue>)
    requires forall q :: q in points ==> |q| == |fields|
    requires |p| == |fields|
    ensures Records(fields, points + [p]) == Records(fields, points) + [PointRecord(fields, p)]
  {
  }

  // ---------------------------------------------------------------------------
  // Placeholder positions
  // ---------------------------------------------------------------------------

  /** `(0.01 * i, 0.0, 0.0)`: the tabular readers spread points along x by index. */
  function Placeholder(i: nat): (v: Vec3)
    ensures v.y == 0.0 && v.z == 0.0 && v.x >= 0.0
  {
    Vec3(0.01 * i as real, 0.0, 0.0)
  }

  function Placeholders(n: nat): (vs: seq<Vec3>)
    ensures |vs| == n
    ensures forall i, j :: 0 <= i < j < n ==> vs[i].x < vs[j].x
  {
    seq(n, i requires 0 <= i => Placeholder(i))
  }
}

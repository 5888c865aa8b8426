/** The host mesh, reduced to the sink the readers fill: a vertex list, an edge
    list, and a map from attribute name to a typed per-point value store. */
module Sink {
  import opened PyValues

  datatype Vec3 = Vec3(x: real, y: real, z: real)

  const Origin: Vec3 := Vec3(0.0, 0.0, 0.0)

  /** The attribute storage types the readers allocate (the host has no text type). */
  datatype AttributeType = FloatAttribute | IntAttribute | BooleanAttribute | Int8Attribute

  /** One named attribute channel: its storage type and the values written so
      far, addressed by point index. */
  datatype Attribute = Attribute(kind: AttributeType, values: map<nat, PyValue>)

  /** A snapshot of a mesh's state. */
  datatype MeshData = MeshData(vertices: seq<Vec3>, edges: seq<(nat, nat)>, attributes: map<string, Attribute>)

  /** `attributes.new(name, kind)`: a name already taken keeps its channel (the
      host gives the new one another name, which no reader looks up). */
  function Declare(attrs: map<string, Attribute>, name: string, kind: AttributeType): (r: map<string, Attribute>)
    ensures r.Keys == attrs.Keys + {name}
    ensures forall a :: a in attrs ==> r[a] == attrs[a]
    ensures name !in attrs ==> r[name] == Attribute(kind, map[])
  {
    if name in attrs then attrs else attrs[name := Attribute(kind, map[])]
  }

  /** `attributes[name].data[i].value = v` on an existing channel. */
  function Store(attrs: map<string, Attribute>, name: string, i: nat, v: PyValue): (r: map<string, Attribute>)
    requires name in attrs
    ensures r.Keys == attrs.Keys
    ensures r[name].kind == attrs[name].kind && r[name].values == attrs[name].values[i := v]
    ensures forall a :: a in attrs && a != name ==> r[a] == attrs[a]
  {
    attrs[name := attrs[name].(values := attrs[name].values[i := v])]
  }

  /** The per-point store holding `vs[i]` at point `i`, as a bulk write leaves it. */
  function Column(vs: seq<PyValue>): (m: map<nat, PyValue>)
    ensures forall i: nat :: i in m <==> i < |vs|
    ensures forall i :: 0 <= i < |vs| ==> m[i] == vs[i]
  {
    map i | 0 <= i < |vs| :: vs[i]
  }

  class Mesh {
    const name: string
    var vertices: seq<Vec3>
    var edges: seq<(nat, nat)>
    var attributes: map<string, Attribute>

    function Data(): MeshData
      reads this
    {
      MeshData(vertices, edges, attributes)
    }

    /** `bpy.data.meshes.new(name)`: an empty mesh. */
    constructor (name: string)
      ensures this.name == name
      ensures Data() == MeshData([], [], map[])
    {
      this.name := name;
      vertices := [];
      edges := [];
      attributes := map[];
    }

    /** `mesh.attributes.new(name, type, 'POINT')`. */
    method NewAttribute(attrName: string, kind: AttributeType)
      modifies this
      ensures Data() == old(Data()).(attributes := Declare(old(attributes), attrName, kind))
    {
      attributes := Declare(attributes, attrName, kind);
    }

    /** `mesh.vertices.add(n)`: n new points at the origin. */
    method AddVertices(n: nat)
      modifies this
      ensures Data() == old(Data()).(vertices := old(vertices) + seq(n, _ => Origin))
    {
      vertices := vertices + seq(n, _ => Origin);
    }

    /** `mesh.vertices[i].co = co`. */
    method SetPosition(i: nat, co: Vec3)
      requires i < |vertices|
      modifies this
      ensures Data() == old(Data()).(vertices := old(vertices)[i := co])
    {
      vertices := vertices[i := co];
    }

    /** `mesh.vertices.foreach_set('co', ...)`: every position at once. */
    method SetPositions(cos: seq<Vec3>)
      requires |cos| == |vertices|
      modifies this
      ensures Data() == old(Data()).(vertices := cos)
    {
      vertices := cos;
    }

    /** `mesh.attributes[name].data[i].value = v`. */
    method SetValue(attrName: string, i: nat, v: PyValue)
      requires attrName in attributes && i < |vertices|
      modifies this
      ensures Data() == old(Data()).(attributes := Store(old(attributes), attrName, i, v))
    {
      attributes := Store(attributes, attrName, i, v);
    }

    /** `mesh.attributes[name].data.foreach_set('value', vs)`. */
    method SetColumn(attrName: string, vs: seq<PyValue>)
      requires attrName in attributes
      modifies this
      ensures Data() == old(Data()).(attributes := old(attributes)[attrName := Attribute(old(attributes)[attrName].kind, Column(vs))])
    {
      attributes := attributes[attrName := Attribute(attributes[attrName].kind, Column(vs))];
    }

    /** `mesh.edges.add(len(es))` followed by `foreach_set('vertices', es)`. */
    method AddEdges(es: seq<(nat, nat)>)
      modifies this
      ensures Data() == old(Data()).(edges := old(edges) + es)
    {
      edges := edges + es;
    }
  }
}

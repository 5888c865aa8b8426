/** The GeoPackage reader's enum encoding: the distinct values of a column, in
    the order pandas `unique()` returns them (first appearance), numbered densely
    by `dict(zip(unique, range(n)))`, and the column mapped through that table. */
module Enums {
  import opened PyValues

  /** The index of the first occurrence of `x` in `s`. */
  function FirstIndex(s: seq<PyValue>, x: PyValue): (k: nat)
    requires x in s
    ensures k < |s| && s[k] == x
    ensures forall i :: 0 <= i < k ==> s[i] != x
  {
    var n := |s| - 1;
    if x in s[..n] then FirstIndex(s[..n], x) else n
  }

  /** `unique()`: each distinct value once, in order of first appearance. */
  function Unique(s: seq<PyValue>): (u: seq<PyValue>)
    ensures forall i, j :: 0 <= i < j < |u| ==> u[i] != u[j]
    ensures forall x :: x in u <==> x in s
    ensures |u| <= |s|
  {
    if s == [] then []
    else
      var n := |s| - 1;
      var u := Unique(s[..n]);
      assert forall x :: x in s <==> x in s[..n] || x == s[n];
      if s[n] in u then u else u + [s[n]]
  }

  /** `unique()` keeps first-appearance order: a value listed earlier first
      appears earlier in the column. */
  lemma {:induction false} UniqueInOrder(s: seq<PyValue>)
    ensures forall i, j :: 0 <= i < j < |Unique(s)| ==> FirstIndex(s, Unique(s)[i]) < FirstIndex(s, Unique(s)[j])
  {
    if s != [] {
      var n := |s| - 1;
      var init := s[..n];
      var u := Unique(init);
      UniqueInOrder(init);
      assert forall x :: x in init ==> x in s;
      forall y | y in init
        ensures FirstIndex(s, y) == FirstIndex(init, y)
      {
        var k := FirstIndex(init, y);
        var k' := FirstIndex(s, y);
        assert s[k] == y;
      }
      if s[n] !in u {
        assert s[n] !in init;
        assert FirstIndex(s, s[n]) == n;
        forall i | 0 <= i < |u|
          ensures FirstIndex(s, u[i]) < n
        {
          assert u[i] in init;
        }
      }
    }
  }

  /** `dict(zip(u, range(len(u))))`. */
  function CodeTable(u: seq<PyValue>): (t: map<PyValue, nat>)
    ensures forall x :: x in t <==> x in u
    ensures forall x :: x in t ==> t[x] < |u|
  {
    if u == [] then map[]
    else
      var n := |u| - 1;
      assert forall x :: x in u <==> x in u[..n] || x == u[n];
      CodeTable(u[..n])[u[n] := n]
  }

  /** On distinct values the table gives each value its position. */
  lemma {:induction false} CodeTableAt(u: seq<PyValue>, k: nat)
    requires forall i, j :: 0 <= i < j < |u| ==> u[i] != u[j]
    requires k < |u|
    ensures CodeTable(u)[u[k]] == k
  {
    var n := |u| - 1;
    if k < n {
      CodeTableAt(u[..n], k);
      assert u[k] != u[n];
    }
  }

  /** `column.map(table)`; a value missing from the table would become NaN,
      which stands here as `None`. */
  function MapThrough(column: seq<PyValue>, table: map<PyValue, nat>): (codes: seq<PyValue>)
    ensures |codes| == |column|
    ensures forall i :: 0 <= i < |column| && column[i] in table ==> codes[i] == Int(table[column[i]])
  {
    seq(|column|, i requires 0 <= i < |column| => if column[i] in table then Int(table[column[i]]) else NoneValue)
  }

  /** The table an ENUM column is encoded with. */
  function EnumTable(column: seq<PyValue>): map<PyValue, nat>
  {
    CodeTable(Unique(column))
  }

  /** The codes an ENUM column is written as. */
  function EncodeColumn(column: seq<PyValue>): seq<PyValue>
  {
    MapThrough(column, EnumTable(column))
  }

  /** Every value gets a code in [0, n) where n is the number of distinct
      values; the code gives the value back through `unique()`; equal values
      get equal codes and different values different ones; every code in
      [0, n) is used. */
  lemma EncodeColumnCodes(column: seq<PyValue>)
    ensures |EncodeColumn(column)| == |column|
    ensures forall i :: 0 <= i < |column| ==>
      EncodeColumn(column)[i].Int? && 0 <= EncodeColumn(column)[i].i < |Unique(column)| &&
      Unique(column)[EncodeColumn(column)[i].i] == column[i]
    ensures forall i, j :: 0 <= i < |column| && 0 <= j < |column| ==>
      (EncodeColumn(column)[i] == EncodeColumn(column)[j] <==> column[i] == column[j])
    ensures forall c :: 0 <= c < |Unique(column)| ==> exists i :: 0 <= i < |column| && EncodeColumn(column)[i] == Int(c)
  {
    var u := Unique(column);
    var codes := EncodeColumn(column);
    forall i | 0 <= i < |column|
      ensures codes[i].Int? && 0 <= codes[i].i < |u| && u[codes[i].i] == column[i]
    {
      EncodedAt(column, i);
    }
    forall c | 0 <= c < |u|
      ensures exists i :: 0 <= i < |column| && codes[i] == Int(c)
    {
      CodeUsed(column, c);
    }
  }

  /** The code of entry `i` names its value's position in `unique()`. */
  lemma EncodedAt(column: seq<PyValue>, i: nat)
    requires i < |column|
    ensures EncodeColumn(column)[i].Int? && 0 <= EncodeColumn(column)[i].i < |Unique(column)|
    ensures Unique(column)[EncodeColumn(column)[i].i] == column[i]
  {
    var u := Unique(column);
    assert column[i] in u;
    var k :| 0 <= k < |u| && u[k] == column[i];
    CodeTableAt(u, k);
  }

  /** Every code below the number of distinct values is some entry's code. */
  lemma CodeUsed(column: seq<PyValue>, c: nat)
    requires c < |Unique(column)|
    ensures exists i :: 0 <= i < |column| && EncodeColumn(column)[i] == Int(c)
  {
    var u := Unique(column);
    assert u[c] in column;
    var i :| 0 <= i < |column| && column[i] == u[c];
    CodeTableAt(u, c);
    assert EncodeColumn(column)[i] == Int(c);
  }
}

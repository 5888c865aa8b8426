/** The GeoPackage reader's line topology: the features' coordinate runs are
    concatenated into one vertex list, and an edge joins each point to the next
    one of the same run, never across runs. */
module LineEdges {

  /** `itertools.chain.from_iterable(runs)`. */
  function Flatten<T>(runs: seq<seq<T>>): seq<T>
  {
    if runs == [] then [] else Flatten(runs[..|runs| - 1]) + runs[|runs| - 1]
  }

  /** Global index of the first point of run `k`. */
  function Start<T>(runs: seq<seq<T>>, k: nat): nat
    requires k <= |runs|
  {
    |Flatten(runs[..k])|
  }

  /** The edges of one run of `len` points whose first point has index `start`:
      `[(i, i + 1) for i in range(start, start + len - 1)]`. */
  function RunEdges(start: nat, len: nat): (es: seq<(nat, nat)>)
    ensures |es| == if len > 0 then len - 1 else 0
  {
    seq(if len > 0 then len - 1 else 0, j requires 0 <= j => (start + j, start + j + 1))
  }

  /** A run's edges join each point to its successor inside the run, and nothing else. */
  lemma RunEdgeMembership(start: nat, len: nat, a: nat, b: nat)
    ensures (a, b) in RunEdges(start, len) <==> b == a + 1 && start <= a && a + 1 < start + len
  {
    var es := RunEdges(start, len);
    if start <= a && a + 1 < start + len {
      assert es[a - start] == (a, a + 1);
    }
  }

  /** Points `a` and `a + 1` both belong to run `k`. */
  predicate InRun<T>(runs: seq<seq<T>>, k: int, a: nat)
  {
    0 <= k < |runs| && Start(runs, k) <= a && a + 1 < Start(runs, k) + |runs[k]|
  }

  /** The edge list of all runs, run after run. */
  function Edges<T>(runs: seq<seq<T>>): seq<(nat, nat)>
  {
    if runs == [] then []
    else
      var n := |runs| - 1;
      Edges(runs[..n]) + RunEdges(|Flatten(runs[..n])|, |runs[n]|)
  }

  /** The number of runs with at least one point. */
  function NonEmptyRuns<T>(runs: seq<seq<T>>): (c: nat)
    ensures c <= |runs|
  {
    if runs == [] then 0
    else NonEmptyRuns(runs[..|runs| - 1]) + (if runs[|runs| - 1] == [] then 0 else 1)
  }

  /** The edge builder loop: a running `index` accumulator, one `extend` per run. */
  method BuildEdges<T>(runs: seq<seq<T>>) returns (edges: seq<(nat, nat)>)
    ensures edges == Edges(runs)
  {
    var index: nat := 0;
    edges := [];
    for i := 0 to |runs|
      invariant index == |Flatten(runs[..i])|
      invariant edges == Edges(runs[..i])
    {
      var start := index;
      var end := index + (|runs[i]| - 1);
      edges := edges + seq(if end > start then end - start else 0, j requires 0 <= j => (start + j, start + j + 1));
      index := end + 1;
      assert runs[..i + 1][..i] == runs[..i];
    }
    assert runs[..|runs|] == runs;
  }

  // ---------------------------------------------------------------------------
  // Properties
  // ---------------------------------------------------------------------------

  lemma StartStep<T>(runs: seq<seq<T>>, k: nat)
    requires k < |runs|
    ensures Start(runs, k + 1) == Start(runs, k) + |runs[k]|
  {
    assert runs[..k + 1][..k] == runs[..k];
  }

  /** Run starts never decrease. */
  lemma {:induction false} StartMonotone<T>(runs: seq<seq<T>>, i: nat, j: nat)
    requires i <= j <= |runs|
    ensures Start(runs, i) <= Start(runs, j)
    decreases j - i
  {
    if i < j {
      StartStep(runs, j - 1);
      StartMonotone(runs, i, j - 1);
    }
  }

  /** Every run starts no later than the total point count. */
  lemma StartBound<T>(runs: seq<seq<T>>, j: nat)
    requires j <= |runs|
    ensures Start(runs, j) <= |Flatten(runs)|
  {
    StartMonotone(runs, j, |runs|);
    assert runs[..|runs|] == runs;
  }

  /** Point `j` of run `k` sits at global index `Start(runs, k) + j`. */
  lemma {:induction false} FlattenAt<T>(runs: seq<seq<T>>, k: nat, j: nat)
    requires k < |runs| && j < |runs[k]|
    ensures Start(runs, k) + j < |Flatten(runs)|
    ensures Flatten(runs)[Start(runs, k) + j] == runs[k][j]
  {
    var n := |runs| - 1;
    var init := runs[..n];
    if k < n {
      FlattenAt(init, k, j);
      assert init[..k] == runs[..k];
    } else {
      assert runs[..k] == init;
    }
  }

  /** Total point count: the sum of the run lengths. */
  lemma {:induction false} FlattenLength<T>(runs: seq<seq<T>>)
    ensures |Flatten(runs)| == Start(runs, |runs|)
    ensures forall k :: 0 <= k < |runs| ==> |runs[k]| <= |Flatten(runs)|
  {
    assert runs[..|runs|] == runs;
    forall k | 0 <= k < |runs|
      ensures |runs[k]| <= |Flatten(runs)|
    {
      StartStep(runs, k);
      StartBound(runs, k + 1);
    }
  }

  /** An edge joins `a` to `a + 1` exactly when both lie in the same run. */
  lemma {:induction false} EdgeMembership<T>(runs: seq<seq<T>>, a: nat, b: nat)
    ensures (a, b) in Edges(runs) <==> b == a + 1 && exists k :: InRun(runs, k, a)
  {
    if runs != [] {
      var n := |runs| - 1;
      var init := runs[..n];
      EdgeMembership(init, a, b);
      RunEdgeMembership(|Flatten(init)|, |runs[n]|, a, b);
      forall k | 0 <= k < n
        ensures InRun(init, k, a) == InRun(runs, k, a)
      {
        assert init[..k] == runs[..k];
      }
      if (a, b) in Edges(runs) {
        if (a, b) in Edges(init) {
          var k :| InRun(init, k, a);
          assert InRun(runs, k, a);
        } else {
          assert InRun(runs, n, a);
        }
      }
      if b == a + 1 && exists k :: InRun(runs, k, a) {
        var k :| InRun(runs, k, a);
        if k < n {
          assert InRun(init, k, a);
        }
      }
    }
  }

  /** Edge count: one fewer than the run length for every non-empty run. */
  lemma {:induction false} EdgeCount<T>(runs: seq<seq<T>>)
    ensures |Edges(runs)| == |Flatten(runs)| - NonEmptyRuns(runs)
    ensures |Flatten(runs)| >= NonEmptyRuns(runs)
  {
    if runs != [] {
      EdgeCount(runs[..|runs| - 1]);
    }
  }

  /** When every run is non-empty there are (total points − number of runs) edges. */
  lemma {:induction false} EdgeCountAllNonEmpty<T>(runs: seq<seq<T>>)
    requires forall k :: 0 <= k < |runs| ==> runs[k] != []
    ensures |Edges(runs)| == |Flatten(runs)| - |runs|
  {
    if runs != [] {
      EdgeCountAllNonEmpty(runs[..|runs| - 1]);
      EdgeCount(runs);
      EdgeCount(runs[..|runs| - 1]);
    }
  }

  /** The last point of run `k` and the first point of a later run are never
      both inside one run. */
  lemma RunsDisjoint<T>(runs: seq<seq<T>>, k: nat, m: nat)
    requires k < |runs| && m < |runs| && Start(runs, k + 1) > 0
    ensures !InRun(runs, m, Start(runs, k + 1) - 1)
  {
    StartStep(runs, m);
    if m <= k {
      StartMonotone(runs, m + 1, k + 1);
    } else {
      StartMonotone(runs, k + 1, m);
    }
  }

  /** No edge leaves the last point of a run for the next point in the list:
      consecutive features are never joined. */
  lemma NoEdgeBetweenRuns<T>(runs: seq<seq<T>>, k: nat)
    requires k < |runs| && Start(runs, k + 1) > 0
    ensures (Start(runs, k + 1) - 1, Start(runs, k + 1)) !in Edges(runs)
  {
    var s := Start(runs, k + 1);
    EdgeMembership(runs, s - 1, s);
    if (s - 1, s) in Edges(runs) {
      var m :| InRun(runs, m, s - 1);
      RunsDisjoint(runs, k, m);
    }
  }

  /** Every edge joins two existing points. */
  lemma EdgesInRange<T>(runs: seq<seq<T>>, a: nat, b: nat)
    requires (a, b) in Edges(runs)
    ensures a < b < |Flatten(runs)|
  {
    EdgeMembership(runs, a, b);
    var k :| InRun(runs, k, a);
    StartStep(runs, k);
    StartBound(runs, k + 1);
  }

  /** Two consecutive points inside run `k` are joined by an edge. */
  lemma EdgeInsideRun<T>(runs: seq<seq<T>>, k: nat, j: nat)
    requires k < |runs| && j + 1 < |runs[k]|
    ensures Start(runs, k) + j + 1 < |Flatten(runs)|
    ensures Flatten(runs)[Start(runs, k) + j] == runs[k][j]
    ensures Flatten(runs)[Start(runs, k) + j + 1] == runs[k][j + 1]
    ensures (Start(runs, k) + j, Start(runs, k) + j + 1) in Edges(runs)
  {
    var g := Start(runs, k) + j;
    assert Flatten(runs)[g] == runs[k][j] by {
      FlattenAt(runs, k, j);
    }
    assert g + 1 < |Flatten(runs)| && Flatten(runs)[g + 1] == runs[k][j + 1] by {
      FlattenAt(runs, k, j + 1);
    }
    assert (g, g + 1) in Edges(runs) by {
      EdgeOfRun(runs, k, g);
    }
  }

  /** A point inside run `k` with a successor in that run has an edge to it. */
  lemma EdgeOfRun<T>(runs: seq<seq<T>>, k: nat, a: nat)
    requires InRun(runs, k, a)
    ensures (a, a + 1) in Edges(runs)
  {
    EdgeMembership(runs, a, a + 1);
  }

  /** Where run `m` ends and run `m + 1` begins in the flattened list, when both
      are non-empty. */
  lemma RunBoundary<T>(runs: seq<seq<T>>, m: nat)
    requires m + 1 < |runs| && runs[m] != [] && runs[m + 1] != []
    ensures 0 < Start(runs, m + 1) < |Flatten(runs)|
    ensures Flatten(runs)[Start(runs, m + 1) - 1] == runs[m][|runs[m]| - 1]
    ensures Flatten(runs)[Start(runs, m + 1)] == runs[m + 1][0]
  {
    StartStep(runs, m);
    FlattenAt(runs, m, |runs[m]| - 1);
    FlattenAt(runs, m + 1, 0);
  }

  /** When run `k` is itself the concatenation of `parts`, the last point of
      part `m` and the first point of part `m + 1` are joined by an edge. */
  lemma NestedRunsJoined<T>(runs: seq<seq<T>>, k: nat, parts: seq<seq<T>>, m: nat)
    requires k < |runs| && runs[k] == Flatten(parts)
    requires m + 1 < |parts| && parts[m] != [] && parts[m + 1] != []
    ensures var g := Start(runs, k) + Start(parts, m + 1);
      0 < g < |Flatten(runs)| &&
      Flatten(runs)[g - 1] == parts[m][|parts[m]| - 1] &&
      Flatten(runs)[g] == parts[m + 1][0] &&
      (g - 1, g) in Edges(runs)
  {
    var s := Start(parts, m + 1);
    RunBoundary(parts, m);
    assert runs[k][s - 1] == parts[m][|parts[m]| - 1];
    assert runs[k][s] == parts[m + 1][0];
    EdgeInsideRun(runs, k, s - 1);
  }
}

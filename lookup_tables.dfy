/**
 * The two static tables the polygonizer reads, `TRIANGLE_TABLE` and
 * `EDGE_CONNECTIONS` (crates/marching_cubes/src/lookup_tables.rs, whose
 * contents are not part of this model). They are a parameter of the
 * model, constrained by `WellFormed`.
 */
module LookupTables {
  import opened CubeIndex

  /** The sentinel that ends a row of the triangulation table. */
  const Sentinel: int := -1

  /** Number of topology cases, entries per triangulation row, cube edges, cube corners. */
  const CaseCount: nat := 256
  const RowLength: nat := 16
  const EdgeCount: nat := 12
  const CornerCount: nat := 8

  /**
   * `triangles[c]` is the triangulation row of case c (edge numbers in
   * triples, then `Sentinel`); `edgeConnections[e]` is the pair of corners
   * that edge e joins.
   */
  datatype Tables = Tables(triangles: seq<seq<int>>, edgeConnections: seq<seq<nat>>)

  /** Every row entry is an edge number or the sentinel. */
  predicate RowEntries(row: seq<int>)
  {
    |row| == RowLength && forall j :: 0 <= j < |row| ==> Sentinel <= row[j] < EdgeCount as int
  }

  /** Position of the first sentinel of a row. */
  function FirstSentinel(row: seq<int>): (k: nat)
    requires Sentinel in row
    ensures k < |row| && row[k] == Sentinel
    ensures forall j :: 0 <= j < k ==> row[j] != Sentinel
  {
    SentinelFrom(row, 0)
  }

  /** Position of the first sentinel at or after position j. */
  function SentinelFrom(row: seq<int>, j: nat): (k: nat)
    requires j <= |row| && Sentinel in row[j..]
    ensures j <= k < |row| && row[k] == Sentinel
    ensures forall m :: j <= m < k ==> row[m] != Sentinel
    decreases |row| - j
  {
    if row[j] == Sentinel then j
    else
      assert Sentinel in row[j + 1..] by {
        var m :| j <= m < |row| && row[m] == Sentinel;
      }
      SentinelFrom(row, j + 1)
  }

  /** A row: 16 entries in -1..11 whose first sentinel falls at a multiple of 3. */
  predicate WellFormedRow(row: seq<int>)
  {
    RowEntries(row) && Sentinel in row && FirstSentinel(row) % 3 == 0
  }

  /** Every edge joins two corners numbered 0..7. */
  predicate WellFormedEdges(edgeConnections: seq<seq<nat>>)
  {
    |edgeConnections| == EdgeCount &&
    forall e :: 0 <= e < |edgeConnections| ==>
      |edgeConnections[e]| == 2 && edgeConnections[e][0] < CornerCount && edgeConnections[e][1] < CornerCount
  }

  /** Edge `edge` joins a corner inside and a corner outside the surface of case c. */
  predicate Crosses(c: nat, edge: seq<nat>)
    requires |edge| == 2
  {
    BitSet(c, edge[0]) != BitSet(c, edge[1])
  }

  /**
   * Row c only names edges that the surface of case c crosses: this is the
   * agreement between the triangulation table and the classification that
   * the standard tables are built to have.
   */
  predicate RowCrosses(c: nat, row: seq<int>, edgeConnections: seq<seq<nat>>)
    requires WellFormedRow(row) && WellFormedEdges(edgeConnections)
  {
    forall j :: 0 <= j < FirstSentinel(row) ==> Crosses(c, edgeConnections[row[j]])
  }

  predicate WellFormed(t: Tables)
  {
    |t.triangles| == CaseCount &&
    WellFormedEdges(t.edgeConnections) &&
    (forall c :: 0 <= c < |t.triangles| ==> WellFormedRow(t.triangles[c])) &&
    (forall c :: 0 <= c < |t.triangles| ==> RowCrosses(c, t.triangles[c], t.edgeConnections))
  }

  /** Number of triangles a row describes. */
  function TriangleCount(row: seq<int>): (n: nat)
    requires WellFormedRow(row)
    ensures 3 * n == FirstSentinel(row)
    ensures n <= 5
  {
    FirstSentinel(row) / 3
  }
}

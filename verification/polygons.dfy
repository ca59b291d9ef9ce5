/** The topology `add_polygon` builds: one point per vertex, then a closed
    cycle of lines through them, a curve loop, and optionally a plane
    surface.  Points and lines are identified by their position. */
module Polygons {
  import opened Errors

  /** The `mesh_size` argument: a list with one entry per point, or a single
      (possibly absent) value for all of them. */
  datatype MeshSizeArg = PerPoint(sizes: seq<Option<real>>) | Uniform(size: Option<real>)

  /** The point made from vertex `index` of `X`. */
  datatype PolyPoint = PolyPoint(index: nat, meshSize: Option<real>)

  /** A line from point `source` to point `target` (indices into the points). */
  datatype Segment = Segment(source: nat, target: nat)

  /** The plane surface bounded by the polygon's curve loop, with its holes. */
  datatype PolygonSurface = PolygonSurface(holes: seq<int>)

  datatype Polygon = Polygon(
    points: seq<PolyPoint>,
    lines: seq<Segment>,
    numEdges: nat,
    surface: Option<PolygonSurface>,
    meshSizes: seq<Option<real>>)

  /** The point after `k` around a cycle of `n`, i.e. `(k + 1) mod n`. */
  function Next(k: nat, n: nat): (j: nat)
    requires k < n
    ensures j < n && j == (k + 1) % n
  {
    if k + 1 == n then 0 else k + 1
  }

  /** The point before `p` around a cycle of `n`; undoes `Next`. */
  function Prev(p: nat, n: nat): (k: nat)
    requires p < n
    ensures k < n && Next(k, n) == p
  {
    if p == 0 then n - 1 else p - 1
  }

  /** Lines `k -> k+1` for every point but the last, then the closing line
      from the last point back to the first. */
  function CycleLines(n: nat): (lines: seq<Segment>)
    requires n > 0
    ensures |lines| == n
    ensures forall k :: 0 <= k < n ==> lines[k].source < n && lines[k].target < n
  {
    seq(n - 1, k requires 0 <= k < n - 1 => Segment(k, k + 1)) + [Segment(n - 1, 0)]
  }

  /** Line `k` joins point `k` to point `(k + 1) mod n`. */
  lemma CycleLinesShape(n: nat)
    requires n > 0
    ensures |CycleLines(n)| == n
    ensures forall k :: 0 <= k < n ==> CycleLines(n)[k] == Segment(k, Next(k, n))
  {
  }

  /** The lines form one closed loop: each ends where the next (cyclically)
      begins, and every point starts exactly one line and ends exactly one. */
  lemma CycleLinesClosed(n: nat)
    requires n > 0
    ensures forall k :: 0 <= k < n ==> CycleLines(n)[k].target == CycleLines(n)[Next(k, n)].source
    ensures forall p :: 0 <= p < n ==> CycleLines(n)[p].source == p
    ensures forall p :: 0 <= p < n ==> CycleLines(n)[Prev(p, n)].target == p
    ensures forall k, j :: 0 <= k < n && 0 <= j < n && CycleLines(n)[k].target == CycleLines(n)[j].target ==> k == j
  {
    CycleLinesShape(n);
  }

  /** `add_polygon(X, mesh_size, holes, make_surface)` for a list `X` of `n`
      vertices. */
  function AddPolygon(n: nat, meshSize: MeshSizeArg, holes: Option<seq<int>>, makeSurface: bool): (r: Result<Polygon>)
    ensures r.Ok? ==> n > 0 && |r.value.points| == n && |r.value.lines| == n && r.value.numEdges == n
  {
    if holes.Some? && !makeSurface then Err(HolesWithoutSurface)
    else if meshSize.PerPoint? && |meshSize.sizes| != n then Err(MeshSizeLengthMismatch(n, |meshSize.sizes|))
    else
      var sizes := if meshSize.PerPoint? then meshSize.sizes else seq(n, _ => meshSize.size);
      if n == 0 then Err(NoPoints)
      else
        var points := seq(n, k requires 0 <= k < n => PolyPoint(k, sizes[k]));
        var lines := CycleLines(n);
        var surface := if makeSurface then Some(PolygonSurface(if holes.Some? then holes.value else [])) else None;
        Ok(Polygon(points, lines, |lines|, surface, sizes))
  }

  /** The argument checks of `add_polygon`: holes need a surface, a list of
      mesh sizes needs one entry per vertex, and there must be a vertex. */
  lemma AddPolygonErrors(n: nat, meshSize: MeshSizeArg, holes: Option<seq<int>>, makeSurface: bool)
    ensures AddPolygon(n, meshSize, holes, makeSurface).Ok? <==>
      (holes.None? || makeSurface) && (meshSize.PerPoint? ==> |meshSize.sizes| == n) && n > 0
    ensures holes.Some? && !makeSurface ==> AddPolygon(n, meshSize, holes, makeSurface) == Err(HolesWithoutSurface)
  {
  }

  /** A successful polygon has point `k` at vertex `k` with its mesh size (the
      scalar replicated, or the list entry), line `k` from point `k` to point
      `(k + 1) mod n`, and a surface exactly when one was asked for. */
  lemma AddPolygonShape(n: nat, meshSize: MeshSizeArg, holes: Option<seq<int>>, makeSurface: bool)
    requires AddPolygon(n, meshSize, holes, makeSurface).Ok?
    ensures var p := AddPolygon(n, meshSize, holes, makeSurface).value;
      |p.meshSizes| == n &&
      (meshSize.Uniform? ==> forall k :: 0 <= k < n ==> p.meshSizes[k] == meshSize.size) &&
      (meshSize.PerPoint? ==> p.meshSizes == meshSize.sizes) &&
      (forall k :: 0 <= k < n ==> p.points[k] == PolyPoint(k, p.meshSizes[k])) &&
      (forall k :: 0 <= k < n ==> p.lines[k] == Segment(k, Next(k, n))) &&
      (p.surface.Some? <==> makeSurface) &&
      (p.surface.Some? ==> p.surface.value.holes == if holes.Some? then holes.value else [])
  {
    CycleLinesShape(n);
  }
}

/** Engine entities seen as opaque handles: a kind, a dimension and the tag the
    engine returned when it created them. */
module Entities {

  /** A (dimension, tag) pair as the engine reports it. */
  datatype DimTag = DimTag(dim: int, tag: int)

  /** The wrapper classes of the scripting layer. */
  datatype Kind =
    | Point | Line | CurveLoop | PlaneSurface | Surface | SurfaceLoop | Volume
    | BSpline | CircleArc | EllipseArc | Spline | Dummy

  datatype Entity = Entity(kind: Kind, dimension: int, id: int)

  /** Only plane surfaces and general surfaces may be recombined. */
  predicate IsSurface(e: Entity) {
    e.kind == PlaneSurface || e.kind == Surface
  }

  /** The first (and, for a single entity, only) element of `dim_tags`. */
  function DimTagOf(e: Entity): DimTag {
    DimTag(e.dimension, e.id)
  }
}

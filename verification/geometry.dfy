/** The `CommonGeometry` façade's own state: the taken physical-group IDs and
    the queues of deferred operations it hands to the engine later. */
module Geometry {
  import opened Errors
  import opened Entities
  import opened PhysicalGroups
  import Decimal

  /** An entry of the transfinite-curve queue: curve ID, node count, mesh type
      and coefficient. */
  datatype TransfiniteCurve = TransfiniteCurve(curveId: int, numNodes: int, meshType: string, coeff: real)

  /** An entry of the transfinite-surface queue: surface ID, arrangement and
      corner tags. */
  datatype TransfiniteSurface = TransfiniteSurface(surfaceId: int, arrangement: string, cornerTags: seq<int>)

  /** An entity argument that may be one entity or a list of them (the
      `entities` of `add_physical`, the `input_entity` of `in_surface`). */
  datatype EntityArg = One(entity: Entity) | Many(entities: seq<Entity>)

  /** An entry of the embedding queue: the point(s), curve(s) or surface(s)
      and the surface or volume they are embedded in. */
  datatype Embedding = Embedding(entity: EntityArg, host: Entity)

  /** What `add_physical` hands to the engine: the dimension, the member IDs
      and the physical name. */
  datatype PhysicalGroupRequest = PhysicalGroupRequest(dim: int, ids: seq<int>, name: string)

  /** The state of a `CommonGeometry` as a value. */
  datatype Bookkeeping = Bookkeeping(
    booleanId: int,
    arrayId: int,
    fieldId: int,
    takenPhysicalGroupIds: seq<int>,
    recombineEntities: seq<DimTag>,
    embedQueue: seq<Embedding>,
    transfiniteCurveQueue: seq<TransfiniteCurve>,
    transfiniteSurfaceQueue: seq<TransfiniteSurface>)

  /** The mesh types `set_transfinite_curve` accepts: exactly two. */
  predicate IsTransfiniteMeshType(meshType: string)
    ensures IsTransfiniteMeshType(meshType) <==> meshType == "Progression" || meshType == "Bulk"
  {
    meshType in ["Progression", "Bulk"]
  }

  /** The dimension check of `add_physical`: the list must be non-empty (it
      is indexed at 0) and every member must have the first one's dimension. */
  method CheckDimensions(entities: seq<Entity>) returns (r: Result<int>)
    ensures r.Ok? <==> |entities| > 0 && forall i :: 0 <= i < |entities| ==> entities[i].dimension == entities[0].dimension
    ensures r.Ok? ==> r.value == entities[0].dimension
    ensures r.Err? ==> r.error == (if |entities| == 0 then EmptyEntityList else DimensionMismatch)
  {
    if |entities| == 0 {
      return Err(EmptyEntityList);
    }
    var dim := entities[0].dimension;
    var i := 0;
    while i < |entities|
      invariant 0 <= i <= |entities|
      invariant forall k :: 0 <= k < i ==> entities[k].dimension == dim
    {
      if entities[i].dimension != dim {
        return Err(DimensionMismatch);
      }
      i := i + 1;
    }
    return Ok(dim);
  }

  /** The type check of `set_recombined_surfaces`: fails at the first item
      that is not a surface, reporting its index. */
  method CheckSurfaces(surfaces: seq<Entity>) returns (r: Outcome)
    ensures r.Pass? <==> forall i :: 0 <= i < |surfaces| ==> IsSurface(surfaces[i])
    ensures r.Fail? ==>
      r.error.NotASurface? && r.error.index < |surfaces| && !IsSurface(surfaces[r.error.index]) &&
      forall i :: 0 <= i < r.error.index ==> IsSurface(surfaces[i])
  {
    var i := 0;
    while i < |surfaces|
      invariant 0 <= i <= |surfaces|
      invariant forall k :: 0 <= k < i ==> IsSurface(surfaces[k])
    {
      if !IsSurface(surfaces[i]) {
        return Fail(NotASurface(i));
      }
      i := i + 1;
    }
    return Pass;
  }

  class CommonGeometry {
    var booleanId: int
    var arrayId: int
    var fieldId: int
    var takenPhysicalGroupIds: seq<int>
    var recombineEntities: seq<DimTag>
    var embedQueue: seq<Embedding>
    var transfiniteCurveQueue: seq<TransfiniteCurve>
    var transfiniteSurfaceQueue: seq<TransfiniteSurface>

    /** No physical-group ID is taken twice. */
    ghost predicate Valid()
      reads this
    {
      NoDuplicates(takenPhysicalGroupIds)
    }

    ghost function State(): Bookkeeping
      reads this
    {
      Bookkeeping(booleanId, arrayId, fieldId, takenPhysicalGroupIds, recombineEntities,
                  embedQueue, transfiniteCurveQueue, transfiniteSurfaceQueue)
    }

    /** Counters at zero, every list empty. */
    constructor ()
      ensures Valid()
      ensures State() == Bookkeeping(0, 0, 0, [], [], [], [], [])
    {
      booleanId, arrayId, fieldId := 0, 0, 0;
      takenPhysicalGroupIds := [];
      recombineEntities := [];
      embedQueue := [];
      transfiniteCurveQueue := [];
      transfiniteSurfaceQueue := [];
    }

    /** `_new_physical_group(label)`: allocate an ID, record it, return the
        physical name; a taken integer label is an error and changes nothing. */
    method NewPhysicalGroup(labelArg: Label) returns (r: Result<string>)
      requires Valid()
      modifies this
      ensures Valid()
      ensures match Allocate(old(takenPhysicalGroupIds), labelArg)
        case Ok(a) => r == Ok(a.name) && State() == old(State()).(takenPhysicalGroupIds := a.taken)
        case Err(e) => r == Err(e) && State() == old(State())
    {
      var maxId := if takenPhysicalGroupIds == [] then 0 else Max(takenPhysicalGroupIds);
      var id: int;
      match labelArg {
        case StrLabel(name) =>
          takenPhysicalGroupIds := takenPhysicalGroupIds + [maxId + 1];
          r := Ok(Quoted(name));
          AllocateKeepsNoDuplicates(old(takenPhysicalGroupIds), labelArg);
          return;
        case IntLabel(n) =>
          id := n;
        case Default =>
          id := maxId + 1;
      }
      if id in takenPhysicalGroupIds {
        return Err(LabelTaken(id));
      }
      takenPhysicalGroupIds := takenPhysicalGroupIds + [id];
      r := Ok(Decimal.FromInt(id));
      AllocateKeepsNoDuplicates(old(takenPhysicalGroupIds), labelArg);
    }

    /** `add_physical(entities, label)`: check the dimensions, allocate a
        label, and produce the request for the engine.  A dimension error
        is raised before any label is allocated. */
    method AddPhysical(entities: EntityArg, labelArg: Label) returns (r: Result<PhysicalGroupRequest>)
      requires Valid()
      modifies this
      ensures Valid()
      ensures var es := if entities.One? then [entities.entity] else entities.entities;
        var alloc := Allocate(old(takenPhysicalGroupIds), labelArg);
        if |es| == 0 then r == Err(EmptyEntityList) && State() == old(State())
        else if exists i :: 0 <= i < |es| && es[i].dimension != es[0].dimension then
          r == Err(DimensionMismatch) && State() == old(State())
        else if alloc.Err? then r == Err(alloc.error) && State() == old(State())
        else
          r == Ok(PhysicalGroupRequest(es[0].dimension, seq(|es|, i requires 0 <= i < |es| => es[i].id), alloc.value.name)) &&
          State() == old(State()).(takenPhysicalGroupIds := alloc.value.taken)
    {
      var es := if entities.One? then [entities.entity] else entities.entities;
      var dim := CheckDimensions(es);
      if dim.Err? {
        return Err(dim.error);
      }
      var name := NewPhysicalGroup(labelArg);
      if name.Err? {
        return Err(name.error);
      }
      r := Ok(PhysicalGroupRequest(dim.value, seq(|es|, i requires 0 <= i < |es| => es[i].id), name.value));
    }

    /** `set_transfinite_curve`: only "Progression" and "Bulk" are accepted;
        then exactly one entry joins the curve queue and nothing else changes. */
    method SetTransfiniteCurve(curve: Entity, numNodes: int, meshType: string, coeff: real) returns (r: Outcome)
      modifies this
      ensures r.Pass? <==> IsTransfiniteMeshType(meshType)
      ensures r.Fail? ==> r.error == UnknownMeshType(meshType) && State() == old(State())
      ensures r.Pass? ==> State() == old(State()).(transfiniteCurveQueue :=
        old(transfiniteCurveQueue) + [TransfiniteCurve(curve.id, numNodes, meshType, coeff)])
    {
      if !IsTransfiniteMeshType(meshType) {
        return Fail(UnknownMeshType(meshType));
      }
      transfiniteCurveQueue := transfiniteCurveQueue + [TransfiniteCurve(curve.id, numNodes, meshType, coeff)];
      r := Pass;
    }

    /** `set_transfinite_surface`: exactly one entry joins the surface queue
        and nothing else changes. */
    method SetTransfiniteSurface(surface: Entity, arrangement: string, cornerTags: seq<int>)
      modifies this
      ensures State() == old(State()).(transfiniteSurfaceQueue :=
        old(transfiniteSurfaceQueue) + [TransfiniteSurface(surface.id, arrangement, cornerTags)])
    {
      transfiniteSurfaceQueue := transfiniteSurfaceQueue + [TransfiniteSurface(surface.id, arrangement, cornerTags)];
    }

    /** `set_recombined_surfaces`: every item must be a surface; then the
        first dim-tag of each joins the recombine list, in order. */
    method SetRecombinedSurfaces(surfaces: seq<Entity>) returns (r: Outcome)
      modifies this
      ensures r.Pass? <==> forall i :: 0 <= i < |surfaces| ==> IsSurface(surfaces[i])
      ensures r.Fail? ==>
        r.error.NotASurface? && r.error.index < |surfaces| && !IsSurface(surfaces[r.error.index]) &&
        (forall i :: 0 <= i < r.error.index ==> IsSurface(surfaces[i])) &&
        State() == old(State())
      ensures r.Pass? ==>
        |recombineEntities| == |old(recombineEntities)| + |surfaces| &&
        recombineEntities[..|old(recombineEntities)|] == old(recombineEntities) &&
        (forall i :: 0 <= i < |surfaces| ==> recombineEntities[|old(recombineEntities)| + i] == DimTagOf(surfaces[i])) &&
        State() == old(State()).(recombineEntities := recombineEntities)
    {
      r := CheckSurfaces(surfaces);
      if r.Fail? {
        return;
      }
      recombineEntities := recombineEntities + seq(|surfaces|, i requires 0 <= i < |surfaces| => DimTagOf(surfaces[i]));
    }

    /** `in_surface`: queue the embedding of `entity` in `surface`. */
    method InSurface(entity: EntityArg, surface: Entity)
      modifies this
      ensures State() == old(State()).(embedQueue := old(embedQueue) + [Embedding(entity, surface)])
    {
      embedQueue := embedQueue + [Embedding(entity, surface)];
    }

    /** `in_volume`: queue the embedding of `entity` in `volume`. */
    method InVolume(entity: EntityArg, volume: Entity)
      modifies this
      ensures State() == old(State()).(embedQueue := old(embedQueue) + [Embedding(entity, volume)])
    {
      embedQueue := embedQueue + [Embedding(entity, volume)];
    }
  }
}

/** Error values for the assertion failures and index errors of the geometry
    façade, and the small wrappers that carry them. */
module Errors {

  /** Every way a modelled operation of `CommonGeometry` can fail. */
  datatype Error =
    | LabelTaken(id: int)                             // explicit physical-group label already in use
    | EmptyEntityList                                  // `entities[0]` on an empty list
    | DimensionMismatch                                // physical-group members of different dimensions
    | UnknownMeshType(meshType: string)                // transfinite curve type other than Progression/Bulk
    | NotASurface(index: nat)                          // recombine item that is not a surface
    | LayerHeightMismatch(layers: nat, heights: nat)   // `len(num_layers) != len(heights)`
    | TooFewDimTags(count: nat)                        // sweep output without top and body
    | CopyNotSingle(count: nat)                        // copy returned other than one dim-tag
    | HolesWithoutSurface                              // holes given with make_surface false
    | MeshSizeLengthMismatch(points: nat, sizes: nat)  // per-point mesh sizes of the wrong length
    | NoPoints                                         // `p[-1]` on a polygon without points

  datatype Result<+T> = Ok(value: T) | Err(error: Error)

  /** The outcome of an operation that returns nothing on success. */
  datatype Outcome = Pass | Fail(error: Error)

  datatype Option<+T> = None | Some(value: T)
}

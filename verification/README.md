# pygmsh `CommonGeometry` bookkeeping, in Dafny

pygmsh turns an object-oriented scripting interface (points, lines, curve
loops, surfaces, extrusions, physical groups) into calls on the gmsh engine.
Almost every operation is a forward to the engine; what the façade class
`CommonGeometry` does on its own is bookkeeping, and that is what this project
models and proves things about:

- the **physical-group label allocator** (`_new_physical_group`) over the list
  of taken IDs, and the dimension check of `add_physical`;
- the **deferred-operation queues** (transfinite curves and surfaces,
  recombined surfaces, embeddings) that later calls hand to the engine;
- the **layer/height normalisation** and **output splitting** shared by
  `extrude`, `revolve` and `twist`, and the single-result check of `copy`;
- the **polygon topology** of `add_polygon`: n points, n lines forming a
  closed cycle, the per-point mesh sizes, the optional surface.

Engine entities are opaque handles (`Entities.Entity`: kind, dimension, ID;
`Entities.DimTag`: a dimension–tag pair). Python assertion failures and index
errors become `Errors.Err(...)` / `Errors.Fail(...)` values. Every check that
the model represents runs before the façade's own fields change, so every
modelled failure leaves them as they were. In `copy` and in the sweeps the
engine call has already happened when the check on its output fails; what the
engine did then is outside the model. In `add_physical` the label is allocated
before the engine is called, so if the engine raises there the new ID stays
taken; engine failures are not modelled.

Files: `errors.dfy` (error values and wrappers), `entities.dfy` (handles),
`decimal.dfy` (`str(int)` and its inverse), `physical_groups.dfy` (the
allocator as a function of the taken list, and its lemmas), `sweeps.dfy`
(extrude/revolve/twist/copy), `polygons.dfy` (`add_polygon`), `geometry.dfy`
(the class `CommonGeometry` with its fields and the methods that update them).

Only the integer IDs are kept unique. A string name is never compared with
earlier names, so two groups can get the same name
(`PhysicalGroups.StringNamesMayRepeat`).

## Model

| member | source | states |
|---|---|---|
| `PhysicalGroups.Max` | pygmsh/common/geometry.py:92 | `max` of a non-empty list is an element of it and no element exceeds it |
| `PhysicalGroups.MaxId` | pygmsh/common/geometry.py:89-93 | `max_id` is 0 for an empty list, otherwise a taken ID no smaller than any other |
| `PhysicalGroups.NextId` | pygmsh/common/geometry.py:96 | `max_id + 1` is larger than every taken ID, hence not taken |
| `PhysicalGroups.Quoted` | pygmsh/common/geometry.py:107 | a string label comes back as the label between two double quotes |
| `PhysicalGroups.Allocate` | pygmsh/common/geometry.py:85-107 | one call of `_new_physical_group`: it fails, with `LabelTaken`, exactly when an explicit integer label is already taken; otherwise the old list is kept as a prefix and exactly one ID that was not taken is appended |
| `PhysicalGroups.AllocateKeepsNoDuplicates` | pygmsh/common/geometry.py:98-106 | a successful call keeps a duplicate-free taken list duplicate-free |
| `PhysicalGroups.AllocateDefault` | pygmsh/common/geometry.py:89-103 | without a label the ID is 1 on an empty list, otherwise max+1; it is returned as its decimal string and is the one element appended |
| `PhysicalGroups.AllocateExplicit` | pygmsh/common/geometry.py:98-103 | an explicit integer label that is taken is an error (list unchanged); one that is free is appended and returned as its decimal string |
| `PhysicalGroups.AllocateString` | pygmsh/common/geometry.py:105-107 | a string label never fails, returns the quoted label and appends max+1 (1 on an empty list) |
| `PhysicalGroups.NamesAreUnambiguous` | pygmsh/common/geometry.py:103-107 | a name starts with a double quote exactly when it came from a string label; an integer name parses back to the ID that was appended |
| `PhysicalGroups.StringNamesMayRepeat` | pygmsh/common/geometry.py:105-107 | the same string label can be allocated twice, yielding the same name under two different IDs |
| `PhysicalGroups.Session` | pygmsh/common/geometry.py:99-106 | a sequence of calls, a failed one leaving the list as it was: the old IDs stay as a prefix and each call adds at most one ID |
| `PhysicalGroups.SessionKeepsNoDuplicates` | pygmsh/common/geometry.py:85-107 | after any sequence of calls, failed ones included, the taken list has no duplicates |
| `Decimal.NatDigits` | pygmsh/common/geometry.py:103 | `str` of a natural number is a non-empty string of digits with no leading zero |
| `Decimal.FromInt` | pygmsh/common/geometry.py:103 | `str(label)` is a decimal numeral that starts with a minus sign exactly for negative labels |
| `Decimal.FromIntRoundTrip` | pygmsh/common/geometry.py:103 | `str(n)` for any integer is a decimal numeral that parses back to `n` |
| `Decimal.FromIntInjective` | pygmsh/common/geometry.py:103 | distinct IDs get distinct names |
| `Geometry.CommonGeometry.constructor` | pygmsh/common/geometry.py:24-36 | counters start at 0 and every list starts empty |
| `Geometry.CommonGeometry.NewPhysicalGroup` | pygmsh/common/geometry.py:85-107 | the returned name and the new taken list are those of the allocator; on error nothing changes; the list stays duplicate-free; no other field changes |
| `Geometry.CheckDimensions` | pygmsh/common/geometry.py:113-115 | succeeds with the first entity's dimension exactly when the list is non-empty and all entities share that dimension; an empty list is an index error |
| `Geometry.CommonGeometry.AddPhysical` | pygmsh/common/geometry.py:109-120 | a single entity is treated as a one-element list; empty lists and mixed dimensions fail before a label is allocated; otherwise the engine request carries the dimension, the member IDs in order and the allocated name |
| `Geometry.IsTransfiniteMeshType` | pygmsh/common/geometry.py:123 | the accepted mesh types are exactly "Progression" and "Bulk" |
| `Geometry.CommonGeometry.SetTransfiniteCurve` | pygmsh/common/geometry.py:122-124 | fails, changing nothing, unless the mesh type is "Progression" or "Bulk"; otherwise appends exactly the entry (curve ID, node count, mesh type, coefficient) and leaves every other queue unchanged |
| `Geometry.CommonGeometry.SetTransfiniteSurface` | pygmsh/common/geometry.py:126-127 | appends exactly the entry (surface ID, arrangement, corner tags) and leaves every other field unchanged |
| `Geometry.CheckSurfaces` | pygmsh/common/geometry.py:130-133 | passes exactly when every item is a plane surface or surface; otherwise reports the index of the first item that is not |
| `Geometry.CommonGeometry.SetRecombinedSurfaces` | pygmsh/common/geometry.py:129-134 | fails, changing nothing, if some item is not a surface, reporting the index of the first such item; otherwise extends the recombine list by each surface's first dim-tag, in order, and changes nothing else |
| `Geometry.CommonGeometry.InSurface` | pygmsh/common/geometry.py:287-291 | appends exactly the pair (entity or entities, surface) to the embedding queue, nothing else changes |
| `Geometry.CommonGeometry.InVolume` | pygmsh/common/geometry.py:293-297 | appends exactly the pair (entity or entities, volume) to the embedding queue, nothing else changes |
| `Sweeps.LayerList` | pygmsh/common/geometry.py:145-146 | an integer `num_layers` n becomes [n]; a list is kept as it is |
| `Sweeps.NormaliseLayers` | pygmsh/common/geometry.py:145-154 | fails exactly when layers and heights are both given with different lengths; on success the heights are empty or as long as the layer list |
| `Sweeps.NormaliseLayersCases` | pygmsh/common/geometry.py:181-190 | no layers gives two empty lists whatever the heights; an integer n gives [n]; missing heights give []; matching lengths are passed through |
| `Sweeps.CountIsSingletonList` | pygmsh/common/geometry.py:222-226 | an integer layer count behaves exactly like the one-element list holding it |
| `Sweeps.SplitOutput` | pygmsh/common/geometry.py:165-168 | succeeds exactly when the engine returned at least two dim-tags; top, extruded and lateral re-joined give the engine's output back, and lateral has length len−2 |
| `Sweeps.SplitJoined` | pygmsh/common/geometry.py:203-206 | splitting re-joined pieces returns the same pieces |
| `Sweeps.Sweep` | pygmsh/common/geometry.py:136-168 | `extrude`/`revolve`/`twist`: a layer error is reported without calling the engine; once the layers normalise, the sweep succeeds exactly when the engine returns at least two dim-tags (otherwise `TooFewDimTags`), and a success re-joins to the engine's output for the normalised request, whose heights are empty or as long as the layers |
| `Sweeps.CopyResult` | pygmsh/common/geometry.py:270-273 | `copy` succeeds exactly when the engine returned one dim-tag, and returns that dim-tag |
| `Polygons.Next` | pygmsh/common/geometry.py:326-327 | the successor of point k on a cycle of n is (k+1) mod n |
| `Polygons.Prev` | pygmsh/common/geometry.py:327 | the predecessor on the cycle is the point whose successor is the given one |
| `Polygons.CycleLines` | pygmsh/common/geometry.py:326-327 | n points give n lines, each joining two of the polygon's points |
| `Polygons.CycleLinesShape` | pygmsh/common/geometry.py:326-327 | n points give n lines and line k joins point k to point (k+1) mod n |
| `Polygons.CycleLinesClosed` | pygmsh/common/geometry.py:324-328 | each line ends where the cyclically next one starts, and every point starts exactly one line and ends exactly one |
| `Polygons.AddPolygon` | pygmsh/common/geometry.py:299-330 | a polygon built from n vertices has n points, n lines and n edges |
| `Polygons.AddPolygonErrors` | pygmsh/common/geometry.py:313-321 | succeeds exactly when holes come with a surface, a list of mesh sizes has one entry per vertex, and there is at least one vertex; holes without a surface are reported first |
| `Polygons.AddPolygonShape` | pygmsh/common/geometry.py:318-330 | point k sits at vertex k with its mesh size (the scalar replicated n times, or the list entry), line k runs from k to (k+1) mod n, and the surface exists exactly when asked for, carrying the holes (none when not given) |

## Left out

- All calls into the gmsh engine: `initialize`/`finalize` (`__enter__`/`__exit__`), `synchronize`, `addPhysicalGroup`, `setPhysicalName`, and the creation of points, lines, curve loops and surfaces. The sweep engine is a function parameter of `Sweeps.Sweep`; `add_physical` returns the request it would send.
- `translate`, `rotate`, `symmetrize`, `dilate`, `mirror` and the `add_*` constructors: they only forward their arguments to the engine and keep no state of their own.
- The fields `env`, `_COMPOUND_ENTITIES`, `_AFTER_SYNC_QUEUE` and `_SIZE_QUEUE`: no modelled operation reads or writes them, and their entry types are set by subclass code that is not part of this model.
- The `angle < math.pi` assertions of `revolve` and `twist`, and all coordinates, axes and plane coefficients: they are floating point. Heights, mesh sizes and the transfinite coefficient are carried as `real` values without arithmetic.
- `PhysicalGroups.Allocate` only knows three kinds of label (none, integer, string); the failing `isinstance(label, str)` assertion for any other Python value, and Python treating `True`/`False` as integers, are not modelled. Python's 4300-digit limit on `str(int)` is not modelled either: above it the source records the ID and then raises ValueError, whereas `Allocate` and `Decimal.FromInt` succeed for every integer.
- `Sweeps.Sweep` takes the input entity's `dim_tags` directly and does not model the `recombine` flag beyond passing it on.
- `Polygons.AddPolygon` identifies points and lines by position; the curve loop is the list of lines in order, and the `Polygon` object's `_ID`, `dimension` and `dim_tags` (which hold the surface object itself, or `None`, paired with dimension 2) are not modelled.
- `Geometry.CommonGeometry.AddPhysical`: the test `label is not None` before `setPhysicalName` is always true after allocation, so the name is always part of the request.
- Assertions are modelled as always enabled. Under `python -O` the asserts of `_new_physical_group`, `add_physical`, `set_transfinite_curve`, `set_recombined_surfaces`, the sweeps, `copy` and `add_polygon` are stripped; a taken explicit label would then be appended a second time, so the no-duplicates invariant (`PhysicalGroups.SessionKeepsNoDuplicates`, `Geometry.CommonGeometry.Valid`) holds only with assertions enabled.

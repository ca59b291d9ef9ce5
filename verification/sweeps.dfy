/** The argument normalisation and output splitting that `extrude`, `revolve`
    and `twist` share, and the single-result check of `copy`.  The engine call
    in between is a parameter. */
module Sweeps {
  import opened Errors
  import opened Entities

  /** The `num_layers` argument: absent, one integer, or a list of counts. */
  datatype LayerArg = NoLayers | Count(n: int) | PerLayer(counts: seq<int>)

  /** The `numElements` and `heights` lists handed to the engine. */
  datatype Layers = Layers(numElements: seq<int>, heights: seq<real>)

  /** `num_layers` after an integer has been wrapped into a one-element list;
      a list is kept as it is. */
  function LayerList(numLayers: LayerArg): (counts: seq<int>)
    requires !numLayers.NoLayers?
    ensures numLayers.Count? ==> |counts| == 1 && counts[0] == numLayers.n
    ensures numLayers.PerLayer? ==> counts == numLayers.counts
  {
    if numLayers.Count? then [numLayers.n] else numLayers.counts
  }

  /** The layer normalisation at the head of `extrude`, `revolve` and `twist`. */
  function NormaliseLayers(numLayers: LayerArg, heights: Option<seq<real>>): (r: Result<Layers>)
    ensures r.Err? <==> !numLayers.NoLayers? && heights.Some? && |LayerList(numLayers)| != |heights.value|
    ensures r.Ok? ==> r.value.heights == [] || |r.value.heights| == |r.value.numElements|
  {
    if numLayers.NoLayers? then Ok(Layers([], []))
    else
      var counts := LayerList(numLayers);
      match heights
      case None => Ok(Layers(counts, []))
      case Some(hs) =>
        if |counts| == |hs| then Ok(Layers(counts, hs))
        else Err(LayerHeightMismatch(|counts|, |hs|))
  }

  /** The four cases of the normalisation, one per clause. */
  lemma NormaliseLayersCases(numLayers: LayerArg, heights: Option<seq<real>>)
    ensures numLayers.NoLayers? ==> NormaliseLayers(numLayers, heights) == Ok(Layers([], []))
    ensures numLayers.Count? && heights.None? ==>
      NormaliseLayers(numLayers, heights) == Ok(Layers([numLayers.n], []))
    ensures numLayers.PerLayer? && heights.None? ==>
      NormaliseLayers(numLayers, heights) == Ok(Layers(numLayers.counts, []))
    ensures !numLayers.NoLayers? && heights.Some? && |LayerList(numLayers)| == |heights.value| ==>
      NormaliseLayers(numLayers, heights) == Ok(Layers(LayerList(numLayers), heights.value))
  {
  }

  /** An integer count behaves exactly like the one-element list holding it. */
  lemma CountIsSingletonList(n: int, heights: Option<seq<real>>)
    ensures NormaliseLayers(Count(n), heights) == NormaliseLayers(PerLayer([n]), heights)
  {
  }

  /** What a sweep returns: the top entity, the swept body and the lateral ones. */
  datatype Pieces = Pieces(top: DimTag, extruded: DimTag, lateral: seq<DimTag>)

  /** The engine's output in the order it was split from. */
  function Joined(p: Pieces): seq<DimTag> {
    [p.top, p.extruded] + p.lateral
  }

  /** Split the engine's dim-tags: first is `top`, second `extruded`, the rest
      `lateral` in their original order.  Fewer than two is an index error. */
  function SplitOutput(out: seq<DimTag>): (r: Result<Pieces>)
    ensures r.Ok? <==> |out| >= 2
    ensures r.Ok? ==> Joined(r.value) == out && |r.value.lateral| == |out| - 2
    ensures r.Err? ==> r.error == TooFewDimTags(|out|)
  {
    if |out| < 2 then Err(TooFewDimTags(|out|))
    else Ok(Pieces(out[0], out[1], out[2..]))
  }

  /** Splitting the joined pieces gives the pieces back. */
  lemma SplitJoined(p: Pieces)
    ensures SplitOutput(Joined(p)) == Ok(p)
  {
    var out := Joined(p);
    assert out[2..] == p.lateral;
  }

  datatype SweepKind = Extrusion | Revolution | Twisting

  /** What is handed to the engine's extrude, revolve or twist. */
  datatype SweepRequest = SweepRequest(kind: SweepKind, input: seq<DimTag>, layers: Layers, recombine: bool)

  /** `extrude`, `revolve` or `twist` of an entity whose `dim_tags` are
      `input`: normalise the layers (failing before the
      engine is called), call the engine, split its output. */
  function Sweep(kind: SweepKind, input: seq<DimTag>, numLayers: LayerArg, heights: Option<seq<real>>,
                 recombine: bool, engine: SweepRequest -> seq<DimTag>): (r: Result<Pieces>)
    ensures NormaliseLayers(numLayers, heights).Err? ==> r == Err(NormaliseLayers(numLayers, heights).error)
    ensures NormaliseLayers(numLayers, heights).Ok? ==>
      var out := engine(SweepRequest(kind, input, NormaliseLayers(numLayers, heights).value, recombine));
      (r.Ok? <==> |out| >= 2) && (r.Err? ==> r.error == TooFewDimTags(|out|))
    ensures r.Ok? ==>
      var layers := NormaliseLayers(numLayers, heights).value;
      (layers.heights == [] || |layers.heights| == |layers.numElements|) &&
      Joined(r.value) == engine(SweepRequest(kind, input, layers, recombine))
  {
    match NormaliseLayers(numLayers, heights)
    case Err(e) => Err(e)
    case Ok(layers) => SplitOutput(engine(SweepRequest(kind, input, layers, recombine)))
  }

  /** `copy`: the engine must return exactly one dim-tag, which is the copy. */
  function CopyResult(out: seq<DimTag>): (r: Result<DimTag>)
    ensures r.Ok? <==> |out| == 1
    ensures r.Ok? ==> out == [r.value]
    ensures r.Err? ==> r.error == CopyNotSingle(|out|)
  {
    if |out| == 1 then Ok(out[0]) else Err(CopyNotSingle(|out|))
  }
}

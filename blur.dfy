/** The blur segmentation model wrapper of the segmentation tasks: its
    declared parameters, the output-layer check that sets the number of
    output channels, and the post-processing that resizes the prediction
    to the original image and fills the explanation metadata. */
module Blur {
  import opened Wrappers
  import opened Dicts

  // ---------------------------------------------------------------------
  // Parameters

  datatype NumType = FloatType | IntType

  /** A model parameter: a `NumericalValue` (its value type, default and
      bounds) or one of the base model's other parameters. */
  datatype Param = Numerical(valueType: NumType, default: real, min: real, max: real) | OtherParam(id: nat)

  const SoftThreshold := "soft_threshold"
  const BlurStrength := "blur_strength"

  /** `parameters()`: the base model's parameters updated with the two
      parameters of the blur post-processing. */
  function Parameters(base: map<string, Param>): (r: map<string, Param>)
    ensures r.Keys == base.Keys + {SoftThreshold, BlurStrength}
    ensures forall k :: k in base && k != SoftThreshold && k != BlurStrength ==> r[k] == base[k]
  {
    base[SoftThreshold := Numerical(FloatType, 0.5, 0.0, 1.0)][BlurStrength := Numerical(IntType, 1.0, 0.0, 25.0)]
  }

  /** A numerical parameter whose default lies within its bounds. */
  predicate WellDeclared(p: Param) {
    p.Numerical? && p.min <= p.default <= p.max
  }

  /** The soft threshold is a float defaulting to 0.5 in [0, 1]; the blur
      strength an integer defaulting to 1 in [0, 25]; both defaults lie
      within their bounds, whatever the base parameters are. */
  lemma DeclaredParameters(base: map<string, Param>)
    ensures var p := Parameters(base)[SoftThreshold];
            WellDeclared(p) && p.valueType == FloatType && p.default == 0.5 && p.min == 0.0 && p.max == 1.0
    ensures var p := Parameters(base)[BlurStrength];
            WellDeclared(p) && p.valueType == IntType && p.default == 1.0 && p.min == 0.0 && p.max == 25.0
  {
    assert SoftThreshold != BlurStrength;
  }

  // ---------------------------------------------------------------------
  // Arrays and metadata

  /** An array the model produced, known by its shape. */
  datatype Array = Array(shape: seq<nat>, id: nat)

  /** `a.squeeze()`: the dimensions of size 1 dropped, the others kept in
      their order and number. */
  function Squeeze(a: Array): (r: Array)
    ensures r.id == a.id && 1 !in r.shape
    ensures forall d :: d in r.shape <==> d in a.shape && d != 1
    ensures forall d :: d != 1 ==> multiset(r.shape)[d] == multiset(a.shape)[d]
  {
    FilterSeqCount(a.shape, d => d != 1);
    Array(FilterSeq(a.shape, d => d != 1), a.id)
  }

  /** Squeezing works axis by axis: the squeezed shape of `x + y` is that
      of `x` followed by that of `y`, a unit axis vanishes and any other
      axis stays. With the count above this fixes the order of the result. */
  lemma SqueezeOrder(x: seq<nat>, y: seq<nat>, id: nat, d: nat)
    ensures Squeeze(Array(x + y, id)).shape == Squeeze(Array(x, id)).shape + Squeeze(Array(y, id)).shape
    ensures Squeeze(Array([d], id)).shape == if d == 1 then [] else [d]
  {
    FilterSeqConcat(x, y, d => d != 1);
    var unit := (e: nat) => e != 1;
    assert [d][0] == d && [d][1..] == [];
    assert FilterSeq([d], unit) == (if d == 1 then [] else [d]) + FilterSeq([], unit);
  }

  /** `np.transpose(a, axes=(1, 2, 0))`: channels last; `ValueError` unless `a` has three dimensions. */
  function ChannelsLast(a: Array): (r: Result<Array>)
    ensures r.Ok? <==> |a.shape| == 3
    ensures r.Err? ==> r.error == ValueError
    ensures r.Ok? ==> r.value.shape == a.shape[1..] + a.shape[..1]
  {
    if |a.shape| == 3 then Ok(Array([a.shape[1], a.shape[2], a.shape[0]], a.id)) else Err(ValueError)
  }

  /** `a[0]`: the first entry along the first axis; `IndexError` when there is none. */
  function First(a: Array): (r: Result<Array>)
    ensures r.Ok? <==> |a.shape| > 0 && a.shape[0] > 0
    ensures r.Ok? ==> r.value.shape == a.shape[1..]
  {
    if |a.shape| > 0 && a.shape[0] > 0 then Ok(Array(a.shape[1..], a.id)) else Err(IndexError)
  }

  /** A resized image: `cv2.resize(src, (width, height))`, colour-mapped for
      an activation map. */
  datatype Image = Resized(src: Array, width: nat, height: nat) | ActMap(features: Array, width: nat, height: nat)

  /** A metadata value. */
  datatype Meta = MetaNone | Shape(dims: seq<nat>) | Tensor(a: Array) | Picture(image: Image) | OtherMeta(id: nat)

  const OriginalShape := "original_shape"
  const FeatureVector := "feature_vector"
  const SaliencyMap := "saliency_map"

  /** The metadata after the explanation branch of `postprocess`: both entries
      `None` unless both outputs exist; otherwise the activation map of the
      first saliency map at the original size, and the feature vector as is. */
  function ExplainedMetadata(metadata: Dict<string, Meta>, outputs: map<string, Array>, width: nat, height: nat)
    : Result<Dict<string, Meta>>
    requires metadata.Valid()
  {
    if FeatureVector !in outputs || SaliencyMap !in outputs then
      Ok(metadata.Set(SaliencyMap, MetaNone).Set(FeatureVector, MetaNone))
    else
      match First(outputs[SaliencyMap])
      case Err(e) => Err(e)
      case Ok(features) =>
        Ok(metadata.Set(SaliencyMap, Picture(ActMap(features, width, height)))
                   .Set(FeatureVector, Tensor(outputs[FeatureVector])))
  }

  /** Missing either output clears both entries; with both, the feature
      vector is stored unchanged and the saliency map is the activation map
      of its first entry at the given size. No other entry changes. */
  lemma ExplainedMetadataSpec(metadata: Dict<string, Meta>, outputs: map<string, Array>, width: nat, height: nat)
    requires metadata.Valid()
    ensures var r := ExplainedMetadata(metadata, outputs, width, height);
            (FeatureVector !in outputs || SaliencyMap !in outputs) ==>
              r.Ok? && r.value.vals[SaliencyMap] == MetaNone && r.value.vals[FeatureVector] == MetaNone
    ensures var r := ExplainedMetadata(metadata, outputs, width, height);
            FeatureVector in outputs && SaliencyMap in outputs ==>
              && (r.Ok? <==> First(outputs[SaliencyMap]).Ok?)
              && (r.Ok? ==>
                    && r.value.vals[FeatureVector] == Tensor(outputs[FeatureVector])
                    && r.value.vals[SaliencyMap] == Picture(ActMap(First(outputs[SaliencyMap]).value, width, height)))
    ensures var r := ExplainedMetadata(metadata, outputs, width, height);
            r.Ok? ==>
              && r.value.vals.Keys == metadata.vals.Keys + {SaliencyMap, FeatureVector}
              && forall k :: k in metadata.vals && k != SaliencyMap && k != FeatureVector ==> r.value.vals[k] == metadata.vals[k]
  {
    assert SaliencyMap != FeatureVector by {
      assert SaliencyMap[0] != FeatureVector[0];
    }
    if FeatureVector !in outputs || SaliencyMap !in outputs {
      SetTwo(metadata, SaliencyMap, MetaNone, FeatureVector, MetaNone);
    } else if First(outputs[SaliencyMap]).Ok? {
      SetTwo(metadata, SaliencyMap, Picture(ActMap(First(outputs[SaliencyMap]).value, width, height)),
             FeatureVector, Tensor(outputs[FeatureVector]));
    }
  }

  /** Setting two distinct keys: both hold their new values and every other
      entry is kept. */
  lemma SetTwo<V>(d: Dict<string, V>, a: string, va: V, b: string, vb: V)
    requires d.Valid() && a != b
    ensures var r := d.Set(a, va).Set(b, vb);
            && r.vals.Keys == d.vals.Keys + {a, b}
            && r.vals[a] == va && r.vals[b] == vb
            && forall k :: k in d.vals && k != a && k != b ==> r.vals[k] == d.vals[k]
  {
  }

  // ---------------------------------------------------------------------
  // The model wrapper

  class BlurSegmentation {
    /** The shapes of the model's output layers, `self.outputs[name].shape`. */
    const outputs: map<string, seq<nat>>
    /** `self.output_blob_name`. */
    const outputBlobName: string
    /** `self.soft_threshold`, `self.blur_strength`. */
    const softThreshold: real
    const blurStrength: int
    /** `self.out_channels`; `None` until `_get_outputs` sets it. */
    var outChannels: Option<nat>

    constructor (outputs: map<string, seq<nat>>, outputBlobName: string, softThreshold: real, blurStrength: int)
      ensures this.outputs == outputs && this.outputBlobName == outputBlobName
      ensures this.softThreshold == softThreshold && this.blurStrength == blurStrength
      ensures outChannels.None?
    {
      this.outputs := outputs;
      this.outputBlobName := outputBlobName;
      this.softThreshold := softThreshold;
      this.blurStrength := blurStrength;
      outChannels := None;
    }

    /** `_get_outputs`: the layer is always `"output"`; a 3-D output has no
        channel axis, a 4-D one has its channels on axis 1, any other rank
        raises. */
    method GetOutputs() returns (r: Result<string>)
      modifies this
      ensures "output" !in outputs ==> r == Err(KeyError) && outChannels == old(outChannels)
      ensures "output" in outputs ==>
                var shape := outputs["output"];
                && (r.Ok? <==> |shape| == 3 || |shape| == 4)
                && (r.Ok? ==> r.value == "output" && outChannels == Some(if |shape| == 3 then 0 else shape[1]))
                && (r.Err? ==> r.error == GenericException && outChannels == old(outChannels))
    {
      var layerName := "output";
      if layerName !in outputs {
        return Err(KeyError);
      }
      var shape := outputs[layerName];
      if |shape| == 3 {
        outChannels := Some(0);
      } else if |shape| == 4 {
        outChannels := Some(shape[1]);
      } else {
        return Err(GenericException);
      }
      r := Ok(layerName);
    }

    /** `postprocess`: the hard prediction (made by `hardPrediction`, which
        stands for `create_hard_prediction_from_soft_prediction`) resized to
        the original width and height, and the metadata filled in place. */
    method Postprocess(outputs: map<string, Array>, metadata: MutableDict<string, Meta>,
                       hardPrediction: (Array, real, int) -> Array)
      returns (r: Result<Image>)
      requires metadata.contents.Valid()
      modifies metadata
      ensures metadata.contents.Valid()
      ensures outputBlobName !in outputs ==> r == Err(KeyError) && unchanged(metadata)
      ensures outputBlobName in outputs ==>
                match ChannelsLast(Squeeze(outputs[outputBlobName]))
                case Err(e) => r == Err(e) && unchanged(metadata)
                case Ok(soft) =>
                  var md := old(metadata.contents);
                  if OriginalShape !in md.vals then r == Err(KeyError) && unchanged(metadata)
                  else if !md.vals[OriginalShape].Shape? || |md.vals[OriginalShape].dims| < 2 then
                    r == Err(GenericException) && unchanged(metadata)
                  else
                    var dims := md.vals[OriginalShape].dims;
                    match ExplainedMetadata(md, outputs, dims[1], dims[0])
                    case Err(e) => r == Err(e) && unchanged(metadata)
                    case Ok(explained) =>
                      && metadata.contents == explained
                      && r == Ok(Resized(hardPrediction(soft, softThreshold, blurStrength), dims[1], dims[0]))
    {
      if outputBlobName !in outputs {
        return Err(KeyError);
      }
      var soft := ChannelsLast(Squeeze(outputs[outputBlobName]));
      if soft.Err? {
        return Err(soft.error);
      }
      var hard := hardPrediction(soft.value, softThreshold, blurStrength);
      if OriginalShape !in metadata.contents.vals {
        return Err(KeyError);
      }
      var shape := metadata.contents.vals[OriginalShape];
      if !shape.Shape? || |shape.dims| < 2 {
        return Err(GenericException);
      }
      var resized := Resized(hard, shape.dims[1], shape.dims[0]);
      if FeatureVector !in outputs || SaliencyMap !in outputs {
        metadata.contents := metadata.contents.Set(SaliencyMap, MetaNone);
        metadata.contents := metadata.contents.Set(FeatureVector, MetaNone);
      } else {
        var features := First(outputs[SaliencyMap]);
        if features.Err? {
          return Err(features.error);
        }
        metadata.contents := metadata.contents.Set(SaliencyMap, Picture(ActMap(features.value, shape.dims[1], shape.dims[0])));
        metadata.contents := metadata.contents.Set(FeatureVector, Tensor(outputs[FeatureVector]));
      }
      r := Ok(resized);
    }
  }
}

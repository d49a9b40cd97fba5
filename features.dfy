/**
 * The detection-feature enumeration (feature.go) and its mapping onto the
 * wire feature types. DetectionFeature is a Go `int`, so values outside the
 * nine named constants exist and must be mapped too.
 */
module Features {
  import VisionPb

  /** A Go `int` on a 64-bit platform. */
  newtype DetectionFeature = x: int | -0x8000_0000_0000_0000 <= x < 0x8000_0000_0000_0000

  const TypeUnspecified: DetectionFeature := 0
  const FaceDetection: DetectionFeature := 1
  const LandmarkDetection: DetectionFeature := 2
  const LogoDetection: DetectionFeature := 3
  const LabelDetection: DetectionFeature := 4
  const TextDetection: DetectionFeature := 5
  const DocumentTextDetection: DetectionFeature := 6
  const SafeSearchDetection: DetectionFeature := 7
  const ImageProperties: DetectionFeature := 8

  /** The named constants in declaration order. */
  const Named: seq<DetectionFeature> :=
    [TypeUnspecified, FaceDetection, LandmarkDetection, LogoDetection, LabelDetection,
     TextDetection, DocumentTextDetection, SafeSearchDetection, ImageProperties]

  /** The constants are numbered from 0 upwards without gaps, as `iota` numbers them. */
  lemma NamedAreConsecutive(d: DetectionFeature)
    ensures forall i :: 0 <= i < |Named| ==> Named[i] == i as DetectionFeature
    ensures d in Named <==> 0 <= d < 9
  {
  }

  function VisionFeature(d: DetectionFeature): (t: VisionPb.FeatureType)
    ensures d !in Named ==> t == VisionPb.TypeUnspecified
    ensures t == VisionPb.TypeUnspecified <==> d == TypeUnspecified || d !in Named
  {
    if d == TypeUnspecified then VisionPb.TypeUnspecified
    else if d == FaceDetection then VisionPb.FaceDetection
    else if d == LandmarkDetection then VisionPb.LandmarkDetection
    else if d == LogoDetection then VisionPb.LogoDetection
    else if d == LabelDetection then VisionPb.LabelDetection
    else if d == TextDetection then VisionPb.TextDetection
    else if d == DocumentTextDetection then VisionPb.DocumentTextDetection
    else if d == SafeSearchDetection then VisionPb.SafeSearchDetection
    else if d == ImageProperties then VisionPb.ImageProperties
    else VisionPb.TypeUnspecified
  }

  /** Reference table read the other way: the named feature that requests `t`. */
  function FeatureFor(t: VisionPb.FeatureType): (d: DetectionFeature)
    ensures d in Named
  {
    match t
    case TypeUnspecified => TypeUnspecified
    case FaceDetection => FaceDetection
    case LandmarkDetection => LandmarkDetection
    case LogoDetection => LogoDetection
    case LabelDetection => LabelDetection
    case TextDetection => TextDetection
    case DocumentTextDetection => DocumentTextDetection
    case SafeSearchDetection => SafeSearchDetection
    case ImageProperties => ImageProperties
  }

  /** Every named feature is recovered from the wire type it maps to. */
  lemma VisionFeatureRoundTrip(d: DetectionFeature)
    requires d in Named
    ensures FeatureFor(VisionFeature(d)) == d
  {
  }

  /** Every wire type is reached, by exactly the feature the table names. */
  lemma FeatureForRoundTrip(t: VisionPb.FeatureType)
    ensures VisionFeature(FeatureFor(t)) == t
  {
  }

  /** Distinct named features request distinct wire types. */
  lemma VisionFeatureInjective(a: DetectionFeature, b: DetectionFeature)
    requires a in Named && b in Named
    requires VisionFeature(a) == VisionFeature(b)
    ensures a == b
  {
    VisionFeatureRoundTrip(a);
    VisionFeatureRoundTrip(b);
  }
}

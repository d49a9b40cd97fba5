/**
 * The shapes of the Cloud Vision wire messages that the client builds and
 * receives (package visionpb of the SDK). Only the fields the client sets
 * are modelled; the SDK itself is outside this model.
 */
module VisionPb {

  /** Wire feature types, restricted to the nine the client can request. */
  datatype FeatureType =
    | TypeUnspecified
    | FaceDetection
    | LandmarkDetection
    | LogoDetection
    | LabelDetection
    | TextDetection
    | DocumentTextDetection
    | SafeSearchDetection
    | ImageProperties

  /** Raw image bytes, as read from a file. */
  datatype Image = Image(content: seq<bv8>)

  /** One requested feature; MaxResults is left at the service default. */
  datatype Feature = Feature(featureType: FeatureType, model: string)

  datatype ImageContext = ImageContext(languageHints: seq<string>)

  datatype AnnotateImageRequest =
    AnnotateImageRequest(image: Image, features: seq<Feature>, imageContext: ImageContext)

  /** Parent and Labels are never set by the client, so they are not modelled. */
  datatype BatchAnnotateImagesRequest =
    BatchAnnotateImagesRequest(requests: seq<AnnotateImageRequest>)

  /** Per-image results are external data; only their presence is modelled. */
  datatype AnnotateImageResponse = AnnotateImageResponse(payload: seq<bv8>)

  datatype BatchAnnotateImagesResponse =
    BatchAnnotateImagesResponse(responses: seq<AnnotateImageResponse>)
}

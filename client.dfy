/**
 * The Vision client (client.go): a language-hint state on the client object
 * and the assembly of one batch request per call. Opening and decoding an
 * image file is an oracle from path to ImageSource; the SDK is an Annotator
 * that either fails to start a session or answers a submitted batch.
 */
module Client {
  import opened Wrappers
  import opened Features
  import VisionPb
  import Credentials

  /** What opening and decoding one path yields. */
  datatype ImageSource =
    | Decoded(image: VisionPb.Image)
    | OpenFailed(cause: string)
    | DecodeFailed(cause: string)

  /** The SDK session: it answers a batch with a response or an error of its own. */
  datatype Annotator =
    | Session(annotate: VisionPb.BatchAnnotateImagesRequest -> Result<VisionPb.BatchAnnotateImagesResponse, string>)
    | SessionFailed(cause: string)

  datatype Error =
    | AnnotatorUnavailable(cause: string)
    | CannotOpen(path: string, cause: string)
    | CannotDecode(path: string, cause: string)
    | RequestFailed(cause: string)

  /** The model every feature is requested with. */
  const BuiltinLatest: string := "builtin/latest"

  /** The error reported for a path that could not be turned into an image. */
  function LoadError(path: string, source: ImageSource): Error
    requires !source.Decoded?
  {
    match source
    case OpenFailed(cause) => CannotOpen(path, cause)
    case DecodeFailed(cause) => CannotDecode(path, cause)
  }

  /** Loads the images in order and stops at the first path that fails. */
  function LoadImages(paths: seq<string>, open: string -> ImageSource): (r: Result<seq<VisionPb.Image>, Error>)
    ensures r.Success? <==> forall i :: 0 <= i < |paths| ==> open(paths[i]).Decoded?
    ensures r.Success? ==>
      |r.value| == |paths| && forall i :: 0 <= i < |paths| ==> r.value[i] == open(paths[i]).image
    ensures r.Failure? ==> (r.error.CannotOpen? || r.error.CannotDecode?) && r.error.path in paths
  {
    if paths == [] then Success([])
    else match open(paths[0])
      case Decoded(image) =>
        var rest :- LoadImages(paths[1..], open);
        Success([image] + rest)
      case _ => Failure(LoadError(paths[0], open(paths[0])))
  }

  /** A failure is reported for the first unloadable path and no other. */
  lemma {:induction false} LoadImagesFailsAtFirst(paths: seq<string>, open: string -> ImageSource, k: nat)
    requires k < |paths| && !open(paths[k]).Decoded?
    requires forall j :: 0 <= j < k ==> open(paths[j]).Decoded?
    ensures LoadImages(paths, open) == Failure(LoadError(paths[k], open(paths[k])))
  {
    if k > 0 {
      assert open(paths[0]).Decoded?;
      LoadImagesFailsAtFirst(paths[1..], open, k - 1);
    }
  }

  /** The request for one image: exactly one feature and the given hints. */
  function ImageRequest(image: VisionPb.Image, feature: DetectionFeature, hints: seq<string>): VisionPb.AnnotateImageRequest
  {
    VisionPb.AnnotateImageRequest(
      image,
      [VisionPb.Feature(VisionFeature(feature), BuiltinLatest)],
      VisionPb.ImageContext(hints))
  }

  function BuildBatch(images: seq<VisionPb.Image>, feature: DetectionFeature, hints: seq<string>): (b: VisionPb.BatchAnnotateImagesRequest)
    ensures |b.requests| == |images|
    ensures forall i :: 0 <= i < |images| ==>
      b.requests[i].image == images[i] && b.requests[i].imageContext.languageHints == hints
  {
    VisionPb.BatchAnnotateImagesRequest(
      seq(|images|, i requires 0 <= i < |images| => ImageRequest(images[i], feature, hints)))
  }

  /** The batch is one-to-one and in order with the images, and every request
      asks for the same single feature with the same hints. */
  lemma BatchShape(images: seq<VisionPb.Image>, feature: DetectionFeature, hints: seq<string>)
    ensures var b := BuildBatch(images, feature, hints);
      |b.requests| == |images|
      && forall i :: 0 <= i < |images| ==>
        b.requests[i].image == images[i]
        && |b.requests[i].features| == 1
        && b.requests[i].features[0].featureType == VisionFeature(feature)
        && b.requests[i].features[0].model == BuiltinLatest
        && b.requests[i].imageContext.languageHints == hints
  {
  }

  /** The SDK's cause is passed back under RequestFailed. */
  function Submitted(answer: Result<VisionPb.BatchAnnotateImagesResponse, string>): Result<VisionPb.BatchAnnotateImagesResponse, Error>
  {
    match answer
    case Success(response) => Success(response)
    case Failure(cause) => Failure(RequestFailed(cause))
  }

  /** The outcome of one annotation call over `paths` with the hints `hints`. */
  function Outcome(paths: seq<string>, feature: DetectionFeature, hints: seq<string>,
                   open: string -> ImageSource, annotator: Annotator): (r: Result<VisionPb.BatchAnnotateImagesResponse, Error>)
    ensures annotator.SessionFailed? ==> r == Failure(AnnotatorUnavailable(annotator.cause))
    ensures annotator.Session? && !Reaches(paths, open, annotator) ==>
      r == Failure(LoadImages(paths, open).error) && (r.error.CannotOpen? || r.error.CannotDecode?)
    ensures Reaches(paths, open, annotator) ==>
      r == Submitted(annotator.annotate(BuildBatch(LoadImages(paths, open).value, feature, hints)))
    ensures r.Success? ==> Reaches(paths, open, annotator)
  {
    match annotator
    case SessionFailed(cause) => Failure(AnnotatorUnavailable(cause))
    case Session(annotate) =>
      match LoadImages(paths, open)
      case Failure(e) => Failure(e)
      case Success(images) => Submitted(annotate(BuildBatch(images, feature, hints)))
  }

  /** Whether a call reaches the point where the batch is handed to the SDK. */
  predicate Reaches(paths: seq<string>, open: string -> ImageSource, annotator: Annotator)
  {
    annotator.Session? && LoadImages(paths, open).Success?
  }

  /** A call whose images cannot all be loaded fails with the loading error and
      hands nothing to the SDK: its outcome is the same whatever the SDK would answer. */
  lemma LoadFailureSubmitsNothing(paths: seq<string>, feature: DetectionFeature, hints: seq<string>,
                                  open: string -> ImageSource, a1: Annotator, a2: Annotator)
    requires a1.Session? && a2.Session?
    requires LoadImages(paths, open).Failure?
    ensures Outcome(paths, feature, hints, open, a1) == Outcome(paths, feature, hints, open, a2)
    ensures Outcome(paths, feature, hints, open, a1) == Failure(LoadImages(paths, open).error)
  {
  }

  class VisionClient {
    var credentials: Credentials.ClientOption
    var languageHints: seq<string>
    var keepLanguageHints: bool

    /** NewClient: no hints, and hints are not kept. */
    constructor (credentials: Credentials.ClientOption)
      ensures this.credentials == credentials
      ensures languageHints == [] && !keepLanguageHints
    {
      this.credentials := credentials;
      languageHints := [];
      keepLanguageHints := false;
    }

    method SetLanguageHints(languages: seq<string>, keep: bool)
      modifies this
      ensures languageHints == languages && keepLanguageHints == keep
      ensures credentials == old(credentials)
    {
      languageHints := languages;
      keepLanguageHints := keep;
    }

    method RequestImageAnnotation(imagePaths: seq<string>, feature: DetectionFeature,
                                  open: string -> ImageSource, annotator: Annotator)
      returns (r: Result<VisionPb.BatchAnnotateImagesResponse, Error>)
      modifies this`languageHints
      ensures r == Outcome(imagePaths, feature, old(languageHints), open, annotator)
      ensures languageHints ==
        if Reaches(imagePaths, open, annotator) && !keepLanguageHints then [] else old(languageHints)
    {
      if annotator.SessionFailed? {
        return Failure(AnnotatorUnavailable(annotator.cause));
      }

      var visionImages := new VisionPb.Image[|imagePaths|];
      for i := 0 to |imagePaths|
        invariant languageHints == old(languageHints)
        invariant forall k :: 0 <= k < i ==> open(imagePaths[k]).Decoded?
        invariant forall k :: 0 <= k < i ==> visionImages[k] == open(imagePaths[k]).image
      {
        var p := imagePaths[i];
        var source := open(p);
        if !source.Decoded? {
          LoadImagesFailsAtFirst(imagePaths, open, i);
          return Failure(LoadError(p, source));
        }
        visionImages[i] := source.image;
      }
      ghost var images := LoadImages(imagePaths, open).value;
      assert visionImages[..] == images;

      var imageRequests := new VisionPb.AnnotateImageRequest[visionImages.Length];
      for i := 0 to visionImages.Length
        invariant languageHints == old(languageHints)
        invariant visionImages[..] == images
        invariant forall k :: 0 <= k < i ==>
          imageRequests[k] == ImageRequest(visionImages[k], feature, languageHints)
      {
        imageRequests[i] := VisionPb.AnnotateImageRequest(
          visionImages[i],
          [VisionPb.Feature(VisionFeature(feature), BuiltinLatest)],
          VisionPb.ImageContext(languageHints));
      }

      var batchRequest := VisionPb.BatchAnnotateImagesRequest(imageRequests[..]);
      assert batchRequest == BuildBatch(images, feature, languageHints);

      if !keepLanguageHints {
        languageHints := [];
      }

      r := Submitted(annotator.annotate(batchRequest));
    }
  }

  /** Hints set without `keep` reach the first batch only: once that batch was
      handed to the SDK, the next call on the same client sends none. */
  method HintsLastOneRequest(credentials: Credentials.ClientOption, hints: seq<string>,
                             paths: seq<string>, feature: DetectionFeature,
                             open: string -> ImageSource, annotator: Annotator,
                             paths2: seq<string>, feature2: DetectionFeature,
                             open2: string -> ImageSource, annotator2: Annotator)
    returns (first: Result<VisionPb.BatchAnnotateImagesResponse, Error>,
             second: Result<VisionPb.BatchAnnotateImagesResponse, Error>)
    ensures first == Outcome(paths, feature, hints, open, annotator)
    ensures Reaches(paths, open, annotator) ==> second == Outcome(paths2, feature2, [], open2, annotator2)
    ensures !Reaches(paths, open, annotator) ==> second == Outcome(paths2, feature2, hints, open2, annotator2)
  {
    var client := new VisionClient(credentials);
    client.SetLanguageHints(hints, false);
    first := client.RequestImageAnnotation(paths, feature, open, annotator);
    second := client.RequestImageAnnotation(paths2, feature2, open2, annotator2);
  }
}

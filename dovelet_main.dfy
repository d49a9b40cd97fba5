/**
 * The call sequence of the dovelet command (cmd/dovelet/main.go): resolve
 * credentials from the environment, create a client, pass the parsed
 * languages as one-shot hints when there are any, and request the
 * annotation. Printing and the JSON encoding of the response are not modelled.
 */
module DoveletMain {
  import opened Wrappers
  import VisionPb
  import Credentials
  import Client
  import DoveletFlags
  import Selection
  import GoStrings

  /** Why the process ends with a non-zero status. */
  datatype Exit =
    | Usage
    | CredentialsFailed(message: string)
    | AnnotationFailed(error: Client.Error)

  /** The annotation outcome as the command reports it. */
  function Reported(outcome: Result<VisionPb.BatchAnnotateImagesResponse, Client.Error>): Result<VisionPb.BatchAnnotateImagesResponse, Exit>
  {
    match outcome
    case Success(response) => Success(response)
    case Failure(e) => Failure(AnnotationFailed(e))
  }

  method Run(args: DoveletFlags.CLArgs, paths: seq<string>, env: Credentials.Environment,
             open: string -> Client.ImageSource, annotator: Client.Annotator)
    returns (r: Result<VisionPb.BatchAnnotateImagesResponse, Exit>)
    ensures paths == [] ==> r == Failure(Usage)
    ensures paths != [] && Credentials.Getenv(env, Credentials.CredentialsVariable) == "" ==>
      r == Failure(CredentialsFailed(Credentials.CredentialsPath(env).error))
    ensures paths != [] && Credentials.Getenv(env, Credentials.CredentialsVariable) != "" ==>
      r == Reported(Client.Outcome(paths, DoveletFlags.Feature(args), DoveletFlags.Language(args), open, annotator))
  {
    if |paths| == 0 {
      return Failure(Usage);
    }
    var creds := Credentials.NewApplicationCredentials("", env);
    if creds.Failure? {
      return Failure(CredentialsFailed(creds.error));
    }
    var client := new Client.VisionClient(Credentials.Provide(creds.value));
    if |DoveletFlags.Language(args)| > 0 {
      client.SetLanguageHints(DoveletFlags.Language(args), false);
    }
    var res := client.RequestImageAnnotation(paths, DoveletFlags.Feature(args), open, annotator);
    r := Reported(res);
  }

  /** Parsing followed by the run: the hints sent are the comma split of
      `-lang` for the two OCR features and none for every other feature,
      whatever `-lang` held. */
  method ParseAndRun(face: bool, landmark: bool, logo: bool, labelDetection: bool, text: bool,
                     docText: bool, safeSearch: bool, imageProperties: bool, lang: string,
                     paths: seq<string>, env: Credentials.Environment,
                     open: string -> Client.ImageSource, annotator: Client.Annotator)
    returns (args: DoveletFlags.CLArgs, r: Result<VisionPb.BatchAnnotateImagesResponse, Exit>)
    ensures Selection.Selects([face, landmark, logo, labelDetection, text, docText, safeSearch, imageProperties],
                              Selection.Precedence, DoveletFlags.Feature(args))
    ensures paths == [] ==> r == Failure(Usage)
    ensures paths != [] && Credentials.Getenv(env, Credentials.CredentialsVariable) == "" ==>
      r == Failure(CredentialsFailed(Credentials.CredentialsPath(env).error))
    ensures paths != [] && Credentials.Getenv(env, Credentials.CredentialsVariable) != "" ==>
      if DoveletFlags.IsOcr(DoveletFlags.Feature(args))
      then r == Reported(Client.Outcome(paths, DoveletFlags.Feature(args), GoStrings.Split(lang, ','), open, annotator))
      else r == Reported(Client.Outcome(paths, DoveletFlags.Feature(args), [], open, annotator))
  {
    args := DoveletFlags.ParseArgs(face, landmark, logo, labelDetection, text, docText,
                                   safeSearch, imageProperties, lang);
    r := Run(args, paths, env, open, annotator);
  }
}

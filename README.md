# dovelet / pigeon — a Dafny model of the request-building core

dovelet (and its sibling command pigeon) is a command-line wrapper around the
Google Cloud Vision image-annotation API. It turns a set of feature flags into
one detection feature, resolves the service-account credentials file, reads the
listed image files and sends them to the service as one batch request, with
optional language hints. This project models the plain logic of that path:

- `features.dfy` — the `DetectionFeature` enumeration (a Go `int`, nine named
  constants 0..8) and its mapping `VisionFeature` onto the wire feature types,
  with the fallback to `TYPE_UNSPECIFIED` for every other value.
- `selection.dfy` — the first-true-wins rule both command lines use to pick a
  feature (face > landmark > logo > label > text > doc > safe-search >
  image-properties, otherwise unspecified), as a predicate `Selects` and a
  reference scan `FirstTrue`.
- `dovelet_flags.dfy`, `pigeon_flags.dfy` — the two `CLArgs` records,
  `Feature()`, `Language()` and `ParseArgs`. The values the `flag` package
  would parse are inputs. dovelet splits `-lang` on commas and replaces the
  list by the empty list unless the feature is Text or DocumentText; pigeon
  keeps the string as it is.
- `strings.dfy` — Go's `strings.Split` and `strings.Join` for a one-character
  separator, with both round trips proved.
- `credentials.dfy` — `NewApplicationCredentials` and `credentialsPath`: an
  explicit file name wins; otherwise the `GOOGLE_APPLICATION_CREDENTIALS`
  variable of the environment (a parameter) is used, and an empty or unset
  variable is an error.
- `client.dfy` — the class `VisionClient` with its `languageHints` and
  `keepLanguageHints` fields, `SetLanguageHints`, and `RequestImageAnnotation`,
  which fills a preallocated array of images and then one of requests, builds
  the batch, clears the hints unless they are kept, and hands the batch to the
  SDK. Opening and decoding a file is an oracle `path -> ImageSource`; the SDK
  is an `Annotator` which either fails to start a session or answers a batch.
  `RequestImageAnnotation` is proved equal to the specification function
  `Outcome`, whose properties are lemmas.
- `dovelet_main.dfy` — the call sequence of the dovelet command: usage error
  without paths, credentials from the environment, one-shot hints only when
  the language list is non-empty, then one annotation request.
- `visionpb.dfy`, `wrappers.dfy` — the wire message shapes the client fills in,
  and a `Result` type for Go's `(value, error)` returns.

Three behaviours of the code are easy to miss, and the model keeps all three:
each request names the model `"builtin/latest"` instead of leaving the service
default; the annotator session is created before any image is read, so a
session failure is reported ahead of an unreadable file; and an unreadable
file gives one of two errors, depending on whether opening or decoding failed.

## Model

| member | source | states |
|---|---|---|
| Features.NamedAreConsecutive | feature.go:10-29 | the nine constants are 0, 1, ..., 8 in declaration order, and a value is named exactly when it lies in 0..8 |
| Features.VisionFeature | feature.go:32-54 | every value outside the nine named constants maps to TYPE_UNSPECIFIED, and TYPE_UNSPECIFIED is produced only by TypeUnspecified or an unnamed value |
| Features.FeatureFor | feature.go:33-51 | the reverse table always yields a named constant |
| Features.VisionFeatureRoundTrip | feature.go:33-51 | each named feature is recovered from the wire type it maps to |
| Features.FeatureForRoundTrip | feature.go:33-51 | every wire type is reached from the named feature the table pairs it with |
| Features.VisionFeatureInjective | feature.go:32-54 | distinct named features map to distinct wire types |
| Selection.FirstTrue | cmd/dovelet/flag.go:74-94 | the reference in-order scan returns the feature of the first set flag, or TypeUnspecified when no flag is set |
| Selection.SelectsUnique | cmd/dovelet/flag.go:75-93 | the first-true-wins rule determines at most one feature for any combination of flags |
| GoStrings.Split | cmd/dovelet/flag.go:52 | splitting yields one more piece than there are separators (so never the empty list) and no piece holds the separator |
| GoStrings.JoinSplit | cmd/dovelet/flag.go:52 | joining the split pieces with the separator gives back the original string |
| GoStrings.SplitJoin | cmd/dovelet/flag.go:52 | splitting the join of a non-empty list of separator-free pieces gives that list back |
| DoveletFlags.Feature | cmd/dovelet/flag.go:74-94 | the feature is that of the first set flag in the order face, landmark, logo, label, text, doc, safe-search, image-properties, and TypeUnspecified when none is set |
| DoveletFlags.FeatureIsFirstTrue | cmd/dovelet/flag.go:74-94 | dovelet's switch agrees with the reference scan on every flag combination |
| DoveletFlags.FeatureIgnoresLanguages | cmd/dovelet/flag.go:74-94 | the selected feature does not depend on the language list |
| DoveletFlags.ParseArgs | cmd/dovelet/flag.go:43-60 | the flags are stored as given; for Text or DocumentText the languages are the comma split of `-lang`, whose join restores `-lang`, and an empty `-lang` gives `[""]`; for any other feature they are the empty list |
| DoveletFlags.Language | cmd/dovelet/flag.go:96-98 | returns the stored language list unchanged |
| PigeonFlags.Feature | cmd/pigeon/flag.go:66-86 | the same first-true-wins precedence, and TypeUnspecified when no flag is set |
| PigeonFlags.FeatureIsFirstTrue | cmd/pigeon/flag.go:66-86 | pigeon's switch agrees with the reference scan on every flag combination |
| PigeonFlags.FeatureIgnoresLanguage | cmd/pigeon/flag.go:66-86 | the selected feature does not depend on the language string |
| PigeonFlags.ParseArgs | cmd/pigeon/flag.go:41-52 | the flags are stored as given and `Language()` returns `-lang` verbatim whatever the feature |
| PigeonFlags.Language | cmd/pigeon/flag.go:88-90 | returns the stored `-lang` string unchanged |
| Credentials.CredentialsPath | credentials/application_credentials_provider.go:42-49 | succeeds exactly when the variable GOOGLE_APPLICATION_CREDENTIALS is set and non-empty, returning its value; the error message ends with the variable's name |
| Credentials.NewApplicationCredentials | credentials/application_credentials_provider.go:19-32 | a non-empty file name becomes the provider's path unchecked; an empty one falls back to the environment variable, failing with the same error when it is empty or unset; a resolved path is never empty |
| Credentials.ExplicitFilenameIgnoresEnvironment | credentials/application_credentials_provider.go:20-24 | with a non-empty file name the result is the same in every environment |
| Credentials.Provide | credentials/application_credentials_provider.go:36-38 | the option handed to the SDK names the resolved credentials file |
| Client.LoadImages | client.go:51-65 | loading succeeds exactly when every path decodes, and then yields one image per path, image i from path i; a failure is an open or decode error naming one of the paths |
| Client.LoadImagesFailsAtFirst | client.go:53-63 | when paths 0..k-1 load and path k does not, the call fails with the open or decode error naming path k |
| Client.BuildBatch | client.go:67-87 | the batch holds one request per image, request i carrying image i and the given language hints |
| Client.BatchShape | client.go:67-87 | the batch has one request per image in order, each with exactly one feature of type `VisionFeature(feature)` and model `builtin/latest`, and the same language hints |
| Client.LoadFailureSubmitsNothing | client.go:53-63 | when an image cannot be loaded the call fails with that error and its outcome does not depend on what the SDK would answer |
| Client.Outcome | client.go:44-94 | a session failure is reported first; otherwise a loading failure is returned as an open or decode error; only when every image loads is the built batch handed to the SDK, and only then can the call succeed |
| Client.VisionClient.constructor | client.go:28-33 | a new client keeps its credentials, has no language hints and does not keep hints |
| Client.VisionClient.SetLanguageHints | client.go:38-41 | sets the hints and the keep flag and nothing else |
| Client.VisionClient.RequestImageAnnotation | client.go:44-94 | the result is `Outcome` over the hints held at the call; only the hints may change, and they are cleared exactly when the batch is handed to the SDK and keep is false |
| Client.HintsLastOneRequest | client.go:89-91 | hints set with keep false are sent with the first batch; the second call on the same client, whatever its paths, feature, files and SDK, sends no hints when the first batch was handed over and the same hints when it was not |
| DoveletMain.Run | cmd/dovelet/main.go:14-39 | no paths is a usage error; an empty credentials variable is a credentials error; otherwise the outcome is that of one request with the parsed feature and exactly the parsed language list as hints |
| DoveletMain.ParseAndRun | cmd/dovelet/main.go:16-36 | after parsing, the hints sent are the comma split of `-lang` for Text and DocumentText and none for every other feature, whatever `-lang` held |

## Left out

- The Vision SDK: creating the annotator client, `BatchAnnotateImages` and `Close` are the `Annotator` parameter; what the service returns is not modelled beyond an opaque response.
- File I/O: `os.Open`, `vision.NewImageFromReader` and the deferred `Close` of each file are the `open` oracle; file handles and their release are not modelled.
- `context.Context` is not modelled; the client keeps only its credentials option and the two hint fields.
- `Provide` and `option.WithCredentialsFile`: the option is a value that carries the resolved path; the SDK's use of it is not modelled.
- `os.Getenv` is a lookup in an `Environment` map passed in, with an unset variable read as "".
- The `flag` package: parsing, `Args()` and `Usage()`; the parsed booleans, the `-lang` string and the positional paths are inputs.
- Errors of the client are a datatype naming the stage and path, not the formatted `fmt.Errorf` text.
- credentials/credentials.go: a mutex around a provider; its only logic is locking.
- cmd/pigeon/main.go: it sets hints only when `-lang` is empty, which looks inverted; that call sequence is not modelled.
- Printing, `os.Exit`, `log.Fatalf` and the JSON encoding of the responses in both main programs.
- A nil and an empty string slice are both the empty sequence; the service treats them alike.
- All requests share the client's hint slice in the source; the model's sequences are values, so aliasing does not arise.
- The wire feature-type enumeration holds only the nine types the client can request.
- GoStrings.Split: models `strings.Split` only for a one-character separator, because the source only splits on ",".

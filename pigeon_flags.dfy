/**
 * Command-line arguments of the pigeon tool (cmd/pigeon/flag.go): the same
 * feature flags as dovelet, but `-lang` is kept as one unfiltered string.
 */
module PigeonFlags {
  import opened Features
  import Selection

  datatype CLArgs = CLArgs(
    face: bool,
    landmark: bool,
    logo: bool,
    labelDetection: bool,
    text: bool,
    docText: bool,
    safeSearch: bool,
    imageProperties: bool,
    language: string)

  /** The eight feature flags in precedence order. */
  function Flags(d: CLArgs): seq<bool>
  {
    [d.face, d.landmark, d.logo, d.labelDetection, d.text, d.docText, d.safeSearch, d.imageProperties]
  }

  function Feature(d: CLArgs): (r: DetectionFeature)
    ensures Selection.Selects(Flags(d), Selection.Precedence, r)
  {
    if d.face then
      assert Selection.FirstSet(Flags(d), 0);
      FaceDetection
    else if d.landmark then
      assert Selection.FirstSet(Flags(d), 1);
      LandmarkDetection
    else if d.logo then
      assert Selection.FirstSet(Flags(d), 2);
      LogoDetection
    else if d.labelDetection then
      assert Selection.FirstSet(Flags(d), 3);
      LabelDetection
    else if d.text then
      assert Selection.FirstSet(Flags(d), 4);
      TextDetection
    else if d.docText then
      assert Selection.FirstSet(Flags(d), 5);
      DocumentTextDetection
    else if d.safeSearch then
      assert Selection.FirstSet(Flags(d), 6);
      SafeSearchDetection
    else if d.imageProperties then
      assert Selection.FirstSet(Flags(d), 7);
      ImageProperties
    else TypeUnspecified
  }

  /** The selected feature agrees with the reference first-true scan. */
  lemma FeatureIsFirstTrue(d: CLArgs)
    ensures Feature(d) == Selection.FirstTrue(Flags(d), Selection.Precedence)
  {
    Selection.SelectsUnique(Flags(d), Selection.Precedence, Feature(d),
                            Selection.FirstTrue(Flags(d), Selection.Precedence));
  }

  /** The selected feature does not depend on the language string. */
  lemma FeatureIgnoresLanguage(d: CLArgs, language: string)
    ensures Feature(d.(language := language)) == Feature(d)
  {
  }

  /** The stored `-lang` string, unfiltered. */
  function Language(d: CLArgs): (r: string)
    ensures r == d.language
  {
    d.language
  }

  function ParseArgs(face: bool, landmark: bool, logo: bool, labelDetection: bool, text: bool,
                     docText: bool, safeSearch: bool, imageProperties: bool, lang: string): (r: CLArgs)
    ensures Flags(r) == [face, landmark, logo, labelDetection, text, docText, safeSearch, imageProperties]
    ensures Language(r) == lang
  {
    CLArgs(face, landmark, logo, labelDetection, text, docText, safeSearch, imageProperties, lang)
  }
}

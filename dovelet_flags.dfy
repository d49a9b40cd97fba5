/**
 * Command-line arguments of the dovelet tool (cmd/dovelet/flag.go). The
 * values the flag package parses are inputs; the language list is the
 * comma-split `-lang` value, kept only for the two OCR features.
 */
module DoveletFlags {
  import opened Features
  import Selection
  import GoStrings

  datatype CLArgs = CLArgs(
    face: bool,
    landmark: bool,
    logo: bool,
    labelDetection: bool,
    text: bool,
    docText: bool,
    safeSearch: bool,
    imageProperties: bool,
    languages: seq<string>)

  /** The eight feature flags in precedence order. */
  function Flags(d: CLArgs): seq<bool>
  {
    [d.face, d.landmark, d.logo, d.labelDetection, d.text, d.docText, d.safeSearch, d.imageProperties]
  }

  predicate IsOcr(f: DetectionFeature)
  {
    f == TextDetection || f == DocumentTextDetection
  }

  function Feature(d: CLArgs): (r: DetectionFeature)
    ensures Selection.Selects(Flags(d), Selection.Precedence, r)
  {
    if d.face then
      assert Selection.FirstSet(Flags(d), 0);
      FaceDetection
    else if d.landmark then
      assert Selection.FirstSet(Flags(d), 1);
      LandmarkDetection
    else if d.logo then
      assert Selection.FirstSet(Flags(d), 2);
      LogoDetection
    else if d.labelDetection then
      assert Selection.FirstSet(Flags(d), 3);
      LabelDetection
    else if d.text then
      assert Selection.FirstSet(Flags(d), 4);
      TextDetection
    else if d.docText then
      assert Selection.FirstSet(Flags(d), 5);
      DocumentTextDetection
    else if d.safeSearch then
      assert Selection.FirstSet(Flags(d), 6);
      SafeSearchDetection
    else if d.imageProperties then
      assert Selection.FirstSet(Flags(d), 7);
      ImageProperties
    else TypeUnspecified
  }

  /** The selected feature agrees with the reference first-true scan. */
  lemma FeatureIsFirstTrue(d: CLArgs)
    ensures Feature(d) == Selection.FirstTrue(Flags(d), Selection.Precedence)
  {
    Selection.SelectsUnique(Flags(d), Selection.Precedence, Feature(d),
                            Selection.FirstTrue(Flags(d), Selection.Precedence));
  }

  /** The selected feature does not depend on the language list. */
  lemma FeatureIgnoresLanguages(d: CLArgs, languages: seq<string>)
    ensures Feature(d.(languages := languages)) == Feature(d)
  {
  }

  /** The stored language list, as ParseArgs left it. */
  function Language(d: CLArgs): (r: seq<string>)
    ensures r == d.languages
  {
    d.languages
  }

  method ParseArgs(face: bool, landmark: bool, logo: bool, labelDetection: bool, text: bool,
                   docText: bool, safeSearch: bool, imageProperties: bool, lang: string)
    returns (clargs: CLArgs)
    ensures Flags(clargs) == [face, landmark, logo, labelDetection, text, docText, safeSearch, imageProperties]
    ensures IsOcr(Feature(clargs)) ==>
      Language(clargs) == GoStrings.Split(lang, ',')
      && GoStrings.Join(Language(clargs), ',') == lang
    ensures IsOcr(Feature(clargs)) && lang == "" ==> Language(clargs) == [""]
    ensures !IsOcr(Feature(clargs)) ==> Language(clargs) == []
  {
    clargs := CLArgs(face, landmark, logo, labelDetection, text, docText, safeSearch, imageProperties,
                     GoStrings.Split(lang, ','));
    if Feature(clargs) != TextDetection && Feature(clargs) != DocumentTextDetection {
      clargs := clargs.(languages := []);
    }
    GoStrings.JoinSplit(lang, ',');
  }
}

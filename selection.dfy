/**
 * First-true-wins selection of a detection feature from the eight CLI
 * booleans, the rule both command-line front ends implement.
 */
module Selection {
  import opened Features

  /** Feature chosen by each flag, highest precedence first:
      face, landmark, logo, label, text, doc, safe-search, image-properties. */
  const Precedence: seq<DetectionFeature> :=
    [FaceDetection, LandmarkDetection, LogoDetection, LabelDetection,
     TextDetection, DocumentTextDetection, SafeSearchDetection, ImageProperties]

  /** Flag `i` is set and no flag before it is. */
  ghost predicate FirstSet(flags: seq<bool>, i: int)
  {
    0 <= i < |flags| && flags[i] && forall j :: 0 <= j < i ==> !flags[j]
  }

  ghost predicate NoneSet(flags: seq<bool>)
  {
    forall j :: 0 <= j < |flags| ==> !flags[j]
  }

  /** `r` is the choice of the first set flag, or TypeUnspecified when none is set. */
  ghost predicate Selects(flags: seq<bool>, choices: seq<DetectionFeature>, r: DetectionFeature)
    requires |flags| == |choices|
  {
    (NoneSet(flags) && r == TypeUnspecified)
    || (exists i :: FirstSet(flags, i) && r == choices[i])
  }

  /** Reference selection: scan the flags in order and stop at the first set one. */
  ghost function FirstTrue(flags: seq<bool>, choices: seq<DetectionFeature>): (r: DetectionFeature)
    requires |flags| == |choices|
    ensures Selects(flags, choices, r)
  {
    if flags == [] then TypeUnspecified
    else if flags[0] then
      assert FirstSet(flags, 0);
      choices[0]
    else
      var r := FirstTrue(flags[1..], choices[1..]);
      if NoneSet(flags[1..]) then
        assert NoneSet(flags) by {
          forall j | 0 <= j < |flags| ensures !flags[j] {
            if j > 0 { assert flags[1..][j - 1] == flags[j]; }
          }
        }
        r
      else
        var i :| FirstSet(flags[1..], i) && r == choices[1..][i];
        assert FirstSet(flags, i + 1) by {
          forall j | 0 <= j < i + 1 ensures !flags[j] {
            if j > 0 { assert flags[1..][j - 1] == flags[j]; }
          }
        }
        r
  }

  /** At most one feature satisfies Selects, so the rule fixes the result. */
  lemma SelectsUnique(flags: seq<bool>, choices: seq<DetectionFeature>, r1: DetectionFeature, r2: DetectionFeature)
    requires |flags| == |choices|
    requires Selects(flags, choices, r1) && Selects(flags, choices, r2)
    ensures r1 == r2
  {
    if !NoneSet(flags) {
      var i1 :| FirstSet(flags, i1) && r1 == choices[i1];
      var i2 :| FirstSet(flags, i2) && r2 == choices[i2];
      assert i1 == i2;
    }
  }
}

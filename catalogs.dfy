/**
 * The closed string vocabularies of the AR module: every constant table the
 * module exports whose values are fixed in the module itself. Each table is a
 * datatype with one constructor per key, a function giving the key's wire
 * string (the string the native engine expects verbatim) and its inverse.
 * For the tables that the module also declares as a Flow `$Enum` type, the
 * enum's keys are a set of strings and a lemma shows that the table's values
 * are exactly that set.
 */
module Catalogs {
  import opened Options

  // ---- BlendShapes ----

  /** Facial-expression coefficients reported under face tracking. One constructor per key of `BlendShapes`. */
  datatype BlendShape =
    | BrowDownL | BrowDownR | BrowInnerUp | BrowOuterUpL | BrowOuterUpR | CheekPuff
    | CheekSquintL | CheekSquintR | EyeBlinkL | EyeBlinkR | EyeLookDownL | EyeLookDownR
    | EyeLookInL | EyeLookInR | EyeLookOutL | EyeLookOutR | EyeLookUpL | EyeLookUpR
    | EyeSquintL | EyeSquintR | EyeWideL | EyeWideR | JawForward | JawLeft
    | JawOpen | JawRight | MouthClose | MouthDimpleL | MouthDimpleR | MouthFrownL
    | MouthFrownR | MouthFunnel | MouthLeft | MouthLowerDownL | MouthLowerDownR | MouthPressL
    | MouthPressR | MouthPucker | MouthRight | MouthRollLower | MouthRollUpper | MouthShrugLower
    | MouthShrugUpper | MouthSmileL | MouthSmileR | MouthStretchL | MouthStretchR | MouthUpperUpL
    | MouthUpperUpR | NoseSneerL | NoseSneerR

  /** The string `BlendShapes` maps the key to. */
  function BlendShapeValue(x: BlendShape): string {
    match x
    case BrowDownL => "browDown_L"
    case BrowDownR => "browDown_R"
    case BrowInnerUp => "browInnerUp"
    case BrowOuterUpL => "browOuterUp_L"
    case BrowOuterUpR => "browOuterUp_R"
    case CheekPuff => "cheekPuff"
    case CheekSquintL => "cheekSquint_L"
    case CheekSquintR => "cheekSquint_R"
    case EyeBlinkL => "eyeBlink_L"
    case EyeBlinkR => "eyeBlink_R"
    case EyeLookDownL => "eyeLookDown_L"
    case EyeLookDownR => "eyeLookDown_R"
    case EyeLookInL => "eyeLookIn_L"
    case EyeLookInR => "eyeLookIn_R"
    case EyeLookOutL => "eyeLookOut_L"
    case EyeLookOutR => "eyeLookOut_R"
    case EyeLookUpL => "eyeLookUp_L"
    case EyeLookUpR => "eyeLookUp_R"
    case EyeSquintL => "eyeSquint_L"
    case EyeSquintR => "eyeSquint_R"
    case EyeWideL => "eyeWide_L"
    case EyeWideR => "eyeWide_R"
    case JawForward => "jawForward"
    case JawLeft => "jawLeft"
    case JawOpen => "jawOpen"
    case JawRight => "jawRight"
    case MouthClose => "mouthClose"
    case MouthDimpleL => "mouthDimple_L"
    case MouthDimpleR => "mouthDimple_R"
    case MouthFrownL => "mouthFrown_L"
    case MouthFrownR => "mouthFrown_R"
    case MouthFunnel => "mouthFunnel"
    case MouthLeft => "mouthLeft"
    case MouthLowerDownL => "mouthLowerDown_L"
    case MouthLowerDownR => "mouthLowerDown_R"
    case MouthPressL => "mouthPress_L"
    case MouthPressR => "mouthPress_R"
    case MouthPucker => "mouthPucker"
    case MouthRight => "mouthRight"
    case MouthRollLower => "mouthRollLower"
    case MouthRollUpper => "mouthRollUpper"
    case MouthShrugLower => "mouthShrugLower"
    case MouthShrugUpper => "mouthShrugUpper"
    case MouthSmileL => "mouthSmile_L"
    case MouthSmileR => "mouthSmile_R"
    case MouthStretchL => "mouthStretch_L"
    case MouthStretchR => "mouthStretch_R"
    case MouthUpperUpL => "mouthUpperUp_L"
    case MouthUpperUpR => "mouthUpperUp_R"
    case NoseSneerL => "noseSneer_L"
    case NoseSneerR => "noseSneer_R"
  }

  /** The key whose value is `s`, if `s` is one of the values of `BlendShapes`. */
  function ParseBlendShape(s: string): Option<BlendShape>
  {
    if s == [] then Option.None
    else if s[0] == 'b' then ParseBrowBlendShape(s)
    else if s[0] == 'c' then ParseCheekBlendShape(s)
    else if s[0] == 'e' then ParseEyeBlendShape(s)
    else if s[0] == 'j' then ParseJawBlendShape(s)
    else if s[0] == 'm' && |s| > 5 && s[5] < 'N' then ParseMouthCToLBlendShape(s)
    else if s[0] == 'm' && |s| > 5 && s[5] < 'S' then ParseMouthPToRBlendShape(s)
    else if s[0] == 'm' then ParseMouthSToUBlendShape(s)
    else if s[0] == 'n' then ParseNoseBlendShape(s)
    else Option.None
  }

  /** `ParseBlendShape` for the values with first character 'b'. */
  function ParseBrowBlendShape(s: string): Option<BlendShape>
  {
    match s
    case "browDown_L" => Some(BlendShape.BrowDownL)
    case "browDown_R" => Some(BlendShape.BrowDownR)
    case "browInnerUp" => Some(BlendShape.BrowInnerUp)
    case "browOuterUp_L" => Some(BlendShape.BrowOuterUpL)
    case "browOuterUp_R" => Some(BlendShape.BrowOuterUpR)
    case _ => Option.None
  }

  /** `ParseBlendShape` for the values with first character 'c'. */
  function ParseCheekBlendShape(s: string): Option<BlendShape>
  {
    match s
    case "cheekPuff" => Some(BlendShape.CheekPuff)
    case "cheekSquint_L" => Some(BlendShape.CheekSquintL)
    case "cheekSquint_R" => Some(BlendShape.CheekSquintR)
    case _ => Option.None
  }

  /** `ParseBlendShape` for the values with first character 'e'. */
  function ParseEyeBlendShape(s: string): Option<BlendShape>
  {
    match s
    case "eyeBlink_L" => Some(BlendShape.EyeBlinkL)
    case "eyeBlink_R" => Some(BlendShape.EyeBlinkR)
    case "eyeLookDown_L" => Some(BlendShape.EyeLookDownL)
    case "eyeLookDown_R" => Some(BlendShape.EyeLookDownR)
    case "eyeLookIn_L" => Some(BlendShape.EyeLookInL)
    case "eyeLookIn_R" => Some(BlendShape.EyeLookInR)
    case "eyeLookOut_L" => Some(BlendShape.EyeLookOutL)
    case "eyeLookOut_R" => Some(BlendShape.EyeLookOutR)
    case "eyeLookUp_L" => Some(BlendShape.EyeLookUpL)
    case "eyeLookUp_R" => Some(BlendShape.EyeLookUpR)
    case "eyeSquint_L" => Some(BlendShape.EyeSquintL)
    case "eyeSquint_R" => Some(BlendShape.EyeSquintR)
    case "eyeWide_L" => Some(BlendShape.EyeWideL)
    case "eyeWide_R" => Some(BlendShape.EyeWideR)
    case _ => Option.None
  }

  /** `ParseBlendShape` for the values with first character 'j'. */
  function ParseJawBlendShape(s: string): Option<BlendShape>
  {
    match s
    case "jawForward" => Some(BlendShape.JawForward)
    case "jawLeft" => Some(BlendShape.JawLeft)
    case "jawOpen" => Some(BlendShape.JawOpen)
    case "jawRight" => Some(BlendShape.JawRight)
    case _ => Option.None
  }

  /** `ParseBlendShape` for the values with prefix `mouth` followed by a letter from C to L. */
  function ParseMouthCToLBlendShape(s: string): Option<BlendShape>
  {
    match s
    case "mouthClose" => Some(BlendShape.MouthClose)
    case "mouthDimple_L" => Some(BlendShape.MouthDimpleL)
    case "mouthDimple_R" => Some(BlendShape.MouthDimpleR)
    case "mouthFrown_L" => Some(BlendShape.MouthFrownL)
    case "mouthFrown_R" => Some(BlendShape.MouthFrownR)
    case "mouthFunnel" => Some(BlendShape.MouthFunnel)
    case "mouthLeft" => Some(BlendShape.MouthLeft)
    case "mouthLowerDown_L" => Some(BlendShape.MouthLowerDownL)
    case "mouthLowerDown_R" => Some(BlendShape.MouthLowerDownR)
    case _ => Option.None
  }

  /** `ParseBlendShape` for the values with prefix `mouth` followed by a letter from P to R. */
  function ParseMouthPToRBlendShape(s: string): Option<BlendShape>
  {
    match s
    case "mouthPress_L" => Some(BlendShape.MouthPressL)
    case "mouthPress_R" => Some(BlendShape.MouthPressR)
    case "mouthPucker" => Some(BlendShape.MouthPucker)
    case "mouthRight" => Some(BlendShape.MouthRight)
    case "mouthRollLower" => Some(BlendShape.MouthRollLower)
    case "mouthRollUpper" => Some(BlendShape.MouthRollUpper)
    case _ => Option.None
  }

  /** `ParseBlendShape` for the values with prefix `mouth` followed by a letter from S to U. */
  function ParseMouthSToUBlendShape(s: string): Option<BlendShape>
  {
    match s
    case "mouthShrugLower" => Some(BlendShape.MouthShrugLower)
    case "mouthShrugUpper" => Some(BlendShape.MouthShrugUpper)
    case "mouthSmile_L" => Some(BlendShape.MouthSmileL)
    case "mouthSmile_R" => Some(BlendShape.MouthSmileR)
    case "mouthStretch_L" => Some(BlendShape.MouthStretchL)
    case "mouthStretch_R" => Some(BlendShape.MouthStretchR)
    case "mouthUpperUp_L" => Some(BlendShape.MouthUpperUpL)
    case "mouthUpperUp_R" => Some(BlendShape.MouthUpperUpR)
    case _ => Option.None
  }

  /** `ParseBlendShape` for the values with first character 'n'. */
  function ParseNoseBlendShape(s: string): Option<BlendShape>
  {
    match s
    case "noseSneer_L" => Some(BlendShape.NoseSneerL)
    case "noseSneer_R" => Some(BlendShape.NoseSneerR)
    case _ => Option.None
  }

  lemma ParseBrowBlendShapeSound(s: string)
    ensures var r := ParseBrowBlendShape(s); r.Some? ==> BlendShapeValue(r.value) == s
  {
    match s
    case "browDown_L" => assert BlendShapeValue(BlendShape.BrowDownL) == s;
    case "browDown_R" => assert BlendShapeValue(BlendShape.BrowDownR) == s;
    case "browInnerUp" => assert BlendShapeValue(BlendShape.BrowInnerUp) == s;
    case "browOuterUp_L" => assert BlendShapeValue(BlendShape.BrowOuterUpL) == s;
    case "browOuterUp_R" => assert BlendShapeValue(BlendShape.BrowOuterUpR) == s;
    case _ =>
  }

  lemma ParseCheekBlendShapeSound(s: string)
    ensures var r := ParseCheekBlendShape(s); r.Some? ==> BlendShapeValue(r.value) == s
  {
    match s
    case "cheekPuff" => assert BlendShapeValue(BlendShape.CheekPuff) == s;
    case "cheekSquint_L" => assert BlendShapeValue(BlendShape.CheekSquintL) == s;
    case "cheekSquint_R" => assert BlendShapeValue(BlendShape.CheekSquintR) == s;
    case _ =>
  }

  lemma ParseEyeBlendShapeSound(s: string)
    ensures var r := ParseEyeBlendShape(s); r.Some? ==> BlendShapeValue(r.value) == s
  {
    match s
    case "eyeBlink_L" => assert BlendShapeValue(BlendShape.EyeBlinkL) == s;
    case "eyeBlink_R" => assert BlendShapeValue(BlendShape.EyeBlinkR) == s;
    case "eyeLookDown_L" => assert BlendShapeValue(BlendShape.EyeLookDownL) == s;
    case "eyeLookDown_R" => assert BlendShapeValue(BlendShape.EyeLookDownR) == s;
    case "eyeLookIn_L" => assert BlendShapeValue(BlendShape.EyeLookInL) == s;
    case "eyeLookIn_R" => assert BlendShapeValue(BlendShape.EyeLookInR) == s;
    case "eyeLookOut_L" => assert BlendShapeValue(BlendShape.EyeLookOutL) == s;
    case "eyeLookOut_R" => assert BlendShapeValue(BlendShape.EyeLookOutR) == s;
    case "eyeLookUp_L" => assert BlendShapeValue(BlendShape.EyeLookUpL) == s;
    case "eyeLookUp_R" => assert BlendShapeValue(BlendShape.EyeLookUpR) == s;
    case "eyeSquint_L" => assert BlendShapeValue(BlendShape.EyeSquintL) == s;
    case "eyeSquint_R" => assert BlendShapeValue(BlendShape.EyeSquintR) == s;
    case "eyeWide_L" => assert BlendShapeValue(BlendShape.EyeWideL) == s;
    case "eyeWide_R" => assert BlendShapeValue(BlendShape.EyeWideR) == s;
    case _ =>
  }

  lemma ParseJawBlendShapeSound(s: string)
    ensures var r := ParseJawBlendShape(s); r.Some? ==> BlendShapeValue(r.value) == s
  {
    match s
    case "jawForward" => assert BlendShapeValue(BlendShape.JawForward) == s;
    case "jawLeft" => assert BlendShapeValue(BlendShape.JawLeft) == s;
    case "jawOpen" => assert BlendShapeValue(BlendShape.JawOpen) == s;
    case "jawRight" => assert BlendShapeValue(BlendShape.JawRight) == s;
    case _ =>
  }

  lemma ParseMouthCToLBlendShapeSound(s: string)
    ensures var r := ParseMouthCToLBlendShape(s); r.Some? ==> BlendShapeValue(r.value) == s
  {
    match s
    case "mouthClose" => assert BlendShapeValue(BlendShape.MouthClose) == s;
    case "mouthDimple_L" => assert BlendShapeValue(BlendShape.MouthDimpleL) == s;
    case "mouthDimple_R" => assert BlendShapeValue(BlendShape.MouthDimpleR) == s;
    case "mouthFrown_L" => assert BlendShapeValue(BlendShape.MouthFrownL) == s;
    case "mouthFrown_R" => assert BlendShapeValue(BlendShape.MouthFrownR) == s;
    case "mouthFunnel" => assert BlendShapeValue(BlendShape.MouthFunnel) == s;
    case "mouthLeft" => assert BlendShapeValue(BlendShape.MouthLeft) == s;
    case "mouthLowerDown_L" => assert BlendShapeValue(BlendShape.MouthLowerDownL) == s;
    case "mouthLowerDown_R" => assert BlendShapeValue(BlendShape.MouthLowerDownR) == s;
    case _ =>
  }

  lemma ParseMouthPToRBlendShapeSound(s: string)
    ensures var r := ParseMouthPToRBlendShape(s); r.Some? ==> BlendShapeValue(r.value) == s
  {
    match s
    case "mouthPress_L" => assert BlendShapeValue(BlendShape.MouthPressL) == s;
    case "mouthPress_R" => assert BlendShapeValue(BlendShape.MouthPressR) == s;
    case "mouthPucker" => assert BlendShapeValue(BlendShape.MouthPucker) == s;
    case "mouthRight" => assert BlendShapeValue(BlendShape.MouthRight) == s;
    case "mouthRollLower" => assert BlendShapeValue(BlendShape.MouthRollLower) == s;
    case "mouthRollUpper" => assert BlendShapeValue(BlendShape.MouthRollUpper) == s;
    case _ =>
  }

  lemma ParseMouthSToUBlendShapeSound(s: string)
    ensures var r := ParseMouthSToUBlendShape(s); r.Some? ==> BlendShapeValue(r.value) == s
  {
    match s
    case "mouthShrugLower" => assert BlendShapeValue(BlendShape.MouthShrugLower) == s;
    case "mouthShrugUpper" => assert BlendShapeValue(BlendShape.MouthShrugUpper) == s;
    case "mouthSmile_L" => assert BlendShapeValue(BlendShape.MouthSmileL) == s;
    case "mouthSmile_R" => assert BlendShapeValue(BlendShape.MouthSmileR) == s;
    case "mouthStretch_L" => assert BlendShapeValue(BlendShape.MouthStretchL) == s;
    case "mouthStretch_R" => assert BlendShapeValue(BlendShape.MouthStretchR) == s;
    case "mouthUpperUp_L" => assert BlendShapeValue(BlendShape.MouthUpperUpL) == s;
    case "mouthUpperUp_R" => assert BlendShapeValue(BlendShape.MouthUpperUpR) == s;
    case _ =>
  }

  lemma ParseNoseBlendShapeSound(s: string)
    ensures var r := ParseNoseBlendShape(s); r.Some? ==> BlendShapeValue(r.value) == s
  {
    match s
    case "noseSneer_L" => assert BlendShapeValue(BlendShape.NoseSneerL) == s;
    case "noseSneer_R" => assert BlendShapeValue(BlendShape.NoseSneerR) == s;
    case _ =>
  }

  /** `ParseBlendShape` accepts only values of `BlendShapes`, and gives back the key of the value. */
  lemma ParseBlendShapeSound(s: string)
    ensures var r := ParseBlendShape(s); r.Some? ==> BlendShapeValue(r.value) == s
  {
    if s == [] {
    } else if s[0] == 'b' {
      ParseBrowBlendShapeSound(s);
    } else if s[0] == 'c' {
      ParseCheekBlendShapeSound(s);
    } else if s[0] == 'e' {
      ParseEyeBlendShapeSound(s);
    } else if s[0] == 'j' {
      ParseJawBlendShapeSound(s);
    } else if s[0] == 'm' && |s| > 5 && s[5] < 'N' {
      ParseMouthCToLBlendShapeSound(s);
    } else if s[0] == 'm' && |s| > 5 && s[5] < 'S' {
      ParseMouthPToRBlendShapeSound(s);
    } else if s[0] == 'm' {
      ParseMouthSToUBlendShapeSound(s);
    } else if s[0] == 'n' {
      ParseNoseBlendShapeSound(s);
    }
  }

  // Round trips for a few values at a time, so that each proof stays small.

  lemma BrowBlendShapeRoundTrip(x: BlendShape)
    requires x.BrowDownL? || x.BrowDownR? || x.BrowInnerUp? || x.BrowOuterUpL? || x.BrowOuterUpR?
    ensures ParseBlendShape(BlendShapeValue(x)) == Some(x)
  {
    match x
    case BrowDownL => assert BlendShapeValue(x) == "browDown_L";
    case BrowDownR => assert BlendShapeValue(x) == "browDown_R";
    case BrowInnerUp => assert BlendShapeValue(x) == "browInnerUp";
    case BrowOuterUpL => assert BlendShapeValue(x) == "browOuterUp_L";
    case BrowOuterUpR => assert BlendShapeValue(x) == "browOuterUp_R";
  }

  lemma CheekBlendShapeRoundTrip(x: BlendShape)
    requires x.CheekPuff? || x.CheekSquintL? || x.CheekSquintR?
    ensures ParseBlendShape(BlendShapeValue(x)) == Some(x)
  {
    match x
    case CheekPuff => assert BlendShapeValue(x) == "cheekPuff";
    case CheekSquintL => assert BlendShapeValue(x) == "cheekSquint_L";
    case CheekSquintR => assert BlendShapeValue(x) == "cheekSquint_R";
  }

  lemma EyeBlendShapeRoundTrip(x: BlendShape)
    requires x.EyeBlinkL? || x.EyeBlinkR? || x.EyeLookDownL? || x.EyeLookDownR? || x.EyeLookInL? || x.EyeLookInR? || x.EyeLookOutL? || x.EyeLookOutR? || x.EyeLookUpL? || x.EyeLookUpR? || x.EyeSquintL? || x.EyeSquintR? || x.EyeWideL? || x.EyeWideR?
    ensures ParseBlendShape(BlendShapeValue(x)) == Some(x)
  {
    match x
    case EyeBlinkL => assert BlendShapeValue(x) == "eyeBlink_L";
    case EyeBlinkR => assert BlendShapeValue(x) == "eyeBlink_R";
    case EyeLookDownL => assert BlendShapeValue(x) == "eyeLookDown_L";
    case EyeLookDownR => assert BlendShapeValue(x) == "eyeLookDown_R";
    case EyeLookInL => assert BlendShapeValue(x) == "eyeLookIn_L";
    case EyeLookInR => assert BlendShapeValue(x) == "eyeLookIn_R";
    case EyeLookOutL => assert BlendShapeValue(x) == "eyeLookOut_L";
    case EyeLookOutR => assert BlendShapeValue(x) == "eyeLookOut_R";
    case EyeLookUpL => assert BlendShapeValue(x) == "eyeLookUp_L";
    case EyeLookUpR => assert BlendShapeValue(x) == "eyeLookUp_R";
    case EyeSquintL => assert BlendShapeValue(x) == "eyeSquint_L";
    case EyeSquintR => assert BlendShapeValue(x) == "eyeSquint_R";
    case EyeWideL => assert BlendShapeValue(x) == "eyeWide_L";
    case EyeWideR => assert BlendShapeValue(x) == "eyeWide_R";
  }

  lemma JawBlendShapeRoundTrip(x: BlendShape)
    requires x.JawForward? || x.JawLeft? || x.JawOpen? || x.JawRight?
    ensures ParseBlendShape(BlendShapeValue(x)) == Some(x)
  {
    match x
    case JawForward => assert BlendShapeValue(x) == "jawForward";
    case JawLeft => assert BlendShapeValue(x) == "jawLeft";
    case JawOpen => assert BlendShapeValue(x) == "jawOpen";
    case JawRight => assert BlendShapeValue(x) == "jawRight";
  }

  lemma MouthCToLPart1BlendShapeRoundTrip(x: BlendShape)
    requires x.MouthClose? || x.MouthDimpleL? || x.MouthDimpleR? || x.MouthFrownL? || x.MouthFrownR?
    ensures ParseBlendShape(BlendShapeValue(x)) == Some(x)
  {
    match x
    case MouthClose => assert BlendShapeValue(x) == "mouthClose";
    case MouthDimpleL => assert BlendShapeValue(x) == "mouthDimple_L";
    case MouthDimpleR => assert BlendShapeValue(x) == "mouthDimple_R";
    case MouthFrownL => assert BlendShapeValue(x) == "mouthFrown_L";
    case MouthFrownR => assert BlendShapeValue(x) == "mouthFrown_R";
  }

  lemma MouthCToLPart2BlendShapeRoundTrip(x: BlendShape)
    requires x.MouthFunnel? || x.MouthLeft? || x.MouthLowerDownL? || x.MouthLowerDownR?
    ensures ParseBlendShape(BlendShapeValue(x)) == Some(x)
  {
    match x
    case MouthFunnel => assert BlendShapeValue(x) == "mouthFunnel";
    case MouthLeft => assert BlendShapeValue(x) == "mouthLeft";
    case MouthLowerDownL => assert BlendShapeValue(x) == "mouthLowerDown_L";
    case MouthLowerDownR => assert BlendShapeValue(x) == "mouthLowerDown_R";
  }

  lemma MouthPToRPart1BlendShapeRoundTrip(x: BlendShape)
    requires x.MouthPressL? || x.MouthPressR? || x.MouthPucker?
    ensures ParseBlendShape(BlendShapeValue(x)) == Some(x)
  {
    match x
    case MouthPressL => assert BlendShapeValue(x) == "mouthPress_L";
    case MouthPressR => assert BlendShapeValue(x) == "mouthPress_R";
    case MouthPucker => assert BlendShapeValue(x) == "mouthPucker";
  }

  lemma MouthPToRPart2BlendShapeRoundTrip(x: BlendShape)
    requires x.MouthRight? || x.MouthRollLower? || x.MouthRollUpper?
    ensures ParseBlendShape(BlendShapeValue(x)) == Some(x)
  {
    match x
    case MouthRight => assert BlendShapeValue(x) == "mouthRight";
    case MouthRollLower => assert BlendShapeValue(x) == "mouthRollLower";
    case MouthRollUpper => assert BlendShapeValue(x) == "mouthRollUpper";
  }

  lemma MouthSToUPart1BlendShapeRoundTrip(x: BlendShape)
    requires x.MouthShrugLower? || x.MouthShrugUpper? || x.MouthSmileL? || x.MouthSmileR?
    ensures ParseBlendShape(BlendShapeValue(x)) == Some(x)
  {
    match x
    case MouthShrugLower => assert BlendShapeValue(x) == "mouthShrugLower";
    case MouthShrugUpper => assert BlendShapeValue(x) == "mouthShrugUpper";
    case MouthSmileL => assert BlendShapeValue(x) == "mouthSmile_L";
    case MouthSmileR => assert BlendShapeValue(x) == "mouthSmile_R";
  }

  lemma MouthSToUPart2BlendShapeRoundTrip(x: BlendShape)
    requires x.MouthStretchL? || x.MouthStretchR? || x.MouthUpperUpL? || x.MouthUpperUpR?
    ensures ParseBlendShape(BlendShapeValue(x)) == Some(x)
  {
    match x
    case MouthStretchL => assert BlendShapeValue(x) == "mouthStretch_L";
    case MouthStretchR => assert BlendShapeValue(x) == "mouthStretch_R";
    case MouthUpperUpL => assert BlendShapeValue(x) == "mouthUpperUp_L";
    case MouthUpperUpR => assert BlendShapeValue(x) == "mouthUpperUp_R";
  }

  lemma NoseBlendShapeRoundTrip(x: BlendShape)
    requires x.NoseSneerL? || x.NoseSneerR?
    ensures ParseBlendShape(BlendShapeValue(x)) == Some(x)
  {
    match x
    case NoseSneerL => assert BlendShapeValue(x) == "noseSneer_L";
    case NoseSneerR => assert BlendShapeValue(x) == "noseSneer_R";
  }

  /** Parsing a value of `BlendShapes` gives back its key. */
  lemma BlendShapeRoundTrip(x: BlendShape)
    ensures ParseBlendShape(BlendShapeValue(x)) == Some(x)
  {
    if x.BrowDownL? || x.BrowDownR? || x.BrowInnerUp? || x.BrowOuterUpL? || x.BrowOuterUpR? {
      BrowBlendShapeRoundTrip(x);
    } else if x.CheekPuff? || x.CheekSquintL? || x.CheekSquintR? {
      CheekBlendShapeRoundTrip(x);
    } else if x.EyeBlinkL? || x.EyeBlinkR? || x.EyeLookDownL? || x.EyeLookDownR? || x.EyeLookInL? || x.EyeLookInR? || x.EyeLookOutL? || x.EyeLookOutR? || x.EyeLookUpL? || x.EyeLookUpR? || x.EyeSquintL? || x.EyeSquintR? || x.EyeWideL? || x.EyeWideR? {
      EyeBlendShapeRoundTrip(x);
    } else if x.JawForward? || x.JawLeft? || x.JawOpen? || x.JawRight? {
      JawBlendShapeRoundTrip(x);
    } else if x.MouthClose? || x.MouthDimpleL? || x.MouthDimpleR? || x.MouthFrownL? || x.MouthFrownR? {
      MouthCToLPart1BlendShapeRoundTrip(x);
    } else if x.MouthFunnel? || x.MouthLeft? || x.MouthLowerDownL? || x.MouthLowerDownR? {
      MouthCToLPart2BlendShapeRoundTrip(x);
    } else if x.MouthPressL? || x.MouthPressR? || x.MouthPucker? {
      MouthPToRPart1BlendShapeRoundTrip(x);
    } else if x.MouthRight? || x.MouthRollLower? || x.MouthRollUpper? {
      MouthPToRPart2BlendShapeRoundTrip(x);
    } else if x.MouthShrugLower? || x.MouthShrugUpper? || x.MouthSmileL? || x.MouthSmileR? {
      MouthSToUPart1BlendShapeRoundTrip(x);
    } else if x.MouthStretchL? || x.MouthStretchR? || x.MouthUpperUpL? || x.MouthUpperUpR? {
      MouthSToUPart2BlendShapeRoundTrip(x);
    } else if x.NoseSneerL? || x.NoseSneerR? {
      NoseBlendShapeRoundTrip(x);
    }
  }

  /** The values of `BlendShapes` are pairwise distinct. */
  lemma BlendShapeValueInjective(x: BlendShape, y: BlendShape)
    ensures BlendShapeValue(x) == BlendShapeValue(y) ==> x == y
  {
    BlendShapeRoundTrip(x);
    BlendShapeRoundTrip(y);
  }

  // ---- PlaneDetectionTypes ----

  /** Whether and how the engine detects flat surfaces. One constructor per key of `PlaneDetectionTypes`. */
  datatype PlaneDetection = None | Horizontal | Vertical

  /** The string `PlaneDetectionTypes` maps the key to. */
  function PlaneDetectionValue(x: PlaneDetection): string {
    match x
    case None => "none"
    case Horizontal => "horizontal"
    case Vertical => "vertical"
  }

  /** The key whose value is `s`, if `s` is one of the values of `PlaneDetectionTypes`. */
  function ParsePlaneDetection(s: string): Option<PlaneDetection>
  {
    match s
    case "none" => Some(PlaneDetection.None)
    case "horizontal" => Some(PlaneDetection.Horizontal)
    case "vertical" => Some(PlaneDetection.Vertical)
    case _ => Option.None
  }

  /** `ParsePlaneDetection` accepts only values of `PlaneDetectionTypes`, and gives back the key of the value. */
  lemma ParsePlaneDetectionSound(s: string)
    ensures var r := ParsePlaneDetection(s); r.Some? ==> PlaneDetectionValue(r.value) == s
  {
  }

  /** Parsing a value of `PlaneDetectionTypes` gives back its key. */
  lemma PlaneDetectionRoundTrip(x: PlaneDetection)
    ensures ParsePlaneDetection(PlaneDetectionValue(x)) == Some(x)
  {
  }

  /** The values of `PlaneDetectionTypes` are pairwise distinct. */
  lemma PlaneDetectionValueInjective(x: PlaneDetection, y: PlaneDetection)
    ensures PlaneDetectionValue(x) == PlaneDetectionValue(y) ==> x == y
  {
    PlaneDetectionRoundTrip(x);
    PlaneDetectionRoundTrip(y);
  }

  /** The keys of the Flow type `PlaneDetection`, a `$Enum` over string keys. */
  const PlaneDetectionEnum: set<string> := {"none", "horizontal", "vertical"}

  /** The values of `PlaneDetectionTypes` are exactly the members of the Flow type `PlaneDetection`. */
  lemma PlaneDetectionValuesAreEnum(s: string)
    ensures s in PlaneDetectionEnum <==> exists x :: PlaneDetectionValue(x) == s
  {
    if s in PlaneDetectionEnum {
      ParsePlaneDetectionSound(s);
      assert PlaneDetectionValue(ParsePlaneDetection(s).value) == s;
    }
  }

  // ---- HitTestResultTypes ----

  /** Kinds of hit-test search and of hit-test result. One constructor per key of `HitTestResultTypes`. */
  datatype HitTestResultType = FeaturePoint | HorizontalPlane | VerticalPlane | ExistingPlane | ExistingPlaneUsingExtent | ExistingPlaneUsingGeometry

  /** The string `HitTestResultTypes` maps the key to. */
  function HitTestResultTypeValue(x: HitTestResultType): string {
    match x
    case FeaturePoint => "featurePoint"
    case HorizontalPlane => "horizontalPlane"
    case VerticalPlane => "verticalPlane"
    case ExistingPlane => "existingPlane"
    case ExistingPlaneUsingExtent => "existingPlaneUsingExtent"
    case ExistingPlaneUsingGeometry => "existingPlaneUsingGeometry"
  }

  /** The key whose value is `s`, if `s` is one of the values of `HitTestResultTypes`. */
  function ParseHitTestResultType(s: string): Option<HitTestResultType>
  {
    match s
    case "featurePoint" => Some(HitTestResultType.FeaturePoint)
    case "horizontalPlane" => Some(HitTestResultType.HorizontalPlane)
    case "verticalPlane" => Some(HitTestResultType.VerticalPlane)
    case "existingPlane" => Some(HitTestResultType.ExistingPlane)
    case "existingPlaneUsingExtent" => Some(HitTestResultType.ExistingPlaneUsingExtent)
    case "existingPlaneUsingGeometry" => Some(HitTestResultType.ExistingPlaneUsingGeometry)
    case _ => Option.None
  }

  /** `ParseHitTestResultType` accepts only values of `HitTestResultTypes`, and gives back the key of the value. */
  lemma ParseHitTestResultTypeSound(s: string)
    ensures var r := ParseHitTestResultType(s); r.Some? ==> HitTestResultTypeValue(r.value) == s
  {
  }

  /** Parsing a value of `HitTestResultTypes` gives back its key. */
  lemma HitTestResultTypeRoundTrip(x: HitTestResultType)
    ensures ParseHitTestResultType(HitTestResultTypeValue(x)) == Some(x)
  {
  }

  /** The values of `HitTestResultTypes` are pairwise distinct. */
  lemma HitTestResultTypeValueInjective(x: HitTestResultType, y: HitTestResultType)
    ensures HitTestResultTypeValue(x) == HitTestResultTypeValue(y) ==> x == y
  {
    HitTestResultTypeRoundTrip(x);
    HitTestResultTypeRoundTrip(y);
  }

  /** The keys of the Flow type `HitTestResultType`, a `$Enum` over string keys. */
  const HitTestResultTypeEnum: set<string> := {"featurePoint", "horizontalPlane", "verticalPlane", "existingPlane", "existingPlaneUsingExtent", "existingPlaneUsingGeometry"}

  /** The values of `HitTestResultTypes` are exactly the members of the Flow type `HitTestResultType`. */
  lemma HitTestResultTypeValuesAreEnum(s: string)
    ensures s in HitTestResultTypeEnum <==> exists x :: HitTestResultTypeValue(x) == s
  {
    if s in HitTestResultTypeEnum {
      ParseHitTestResultTypeSound(s);
      assert HitTestResultTypeValue(ParseHitTestResultType(s).value) == s;
    }
  }

  // ---- WorldAlignmentTypes ----

  /** How the engine builds the scene coordinate system. One constructor per key of `WorldAlignmentTypes`. */
  datatype WorldAlignment = Gravity | GravityAndHeading | AlignmentCamera

  /** The string `WorldAlignmentTypes` maps the key to. */
  function WorldAlignmentValue(x: WorldAlignment): string {
    match x
    case Gravity => "gravity"
    case GravityAndHeading => "gravityAndHeading"
    case AlignmentCamera => "alignmentCamera"
  }

  /** The key whose value is `s`, if `s` is one of the values of `WorldAlignmentTypes`. */
  function ParseWorldAlignment(s: string): Option<WorldAlignment>
  {
    match s
    case "gravity" => Some(WorldAlignment.Gravity)
    case "gravityAndHeading" => Some(WorldAlignment.GravityAndHeading)
    case "alignmentCamera" => Some(WorldAlignment.AlignmentCamera)
    case _ => Option.None
  }

  /** `ParseWorldAlignment` accepts only values of `WorldAlignmentTypes`, and gives back the key of the value. */
  lemma ParseWorldAlignmentSound(s: string)
    ensures var r := ParseWorldAlignment(s); r.Some? ==> WorldAlignmentValue(r.value) == s
  {
  }

  /** Parsing a value of `WorldAlignmentTypes` gives back its key. */
  lemma WorldAlignmentRoundTrip(x: WorldAlignment)
    ensures ParseWorldAlignment(WorldAlignmentValue(x)) == Some(x)
  {
  }

  /** The values of `WorldAlignmentTypes` are pairwise distinct. */
  lemma WorldAlignmentValueInjective(x: WorldAlignment, y: WorldAlignment)
    ensures WorldAlignmentValue(x) == WorldAlignmentValue(y) ==> x == y
  {
    WorldAlignmentRoundTrip(x);
    WorldAlignmentRoundTrip(y);
  }

  /** The keys of the Flow type `WorldAlignment`, a `$Enum` over string keys. */
  const WorldAlignmentEnum: set<string> := {"gravity", "gravityAndHeading", "alignmentCamera"}

  /** The values of `WorldAlignmentTypes` are exactly the members of the Flow type `WorldAlignment`. */
  lemma WorldAlignmentValuesAreEnum(s: string)
    ensures s in WorldAlignmentEnum <==> exists x :: WorldAlignmentValue(x) == s
  {
    if s in WorldAlignmentEnum {
      ParseWorldAlignmentSound(s);
      assert WorldAlignmentValue(ParseWorldAlignment(s).value) == s;
    }
  }

  // ---- AnchorTypes ----

  /** Kinds of anchor the engine reports. One constructor per key of `AnchorTypes`. */
  datatype AnchorType = Face | Image | Plane | Anchor

  /** The string `AnchorTypes` maps the key to. */
  function AnchorTypeValue(x: AnchorType): string {
    match x
    case Face => "ARFaceAnchor"
    case Image => "ARImageAnchor"
    case Plane => "ARPlaneAnchor"
    case Anchor => "ARAnchor"
  }

  /** The key whose value is `s`, if `s` is one of the values of `AnchorTypes`. */
  function ParseAnchorType(s: string): Option<AnchorType>
  {
    match s
    case "ARFaceAnchor" => Some(AnchorType.Face)
    case "ARImageAnchor" => Some(AnchorType.Image)
    case "ARPlaneAnchor" => Some(AnchorType.Plane)
    case "ARAnchor" => Some(AnchorType.Anchor)
    case _ => Option.None
  }

  /** `ParseAnchorType` accepts only values of `AnchorTypes`, and gives back the key of the value. */
  lemma ParseAnchorTypeSound(s: string)
    ensures var r := ParseAnchorType(s); r.Some? ==> AnchorTypeValue(r.value) == s
  {
  }

  /** Parsing a value of `AnchorTypes` gives back its key. */
  lemma AnchorTypeRoundTrip(x: AnchorType)
    ensures ParseAnchorType(AnchorTypeValue(x)) == Some(x)
  {
  }

  /** The values of `AnchorTypes` are pairwise distinct. */
  lemma AnchorTypeValueInjective(x: AnchorType, y: AnchorType)
    ensures AnchorTypeValue(x) == AnchorTypeValue(y) ==> x == y
  {
    AnchorTypeRoundTrip(x);
    AnchorTypeRoundTrip(y);
  }

  // ---- AnchorEventTypes ----

  /** What happened to an anchor in an anchors-updated event. One constructor per key of `AnchorEventTypes`. */
  datatype AnchorEventType = Add | Update | Remove

  /** The string `AnchorEventTypes` maps the key to. */
  function AnchorEventTypeValue(x: AnchorEventType): string {
    match x
    case Add => "add"
    case Update => "update"
    case Remove => "remove"
  }

  /** The key whose value is `s`, if `s` is one of the values of `AnchorEventTypes`. */
  function ParseAnchorEventType(s: string): Option<AnchorEventType>
  {
    match s
    case "add" => Some(AnchorEventType.Add)
    case "update" => Some(AnchorEventType.Update)
    case "remove" => Some(AnchorEventType.Remove)
    case _ => Option.None
  }

  /** `ParseAnchorEventType` accepts only values of `AnchorEventTypes`, and gives back the key of the value. */
  lemma ParseAnchorEventTypeSound(s: string)
    ensures var r := ParseAnchorEventType(s); r.Some? ==> AnchorEventTypeValue(r.value) == s
  {
  }

  /** Parsing a value of `AnchorEventTypes` gives back its key. */
  lemma AnchorEventTypeRoundTrip(x: AnchorEventType)
    ensures ParseAnchorEventType(AnchorEventTypeValue(x)) == Some(x)
  {
  }

  /** The values of `AnchorEventTypes` are pairwise distinct. */
  lemma AnchorEventTypeValueInjective(x: AnchorEventType, y: AnchorEventType)
    ensures AnchorEventTypeValue(x) == AnchorEventTypeValue(y) ==> x == y
  {
    AnchorEventTypeRoundTrip(x);
    AnchorEventTypeRoundTrip(y);
  }

  // ---- FrameAttributes ----

  /** Optional parts of a frame a caller can request. One constructor per key of `FrameAttributes`. */
  datatype FrameAttribute = Anchors | RawFeaturePoints | LightEstimation | CapturedDepthData

  /** The string `FrameAttributes` maps the key to. */
  function FrameAttributeValue(x: FrameAttribute): string {
    match x
    case Anchors => "anchors"
    case RawFeaturePoints => "rawFeaturePoints"
    case LightEstimation => "lightEstimation"
    case CapturedDepthData => "capturedDepthData"
  }

  /** The key whose value is `s`, if `s` is one of the values of `FrameAttributes`. */
  function ParseFrameAttribute(s: string): Option<FrameAttribute>
  {
    match s
    case "anchors" => Some(FrameAttribute.Anchors)
    case "rawFeaturePoints" => Some(FrameAttribute.RawFeaturePoints)
    case "lightEstimation" => Some(FrameAttribute.LightEstimation)
    case "capturedDepthData" => Some(FrameAttribute.CapturedDepthData)
    case _ => Option.None
  }

  /** `ParseFrameAttribute` accepts only values of `FrameAttributes`, and gives back the key of the value. */
  lemma ParseFrameAttributeSound(s: string)
    ensures var r := ParseFrameAttribute(s); r.Some? ==> FrameAttributeValue(r.value) == s
  {
  }

  /** Parsing a value of `FrameAttributes` gives back its key. */
  lemma FrameAttributeRoundTrip(x: FrameAttribute)
    ensures ParseFrameAttribute(FrameAttributeValue(x)) == Some(x)
  {
  }

  /** The values of `FrameAttributes` are pairwise distinct. */
  lemma FrameAttributeValueInjective(x: FrameAttribute, y: FrameAttribute)
    ensures FrameAttributeValue(x) == FrameAttributeValue(y) ==> x == y
  {
    FrameAttributeRoundTrip(x);
    FrameAttributeRoundTrip(y);
  }

  // ---- TrackingStates ----

  /** Quality of the engine's tracking. One constructor per key of `TrackingStates`. */
  datatype TrackingState = NotAvailable | Limited | Normal

  /** The string `TrackingStates` maps the key to. */
  function TrackingStateValue(x: TrackingState): string {
    match x
    case NotAvailable => "ARTrackingStateNotAvailable"
    case Limited => "ARTrackingStateLimited"
    case Normal => "ARTrackingStateNormal"
  }

  /** The key whose value is `s`, if `s` is one of the values of `TrackingStates`. */
  function ParseTrackingState(s: string): Option<TrackingState>
  {
    match s
    case "ARTrackingStateNotAvailable" => Some(TrackingState.NotAvailable)
    case "ARTrackingStateLimited" => Some(TrackingState.Limited)
    case "ARTrackingStateNormal" => Some(TrackingState.Normal)
    case _ => Option.None
  }

  /** `ParseTrackingState` accepts only values of `TrackingStates`, and gives back the key of the value. */
  lemma ParseTrackingStateSound(s: string)
    ensures var r := ParseTrackingState(s); r.Some? ==> TrackingStateValue(r.value) == s
  {
  }

  /** Parsing a value of `TrackingStates` gives back its key. */
  lemma TrackingStateRoundTrip(x: TrackingState)
    ensures ParseTrackingState(TrackingStateValue(x)) == Some(x)
  {
  }

  /** The values of `TrackingStates` are pairwise distinct. */
  lemma TrackingStateValueInjective(x: TrackingState, y: TrackingState)
    ensures TrackingStateValue(x) == TrackingStateValue(y) ==> x == y
  {
    TrackingStateRoundTrip(x);
    TrackingStateRoundTrip(y);
  }

  // ---- TrackingStateReasons ----

  /** Why tracking is limited. One constructor per key of `TrackingStateReasons`. */
  datatype TrackingStateReason = None | Initializing | ExcessiveMotion | InsufficientFeatures | Relocalizing

  /** The string `TrackingStateReasons` maps the key to. */
  function TrackingStateReasonValue(x: TrackingStateReason): string {
    match x
    case None => "ARTrackingStateReasonNone"
    case Initializing => "ARTrackingStateReasonInitializing"
    case ExcessiveMotion => "ARTrackingStateReasonExcessiveMotion"
    case InsufficientFeatures => "ARTrackingStateReasonInsufficientFeatures"
    case Relocalizing => "ARTrackingStateReasonRelocalizing"
  }

  /** The key whose value is `s`, if `s` is one of the values of `TrackingStateReasons`. */
  function ParseTrackingStateReason(s: string): Option<TrackingStateReason>
  {
    match s
    case "ARTrackingStateReasonNone" => Some(TrackingStateReason.None)
    case "ARTrackingStateReasonInitializing" => Some(TrackingStateReason.Initializing)
    case "ARTrackingStateReasonExcessiveMotion" => Some(TrackingStateReason.ExcessiveMotion)
    case "ARTrackingStateReasonInsufficientFeatures" => Some(TrackingStateReason.InsufficientFeatures)
    case "ARTrackingStateReasonRelocalizing" => Some(TrackingStateReason.Relocalizing)
    case _ => Option.None
  }

  /** `ParseTrackingStateReason` accepts only values of `TrackingStateReasons`, and gives back the key of the value. */
  lemma ParseTrackingStateReasonSound(s: string)
    ensures var r := ParseTrackingStateReason(s); r.Some? ==> TrackingStateReasonValue(r.value) == s
  {
  }

  /** Parsing a value of `TrackingStateReasons` gives back its key. */
  lemma TrackingStateReasonRoundTrip(x: TrackingStateReason)
    ensures ParseTrackingStateReason(TrackingStateReasonValue(x)) == Some(x)
  {
  }

  /** The values of `TrackingStateReasons` are pairwise distinct. */
  lemma TrackingStateReasonValueInjective(x: TrackingStateReason, y: TrackingStateReason)
    ensures TrackingStateReasonValue(x) == TrackingStateReasonValue(y) ==> x == y
  {
    TrackingStateReasonRoundTrip(x);
    TrackingStateReasonRoundTrip(y);
  }

  // ---- TrackingConfigurations ----

  /** Tracking modes a session can run in. One constructor per key of `TrackingConfigurations`. */
  datatype TrackingConfiguration = World | Orientation | Face

  /** The string `TrackingConfigurations` maps the key to. */
  function TrackingConfigurationValue(x: TrackingConfiguration): string {
    match x
    case World => "ARWorldTrackingConfiguration"
    case Orientation => "AROrientationTrackingConfiguration"
    case Face => "ARFaceTrackingConfiguration"
  }

  /** The key whose value is `s`, if `s` is one of the values of `TrackingConfigurations`. */
  function ParseTrackingConfiguration(s: string): Option<TrackingConfiguration>
  {
    match s
    case "ARWorldTrackingConfiguration" => Some(TrackingConfiguration.World)
    case "AROrientationTrackingConfiguration" => Some(TrackingConfiguration.Orientation)
    case "ARFaceTrackingConfiguration" => Some(TrackingConfiguration.Face)
    case _ => Option.None
  }

  /** `ParseTrackingConfiguration` accepts only values of `TrackingConfigurations`, and gives back the key of the value. */
  lemma ParseTrackingConfigurationSound(s: string)
    ensures var r := ParseTrackingConfiguration(s); r.Some? ==> TrackingConfigurationValue(r.value) == s
  {
  }

  /** Parsing a value of `TrackingConfigurations` gives back its key. */
  lemma TrackingConfigurationRoundTrip(x: TrackingConfiguration)
    ensures ParseTrackingConfiguration(TrackingConfigurationValue(x)) == Some(x)
  {
  }

  /** The values of `TrackingConfigurations` are pairwise distinct. */
  lemma TrackingConfigurationValueInjective(x: TrackingConfiguration, y: TrackingConfiguration)
    ensures TrackingConfigurationValue(x) == TrackingConfigurationValue(y) ==> x == y
  {
    TrackingConfigurationRoundTrip(x);
    TrackingConfigurationRoundTrip(y);
  }

  /** The keys of the Flow type `TrackingConfiguration`, a `$Enum` over string keys. */
  const TrackingConfigurationEnum: set<string> := {"ARWorldTrackingConfiguration", "AROrientationTrackingConfiguration", "ARFaceTrackingConfiguration"}

  /** The values of `TrackingConfigurations` are exactly the members of the Flow type `TrackingConfiguration`. */
  lemma TrackingConfigurationValuesAreEnum(s: string)
    ensures s in TrackingConfigurationEnum <==> exists x :: TrackingConfigurationValue(x) == s
  {
    if s in TrackingConfigurationEnum {
      ParseTrackingConfigurationSound(s);
      assert TrackingConfigurationValue(ParseTrackingConfiguration(s).value) == s;
    }
  }

}

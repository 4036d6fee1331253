/**
 * The identity-verification pipeline of the back end: the label dispatch
 * that fills the Aadhaar record from detector regions, first-face
 * selection, the comparison fallback, and the order of the checks that
 * `validate_aadhaar_api` applies before it answers 200.
 *
 * The detector, OCR reader, face cascade and face matcher are not modelled:
 * their outputs are inputs here.
 */
module AadhaarVerification {
  import opened Wrappers
  import opened Text
  import opened Verhoeff

  /** One region found on the card: its class label and the OCR tokens read from it. */
  datatype Detection = Detection(tag: string, tokens: seq<string>)

  /** The `extracted_info` record. */
  datatype AadhaarInfo = AadhaarInfo(isValid: bool, aadhaarNumber: string, name: string, gender: string, dob: string)

  /** The record before any region is read. */
  const Blank := AadhaarInfo(false, "", "", "", "")

  /** The OCR tokens of the last region tagged `tag`, if any. */
  function LastTokens(dets: seq<Detection>, tag: string): (r: Option<seq<string>>)
    ensures r.None? <==> forall i :: 0 <= i < |dets| ==> dets[i].tag != tag
    ensures r.Some? ==> (exists i :: 0 <= i < |dets| && dets[i].tag == tag && dets[i].tokens == r.value &&
                                     forall j :: i < j < |dets| ==> dets[j].tag != tag)
  {
    if dets == [] then None
    else if dets[|dets| - 1].tag == tag then Some(dets[|dets| - 1].tokens)
    else LastTokens(dets[..|dets| - 1], tag)
  }

  /** A field's final text: the last matching region's tokens joined by `sep`, or "" when there is none. */
  function FieldText(dets: seq<Detection>, tag: string, sep: string): string
  {
    match LastTokens(dets, tag)
    case None => ""
    case Some(tokens) => Join(tokens, sep)
  }

  /** The record after all regions, before the checksum: last writer wins for each field. */
  function Fields(dets: seq<Detection>): AadhaarInfo
  {
    AadhaarInfo(false, FieldText(dets, "AADHAR_NUMBER", ""), FieldText(dets, "NAME", " "),
      FieldText(dets, "GENDER", ""), FieldText(dets, "DATE_OF_BIRTH", ""))
  }

  /** The dispatch on one region's label. */
  function Dispatch(info: AadhaarInfo, det: Detection): AadhaarInfo
  {
    if det.tag == "AADHAR_NUMBER" then info.(aadhaarNumber := Join(det.tokens, ""))
    else if det.tag == "NAME" then info.(name := Join(det.tokens, " "))
    else if det.tag == "GENDER" then info.(gender := Join(det.tokens, ""))
    else if det.tag == "DATE_OF_BIRTH" then info.(dob := Join(det.tokens, ""))
    else info
  }

  /**
   * `extract_aadhaar_info` from the detections on: start from the blank
   * record, fill it region by region, then set `is_valid` from the number.
   */
  method ExtractAadhaarInfo(dets: seq<Detection>) returns (info: AadhaarInfo)
    ensures info.aadhaarNumber == FieldText(dets, "AADHAR_NUMBER", "")
    ensures info.name == FieldText(dets, "NAME", " ")
    ensures info.gender == FieldText(dets, "GENDER", "")
    ensures info.dob == FieldText(dets, "DATE_OF_BIRTH", "")
    ensures info.isValid == ValidateAadhaar(info.aadhaarNumber)
  {
    info := Blank;
    var i := 0;
    while i < |dets|
      invariant 0 <= i <= |dets|
      invariant info == Fields(dets[..i])
    {
      assert dets[..i + 1][..i] == dets[..i];
      info := Dispatch(info, dets[i]);
      i := i + 1;
    }
    assert dets[..i] == dets;
    info := info.(isValid := ValidateAadhaar(info.aadhaarNumber));
  }

  /** A region whose label is none of the four fields leaves the record as it was. */
  lemma UnknownLabelIgnored(dets: seq<Detection>, det: Detection)
    requires det.tag !in {"AADHAR_NUMBER", "NAME", "GENDER", "DATE_OF_BIRTH"}
    ensures Fields(dets + [det]) == Fields(dets)
  {
    assert (dets + [det])[..|dets|] == dets;
  }

  /** A later region with the same label overwrites an earlier one. */
  lemma LaterRegionOverwrites(dets: seq<Detection>, det: Detection)
    requires det.tag == "NAME"
    ensures Fields(dets + [det]).name == Join(det.tokens, " ")
    ensures Fields(dets + [det]).aadhaarNumber == Fields(dets).aadhaarNumber
  {
    assert (dets + [det])[..|dets|] == dets;
  }

  /** With no regions at all the number is empty, so the record is not valid. */
  lemma NoDetectionsInvalid()
    ensures Fields([]) == Blank
    ensures !ValidateAadhaar(Fields([]).aadhaarNumber)
  {
    assert Clean("") == "";
  }

  /** A detected face: its bounding box. */
  datatype Box = Box(x: int, y: int, w: int, h: int)

  /** `faces[0]` when the cascade found any face, else `None`. */
  function FirstFace(faces: seq<Box>): (r: Option<Box>)
    ensures r.None? <==> |faces| == 0
    ensures r.Some? ==> r.value == faces[0] && r.value in faces
  {
    if |faces| > 0 then Some(faces[0]) else None
  }

  /** What a call into the face matcher did: returned its `verified` flag, or raised. */
  datatype MatchCall = Verified(verified: bool) | Raised

  /** `compare_face_images`: the matcher's verdict, with any exception read as "no match". */
  function CompareFaceImages(call: MatchCall): (matched: bool)
    ensures matched <==> call == Verified(true)
    ensures call.Raised? ==> !matched
  {
    match call
    case Verified(v) => v
    case Raised => false
  }

  /** The JSON reply and its HTTP status. */
  datatype Reply = Reply(status: int, success: bool, message: string, data: Option<AadhaarInfo>)

  function Fail(message: string): Reply { Reply(400, false, message, None) }

  /** A request field is given: present and not the empty string. */
  predicate Given(field: Option<string>) { field.Some? && field.value != "" }

  /**
   * `validate_aadhaar_api`, given what the extraction, the two face
   * searches and the matcher produce; each is consulted only after the
   * checks before it have passed.
   */
  function ValidateAadhaarApi(aadhaarUrl: Option<string>, userFaceUrl: Option<string>, extracted: AadhaarInfo,
                              aadhaarFace: Option<Box>, userFace: Option<Box>, call: MatchCall): (r: Reply)
    ensures r.status == 200 <==> r.success
    ensures r.success <==> (Given(aadhaarUrl) && Given(userFaceUrl) && extracted.isValid &&
                            aadhaarFace.Some? && userFace.Some? && CompareFaceImages(call))
    ensures r.success ==> r.data == Some(extracted) && r.message == "Aadhaar validated"
    ensures !r.success ==> r.status == 400 && r.data.None?
    ensures !(Given(aadhaarUrl) && Given(userFaceUrl)) ==> r.message == "Both Aadhaar and face images are required"
  {
    if !Given(aadhaarUrl) || !Given(userFaceUrl) then Fail("Both Aadhaar and face images are required")
    else if !extracted.isValid then Fail("Invalid Aadhaar")
    else if aadhaarFace.None? || userFace.None? then Fail("Face detection failed")
    else if !CompareFaceImages(call) then Fail("Face does not match Aadhaar")
    else Reply(200, true, "Aadhaar validated", Some(extracted))
  }

  /**
   * The checks run in a fixed order: each failure message is returned
   * exactly when every earlier check passed and this one did not.
   */
  lemma CheckOrder(aadhaarUrl: Option<string>, userFaceUrl: Option<string>, extracted: AadhaarInfo,
                   aadhaarFace: Option<Box>, userFace: Option<Box>, call: MatchCall)
    ensures var r := ValidateAadhaarApi(aadhaarUrl, userFaceUrl, extracted, aadhaarFace, userFace, call);
      var urls := Given(aadhaarUrl) && Given(userFaceUrl);
      var faces := aadhaarFace.Some? && userFace.Some?;
      (r.message == "Invalid Aadhaar" <==> urls && !extracted.isValid) &&
      (r.message == "Face detection failed" <==> urls && extracted.isValid && !faces) &&
      (r.message == "Face does not match Aadhaar" <==> urls && extracted.isValid && faces && !CompareFaceImages(call))
  {
  }

  /**
   * End to end: a 200 reply means the number read from the card passed
   * `validate_aadhaar`, so it has 12 digits after cleaning, does not start
   * with 0 or 1, and passes the Verhoeff checksum.
   */
  lemma AcceptedCardHasValidNumber(dets: seq<Detection>, info: AadhaarInfo, aadhaarUrl: Option<string>,
                                   userFaceUrl: Option<string>, aadhaarFace: Option<Box>, userFace: Option<Box>, call: MatchCall)
    requires info == Fields(dets).(isValid := ValidateAadhaar(Fields(dets).aadhaarNumber))
    requires ValidateAadhaarApi(aadhaarUrl, userFaceUrl, info, aadhaarFace, userFace, call).success
    ensures |Clean(info.aadhaarNumber)| == 12 && VerhoeffValid(Clean(info.aadhaarNumber))
    ensures Clean(info.aadhaarNumber)[0] !in "01"
  {
  }
}

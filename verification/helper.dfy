/**
 * The validators and the image normaliser of the sighting service
 * (modules/sighting/v1/service/helper.go). All of it is pure: the validators
 * are early-return rule chains over the fields of a value, and the normaliser
 * is a chain of codec calls that returns a new string.
 */
module Helper {
  import opened Wrappers
  import opened Entity
  import opened Errors

  // ---------------------------------------------------------------------
  // Timestamps

  /**
   * validateTime: true when the timestamp counts as unset, which is Go's zero
   * time and the Unix epoch (the value an absent wire field decodes to).
   */
  predicate ValidateTime(t: Time) {
    IsZero(t) || Equal(t, UnixEpochUTC)
  }

  /** Exactly two instants count as unset; the location never matters. */
  lemma UnsetInstants(t: Time)
    ensures ValidateTime(t) <==> t.nsec == 0 && (t.sec == 0 || t.sec == SecondsFromYearOneToUnix)
  {
  }

  /** time.Unix(0, 0) is unset whatever location it is shown in. */
  lemma UnixZeroIsUnset(zoneOffset: int)
    ensures ValidateTime(Unix(0, 0, zoneOffset))
  {
  }

  // ---------------------------------------------------------------------
  // A reference reading of "ordered, short-circuiting rule chain"

  /** One rule of a chain: whether it holds, and the error it reports if not. */
  datatype Rule = Rule(holds: bool, failure: ValidationError)

  /** The error of the first rule that does not hold, or None if all hold. */
  function FirstFailure(rules: seq<Rule>): (r: Option<ValidationError>)
    ensures r.None? <==> forall i :: 0 <= i < |rules| ==> rules[i].holds
    ensures r.Some? ==> exists i :: 0 <= i < |rules| && !rules[i].holds && rules[i].failure == r.value
                                    && forall j :: 0 <= j < i ==> rules[j].holds
  {
    if rules == [] then None
    else if !rules[0].holds then Some(rules[0].failure)
    else
      var r := FirstFailure(rules[1..]);
      assert forall i :: 1 <= i < |rules| ==> rules[i] == rules[1..][i - 1];
      r
  }

  predicate InRange(x: real, bound: real) {
    -bound <= x <= bound
  }

  /** The rules isValidTiger checks, in the order it checks them. */
  function TigerRules(t: Tiger): seq<Rule> {
    [ Rule(t.name != "", EmptyName),
      Rule(!ValidateTime(t.dateOfBirth), ZeroDateOfBirth),
      Rule(!ValidateTime(t.lastSeenTimestamp), NullLastSeen),
      Rule(InRange(t.lastSeenLatitude, 90.0), InvalidLatitude),
      Rule(InRange(t.lastSeenLongitude, 180.0), InvalidLongitude) ]
  }

  /** The rules isValidSighting checks, in the order it checks them. */
  function SightingRules(s: Sighting): seq<Rule> {
    [ Rule(s.tigerID != 0, ZeroTigerID),
      Rule(!ValidateTime(s.seenAt), ZeroSeenAt),
      Rule(InRange(s.latitude, 90.0), InvalidLatitude),
      Rule(InRange(s.longitude, 180.0), InvalidLongitude),
      Rule(s.imageData != "", EmptyImageData) ]
  }

  // ---------------------------------------------------------------------
  // Validators

  /**
   * isValidTiger: None (Go's nil) when the tiger may be stored, otherwise the
   * error of the first rule it breaks. It takes the tiger by value, so it
   * cannot change it.
   */
  function IsValidTiger(t: Tiger): (r: Option<ValidationError>)
    ensures r.None? <==>
      && t.name != ""
      && !ValidateTime(t.dateOfBirth)
      && !ValidateTime(t.lastSeenTimestamp)
      && -90.0 <= t.lastSeenLatitude <= 90.0
      && -180.0 <= t.lastSeenLongitude <= 180.0
  {
    if t.name == "" then Some(EmptyName)
    else if ValidateTime(t.dateOfBirth) then Some(ZeroDateOfBirth)
    else if ValidateTime(t.lastSeenTimestamp) then Some(NullLastSeen)
    else if t.lastSeenLatitude < -90.0 || t.lastSeenLatitude > 90.0 then Some(InvalidLatitude)
    else if t.lastSeenLongitude < -180.0 || t.lastSeenLongitude > 180.0 then Some(InvalidLongitude)
    else None
  }

  /**
   * isValidSighting: None when the sighting may be processed, otherwise the
   * error of the first rule it breaks.
   */
  function IsValidSighting(s: Sighting): (r: Option<ValidationError>)
    ensures r.None? <==>
      && s.tigerID != 0
      && !ValidateTime(s.seenAt)
      && -90.0 <= s.latitude <= 90.0
      && -180.0 <= s.longitude <= 180.0
      && s.imageData != ""
  {
    if s.tigerID == 0 then Some(ZeroTigerID)
    else if ValidateTime(s.seenAt) then Some(ZeroSeenAt)
    else if s.latitude < -90.0 || s.latitude > 90.0 then Some(InvalidLatitude)
    else if s.longitude < -180.0 || s.longitude > 180.0 then Some(InvalidLongitude)
    else if s.imageData == "" then Some(EmptyImageData)
    else None
  }

  /** The tail of a rule chain after its first rule holds. */
  lemma FirstFailureStep(rules: seq<Rule>)
    requires rules != [] && rules[0].holds
    ensures FirstFailure(rules) == FirstFailure(rules[1..])
  {
  }

  /** isValidTiger reports the first broken rule of TigerRules, in that order. */
  lemma {:induction false} TigerRulesInOrder(t: Tiger)
    ensures IsValidTiger(t) == FirstFailure(TigerRules(t))
  {
    var rs := TigerRules(t);
    if rs[0].holds {
      FirstFailureStep(rs);
      if rs[1].holds {
        FirstFailureStep(rs[1..]);
        if rs[2].holds {
          FirstFailureStep(rs[2..]);
          assert rs[2..][1..] == rs[3..];
          if rs[3].holds {
            FirstFailureStep(rs[3..]);
            assert rs[3..][1..] == rs[4..];
          }
        }
      }
    }
  }

  /** isValidSighting reports the first broken rule of SightingRules, in that order. */
  lemma {:induction false} SightingRulesInOrder(s: Sighting)
    ensures IsValidSighting(s) == FirstFailure(SightingRules(s))
  {
    var rs := SightingRules(s);
    if rs[0].holds {
      FirstFailureStep(rs);
      if rs[1].holds {
        FirstFailureStep(rs[1..]);
        if rs[2].holds {
          FirstFailureStep(rs[2..]);
          assert rs[2..][1..] == rs[3..];
          if rs[3].holds {
            FirstFailureStep(rs[3..]);
            assert rs[3..][1..] == rs[4..];
          }
        }
      }
    }
  }

  /** An empty name is reported before any later rule, e.g. a bad latitude. */
  lemma NameCheckedFirst(t: Tiger)
    requires t.name == ""
    ensures IsValidTiger(t) == Some(EmptyName)
  {
  }

  // ---------------------------------------------------------------------
  // Image normaliser

  const JpegPrefix: string := "data:image/jpeg;base64,"
  const PngPrefix: string := "data:image/png;base64,"

  /** strings.HasPrefix. */
  predicate HasPrefix(s: string, p: string) {
    |p| <= |s| && s[..|p|] == p
  }

  /** strings.Index for one character: its first position in s, or -1. */
  function Index(s: string, c: char): (r: int)
    ensures -1 <= r < |s|
    ensures r >= 0 ==> s[r] == c && forall j :: 0 <= j < r ==> s[j] != c
    ensures r == -1 ==> forall j :: 0 <= j < |s| ==> s[j] != c
  {
    if s == [] then -1
    else if s[0] == c then 0
    else
      var k := Index(s[1..], c);
      assert forall j :: 1 <= j < |s| ==> s[j] == s[1..][j - 1];
      if k < 0 then -1 else k + 1
  }

  /** An image in memory (image.Image); the pixels stay opaque. */
  datatype Image = Image(pixels: seq<int>)

  /** The size every stored image is resampled to, and the JPEG encoder's quality. */
  const ResizeWidth: nat := 250
  const ResizeHeight: nat := 200
  const JpegQuality: nat := 80

  /**
   * The foreign codecs the normaliser calls, decoders and encoders possibly
   * failing: base64 is the standard alphabet with padding of section 4 of
   * RFC 4648, resize is a Lanczos-3 resampling to the given width and
   * height, and the JPEG encoder takes a quality.
   */
  datatype Codecs = Codecs(
    base64Decode: string -> Option<seq<byte>>,
    base64Encode: seq<byte> -> string,
    pngDecode: seq<byte> -> Option<Image>,
    jpegDecode: seq<byte> -> Option<Image>,
    resize: (nat, nat, Image) -> Image,
    pngEncode: Image -> Option<seq<byte>>,
    jpegEncode: (Image, nat) -> Option<seq<byte>>)

  /** The format the normaliser assumes: JPEG behind the JPEG prefix, PNG for everything else. */
  function DetectFormat(input: string): (f: ImageFormat)
    ensures f == Jpeg <==> HasPrefix(input, JpegPrefix)
  {
    if HasPrefix(input, JpegPrefix) then Jpeg else Png
  }

  function PrefixOf(f: ImageFormat): string {
    match f
    case Png => PngPrefix
    case Jpeg => JpegPrefix
  }

  /** Neither prefix has a comma before its last character. */
  lemma PrefixCommaIsLast(f: ImageFormat)
    ensures |PrefixOf(f)| > 0 && PrefixOf(f)[|PrefixOf(f)| - 1] == ','
    ensures forall j :: 0 <= j < |PrefixOf(f)| - 1 ==> PrefixOf(f)[j] != ','
  {
  }

  /** After one of the prefixes, the first comma is the prefix's last character. */
  lemma {:induction false} FirstCommaEndsPrefix(input: string, f: ImageFormat)
    requires HasPrefix(input, PrefixOf(f))
    ensures Index(input, ',') == |PrefixOf(f)| - 1
  {
    var p := PrefixOf(f);
    PrefixCommaIsLast(f);
    assert input[|p| - 1] == p[|p| - 1];
  }

  /**
   * The base64 text the normaliser decodes: what follows the first comma when
   * the input carries one of the two prefixes, and the whole input otherwise.
   */
  function Payload(input: string): (r: string)
    ensures HasPrefix(input, PngPrefix) ==> r == input[|PngPrefix|..]
    ensures HasPrefix(input, JpegPrefix) ==> r == input[|JpegPrefix|..]
    ensures !HasPrefix(input, PngPrefix) && !HasPrefix(input, JpegPrefix) ==> r == input
  {
    if HasPrefix(input, PngPrefix) || HasPrefix(input, JpegPrefix) then
      var f := if HasPrefix(input, PngPrefix) then Png else Jpeg;
      FirstCommaEndsPrefix(input, f);
      input[Index(input, ',') + 1..]
    else
      input
  }

  function DecodeImage(codecs: Codecs, f: ImageFormat, raw: seq<byte>): Option<Image> {
    match f
    case Png => codecs.pngDecode(raw)
    case Jpeg => codecs.jpegDecode(raw)
  }

  function EncodeImage(codecs: Codecs, f: ImageFormat, im: Image): Option<seq<byte>> {
    match f
    case Png => codecs.pngEncode(im)
    case Jpeg => codecs.jpegEncode(im, JpegQuality)
  }

  /** Decode the image bytes in format f, resize to 250 by 200, and encode again in f (JPEG at quality 80). */
  function Reencode(codecs: Codecs, f: ImageFormat, raw: seq<byte>): (r: Result<seq<byte>, ImageError>)
    ensures r == Failure(DecodeFailed(f)) <==> DecodeImage(codecs, f, raw).None?
    ensures r == Failure(EncodeFailed(f)) <==>
      DecodeImage(codecs, f, raw).Some?
      && EncodeImage(codecs, f, codecs.resize(ResizeWidth, ResizeHeight, DecodeImage(codecs, f, raw).value)).None?
    ensures r.Success? <==>
      DecodeImage(codecs, f, raw).Some?
      && EncodeImage(codecs, f, codecs.resize(ResizeWidth, ResizeHeight, DecodeImage(codecs, f, raw).value)).Some?
    ensures r.Success? ==>
      r.value == EncodeImage(codecs, f, codecs.resize(ResizeWidth, ResizeHeight, DecodeImage(codecs, f, raw).value)).value
  {
    match DecodeImage(codecs, f, raw)
    case None => Failure(DecodeFailed(f))
    case Some(im) =>
      match EncodeImage(codecs, f, codecs.resize(ResizeWidth, ResizeHeight, im))
      case None => Failure(EncodeFailed(f))
      case Some(out) => Success(out)
  }

  /** What resizeBase64Image returns: a data URI, or an error together with "". */
  datatype Resized = Resized(output: string, err: Option<ImageError>)

  /**
   * resizeBase64Image: strip the prefix, decode base64 and the image, resize
   * to 250 by 200, encode in the same format, and put the matching prefix in
   * front of the new base64 text.
   */
  function ResizeBase64Image(input: string, codecs: Codecs): (r: Resized)
    ensures r.err.Some? ==> r.output == ""
    ensures r.err == Some(Base64Corrupt) <==> codecs.base64Decode(Payload(input)).None?
    ensures r.err.Some? && r.err.value != Base64Corrupt ==>
      codecs.base64Decode(Payload(input)).Some?
      && Reencode(codecs, DetectFormat(input), codecs.base64Decode(Payload(input)).value).Failure?
      && r.err == Some(Reencode(codecs, DetectFormat(input), codecs.base64Decode(Payload(input)).value).error)
    ensures r.err.None? <==>
      codecs.base64Decode(Payload(input)).Some?
      && Reencode(codecs, DetectFormat(input), codecs.base64Decode(Payload(input)).value).Success?
    ensures r.err.None? ==>
      r.output == PrefixOf(DetectFormat(input))
        + codecs.base64Encode(Reencode(codecs, DetectFormat(input), codecs.base64Decode(Payload(input)).value).value)
    ensures r.err.None? ==> (HasPrefix(r.output, JpegPrefix) <==> HasPrefix(input, JpegPrefix))
    ensures r.err.None? && !HasPrefix(input, JpegPrefix) ==> HasPrefix(r.output, PngPrefix)
  {
    var f := DetectFormat(input);
    match codecs.base64Decode(Payload(input))
    case None => Resized("", Some(Base64Corrupt))
    case Some(raw) =>
      match Reencode(codecs, f, raw)
      case Failure(e) => Resized("", Some(e))
      case Success(out) =>
        var output := PrefixOf(f) + codecs.base64Encode(out);
        assert output[..|PrefixOf(f)|] == PrefixOf(f);
        assert PngPrefix[11] != JpegPrefix[11];
        Resized(output, None)
  }

  /**
   * Stripping undoes attaching: a string built as prefix + base64 text is read
   * back in the format of its prefix, and its payload is that text.
   */
  lemma AttachThenStrip(f: ImageFormat, text: string)
    ensures DetectFormat(PrefixOf(f) + text) == f
    ensures Payload(PrefixOf(f) + text) == text
  {
    var s := PrefixOf(f) + text;
    assert s[..|PrefixOf(f)|] == PrefixOf(f);
    assert PngPrefix[11] != JpegPrefix[11];
  }

  /** The base64 codec decodes whatever it encoded. */
  ghost predicate Base64RoundTrips(codecs: Codecs) {
    forall b :: codecs.base64Decode(codecs.base64Encode(b)) == Some(b)
  }

  /**
   * A normalised image is again a valid input: it keeps the detected format,
   * and its payload decodes to exactly the bytes the image encoder produced.
   */
  lemma NormalisedOutputDecodes(input: string, codecs: Codecs)
    requires Base64RoundTrips(codecs)
    requires ResizeBase64Image(input, codecs).err.None?
    ensures var out := ResizeBase64Image(input, codecs).output;
      var raw := codecs.base64Decode(Payload(input)).value;
      && DetectFormat(out) == DetectFormat(input)
      && Reencode(codecs, DetectFormat(input), raw).Success?
      && codecs.base64Decode(Payload(out)) == Some(Reencode(codecs, DetectFormat(input), raw).value)
  {
    var f := DetectFormat(input);
    var raw := codecs.base64Decode(Payload(input)).value;
    var encoded := Reencode(codecs, f, raw).value;
    AttachThenStrip(f, codecs.base64Encode(encoded));
  }
}

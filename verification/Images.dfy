/** Format detection, inspection and conversion of internal/imageutil/image.go. Codecs and pixel work are
    functions of the environment. */
module Images {
  import opened Text
  import opened Errors
  import opened Domain

  type Byte = b: int | 0 <= b < 256
  type Bytes = seq<Byte>
  type Json = string

  const MAX_PIXELS := 20_000_000
  const MIME_JPEG := "image/jpeg"
  const MIME_PNG := "image/png"
  const MIME_WEBP := "image/webp"
  const MIMES := {MIME_JPEG, MIME_PNG, MIME_WEBP}

  datatype Picture = Picture(width: int, height: int, pixels: Bytes)

  /** The libraries the service calls, as deterministic functions that may fail. */
  datatype Libraries = Libraries(
    decodeConfig: Bytes -> Option<(int, int)>,
    decode: Bytes -> Option<Picture>,
    fill: (Picture, int, int) -> Picture,
    encodeJpeg: Picture -> Option<Bytes>,
    encodePng: Picture -> Option<Bytes>,
    encodeWebp: Picture -> Option<Bytes>,
    parseUuid: string -> Option<AvatarId>,
    lower: char -> char,
    fold: char -> char,
    writeUpload: UploadEvent -> Json,
    readUpload: Json -> Option<UploadEvent>,
    writeDelete: DeleteEvent -> Json,
    readDelete: Json -> Option<DeleteEvent>)

  function AsciiLower(ch: char): char {
    if 'A' <= ch <= 'Z' then ch + ' ' else ch
  }

  /** What is assumed of them: a printed UUID parses to itself, JSON of an event reads back, and lower-casing does the
      usual thing on ASCII letters. Nothing is assumed of `fold`, Go's simple case folding. */
  ghost predicate Lawful(lib: Libraries) {
    && (forall ch: char :: ch < '\U{0080}' ==> lib.lower(ch) == AsciiLower(ch))
    && (forall id: AvatarId :: lib.parseUuid(id) == Some(id))
    && (forall ev: UploadEvent :: lib.readUpload(lib.writeUpload(ev)) == Some(ev))
    && (forall ev: DeleteEvent :: lib.readDelete(lib.writeDelete(ev)) == Some(ev))
  }

  datatype Info = Info(mime: string, ext: string, width: int, height: int)

  function DetectMime(data: Bytes): Result<string> {
    if |data| < 12 then Err(Known(ErrInvalidFileFormat))
    else if data[0] == 0xFF && data[1] == 0xD8 && data[2] == 0xFF then Ok(MIME_JPEG)
    else if data[..8] == [0x89, 0x50, 0x4E, 0x47, 0x0D, 0x0A, 0x1A, 0x0A] then Ok(MIME_PNG)
    else if data[..4] == [0x52, 0x49, 0x46, 0x46] && data[8..12] == [0x57, 0x45, 0x42, 0x50] then Ok(MIME_WEBP)
    else Err(Known(ErrInvalidFileFormat))
  }

  function ExtForMime(mime: string): string {
    if mime == MIME_JPEG then ".jpg"
    else if mime == MIME_PNG then ".png"
    else if mime == MIME_WEBP then ".webp"
    else ""
  }

  function FormatFromMime(mime: string): string {
    if mime == MIME_JPEG then "jpeg"
    else if mime == MIME_PNG then "png"
    else if mime == MIME_WEBP then "webp"
    else ""
  }

  function CheckPixels(w: int, h: int): Option<Error> {
    if w <= 0 || h <= 0 then Some(Known(ErrInvalidImage))
    else if w > MAX_PIXELS || h > MAX_PIXELS || w * h > MAX_PIXELS then Some(Known(ErrImageTooLarge))
    else None
  }

  /** An image is accepted exactly if both sides are positive and it has at most twenty million pixels. The
      two comparisons of a single side refuse nothing more; they keep the product within a 64-bit integer
      where it is formed. */
  lemma PixelLimit(w: int, h: int)
    ensures CheckPixels(w, h).None? <==> 0 < w && 0 < h && w * h <= 20_000_000
    ensures CheckPixels(w, h) == Some(Known(ErrInvalidImage)) <==> w <= 0 || h <= 0
    ensures 0 < w <= MAX_PIXELS && 0 < h <= MAX_PIXELS ==> w * h < 0x8000_0000_0000_0000
  {
    if 0 < w && 0 < h {
      Area(w, h, w * h);
    }
  }

  lemma Area(w: int, h: int, area: int)
    requires 0 < w && 0 < h && area == w * h
    ensures w <= area && h <= area
    ensures w <= MAX_PIXELS && h <= MAX_PIXELS ==> area <= MAX_PIXELS * MAX_PIXELS
  {
    Monotone(1, h, w);
    Monotone(1, w, h);
    if w <= MAX_PIXELS && h <= MAX_PIXELS {
      Monotone(w, MAX_PIXELS, h);
      Monotone(h, MAX_PIXELS, MAX_PIXELS);
    }
  }

  lemma Monotone(a: int, b: int, c: int)
    requires a <= b && 0 <= c
    ensures a * c <= b * c
  {
  }

  function Inspect(lib: Libraries, data: Bytes): Result<Info> {
    match DetectMime(data)
    case Err(e) => Err(e)
    case Ok(mime) =>
      match lib.decodeConfig(data)
      case None => Err(Known(ErrInvalidImage))
      case Some((w, h)) =>
        match CheckPixels(w, h)
        case Some(e) => Err(e)
        case None => Ok(Info(mime, ExtForMime(mime), w, h))
  }

  function Decode(lib: Libraries, data: Bytes): Result<Picture> {
    match lib.decodeConfig(data)
    case None => Err(Wrapped([Known(ErrInvalidImage)]))
    case Some((w, h)) =>
      match CheckPixels(w, h)
      case Some(e) => Err(e)
      case None =>
        match lib.decode(data)
        case None => Err(Wrapped([Known(ErrInvalidImage)]))
        case Some(img) => Ok(img)
  }

  function Encoded(body: Option<Bytes>, mime: string): Result<(Bytes, string)> {
    match body
    case None => Err(Foreign("encode"))
    case Some(b) => Ok((b, mime))
  }

  function ToLower(lib: Libraries, s: string): (r: string)
    ensures |r| == |s| && forall i :: 0 <= i < |s| ==> r[i] == lib.lower(s[i])
  {
    seq(|s|, i requires 0 <= i < |s| => lib.lower(s[i]))
  }

  function Encode(lib: Libraries, img: Picture, format: string): Result<(Bytes, string)> {
    var f := ToLower(lib, TrimSpace(format));
    var f := if f == "jpg" then "jpeg" else f;
    if f == "jpeg" || f == "" then Encoded(lib.encodeJpeg(img), MIME_JPEG)
    else if f == "png" then Encoded(lib.encodePng(img), MIME_PNG)
    else if f == "webp" then Encoded(lib.encodeWebp(img), MIME_WEBP)
    else Err(Known(ErrInvalidFormatParam))
  }

  function Convert(lib: Libraries, data: Bytes, format: string): Result<(Bytes, string)> {
    match Decode(lib, data)
    case Err(e) => Err(e)
    case Ok(img) => Encode(lib, img, format)
  }

  function MakeThumbnail(lib: Libraries, data: Bytes, width: int, height: int, format: string)
    : Result<(Bytes, string)> {
    match Decode(lib, data)
    case Err(e) => Err(e)
    case Ok(img) => Encode(lib, lib.fill(img, width, height), format)
  }

  lemma SmallLetters(lib: Libraries, w: string)
    requires Lawful(lib) && forall i :: 0 <= i < |w| ==> 'a' <= w[i] <= 'z' || '0' <= w[i] <= '9'
    ensures ToLower(lib, w) == w
  {
    assert forall i :: 0 <= i < |w| ==> lib.lower(w[i]) == AsciiLower(w[i]);
  }

  lemma PlainWord(lib: Libraries, w: string)
    requires Lawful(lib) && w in {"jpeg", "png", "webp"}
    ensures TrimSpace(w) == w && ToLower(lib, w) == w
  {
    hide TrimSpace, IsSpace, Lawful, ToLower;
    SmallLetters(lib, w);
    LettersAreNoSpace(w[0]);
    LettersAreNoSpace(w[|w| - 1]);
    NothingToTrim(w);
  }

  /** A thumbnail of a stored image keeps its MIME type: what is encoded in the format of a supported type is labelled
      with that type again. */
  lemma EncodeKeepsMime(lib: Libraries, img: Picture, mime: string)
    requires Lawful(lib) && mime in MIMES
    requires Encode(lib, img, FormatFromMime(mime)).Ok?
    ensures Encode(lib, img, FormatFromMime(mime)).value.1 == mime
  {
    PlainWord(lib, FormatFromMime(mime));
  }

  // ---------------------------------------------------------------- what inspection and conversion mean

  /** The bytes begin as a file of this type does. */
  predicate Signed(data: Bytes, mime: string) {
    && |data| >= 12
    && (|| (mime == "image/jpeg" && [0xFF, 0xD8, 0xFF] <= data)
        || (mime == "image/png" && [0x89, 0x50, 0x4E, 0x47, 0x0D, 0x0A, 0x1A, 0x0A] <= data)
        || (mime == "image/webp" && [0x52, 0x49, 0x46, 0x46] <= data && [0x57, 0x45, 0x42, 0x50] <= data[8..]))
  }

  /** The header gives two positive sides and at most twenty million pixels. */
  predicate Sized(lib: Libraries, data: Bytes) {
    && lib.decodeConfig(data).Some?
    && var (w, h) := lib.decodeConfig(data).value; 0 < w && 0 < h && w * h <= 20_000_000
  }

  lemma DetectIff(data: Bytes, mime: string)
    ensures DetectMime(data) == Ok(mime) <==> Signed(data, mime)
    ensures DetectMime(data).Err? ==> DetectMime(data).error == Known(ErrInvalidFileFormat)
  {
  }

  /** Upload takes an image exactly if its bytes begin as one of the three types does and its header gives an allowed
      size; a wrong beginning, a header that cannot be read and too many pixels are told apart. */
  lemma AcceptedIff(lib: Libraries, data: Bytes)
    ensures var typed := Signed(data, "image/jpeg") || Signed(data, "image/png") || Signed(data, "image/webp");
      && (Inspect(lib, data).Ok? <==> typed && Sized(lib, data))
      && (Inspect(lib, data) == Err(Known(ErrInvalidFileFormat)) <==> !typed)
      && (Inspect(lib, data) == Err(Known(ErrInvalidImage)) <==>
            typed && (lib.decodeConfig(data).None? || var (w, h) := lib.decodeConfig(data).value; w <= 0 || h <= 0))
  {
    DetectIff(data, "image/jpeg");
    DetectIff(data, "image/png");
    DetectIff(data, "image/webp");
    hide Signed;
    if lib.decodeConfig(data).Some? {
      var (w, h) := lib.decodeConfig(data).value;
      PixelLimit(w, h);
      hide CheckPixels;
    }
  }

  /** What is reported of an accepted image is the type it begins as, the sides of its header in that order, and the
      extension of the type. */
  lemma InspectedIsSupported(lib: Libraries, data: Bytes)
    requires Inspect(lib, data).Ok?
    ensures var info := Inspect(lib, data).value;
      && Signed(data, info.mime) && lib.decodeConfig(data) == Some((info.width, info.height))
      && 0 < info.width && 0 < info.height && info.width * info.height <= 20_000_000
      && info.mime in MIMES && info.ext in EXTENSIONS && info.ext == ExtForMime(info.mime)
      && info.ext == if info.mime == "image/jpeg" then ".jpg" else if info.mime == "image/png" then ".png" else ".webp"
  {
    DetectIff(data, Inspect(lib, data).value.mime);
    var (w, h) := lib.decodeConfig(data).value;
    PixelLimit(w, h);
    hide CheckPixels;
  }

  /** What the library's encoder for this type makes of the picture. */
  function EncodingOf(lib: Libraries, img: Picture, mime: string): Option<Bytes> {
    if mime == "image/jpeg" then lib.encodeJpeg(img)
    else if mime == "image/png" then lib.encodePng(img)
    else lib.encodeWebp(img)
  }

  /** The format is trimmed and lower-cased; the empty one and `jpg` mean JPEG, and an unknown one is refused. */
  lemma EncodeIs(lib: Libraries, img: Picture, format: string)
    ensures var f := ToLower(lib, TrimSpace(format));
      var mime := if f == "" || f == "jpg" then "image/jpeg" else "image/" + f;
      if f in {"", "jpg", "jpeg", "png", "webp"} then
        var body := EncodingOf(lib, img, mime);
        Encode(lib, img, format) == if body.None? then Err(Foreign("encode")) else Ok((body.value, mime))
      else Encode(lib, img, format) == Err(Known(ErrInvalidFormatParam))
  {
    hide TrimSpace, ToLower;
    assert "image/" + "jpeg" == "image/jpeg" && "image/" + "png" == "image/png" && "image/" + "webp" == "image/webp";
  }

  /** The header gives an allowed size and the image can be decoded. */
  predicate Readable(lib: Libraries, data: Bytes) {
    Sized(lib, data) && lib.decode(data).Some?
  }

  lemma DecodeIs(lib: Libraries, data: Bytes)
    ensures Decode(lib, data).Ok? <==> Readable(lib, data)
    ensures Readable(lib, data) ==> Decode(lib, data) == Ok(lib.decode(data).value)
    ensures Decode(lib, data).Err? ==>
      if lib.decodeConfig(data).Some? && lib.decodeConfig(data).value.0 > 0 && lib.decodeConfig(data).value.1 > 0
         && !Sized(lib, data) then Decode(lib, data).error == Known(ErrImageTooLarge)
      else Is(Decode(lib, data).error, ErrInvalidImage)
  {
    if lib.decodeConfig(data).Some? {
      var (w, h) := lib.decodeConfig(data).value;
      PixelLimit(w, h);
    }
    assert Is(Wrapped([Known(ErrInvalidImage)]).causes[0], ErrInvalidImage);
  }

  /** Conversion gives the encoding of the decoded image, exactly if it can be decoded and encoded. */
  lemma ConvertIs(lib: Libraries, data: Bytes, format: string)
    requires Lawful(lib) && format in {"jpeg", "png", "webp"}
    ensures Convert(lib, data, format).Ok? <==>
      Readable(lib, data) && EncodingOf(lib, lib.decode(data).value, "image/" + format).Some?
    ensures Convert(lib, data, format).Ok? ==>
      Convert(lib, data, format).value ==
        (EncodingOf(lib, lib.decode(data).value, "image/" + format).value, "image/" + format)
  {
    hide Lawful, Encode, Decode, EncodingOf, Readable, TrimSpace, ToLower;
    DecodeIs(lib, data);
    PlainWord(lib, format);
    if Decode(lib, data).Ok? {
      EncodeIs(lib, Decode(lib, data).value, format);
    }
  }

  /** A thumbnail is the encoding, in the format asked for, of the decoded image filled into the given sides. */
  lemma MakeThumbnailIs(lib: Libraries, data: Bytes, w: int, h: int, format: string)
    requires Lawful(lib) && format in {"jpeg", "png", "webp"}
    ensures MakeThumbnail(lib, data, w, h, format).Ok? <==>
      Readable(lib, data) && EncodingOf(lib, lib.fill(lib.decode(data).value, w, h), "image/" + format).Some?
    ensures MakeThumbnail(lib, data, w, h, format).Ok? ==>
      MakeThumbnail(lib, data, w, h, format).value ==
        (EncodingOf(lib, lib.fill(lib.decode(data).value, w, h), "image/" + format).value, "image/" + format)
  {
    hide Lawful, Encode, Decode, EncodingOf, Readable, TrimSpace, ToLower;
    DecodeIs(lib, data);
    PlainWord(lib, format);
    if Decode(lib, data).Ok? {
      EncodeIs(lib, lib.fill(Decode(lib, data).value, w, h), format);
    }
  }
}

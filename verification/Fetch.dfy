/** The image service of internal/services/avatar.go. */
module Fetch {
  import opened Text
  import opened Errors
  import opened Domain
  import opened Images
  import opened Protocol
  import opened Invariant
  import opened Steps
  import opened Guarantees
  import opened Drawings
  import opened Validate

  function ThumbnailKey(row: Row, size: string): Option<string> {
    if size in row.thumbs && row.thumbs[size] != "" then Some(row.thumbs[size]) else None
  }

  function SelectKey(row: Row, size: string): string {
    if size != SIZE_ORIGINAL && ThumbnailKey(row, size).Some? then ThumbnailKey(row, size).value else row.key
  }

  function FetchImage(lib: Libraries, bucket: map<string, Object>, row: Row, size: string, format: string)
    : Result<(Bytes, string)> {
    match NormalizeSize(lib, size)
    case Err(e) => Err(e)
    case Ok(size) =>
      match NormalizeFormat(lib, format)
      case Err(e) => Err(e)
      case Ok(format) =>
        var key := SelectKey(row, size);
        if key !in bucket then Err(Foreign("get object"))
        else
          var obj := bucket[key];
          var current := FormatFromMime(obj.mime);
          var current := if current == "" then FormatFromMime(row.mime) else current;
          if format != "" && format != current then Convert(lib, obj.data, format)
          else Ok((obj.data, if obj.mime == "" then row.mime else obj.mime))
  }

  /** Whatever size is asked for, the key that is served for a live row is in the bucket, with the row's type. */
  lemma SelectedKeyIsStored(lib: Libraries, s: State, id: AvatarId, size: string)
    requires Lawful(lib) && Reachable(lib, s) && id in s.rows && s.rows[id].Live()
    ensures SelectKey(s.rows[id], size) in s.bucket && s.bucket[SelectKey(s.rows[id], size)].mime == s.rows[id].mime
  {
    hide Lawful, Reachable, Inspect, OriginalObjectKey;
    StorageGuarantee(lib, s, id);
  }

  /** A size or format that is not known is refused, the size first, before anything is read. */
  lemma RefusedQueries(lib: Libraries, bucket: map<string, Object>, row: Row, size: string, format: string)
    requires Lawful(lib)
    ensures var sized := TrimSpace(ToLower(lib, size)); var core := TrimSpace(ToLower(lib, format));
      var answer := FetchImage(lib, bucket, row, size, format);
      && (sized !in {"", "original", "100x100", "300x300"} ==> answer == Err(Known(ErrInvalidSizeParam)))
      && (sized in {"", "original", "100x100", "300x300"} && core !in {"", "jpg", "jpeg", "png", "webp"} ==>
            answer == Err(Known(ErrInvalidFormatParam)))
  {
    SizeNormalForm(lib, size);
    FormatNormalForm(lib, format);
    hide NormalizeSize, NormalizeFormat, TrimSpace, ToLower, Lawful;
  }

  /** The type that an object counts as: its own if that is known, and else the row's. */
  function TypeOf(obj: Object, row: Row): string {
    if obj.mime in {"image/jpeg", "image/png", "image/webp"} then obj.mime else row.mime
  }

  /** Whatever is in the bucket, in no particular state: without the selected object there is only an error of the
      store; otherwise its bytes are the answer if no other format than its type is asked for, under its own type or, if
      it has none, the row's, and else there is an answer exactly if it converts. */
  lemma FetchIs(lib: Libraries, bucket: map<string, Object>, row: Row, size: string, format: string)
    requires Lawful(lib) && row.mime in MIMES && NormalizeSize(lib, size).Ok? && NormalizeFormat(lib, format).Ok?
    ensures var key := SelectKey(row, NormalizeSize(lib, size).value);
      var core := TrimSpace(ToLower(lib, format));
      var wanted := "image/" + if core == "jpg" then "jpeg" else core;
      var answer := FetchImage(lib, bucket, row, size, format);
      && (key !in bucket ==> answer.Err? && answer.error.Foreign?)
      && (key in bucket ==>
            var obj := bucket[key];
            if core == "" || wanted == TypeOf(obj, row) then
              answer == Ok((obj.data, if obj.mime == "" then row.mime else obj.mime))
            else
              && (answer.Ok? <==> Readable(lib, obj.data) && EncodingOf(lib, lib.decode(obj.data).value, wanted).Some?)
              && (answer.Ok? ==> answer.value == (EncodingOf(lib, lib.decode(obj.data).value, wanted).value, wanted)))
  {
    hide Lawful, NormalizeSize, NormalizeFormat, SelectKey, Convert, TrimSpace, ToLower, Readable, EncodingOf;
    FormatNormalForm(lib, format);
    var key := SelectKey(row, NormalizeSize(lib, size).value);
    var wanted := NormalizeFormat(lib, format).value;
    assert "image/" + "jpeg" == MIME_JPEG && "image/" + "png" == MIME_PNG && "image/" + "webp" == MIME_WEBP;
    if key in bucket && wanted != "" {
      ConvertIs(lib, bucket[key].data, wanted);
    }
  }

  /** What the service selects: the thumbnail of that size once the row lists it, and otherwise the original. */
  lemma SelectedKeyIs(lib: Libraries, s: State, id: AvatarId, size: string)
    requires Lawful(lib) && Reachable(lib, s) && id in s.rows && s.rows[id].Live() && NormalizeSize(lib, size).Ok?
    ensures var row := s.rows[id]; var sized := TrimSpace(ToLower(lib, size));
      SelectKey(row, NormalizeSize(lib, size).value) == if sized in row.thumbs then row.thumbs[sized] else row.key
  {
    hide Lawful, Reachable, Inv, NormalizeSize, TrimSpace, ToLower;
    SizeNormalForm(lib, size);
    ListedThumbnails(lib, s, id, NormalizeSize(lib, size).value);
    ListedThumbnails(lib, s, id, "");
    ListedThumbnails(lib, s, id, "original");
  }

  /** Every accepted query on a live row reads the thumbnail of the size asked for, once the row lists it, and otherwise
      the original. As it is, with the row's type, it is the answer if no other format is asked for. Otherwise there is
      an answer exactly if these bytes can be decoded and the encoder of that format takes the picture, and then it is
      that encoder's output under that type. */
  lemma ServesLiveRow(lib: Libraries, s: State, id: AvatarId, size: string, format: string)
    requires Lawful(lib) && Reachable(lib, s) && id in s.rows && s.rows[id].Live()
    requires NormalizeSize(lib, size).Ok? && NormalizeFormat(lib, format).Ok?
    ensures var row := s.rows[id]; var sized := TrimSpace(ToLower(lib, size));
      var key := if sized in row.thumbs then row.thumbs[sized] else row.key;
      key in s.bucket && s.bucket[key].mime == row.mime
    ensures var row := s.rows[id]; var sized := TrimSpace(ToLower(lib, size));
      var data := s.bucket[if sized in row.thumbs then row.thumbs[sized] else row.key].data;
      var core := TrimSpace(ToLower(lib, format));
      var wanted := "image/" + if core == "jpg" then "jpeg" else core;
      var answer := FetchImage(lib, s.bucket, row, size, format);
      if core == "" || wanted == row.mime then answer == Ok((data, row.mime))
      else
        && (answer.Ok? <==> Readable(lib, data) && EncodingOf(lib, lib.decode(data).value, wanted).Some?)
        && (answer.Ok? ==> answer.value == (EncodingOf(lib, lib.decode(data).value, wanted).value, wanted))
  {
    hide Reachable, Inv, Lawful, NormalizeSize, NormalizeFormat, SelectKey, FetchImage, TrimSpace, ToLower, Readable,
      EncodingOf;
    SelectedKeyIs(lib, s, id, size);
    SelectedKeyIsStored(lib, s, id, NormalizeSize(lib, size).value);
    ReachableHasInv(lib, s);
    MimeHolds(lib, s, id);
    FetchIs(lib, s.bucket, s.rows[id], size, format);
  }

  /** Asked for a size as it is, the service answers with the stored original, decoded, filled into a square of that
      size and encoded in the row's type, once the row lists that thumbnail; until then, and for the original size,
      with the original itself. */
  lemma ServesTheRightImage(lib: Libraries, s: State, id: AvatarId, size: string)
    requires Lawful(lib) && Reachable(lib, s) && id in s.rows && s.rows[id].Live()
    requires size in {"original", "100x100", "300x300"}
    ensures var row := s.rows[id];
      var answer := FetchImage(lib, s.bucket, row, size, "");
      && row.key in s.bucket && answer.Ok? && answer.value.1 == row.mime
      && var original := s.bucket[row.key].data; var n := if size == "100x100" then 100 else 300;
         if size in row.thumbs then
           && size != "original" && lib.decode(original).Some?
           && EncodingOf(lib, lib.fill(lib.decode(original).value, n, n), row.mime) == Some(answer.value.0)
         else answer.value.0 == original
  {
    hide Lawful, Reachable, Inv, NormalizeSize, NormalizeFormat, Convert, OriginalObjectKey, Inspect, EncodingOf,
      Readable, ToLower, TrimSpace, Signed, FetchImage, ExtForMime, ALLOWED_FORMATS;
    SizeNormalForm(lib, size);
    FormatNormalForm(lib, "");
    WordStays(lib, size);
    EmptyStays(lib);
    StorageGuarantee(lib, s, id);
    ServesLiveRow(lib, s, id, size, "");
    if size in s.rows[id].thumbs {
      ThumbnailsAreOfTheOriginal(lib, s, id, size);
    }
  }

  lemma ListedThumbnails(lib: Libraries, s: State, id: AvatarId, size: string)
    requires Lawful(lib) && Reachable(lib, s) && id in s.rows && s.rows[id].Live()
    ensures size in s.rows[id].thumbs ==> size in {"100x100", "300x300"} && s.rows[id].thumbs[size] != ""
  {
    hide Lawful, Reachable, Inv, ExtForMime;
    ReachableHasInv(lib, s);
    ThumbsAreCanonical(lib, s, id);
  }
}

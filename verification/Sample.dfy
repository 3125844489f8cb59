/** One concrete choice of the libraries, to show that what is assumed of them can be met, and to run examples on. */
module Sample {
  import opened Text
  import opened Errors
  import opened Domain
  import opened Images
  import opened Protocol

  /** A prefix code for strings, in the place of JSON. */
  function Code(s: string): string {
    if s == "" then "0" else "1" + [s[0]] + Code(s[1..])
  }

  function Read(code: string): Option<(string, string)>
    decreases |code|
  {
    if code == "" then None
    else if code[0] == '0' then Some(("", code[1..]))
    else if |code| < 2 then None
    else match Read(code[2..])
      case None => None
      case Some((s, rest)) => Some(([code[1]] + s, rest))
  }

  lemma {:induction false} CodeReads(s: string, rest: string)
    ensures Read(Code(s) + rest) == Some((s, rest))
    decreases |s|
  {
    var code := Code(s) + rest;
    if s == "" {
      assert code[1..] == rest;
    } else {
      CodeReads(s[1..], rest);
      assert code[2..] == Code(s[1..]) + rest;
      assert [s[0]] + s[1..] == s;
    }
  }

  function CodeAll(keys: seq<string>): string {
    if keys == [] then "0" else "1" + Code(keys[0]) + CodeAll(keys[1..])
  }

  lemma {:induction false} CodeGrows(code: string)
    ensures Read(code).Some? ==> |Read(code).value.1| < |code|
    decreases |code|
  {
    if |code| >= 2 && code[0] != '0' {
      CodeGrows(code[2..]);
    }
  }

  function ReadAll(code: string): Option<seq<string>>
    decreases |code|
  {
    if code == "" then None
    else if code[0] == '0' then Some([])
    else
      CodeGrows(code[1..]);
      match Read(code[1..])
      case None => None
      case Some((key, rest)) =>
        match ReadAll(rest)
        case None => None
        case Some(keys) => Some([key] + keys)
  }

  lemma {:induction false} CodeAllReads(keys: seq<string>)
    ensures ReadAll(CodeAll(keys)) == Some(keys)
  {
    if keys != [] {
      CodeAllReads(keys[1..]);
      CodeReads(keys[0], CodeAll(keys[1..]));
      var code := CodeAll(keys);
      assert code[1..] == Code(keys[0]) + CodeAll(keys[1..]);
      assert [keys[0]] + keys[1..] == keys;
    }
  }

  function WriteUpload(ev: UploadEvent): Json {
    CodeAll([ev.eventId, ev.avatarId, ev.user, ev.key])
  }

  function ReadUpload(json: Json): Option<UploadEvent> {
    match ReadAll(json)
    case None => None
    case Some(fields) => if |fields| == 4 then Some(UploadEvent(fields[0], fields[1], fields[2], fields[3])) else None
  }

  function WriteDelete(ev: DeleteEvent): Json {
    CodeAll([ev.eventId, ev.avatarId] + ev.keys)
  }

  function ReadDelete(json: Json): Option<DeleteEvent> {
    match ReadAll(json)
    case None => None
    case Some(fields) => if |fields| >= 2 then Some(DeleteEvent(fields[0], fields[1], fields[2..])) else None
  }

  function ParseUuid(s: string): Option<AvatarId> {
    if IsUuid(s) then Some(s) else None
  }

  /** Every image is one pixel; what is longer than a bare header can be drawn and encoded. */
  const LIBRARY := Libraries(
    (data: Bytes) => Some((1, 1)),
    (data: Bytes) => if |data| <= |HEADER| then None else Some(Picture(1, 1, [])),
    (img: Picture, w: int, h: int) => Picture(w, h, []),
    (img: Picture) => Some([]),
    (img: Picture) => Some([]),
    (img: Picture) => Some([]),
    (s: string) => ParseUuid(s),
    (ch: char) => AsciiLower(ch),
    (ch: char) => AsciiLower(ch),
    (ev: UploadEvent) => WriteUpload(ev),
    (json: Json) => ReadUpload(json),
    (ev: DeleteEvent) => WriteDelete(ev),
    (json: Json) => ReadDelete(json))

  lemma LibraryIsLawful()
    ensures Lawful(LIBRARY)
  {
    hide AsciiLower;
    forall ev: UploadEvent
      ensures LIBRARY.readUpload(LIBRARY.writeUpload(ev)) == Some(ev)
    {
      CodeAllReads([ev.eventId, ev.avatarId, ev.user, ev.key]);
    }
    forall ev: DeleteEvent
      ensures LIBRARY.readDelete(LIBRARY.writeDelete(ev)) == Some(ev)
    {
      CodeAllReads([ev.eventId, ev.avatarId] + ev.keys);
      assert ([ev.eventId, ev.avatarId] + ev.keys)[2..] == ev.keys;
    }
  }

  /** A JPEG cut off after its header: it is accepted, and can never be drawn. */
  const HEADER: Bytes := [0xFF, 0xD8, 0xFF, 0, 0, 0, 0, 0, 0, 0, 0, 0]

  const JPEG: Bytes := HEADER + [0]

  lemma JpegCanBeDrawn()
    ensures Inspect(LIBRARY, JPEG) == Ok(Info(MIME_JPEG, ".jpg", 1, 1))
    ensures Thumbnail(LIBRARY, JPEG, SIZE_100, MIME_JPEG).Ok? && Thumbnail(LIBRARY, JPEG, SIZE_300, MIME_JPEG).Ok?
  {
    LibraryIsLawful();
    hide Lawful, TrimSpace, ToLower;
    PlainWord(LIBRARY, "jpeg");
  }

  lemma HeaderCannotBeDrawn()
    ensures Inspect(LIBRARY, HEADER) == Ok(Info(MIME_JPEG, ".jpg", 1, 1))
    ensures Thumbnail(LIBRARY, HEADER, SIZE_100, MIME_JPEG).Err?
  {
    hide TrimSpace, ToLower;
  }

  /** The avatar ids of the examples. */
  function Numbered(i: nat): (id: AvatarId)
    requires i < 100
    ensures |id| == 36 && id[34] == DIGITS[i / 10] && id[35] == DIGITS[i % 10]
  {
    var id := "00000000-0000-0000-0000-0000000000" + [DIGITS[i / 10], DIGITS[i % 10]];
    assert forall k: nat :: k < 34 && k !in HYPHENS ==> id[k] == '0';
    assert id[8] == id[13] == id[18] == id[23] == '-';
    id
  }

  const DIGITS := "0123456789"

  lemma NumbersDiffer(i: nat, j: nat)
    requires i < 100 && j < 100 && Numbered(i) == Numbered(j)
    ensures i == j
  {
    assert forall a, b :: 0 <= a < 10 && 0 <= b < 10 && DIGITS[a] == DIGITS[b] ==> a == b;
  }
}

/** Object keys, event identities and limits of internal/domain/avatar.go and internal/domain/events.go. */
module Domain {
  import opened Text

  const SIZE_ORIGINAL := "original"
  const SIZE_100 := "100x100"
  const SIZE_300 := "300x300"
  const OUTBOX_UPLOAD := "upload"
  const OUTBOX_DELETE := "delete"
  const EXTENSIONS := {".jpg", ".png", ".webp"}

  const HYPHENS: set<nat> := {8, 13, 18, 23}

  /** The printed form of a UUID: 32 lower-case hexadecimal digits in groups of 8, 4, 4, 4 and 12. */
  predicate IsUuid(s: string) {
    |s| == 36 && forall i: nat :: i < 36 ==> if i in HYPHENS then s[i] == '-' else IsHex(s[i])
  }

  predicate IsHex(ch: char) {
    '0' <= ch <= '9' || 'a' <= ch <= 'f'
  }

  type AvatarId = s: string | IsUuid(s) witness "00000000-0000-0000-0000-000000000000"

  function OriginalObjectKey(user: string, id: string, ext: string): string {
    "originals/" + user + "/" + id + ext
  }

  function ThumbnailObjectKey(id: string, size: string, ext: string): string {
    "thumbnails/" + id + "/" + size + ext
  }

  function UploadEventId(id: string): string { "upload:" + id }

  function DeleteEventId(id: string): string { "delete:" + id }

  datatype UploadEvent = UploadEvent(eventId: string, avatarId: string, user: string, key: string)
  datatype DeleteEvent = DeleteEvent(eventId: string, avatarId: string, keys: seq<string>)

  /** What an object key says about the object: the reading that inverts the two naming functions. */
  datatype Place =
    | Original(user: string, id: string, ext: string)
    | Thumb(id: string, size: string, ext: string)
  {
    function Key(): string {
      match this
      case Original(user, id, ext) => OriginalObjectKey(user, id, ext)
      case Thumb(id, size, ext) => ThumbnailObjectKey(id, size, ext)
    }

    predicate Proper() {
      |id| == 36 && ext in EXTENSIONS
    }
  }

  function Extension(key: string): string {
    if HasSuffix(key, ".jpg") then ".jpg"
    else if HasSuffix(key, ".png") then ".png"
    else if HasSuffix(key, ".webp") then ".webp"
    else ""
  }

  /** Reads a key back. The user id of an original is everything between the prefix and the last 37 characters, so
      slashes, dots and spaces inside it do not matter. */
  function Locate(key: string): Option<Place> {
    var ext := Extension(key);
    var stop := |key| - |ext|;
    if ext == "" then None
    else if "originals/" <= key then
      if stop < 47 || key[stop - 37] != '/' then None
      else Some(Original(key[10..stop - 37], key[stop - 36..stop], ext))
    else if "thumbnails/" <= key then
      if stop < 48 || key[47] != '/' then None
      else Some(Thumb(key[11..47], key[48..stop], ext))
    else None
  }

  lemma SuffixOfConcat(s: string, t: string)
    ensures HasSuffix(s + t, t)
    ensures (s + t)[..|s|] == s
  {
  }

  lemma SuffixEnds(s: string, t: string)
    requires HasSuffix(s, t) && |t| >= 2
    ensures s[|s| - 1] == t[|t| - 1] && s[|s| - 2] == t[|t| - 2]
  {
    assert s[|s| - |t|..][|t| - 1] == s[|s| - 1] && s[|s| - |t|..][|t| - 2] == s[|s| - 2];
  }

  /** At most one of the extensions is a suffix. */
  lemma OneExtension(k: string, x: string, y: string)
    requires x in EXTENSIONS && y in EXTENSIONS && HasSuffix(k, x) && HasSuffix(k, y)
    ensures x == y
  {
    hide HasSuffix;
    SuffixEnds(k, x);
    SuffixEnds(k, y);
  }

  lemma ExtensionOfConcat(s: string, ext: string)
    requires ext in EXTENSIONS
    ensures Extension(s + ext) == ext
  {
    SuffixOfConcat(s, ext);
    ExtensionFits(s + ext);
    hide HasSuffix;
    if Extension(s + ext) != "" {
      OneExtension(s + ext, ext, Extension(s + ext));
    }
  }

  lemma ExtensionFits(key: string)
    ensures Extension(key) != "" ==> Extension(key) in EXTENSIONS && HasSuffix(key, Extension(key))
  {
    hide HasSuffix;
  }

  lemma OriginalReadsBack(user: string, id: string, ext: string)
    requires |id| == 36 && ext in EXTENSIONS
    ensures Locate(OriginalObjectKey(user, id, ext)) == Some(Original(user, id, ext))
  {
    hide Extension;
    var key := OriginalObjectKey(user, id, ext);
    Slices("originals/", user, "/", id, ext);
    ExtensionOfConcat("originals/" + user + "/" + id, ext);
    var stop := |key| - |ext|;
    assert key[stop - 37..stop - 36] == "/" && key[stop - 37] == key[stop - 37..stop - 36][0];
  }

  lemma ThumbReadsBack(id: string, size: string, ext: string)
    requires |id| == 36 && ext in EXTENSIONS
    ensures Locate(ThumbnailObjectKey(id, size, ext)) == Some(Thumb(id, size, ext))
  {
    hide Extension;
    var key := ThumbnailObjectKey(id, size, ext);
    Slices("thumbnails/", id, "/", size, ext);
    ExtensionOfConcat("thumbnails/" + id + "/" + size, ext);
    assert key[47..48] == "/" && key[47] == key[47..48][0];
    assert key[0] == key[..11][0] == 't';
  }

  /** Every key the service builds reads back to exactly the user, avatar, size and extension it was built from. */
  lemma KeyReadsBack(p: Place)
    requires p.Proper()
    ensures Locate(p.Key()) == Some(p)
  {
    hide Locate, OriginalObjectKey, ThumbnailObjectKey;
    match p
    case Original(user, id, ext) => OriginalReadsBack(user, id, ext);
    case Thumb(id, size, ext) => ThumbReadsBack(id, size, ext);
  }

  lemma Rejoin(key: string, a: nat, b: nat, stop: nat)
    requires a <= b < stop <= |key|
    ensures key == key[..a] + key[a..b] + [key[b]] + key[b + 1..stop] + key[stop..]
  {
  }

  /** Conversely a key that can be read is the key of what was read, so naming is a bijection onto readable keys. */
  lemma LocatedKeyIsBuilt(key: string)
    requires Locate(key).Some?
    ensures Locate(key).value.Proper() && Locate(key).value.Key() == key
  {
    ExtensionFits(key);
    hide Extension;
    var p := Locate(key).value;
    var ext := Extension(key);
    var stop := |key| - |ext|;
    assert key[stop..] == ext;
    if p.Original? {
      Rejoin(key, 10, stop - 37, stop);
      assert key[..10] == "originals/" && [key[stop - 37]] == "/";
    } else {
      Rejoin(key, 11, 47, stop);
      assert key[..11] == "thumbnails/" && [key[47]] == "/";
    }
  }

  /** Keys of different avatars differ, for every user id; so do an original and a thumbnail. */
  lemma KeysAreDisjoint(p: Place, q: Place)
    requires p.Proper() && q.Proper() && p.Key() == q.Key()
    ensures p == q
  {
    KeyReadsBack(p);
    KeyReadsBack(q);
  }

  /** Built keys are fixed points of the trimming in S3.Delete, whatever white space the user id holds. */
  lemma KeyIsTrimmed(p: Place)
    requires p.Proper()
    ensures TrimSpace(p.Key()) == p.Key() != ""
  {
    var key := p.Key();
    hide TrimSpace, IsSpace;
    assert key[|key| - 1] == p.ext[|p.ext| - 1] && p.ext[|p.ext| - 1] in "gp";
    assert key[0] == 'o' || key[0] == 't';
    LettersAreNoSpace(key[0]);
    LettersAreNoSpace(key[|key| - 1]);
    NothingToTrim(key);
  }

  /** The avatar an event id names. */
  function IdOfEvent(eventId: string): string {
    if |eventId| < 7 then "" else eventId[7..]
  }

  lemma EventIdsReadBack(a: string, b: string)
    ensures IdOfEvent(UploadEventId(a)) == a && IdOfEvent(DeleteEventId(a)) == a
    ensures UploadEventId(a) != DeleteEventId(b)
  {
    assert UploadEventId(a)[0] == 'u' && DeleteEventId(b)[0] == 'd';
  }
}

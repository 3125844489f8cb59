/** User ids, sizes and formats: what internal/domain/validate.go accepts. */
module Validate {
  import opened Text
  import opened Errors
  import opened Domain
  import opened Images

  const ALLOWED_SIZES := {SIZE_ORIGINAL, SIZE_100, SIZE_300}
  const ALLOWED_FORMATS := map["jpeg" := MIME_JPEG, "jpg" := MIME_JPEG, "png" := MIME_PNG, "webp" := MIME_WEBP]
  const FORMATS := {"jpeg", "png", "webp"}
  const MAX_USER_ID := 255

  // ---------------------------------------------------------------- user ids

  /** The length of Go's `len`, which counts the bytes of UTF-8. */
  function Utf8Length(s: string): nat {
    if s == "" then 0
    else
      (if s[0] < '\U{0080}' then 1 else if s[0] < '\U{0800}' then 2 else if s[0] < '\U{10000}' then 3 else 4)
      + Utf8Length(s[1..])
  }

  /** `unicode.IsControl`. */
  predicate IsControl(ch: char) {
    ch < ' ' || '\U{007F}' <= ch <= '\U{009F}'
  }

  function ValidateUserId(user: string): Option<Error> {
    var id := TrimSpace(user);
    if id == "" || Utf8Length(id) > MAX_USER_ID then Some(Known(ErrInvalidUserID))
    else if exists i | 0 <= i < |id| :: IsControl(id[i]) then Some(Known(ErrInvalidUserID))
    else None
  }

  /** Every character counts one to four bytes, ASCII one. */
  lemma {:induction false} Utf8LengthIs(s: string)
    ensures |s| <= Utf8Length(s) <= 4 * |s|
    ensures (forall i :: 0 <= i < |s| ==> s[i] < '\U{0080}') <==> Utf8Length(s) == |s|
  {
    if s != "" {
      Utf8LengthIs(s[1..]);
      assert s == [s[0]] + s[1..];
    }
  }

  lemma {:induction false} Utf8LengthAdds(s: string, t: string)
    ensures Utf8Length(s + t) == Utf8Length(s) + Utf8Length(t)
  {
    if s == "" {
      assert s + t == t;
    } else {
      Utf8LengthAdds(s[1..], t);
      assert (s + t)[1..] == s[1..] + t;
    }
  }

  /** A user id is accepted exactly if, trimmed, it has 1 to 255 bytes and no control character. */
  lemma UserIdAcceptedIff(user: string)
    ensures ValidateUserId(user).None? <==>
      && TrimSpace(user) != "" && Utf8Length(TrimSpace(user)) <= 255
      && forall i :: 0 <= i < |TrimSpace(user)| ==>
           '\U{0020}' <= TrimSpace(user)[i] <= '\U{007E}' || '\U{00A0}' <= TrimSpace(user)[i]
    ensures ValidateUserId(user).Some? ==> ValidateUserId(user) == Some(Known(ErrInvalidUserID))
  {
    hide TrimSpace, Utf8Length;
  }

  /** Lengths around the limit: it is bytes that count, not characters. */
  lemma UserIdLength(ch: char, n: nat)
    requires ch == 'a' || ch == '\U{00E9}' || ch == '\U{20AC}' || ch == '\U{1F600}'
    requires n > 0
    ensures var width := if ch == 'a' then 1 else if ch == '\U{00E9}' then 2 else if ch == '\U{20AC}' then 3 else 4;
      ValidateUserId(seq(n, _ => ch)).None? <==> n * width <= 255
  {
    var user := seq(n, _ => ch);
    NothingToTrim(user);
    Repeated(ch, n);
    UserIdAcceptedIff(user);
    assert user[0] == ch;
    hide ValidateUserId, Utf8Length, TrimSpace;
  }

  lemma {:induction false} Repeated(ch: char, n: nat)
    ensures Utf8Length(seq(n, _ => ch)) == n * Utf8Length([ch])
  {
    if n > 0 {
      Repeated(ch, n - 1);
      assert seq(n, _ => ch)[1..] == seq(n - 1, _ => ch);
      assert [ch][1..] == "";
    }
  }

  lemma {:induction false} TrimRightEnds(s: string)
    ensures var r := TrimRight(s); r <= s && (r != "" ==> !IsSpace(r[|r| - 1]))
  {
    if s != "" && IsSpace(s[|s| - 1]) {
      TrimRightEnds(s[..|s| - 1]);
    }
  }

  lemma {:induction false} TrimLeftStarts(s: string)
    ensures TrimLeft(s) != "" ==> !IsSpace(TrimLeft(s)[0])
  {
    if s != "" && IsSpace(s[0]) {
      TrimLeftStarts(s[1..]);
    }
  }

  /** Only the trimmed user id counts: white space around it never decides, and trimming twice changes nothing. */
  lemma MarginsDoNotCount(user: string)
    ensures TrimSpace(TrimSpace(user)) == TrimSpace(user)
    ensures ValidateUserId(TrimSpace(user)) == ValidateUserId(user)
  {
    var t := TrimSpace(user);
    TrimLeftStarts(user);
    TrimRightEnds(TrimLeft(user));
    if t != "" {
      assert t[0] == TrimLeft(user)[0];
      NothingToTrim(t);
    }
  }

  // ---------------------------------------------------------------- sizes and formats

  function NormalizeSize(lib: Libraries, size: string): (r: Result<string>)
    ensures r.Ok? ==> r.value in ALLOWED_SIZES
  {
    var s := TrimSpace(ToLower(lib, size));
    if s == "" then Ok(SIZE_ORIGINAL)
    else if s !in ALLOWED_SIZES then Err(Known(ErrInvalidSizeParam))
    else Ok(s)
  }

  function NormalizeFormat(lib: Libraries, format: string): (r: Result<string>)
    ensures r.Ok? && r.value != "" ==> r.value in FORMATS
  {
    var f := TrimSpace(ToLower(lib, format));
    if f == "" then Ok("")
    else
      var f := if f == "jpg" then "jpeg" else f;
      if f !in ALLOWED_FORMATS then Err(Known(ErrInvalidFormatParam)) else Ok(f)
  }

  lemma WordStays(lib: Libraries, w: string)
    requires Lawful(lib) && w != "" && forall i :: 0 <= i < |w| ==> 'a' <= w[i] <= 'z' || '0' <= w[i] <= '9'
    ensures TrimSpace(ToLower(lib, w)) == w
  {
    hide TrimSpace, IsSpace, Lawful, ToLower;
    SmallLetters(lib, w);
    LettersAreNoSpace(w[0]);
    LettersAreNoSpace(w[|w| - 1]);
    NothingToTrim(w);
  }

  lemma EmptyStays(lib: Libraries)
    ensures TrimSpace(ToLower(lib, "")) == ""
  {
    assert ToLower(lib, "") == "";
  }

  /** A size is accepted exactly if, lower-cased and trimmed, it is one of the three or empty, which means the original;
      the three are their own normal forms, and normalising twice is normalising once. */
  lemma SizeNormalForm(lib: Libraries, size: string)
    requires Lawful(lib)
    ensures var core := TrimSpace(ToLower(lib, size)); var r := NormalizeSize(lib, size);
      && (r.Ok? <==> core in {"", "original", "100x100", "300x300"})
      && (r.Err? ==> r.error == Known(ErrInvalidSizeParam))
      && (r.Ok? ==> r.value == if core == "" then "original" else core)
      && (r.Ok? ==> NormalizeSize(lib, r.value) == r)
    ensures size in ALLOWED_SIZES ==> NormalizeSize(lib, size) == Ok(size)
  {
    hide TrimSpace, ToLower, Lawful;
    WordStays(lib, SIZE_ORIGINAL);
    WordStays(lib, SIZE_100);
    WordStays(lib, SIZE_300);
  }

  /** A format is accepted exactly if, lower-cased and trimmed, it is empty, which asks for none, one of the three or
      `jpg`, another name of the first; normalising twice is normalising once. */
  lemma FormatNormalForm(lib: Libraries, format: string)
    requires Lawful(lib)
    ensures var core := TrimSpace(ToLower(lib, format)); var r := NormalizeFormat(lib, format);
      && (r.Ok? <==> core in {"", "jpg", "jpeg", "png", "webp"})
      && (r.Err? ==> r.error == Known(ErrInvalidFormatParam))
      && (r.Ok? ==> r.value == if core == "jpg" then "jpeg" else core)
      && (r.Ok? ==> NormalizeFormat(lib, r.value) == r)
    ensures format in FORMATS + {""} ==> NormalizeFormat(lib, format) == Ok(format)
  {
    hide TrimSpace, ToLower, Lawful;
    EmptyStays(lib);
    WordStays(lib, "jpeg");
    WordStays(lib, "png");
    WordStays(lib, "webp");
  }
}

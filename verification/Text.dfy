/** White-space trimming as Go's `strings.TrimSpace` does it, and a few facts about prefixes and suffixes. */
module Text {

  datatype Option<+T> = None | Some(value: T)

  /** Go's `unicode.IsSpace`. */
  predicate IsSpace(ch: char) {
    ch in "\t\n\r \U{000B}\U{000C}\U{0085}\U{00A0}\U{1680}\U{2028}\U{2029}\U{202F}\U{205F}\U{3000}"
    || '\U{2000}' <= ch <= '\U{200A}'
  }

  /** These are Unicode's white-space characters, by code point. */
  lemma SpacesAre(ch: char)
    ensures var c := ch as int;
      IsSpace(ch) <==>
        || 9 <= c <= 13 || c == 32 || c == 0x85 || c == 0xA0 || c == 0x1680 || 0x2000 <= c <= 0x200A
        || c == 0x2028 || c == 0x2029 || c == 0x202F || c == 0x205F || c == 0x3000
  {
  }

  function TrimLeft(s: string): string {
    if s != "" && IsSpace(s[0]) then TrimLeft(s[1..]) else s
  }

  function TrimRight(s: string): string {
    if s != "" && IsSpace(s[|s| - 1]) then TrimRight(s[..|s| - 1]) else s
  }

  function TrimSpace(s: string): string {
    TrimRight(TrimLeft(s))
  }

  predicate HasSuffix(s: string, t: string) {
    |t| <= |s| && s[|s| - |t|..] == t
  }

  ghost predicate AllSpace(s: string) {
    forall i :: 0 <= i < |s| ==> IsSpace(s[i])
  }

  /** Trimming cuts white space off both ends, and as much of it as there is. */
  lemma TrimSpaceIs(s: string)
    ensures exists left: string, right: string :: s == left + TrimSpace(s) + right && AllSpace(left) && AllSpace(right)
    ensures var t := TrimSpace(s); t != "" ==> !IsSpace(t[0]) && !IsSpace(t[|t| - 1])
  {
    hide IsSpace;
    var left := TrimLeftIs(s);
    var right := TrimRightIs(TrimLeft(s));
    assert s == left + TrimSpace(s) + right;
    var t := TrimSpace(s);
    if t != "" {
      assert t[0] == TrimLeft(s)[0];
    }
  }

  lemma {:induction false} TrimLeftIs(s: string) returns (left: string)
    ensures s == left + TrimLeft(s) && AllSpace(left)
    ensures TrimLeft(s) != "" ==> !IsSpace(TrimLeft(s)[0])
  {
    if s != "" && IsSpace(s[0]) {
      var rest := TrimLeftIs(s[1..]);
      left := [s[0]] + rest;
      assert s == left + TrimLeft(s);
    } else {
      left := "";
    }
  }

  lemma {:induction false} TrimRightIs(s: string) returns (right: string)
    ensures s == TrimRight(s) + right && AllSpace(right)
    ensures TrimRight(s) != "" ==> !IsSpace(TrimRight(s)[|TrimRight(s)| - 1])
  {
    hide IsSpace;
    if s != "" && IsSpace(s[|s| - 1]) {
      var front, last := s[..|s| - 1], s[|s| - 1];
      var rest := TrimRightIs(front);
      right := rest + [last];
      assert s == front + [last];
      assert TrimRight(s) == TrimRight(front);
      hide TrimRight;
      assert (TrimRight(front) + rest) + [last] == TrimRight(front) + (rest + [last]);
    } else {
      right := "";
    }
  }

  /** A suffix is what something can be put before. */
  lemma SuffixIff(s: string, t: string)
    ensures HasSuffix(s, t) <==> exists front: string :: s == front + t
  {
    if HasSuffix(s, t) {
      assert s == s[..|s| - |t|] + t;
    }
  }

  lemma NothingToTrim(s: string)
    requires s != "" && !IsSpace(s[0]) && !IsSpace(s[|s| - 1])
    ensures TrimSpace(s) == s
  {
  }

  lemma LettersAreNoSpace(ch: char)
    requires 'a' <= ch <= 'z' || '0' <= ch <= '9'
    ensures !IsSpace(ch)
  {
  }

  /** The parts of a concatenation can be cut out again. */
  lemma Slices(a: string, b: string, c: string, d: string, e: string)
    ensures var s := a + b + c + d + e; var i := |a|; var j := i + |b|; var k := j + |c|; var l := k + |d|;
      |s| == l + |e| && s[..i] == a && s[i..j] == b && s[j..k] == c && s[k..l] == d && s[l..] == e
  {
  }
}

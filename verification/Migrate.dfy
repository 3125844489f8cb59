/** Schema migrations of internal/migrate/migrate.go: every embedded script at most once, together with
    its record, in order. */
module Migrate {
  import opened Text
  import opened Errors

  // ---------------------------------------------------------------- names

  /** Go's order on strings. */
  predicate Before(a: string, b: string) {
    if b == "" then false
    else if a == "" then true
    else a[0] < b[0] || (a[0] == b[0] && Before(a[1..], b[1..]))
  }

  predicate NotAfter(a: string, b: string) {
    !Before(b, a)
  }

  lemma {:induction false} BeforeIsTotal(a: string, b: string)
    ensures Before(a, b) || Before(b, a) || a == b
    ensures !(Before(a, b) && Before(b, a)) && !Before(a, a)
  {
    if a != "" && b != "" {
      if a[0] == b[0] {
        BeforeIsTotal(a[1..], b[1..]);
        assert a == [a[0]] + a[1..] && b == [b[0]] + b[1..];
      }
    }
    if a != "" {
      BeforeIsTotal(a[1..], a[1..]);
    }
  }

  lemma {:induction false} NotAfterIsTransitive(a: string, b: string, c: string)
    requires NotAfter(a, b) && NotAfter(b, c)
    ensures NotAfter(a, c)
  {
    if a != "" && b != "" && c != "" && a[0] == b[0] == c[0] {
      NotAfterIsTransitive(a[1..], b[1..], c[1..]);
    }
  }

  function Insert(name: string, names: seq<string>): seq<string> {
    if names == [] || NotAfter(name, names[0]) then [name] + names
    else [names[0]] + Insert(name, names[1..])
  }

  /** sort.Strings. */
  function Sort(names: seq<string>): seq<string> {
    if names == [] then [] else Insert(names[0], Sort(names[1..]))
  }

  ghost predicate Sorted(names: seq<string>) {
    forall i, j :: 0 <= i < j < |names| ==> NotAfter(names[i], names[j])
  }

  lemma {:induction false} InsertSorts(name: string, names: seq<string>)
    requires Sorted(names)
    ensures Sorted(Insert(name, names)) && multiset(Insert(name, names)) == multiset(names) + multiset{name}
  {
    if names == [] || NotAfter(name, names[0]) {
      forall j | 0 <= j < |names|
        ensures NotAfter(name, names[j])
      {
        if j > 0 {
          NotAfterIsTransitive(name, names[0], names[j]);
        }
      }
    } else {
      var rest := Insert(name, names[1..]);
      InsertSorts(name, names[1..]);
      BeforeIsTotal(name, names[0]);
      assert names == [names[0]] + names[1..];
      forall j | 0 <= j < |rest|
        ensures NotAfter(names[0], rest[j])
      {
        assert rest[j] in multiset(rest);
        assert rest[j] == name || rest[j] in names[1..];
      }
    }
  }

  /** What sort.Strings promises. */
  lemma {:induction false} SortSorts(names: seq<string>)
    ensures Sorted(Sort(names)) && multiset(Sort(names)) == multiset(names)
  {
    if names != [] {
      SortSorts(names[1..]);
      InsertSorts(names[0], Sort(names[1..]));
      assert names == [names[0]] + names[1..];
    }
  }

  // ---------------------------------------------------------------- versions

  predicate IsDigit(ch: char) { '0' <= ch <= '9' }

  predicate AllDigits(s: string) {
    forall i :: 0 <= i < |s| ==> IsDigit(s[i])
  }

  function Value(s: string): nat
    requires AllDigits(s)
  {
    if s == "" then 0 else 10 * Value(s[..|s| - 1]) + (s[|s| - 1] - '0') as nat
  }

  const MAX_INT: nat := 0x7FFF_FFFF_FFFF_FFFF

  /** strconv.Atoi: an optional sign, at least one digit, no overflow of a 64-bit integer. */
  function Atoi(s: string): Option<int> {
    if s != "" && (s[0] == '+' || s[0] == '-') then
      var digits := s[1..];
      if digits == "" || !AllDigits(digits) then None
      else if s[0] == '+' then (if Value(digits) <= MAX_INT then Some(Value(digits)) else None)
      else if Value(digits) <= MAX_INT + 1 then Some(0 - Value(digits)) else None
    else if s == "" || !AllDigits(s) || Value(s) > MAX_INT then None
    else Some(Value(s))
  }

  /** The part before the first underscore. */
  function UpToUnderscore(s: string): string {
    if s == "" || s[0] == '_' then "" else [s[0]] + UpToUnderscore(s[1..])
  }

  /** versionOf, for the base names that the embedded directory lists. */
  function VersionOf(name: string): Result<int> {
    var base := if HasSuffix(name, ".sql") then name[..|name| - 4] else name;
    match Atoi(UpToUnderscore(base))
    case None => Err(Foreign("invalid migration name"))
    case Some(v) => Ok(v)
  }

  /** A sign or none, and digits. */
  ghost predicate Numeral(s: string, sign: string, digits: string) {
    s == sign + digits && sign in {"", "+", "-"} && digits != "" && AllDigits(digits)
  }

  /** A text is a number exactly if it is a numeral whose value is that of a 64-bit integer, and then
      it is that value. */
  lemma AtoiIff(s: string)
    ensures Atoi(s).Some? <==> exists sign: string, digits: string ::
      Numeral(s, sign, digits) && Value(digits) <= 0x7FFF_FFFF_FFFF_FFFF + (if sign == "-" then 1 else 0)
    ensures forall sign: string, digits: string :: Numeral(s, sign, digits) && Atoi(s).Some? ==>
      Atoi(s).value == if sign == "-" then 0 - Value(digits) else Value(digits)
  {
    forall sign: string, digits: string | Numeral(s, sign, digits)
      ensures if sign == "" then digits == s && !(s[0] == '+' || s[0] == '-') else s[..1] == sign && s[1..] == digits
    {
      assert sign == "" ==> IsDigit(digits[0]);
    }
    if Atoi(s).Some? {
      if s[0] == '+' || s[0] == '-' {
        assert s[..1] == [s[0]] && s == s[..1] + s[1..];
        assert Numeral(s, s[..1], s[1..]);
      } else {
        assert Numeral(s, "", s);
      }
    }
    hide Value;
  }

  /** The version of a script is the number before the first underscore, or before the `.sql` if there is none. */
  lemma VersionIs(name: string, number: string, rest: string)
    requires name == number + rest + ".sql" && '_' !in number && (rest == "" || rest[0] == '_')
    ensures VersionOf(name).Ok? <==> Atoi(number).Some?
    ensures VersionOf(name).Ok? ==> Some(VersionOf(name).value) == Atoi(number)
  {
    var base := name[..|name| - 4];
    assert base == number + rest && HasSuffix(name, ".sql");
    UpToUnderscoreIs(number, rest);
    hide Atoi;
  }

  lemma {:induction false} UpToUnderscoreIs(number: string, rest: string)
    requires '_' !in number && (rest == "" || rest[0] == '_')
    ensures UpToUnderscore(number + rest) == number
  {
    if number == "" {
      assert number + rest == rest;
    } else {
      UpToUnderscoreIs(number[1..], rest);
      assert (number + rest)[1..] == number[1..] + rest;
    }
  }

  // ---------------------------------------------------------------- the name order is the numeric order

  /** A name with a numeric prefix of this width, as in `0001_init.sql`. */
  ghost predicate Numbered(name: string, width: nat) {
    && 0 < width < |name| - 4 && HasSuffix(name, ".sql") && name[width] == '_' && AllDigits(name[..width])
    && Value(name[..width]) <= MAX_INT
  }

  lemma {:induction false} PrefixIsCut(s: string, width: nat)
    requires width < |s| && s[width] == '_' && forall i :: 0 <= i < width ==> s[i] != '_'
    ensures UpToUnderscore(s) == s[..width]
    decreases width
  {
    if width > 0 {
      PrefixIsCut(s[1..], width - 1);
      assert [s[0]] + s[1..][..width - 1] == s[..width];
    }
  }

  lemma NumberedVersion(name: string, width: nat)
    requires Numbered(name, width)
    ensures VersionOf(name) == Ok(Value(name[..width]))
  {
    var base := name[..|name| - 4];
    assert base[..width] == name[..width];
    forall i | 0 <= i < width
      ensures base[i] != '_'
    {
      assert IsDigit(name[..width][i]);
    }
    PrefixIsCut(base, width);
    assert IsDigit(name[..width][0]);
  }

  function Power(n: nat): nat {
    if n == 0 then 1 else 10 * Power(n - 1)
  }

  /** The leading digit counts for its place. */
  lemma {:induction false} ValueFromFront(s: string)
    requires s != "" && AllDigits(s)
    ensures Value(s) == (s[0] - '0') as nat * Power(|s| - 1) + Value(s[1..])
    ensures Value(s[1..]) < Power(|s| - 1)
  {
    var n := |s|;
    if n == 1 {
      assert s[..0] == "" && s[1..] == "";
    } else {
      var front, rest := s[..n - 1], s[1..];
      ValueFromFront(front);
      assert front[1..] == rest[..n - 2] && rest[n - 2] == s[n - 1] && front[0] == s[0];
      MoveDigit((s[0] - '0') as nat, Power(n - 2), Value(front[1..]), (s[n - 1] - '0') as nat);
    }
  }

  lemma MoveDigit(d: nat, p: nat, v: nat, e: nat)
    ensures 10 * (d * p + v) + e == d * (10 * p) + (10 * v + e)
  {
  }

  /** Digit strings of one length are ordered as their values are. */
  lemma {:induction false} DigitsInOrder(a: string, b: string)
    requires |a| == |b| && AllDigits(a) && AllDigits(b)
    ensures Before(a, b) <==> Value(a) < Value(b)
    decreases |a|
  {
    if a != "" {
      ValueFromFront(a);
      ValueFromFront(b);
      DigitsInOrder(a[1..], b[1..]);
      if a[0] != b[0] {
        LeadingDigitDecides((a[0] - '0') as nat, (b[0] - '0') as nat, Power(|a| - 1), Value(a[1..]), Value(b[1..]));
      }
    }
  }

  lemma LeadingDigitDecides(x: nat, y: nat, p: nat, a: nat, b: nat)
    requires x != y && a < p && b < p
    ensures x * p + a < y * p + b <==> x < y
  {
    if x < y {
      assert (x + 1) * p <= y * p;
    } else {
      assert (y + 1) * p <= x * p;
    }
  }

  lemma {:induction false} BeforeByPrefix(a: string, b: string, width: nat)
    requires width <= |a| && width <= |b| && a[..width] != b[..width]
    ensures Before(a, b) <==> Before(a[..width], b[..width])
    decreases width
  {
    if width > 0 {
      assert a[..width][1..] == a[1..][..width - 1] && b[..width][1..] == b[1..][..width - 1];
      if a[0] == b[0] {
        assert a[..width] == [a[0]] + a[1..][..width - 1] && b[..width] == [b[0]] + b[1..][..width - 1];
        BeforeByPrefix(a[1..], b[1..], width - 1);
      }
    }
  }

  /** For numeric prefixes of one width, the name order by which `Up` sorts is the order of the version numbers. */
  lemma NameOrderIsNumeric(a: string, b: string, width: nat)
    requires Numbered(a, width) && Numbered(b, width) && VersionOf(a) != VersionOf(b)
    ensures VersionOf(a).Ok? && VersionOf(b).Ok?
    ensures Before(a, b) <==> VersionOf(a).value < VersionOf(b).value
  {
    NumberedVersion(a, width);
    NumberedVersion(b, width);
    DigitsInOrder(a[..width], b[..width]);
    BeforeByPrefix(a, b, width);
  }

  /** Without the common width it is not. */
  lemma WidthMatters()
    ensures VersionOf("10_b.sql") == Ok(10) && VersionOf("9_a.sql") == Ok(9) && Before("10_b.sql", "9_a.sql")
  {
    assert Numbered("10_b.sql", 2) by { assert Value("10") == 10 by { assert "10"[..1] == "1" && "1"[..0] == ""; } }
    assert Numbered("9_a.sql", 1) by { assert "9"[..0] == ""; }
    NumberedVersion("10_b.sql", 2);
    NumberedVersion("9_a.sql", 1);
    assert "10_b.sql"[..2] == "10" && "9_a.sql"[..1] == "9";
    assert "9"[..0] == "" && "10"[..1] == "1" && "1"[..0] == "";
  }

  // ---------------------------------------------------------------- Up

  datatype File = File(name: string, dir: bool, sql: string)

  /** The names of the embedded scripts, in the directory's order. */
  function ScriptNames(files: seq<File>): seq<string> {
    if files == [] then []
    else if files[0].dir || !HasSuffix(files[0].name, ".sql") then ScriptNames(files[1..])
    else [files[0].name] + ScriptNames(files[1..])
  }

  /** They are exactly the files that are no directory and end in `.sql`, each as often as it occurs. */
  lemma {:induction false} ScriptNamesAre(files: seq<File>)
    ensures forall name: string :: name in ScriptNames(files) <==>
      exists f <- files :: !f.dir && HasSuffix(f.name, ".sql") && f.name == name
    ensures forall name: string :: multiset(ScriptNames(files))[name] == |Places(files, name)|
  {
    if files != [] {
      ScriptNamesAre(files[1..]);
      assert files == [files[0]] + files[1..];
      var rest := ScriptNames(files[1..]);
      forall name: string
        ensures multiset(ScriptNames(files))[name] == |Places(files, name)|
      {
        OnePlaceMore(files, name);
      }
    }
  }

  /** Where a script of this name stands. */
  ghost function Places(files: seq<File>, name: string): set<nat> {
    set i: nat | i < |files| && !files[i].dir && HasSuffix(files[i].name, ".sql") && files[i].name == name
  }

  lemma OnePlaceMore(files: seq<File>, name: string)
    requires files != []
    ensures var first := files[0];
      |Places(files, name)| == |Places(files[1..], name)|
        + (if !first.dir && HasSuffix(first.name, ".sql") && first.name == name then 1 else 0)
  {
    hide HasSuffix;
    var later := set i: nat | i in Places(files[1..], name) :: i + 1;
    Shifted(Places(files[1..], name), later);
    var first := if !files[0].dir && HasSuffix(files[0].name, ".sql") && files[0].name == name then {0} else {};
    forall i: nat
      ensures i in Places(files, name) <==> i in first + later
    {
      if i > 0 {
        assert i < |files| ==> files[i] == files[1..][i - 1];
        assert i in later <==> i - 1 in Places(files[1..], name);
      }
    }
    assert Places(files, name) == first + later;
  }

  lemma {:induction false} Shifted(a: set<nat>, b: set<nat>)
    requires b == set i: nat | i in a :: i + 1
    ensures |a| == |b|
  {
    if a != {} {
      var x :| x in a;
      assert forall i: nat :: i in b <==> i > 0 && i - 1 in a;
      var c := set i: nat | i in a - {x} :: i + 1;
      assert forall i: nat :: i in c <==> i > 0 && i - 1 in a - {x};
      assert b - {x + 1} == c;
      Shifted(a - {x}, b - {x + 1});
    }
  }

  datatype Script = Script(version: int, name: string)

  /** What is left to do of these names: the scripts whose version is neither recorded nor an earlier name's, up to the
      first name that has no version. */
  function Todo(names: seq<string>, recorded: set<int>): seq<Script> {
    if names == [] then []
    else match VersionOf(names[0])
      case Err(_) => []
      case Ok(v) =>
        if v in recorded then Todo(names[1..], recorded)
        else [Script(v, names[0])] + Todo(names[1..], recorded + {v})
  }

  function Versions(scripts: seq<Script>): set<int> {
    set i | 0 <= i < |scripts| :: scripts[i].version
  }

  lemma {:induction false} TodoIsNew(names: seq<string>, recorded: set<int>)
    ensures forall i :: 0 <= i < |Todo(names, recorded)| ==> Todo(names, recorded)[i].version !in recorded
  {
    hide VersionOf;
    if names != [] && VersionOf(names[0]).Ok? {
      var v := VersionOf(names[0]).value;
      if v in recorded {
        TodoIsNew(names[1..], recorded);
      } else {
        TodoIsNew(names[1..], recorded + {v});
        var rest := Todo(names[1..], recorded + {v});
        assert Todo(names, recorded) == [Script(v, names[0])] + rest;
        assert forall i :: 0 <= i < |rest| ==> rest[i].version !in recorded + {v};
      }
    }
  }

  /** When all are recorded nothing is left to do. */
  lemma {:induction false} NothingTodo(names: seq<string>, recorded: set<int>)
    requires forall i :: 0 <= i < |names| ==> VersionOf(names[i]).Ok? && VersionOf(names[i]).value in recorded
    ensures Todo(names, recorded) == []
  {
    hide VersionOf;
    if names != [] {
      NothingTodo(names[1..], recorded);
    }
  }

  ghost predicate Names(names: seq<string>, version: int) {
    exists k :: 0 <= k < |names| && VersionOf(names[k]) == Ok(version)
  }

  lemma {:induction false} TodoIsNamed(names: seq<string>, recorded: set<int>)
    ensures forall i :: 0 <= i < |Todo(names, recorded)| ==> Names(names, Todo(names, recorded)[i].version)
  {
    hide VersionOf;
    if names != [] && VersionOf(names[0]).Ok? {
      var v := VersionOf(names[0]).value;
      var seen := if v in recorded then recorded else recorded + {v};
      var rest := Todo(names[1..], seen);
      TodoIsNamed(names[1..], seen);
      assert Names(names, v);
      forall i | 0 <= i < |rest|
        ensures Names(names, rest[i].version)
      {
        var k :| 0 <= k < |names[1..]| && VersionOf(names[1..][k]) == Ok(rest[i].version);
        assert names[k + 1] == names[1..][k];
      }
    }
  }

  /** Whatever is left to do is one of the names, with its version. */
  lemma {:induction false} TodoIsFrom(names: seq<string>, recorded: set<int>)
    ensures forall script <- Todo(names, recorded) ::
      script.name in names && VersionOf(script.name) == Ok(script.version)
  {
    hide VersionOf;
    if names != [] && VersionOf(names[0]).Ok? {
      var v := VersionOf(names[0]).value;
      TodoIsFrom(names[1..], if v in recorded then recorded else recorded + {v});
    }
  }

  /** It is done in the order of the names. */
  lemma {:induction false} TodoInOrder(names: seq<string>, recorded: set<int>)
    requires Sorted(names)
    ensures InNameOrder(Todo(names, recorded))
  {
    hide VersionOf, NotAfter;
    if names != [] && VersionOf(names[0]).Ok? {
      var v := VersionOf(names[0]).value;
      var seen := if v in recorded then recorded else recorded + {v};
      TodoInOrder(names[1..], seen);
      TodoIsFrom(names[1..], seen);
      var rest := Todo(names[1..], seen);
      forall script <- rest
        ensures NotAfter(names[0], script.name)
      {
        var k :| 0 <= k < |names[1..]| && names[1..][k] == script.name;
        assert names[k + 1] == script.name && NotAfter(names[0], names[k + 1]);
      }
      if v !in recorded {
        assert Todo(names, recorded) == [Script(v, names[0])] + rest;
        FirstInOrder(Script(v, names[0]), rest);
      }
    }
  }

  ghost predicate InNameOrder(scripts: seq<Script>) {
    forall i, j :: 0 <= i < j < |scripts| ==> NotAfter(scripts[i].name, scripts[j].name)
  }

  lemma FirstInOrder(first: Script, rest: seq<Script>)
    requires InNameOrder(rest) && forall script <- rest :: NotAfter(first.name, script.name)
    ensures InNameOrder([first] + rest)
  {
    hide NotAfter;
    var all := [first] + rest;
    forall i, j | 0 <= i < j < |all|
      ensures NotAfter(all[i].name, all[j].name)
    {
      assert all[j] == rest[j - 1] && rest[j - 1] in rest;
      if i > 0 {
        assert all[i] == rest[i - 1];
      }
    }
  }

  ghost predicate Increasing(scripts: seq<Script>) {
    forall i, j :: 0 <= i < j < |scripts| ==> scripts[i].version < scripts[j].version
  }

  /** With numeric prefixes of one width, scripts are applied in strictly increasing order of their versions. */
  lemma {:induction false} TodoIsIncreasing(names: seq<string>, recorded: set<int>, width: nat)
    requires Sorted(names) && forall i :: 0 <= i < |names| ==> Numbered(names[i], width)
    ensures Increasing(Todo(names, recorded))
  {
    hide VersionOf, Numbered, NotAfter;
    if names != [] {
      NumberedVersion(names[0], width);
      var v := VersionOf(names[0]).value;
      if v in recorded {
        TodoIsIncreasing(names[1..], recorded, width);
      } else {
        TodoIsIncreasing(names[1..], recorded + {v}, width);
        var rest := Todo(names[1..], recorded + {v});
        assert Todo(names, recorded) == [Script(v, names[0])] + rest;
        forall i | 0 <= i < |rest|
          ensures v < rest[i].version
        {
          TodoIsNew(names[1..], recorded + {v});
          TodoIsNamed(names[1..], recorded + {v});
          var k :| 0 <= k < |names[1..]| && VersionOf(names[1..][k]) == Ok(rest[i].version);
          assert names[k + 1] == names[1..][k] && NotAfter(names[0], names[k + 1]);
          LaterIsGreater(names[0], names[k + 1], width);
        }
      }
    }
  }

  lemma LaterIsGreater(a: string, b: string, width: nat)
    requires Numbered(a, width) && Numbered(b, width) && NotAfter(a, b) && VersionOf(a) != VersionOf(b)
    ensures VersionOf(a).Ok? && VersionOf(b).Ok? && VersionOf(a).value < VersionOf(b).value
  {
    hide Numbered, Before;
    NameOrderIsNumeric(a, b, width);
    NameOrderIsNumeric(b, a, width);
  }

  /** The database: the versions on record, and the scripts that made its schema, in order. */
  datatype Schema = Schema(recorded: set<int>, applied: seq<Script>)

  /** A version is on record exactly if its script was applied, and that was once. */
  ghost predicate Consistent(s: Schema) {
    && s.recorded == Versions(s.applied)
    && forall i, j :: 0 <= i < j < |s.applied| ==> s.applied[i].version != s.applied[j].version
  }

  /** It is the script of one of the files, with its version. */
  ghost predicate Embedded(files: seq<File>, script: Script) {
    && VersionOf(script.name) == Ok(script.version)
    && exists f <- files :: !f.dir && HasSuffix(f.name, ".sql") && f.name == script.name
  }

  class Database {
    const replies: nat -> Reply
    var requests: nat
    var schema: Schema
    var tx: Option<Schema>  // what the open transaction has made of it so far

    ghost predicate Valid()
      reads this
    {
      Consistent(schema) && tx.None?
    }

    constructor (replies: nat -> Reply)
      ensures Valid() && schema == Schema({}, [])
    {
      this.replies, requests, schema, tx := replies, 0, Schema({}, []), None;
    }

    method Request() returns (reply: Reply)
      modifies this`requests
      ensures reply == replies(old(requests)) && requests == old(requests) + 1
    {
      reply := replies(requests);
      requests := requests + 1;
    }

    method Begin() returns (err: bool)
      requires tx.None?
      modifies this`requests, this`tx
      ensures if err then tx.None? else tx == Some(schema)
      ensures (forall k: nat :: replies(k).Fine?) ==> !err
    {
      var reply := Request();
      if reply.Fine? {
        tx := Some(schema);
      }
      return !reply.Fine?;
    }

    /** Runs the script inside the transaction. */
    method ExecScript(script: Script) returns (err: bool)
      requires tx.Some?
      modifies this`requests, this`tx
      ensures tx == if err then old(tx) else Some(old(tx).value.(applied := old(tx).value.applied + [script]))
      ensures (forall k: nat :: replies(k).Fine?) ==> !err
    {
      var reply := Request();
      if reply.Fine? {
        tx := Some(tx.value.(applied := tx.value.applied + [script]));
      }
      return !reply.Fine?;
    }

    /** INSERT INTO schema_migrations, whose primary key is the version. */
    method InsertRecord(version: int) returns (err: bool)
      requires tx.Some?
      modifies this`requests, this`tx
      ensures !err ==> version !in old(tx).value.recorded
      ensures tx == if err then old(tx) else Some(old(tx).value.(recorded := old(tx).value.recorded + {version}))
      ensures (forall k: nat :: replies(k).Fine?) && err ==> version in old(tx).value.recorded
    {
      var reply := Request();
      if !reply.Fine? || version in tx.value.recorded {
        return true;
      }
      tx := Some(tx.value.(recorded := tx.value.recorded + {version}));
      return false;
    }

    /** The commit; its answer may be lost after it happened. */
    method Commit() returns (err: bool)
      requires tx.Some?
      modifies this`requests, this`schema, this`tx
      ensures tx == old(tx)
      ensures schema == old(tx).value || (err && schema == old(schema))
      ensures (forall k: nat :: replies(k).Fine?) ==> !err
    {
      var reply := Request();
      if !reply.Refused? {
        schema := tx.value;
      }
      return !reply.Fine?;
    }

    /** The deferred rollback. */
    method Rollback()
      modifies this`tx
      ensures tx.None?
    {
      tx := None;
    }

    /** applyFile. Whatever fails, and wherever the process dies, the script and its record are both there or neither
        is; and a version that is on record is refused. */
    method ApplyFile(name: string, version: int) returns (err: bool)
      requires Valid()
      modifies this
      ensures Valid()
      ensures schema == old(schema) || (
        && version !in old(schema).recorded
        && schema == Schema(old(schema).recorded + {version}, old(schema).applied + [Script(version, name)]))
      ensures !err ==> schema != old(schema)
      ensures (forall k: nat :: replies(k).Fine?) && err ==> version in old(schema).recorded
    {
      err := Begin();
      if err {
        return;
      }
      err := ExecScript(Script(version, name));
      if !err {
        err := InsertRecord(version);
      }
      if !err {
        StaysConsistent(schema, Script(version, name));
        err := Commit();
      }
      Rollback();
    }

    /** One turn of the loop over the names. */
    method UpOne(name: string) returns (err: bool, ghost done: seq<Script>)
      requires Valid()
      modifies this
      ensures Valid() && schema.applied == old(schema).applied + done
      ensures done == []
        || (VersionOf(name).Ok? && done == [Script(VersionOf(name).value, name)]
          && done[0].version !in old(schema).recorded)
      ensures schema.recorded == old(schema).recorded + Versions(done)
      ensures !err ==> VersionOf(name).Ok? && (done == [] <==> VersionOf(name).value in old(schema).recorded)
      ensures (forall k: nat :: replies(k).Fine?) && err ==> VersionOf(name).Err?
    {
      hide VersionOf;
      done := [];
      assert Versions([]) == {};
      var version := VersionOf(name);
      if version.Err? {
        return true, [];
      }
      var check := Request();
      if !check.Fine? {
        return true, [];
      }
      if version.value in schema.recorded {
        return false, [];
      }
      err := ApplyFile(name, version.value);
      OneMoreVersion(old(schema).applied, Script(version.value, name));
      OneMoreVersion([], Script(version.value, name));
      assert [] + [Script(version.value, name)] == [Script(version.value, name)];
      done := if schema == old(schema) then [] else [Script(version.value, name)];
    }

    /** The names of the embedded scripts: directories and other files are passed over. */
    method ReadNames(files: seq<File>) returns (names: seq<string>)
      ensures names == ScriptNames(files)
    {
      names := [];
      for i := 0 to |files|
        invariant names + ScriptNames(files[i..]) == ScriptNames(files)
      {
        assert files[i..][0] == files[i] && files[i..][1..] == files[i + 1..];
        if files[i].dir || !HasSuffix(files[i].name, ".sql") {
          continue;
        }
        ghost var before := names;
        names := names + [files[i].name];
        assert before + ([files[i].name] + ScriptNames(files[i + 1..])) == names + ScriptNames(files[i + 1..]);
      }
      assert files[|files|..] == [];
    }

    /** Up, under the advisory lock. It commits a prefix of what is left to do, in name order, and nothing that is not
        an embedded script; nil means all of it, and that every embedded script has a version and this is on record. If
        no request fails, only a script without a version is an error. */
    method Up(files: seq<File>) returns (err: bool, ghost done: seq<Script>)
      requires Valid()
      modifies this
      ensures Valid() && schema.applied == old(schema).applied + done
        && done <= Todo(Sort(ScriptNames(files)), old(schema).recorded)
      ensures !err ==> done == Todo(Sort(ScriptNames(files)), old(schema).recorded)
      ensures !err ==> forall f <- files :: !f.dir && HasSuffix(f.name, ".sql") ==>
        VersionOf(f.name).Ok? && VersionOf(f.name).value in schema.recorded
      ensures forall script <- done :: Embedded(files, script) && script.version !in old(schema).recorded
      ensures InNameOrder(done)
      ensures (forall k: nat :: replies(k).Fine?) ==>
        (err <==> exists f <- files :: !f.dir && HasSuffix(f.name, ".sql") && VersionOf(f.name).Err?)
    {
      hide VersionOf, Sort, ScriptNames, Versions, Todo, NotAfter, Sorted, HasSuffix;
      var read := ReadNames(files);
      SortedScripts(files);
      var names := Sort(read);
      err, done := ApplyAll(names);
      TodoIsFrom(names, old(schema).recorded);
      TodoIsNew(names, old(schema).recorded);
      TodoInOrder(names, old(schema).recorded);
      forall script <- done
        ensures script in Todo(names, old(schema).recorded)
      {
        var i :| 0 <= i < |done| && done[i] == script;
        assert Todo(names, old(schema).recorded)[i] == script;
      }
    }

    /** The locked part of Up. */
    method ApplyAll(names: seq<string>) returns (err: bool, ghost done: seq<Script>)
      requires Valid()
      modifies this
      ensures Valid() && schema.applied == old(schema).applied + done && done <= Todo(names, old(schema).recorded)
      ensures !err ==>
        && done == Todo(names, old(schema).recorded)
        && forall name <- names :: VersionOf(name).Ok? && VersionOf(name).value in schema.recorded
      ensures (forall k: nat :: replies(k).Fine?) && err ==> exists name <- names :: VersionOf(name).Err?
    {
      hide VersionOf, Versions, Todo;
      done := [];
      ghost var todo := Todo(names, schema.recorded);
      var acquire := Request();
      if !acquire.Fine? {
        return true, done;
      }
      var lock := Request();
      if !lock.Fine? {
        return true, done;
      }
      var create := Request();
      if !create.Fine? {
        return true, done;
      }
      for i := 0 to |names|
        invariant Valid() && schema.applied == old(schema).applied + done && old(schema).recorded <= schema.recorded
        invariant todo == done + Todo(names[i..], schema.recorded)
        invariant forall j :: 0 <= j < i ==> VersionOf(names[j]).Ok? && VersionOf(names[j]).value in schema.recorded
      {
        ghost var before := schema.recorded;
        ghost var more: seq<Script>;
        err, more := UpOne(names[i]);
        TodoGoesOn(names[i..], before, more, schema.recorded, err);
        assert names[i..][1..] == names[i + 1..];
        assert done + more + Todo(names[i + 1..], schema.recorded) ==
          done + (more + Todo(names[i + 1..], schema.recorded));
        done := done + more;
        if err {
          return true, done;
        }
      }
      NothingLeftTodo(schema.recorded);
      assert names[|names|..] == [];
      return false, done;
    }

    /** Any number of runs of Up, each of which may fail or die anywhere. Every version is committed at most once, only
        embedded scripts are, and after the first run that succeeded (`settled` is what was committed by then) every
        embedded script's version is on record and no later run changes anything. If no request fails and every script
        has a version, the first run does it all. */
    method Deployed(files: seq<File>, n: nat) returns (ghost settled: Option<seq<Script>>)
      requires Valid()
      modifies this
      ensures Valid() && old(schema).applied <= schema.applied
      ensures settled.Some? ==> schema.applied == settled.value
      ensures settled.Some? ==> forall f <- files :: !f.dir && HasSuffix(f.name, ".sql") ==>
        VersionOf(f.name).Ok? && VersionOf(f.name).value in schema.recorded
      ensures forall script <- schema.applied[|old(schema).applied|..] :: Embedded(files, script)
      ensures (n > 0 && (forall k: nat :: replies(k).Fine?)
               && forall f <- files :: !f.dir && HasSuffix(f.name, ".sql") ==> VersionOf(f.name).Ok?) ==> settled.Some?
    {
      hide VersionOf, Sort, ScriptNames, Todo, HasSuffix, NotAfter, Embedded;
      settled := None;
      SortedScripts(files);
      ghost var names := Sort(ScriptNames(files));
      for i := 0 to n
        invariant Valid() && old(schema).applied <= schema.applied
        invariant settled.Some? ==> schema.applied == settled.value
        invariant settled.Some? ==> forall f <- files :: !f.dir && HasSuffix(f.name, ".sql") ==>
          VersionOf(f.name).Ok? && VersionOf(f.name).value in schema.recorded
        invariant forall script <- schema.applied[|old(schema).applied|..] :: Embedded(files, script)
        invariant (i > 0 && (forall k: nat :: replies(k).Fine?)
                   && forall f <- files :: !f.dir && HasSuffix(f.name, ".sql") ==> VersionOf(f.name).Ok?) ==>
                     settled.Some?
      {
        if settled.Some? {
          forall j | 0 <= j < |names|
            ensures VersionOf(names[j]).Ok? && VersionOf(names[j]).value in schema.recorded
          {
            assert names[j] in names;
          }
          NothingTodo(names, schema.recorded);
        }
        ghost var before := schema.applied;
        var err, done := Up(files);
        var from := |old(schema).applied|;
        assert schema.applied[from..] == before[from..] + done;
        if !err {
          settled := Some(schema.applied);
        }
      }
    }
  }

  /** What is sorted is exactly the embedded scripts. */
  lemma SortedScripts(files: seq<File>)
    ensures Sorted(Sort(ScriptNames(files)))
    ensures forall name: string :: name in Sort(ScriptNames(files)) <==>
      exists f <- files :: !f.dir && HasSuffix(f.name, ".sql") && f.name == name
  {
    hide Sort, ScriptNames, HasSuffix, Sorted;
    ScriptNamesAre(files);
    SortSorts(ScriptNames(files));
    forall name: string
      ensures name in Sort(ScriptNames(files)) <==> name in ScriptNames(files)
    {
      assert name in multiset(Sort(ScriptNames(files))) <==> name in multiset(ScriptNames(files));
    }
  }

  lemma StaysConsistent(s: Schema, script: Script)
    requires Consistent(s) && script.version !in s.recorded
    ensures Consistent(Schema(s.recorded + {script.version}, s.applied + [script]))
  {
    OneMoreVersion(s.applied, script);
    assert forall i :: 0 <= i < |s.applied| ==> s.applied[i].version in Versions(s.applied);
  }

  lemma NothingLeftTodo(recorded: set<int>)
    ensures Todo([], recorded) == []
  {
  }

  /** What one turn of the loop does is the next of what is left to do. */
  lemma TodoGoesOn(names: seq<string>, recorded: set<int>, more: seq<Script>, after: set<int>, err: bool)
    requires names != [] && after == recorded + Versions(more)
    requires more == []
      || (VersionOf(names[0]).Ok? && more == [Script(VersionOf(names[0]).value, names[0])]
        && more[0].version !in recorded)
    requires !err ==> VersionOf(names[0]).Ok? && (more == [] <==> VersionOf(names[0]).value in recorded)
    ensures more <= Todo(names, recorded)
    ensures !err ==> Todo(names, recorded) == more + Todo(names[1..], after) && VersionOf(names[0]).value in after
    ensures recorded <= after
  {
    hide VersionOf;
    if more != [] {
      assert Versions(more) == {more[0].version};
    }
  }

  lemma OneMoreVersion(applied: seq<Script>, script: Script)
    ensures Versions(applied + [script]) == Versions(applied) + {script.version}
  {
    var longer := applied + [script];
    assert longer[|applied|] == script;
    assert forall i :: 0 <= i < |applied| ==> longer[i] == applied[i];
  }
}

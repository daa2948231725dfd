/** `make:migration`: the migration name, its file name and the table it creates. The clock
    and the directory are parameters; the stub file and the write are left out. */
module MakeMigrationCommand {
  import opened Wrappers
  import opened Text
  import Str
  import GetTimestamp

  const NameRequired := "Migration name is required."

  const ValidPrefixes := ["create", "alter", "add", "modify"]

  predicate HasValidPrefix(name: string) {
    exists i :: 0 <= i < |ValidPrefixes| && StartsWith(name, ValidPrefixes[i])
  }

  /** `padNumber(n)`: `padStart(2, "0")` of the number's text. */
  function PadNumber(n: nat): (r: string)
    ensures n < 100 ==> r == GetTimestamp.TwoDigits(n)
  {
    var t := NatToString(n);
    if n < 10 then
      assert Repeat("0", 1) == "0";
      Str.PadLeft(t, 2, "0")
    else
      assert n < 100 ==> NatToString(n / 10) == [DigitChar(n / 10)];
      Str.PadLeft(t, 2, "0")
  }

  /** `slice(-2)`: the last two characters, or the whole text when it is shorter. */
  function LastTwo(s: string): (r: string)
    ensures |s| >= 2 ==> |r| == 2 && EndsWith(s, r)
    ensures |s| < 2 ==> r == s
  {
    if |s| <= 2 then s else s[|s| - 2..]
  }

  /** `getTimestamp()`: YYMMDDhhmmss. */
  function Timestamp(now: GetTimestamp.DateTime): string {
    LastTwo(IntToString(now.year)) + PadFields(now)
  }

  function PadFields(now: GetTimestamp.DateTime): string {
    PadNumber(now.month + 1) + PadNumber(now.date) + PadNumber(now.hours) + PadNumber(now.minutes) + PadNumber(now.seconds)
  }

  /** Within the clock's ranges `padStart` and `slice(-2)` pad the fields alike. */
  lemma PadFieldsAgree(now: GetTimestamp.DateTime)
    requires GetTimestamp.InRange(now)
    ensures PadFields(now) == GetTimestamp.Fields(now)
  {
  }

  lemma YearTwoDigits(year: int)
    requires year >= 10
    ensures |IntToString(year)| >= 2 && AllDigits(IntToString(year))
  {
    assert IntToString(year) == NatToString(year / 10) + [DigitChar(year % 10)];
  }

  lemma SuffixOfConcat(a: string, b: string)
    requires |a| >= 2
    ensures (a + b)[|a + b| - |b| - 2..] == a[|a| - 2..] + b
  {
  }

  /** For a year of at least two digits, the stamp is the last twelve characters of the
      full timestamp of `get_timestamp.ts`: twelve digits. */
  lemma TimestampIsTwelveDigits(now: GetTimestamp.DateTime)
    requires GetTimestamp.InRange(now) && now.year >= 10
    ensures var full := GetTimestamp.Timestamp(now);
      Timestamp(now) == full[|full| - 12..] && |Timestamp(now)| == 12 && AllDigits(Timestamp(now))
  {
    var ys := IntToString(now.year);
    PadFieldsAgree(now);
    YearTwoDigits(now.year);
    SuffixOfConcat(ys, GetTimestamp.Fields(now));
    var two := ys[|ys| - 2..];
    assert AllDigits(two) by {
      forall i | 0 <= i < 2 ensures IsDigit(two[i]) { assert two[i] == ys[|ys| - 2 + i]; }
    }
    DigitsConcat(two, GetTimestamp.Fields(now));
  }

  /** `formatMigrationName(name)`: snake case; unless it starts with a known verb, it is
      wrapped as `create_<name>_table`. */
  function FormatMigrationName(name: string): (r: string)
    ensures Str.NoSpace(r) && Str.NoUpper(r)
    ensures HasValidPrefix(r)
    ensures HasValidPrefix(Lower(Str.SnakeCase(name))) ==> r == Lower(Str.SnakeCase(name))
    ensures !HasValidPrefix(Lower(Str.SnakeCase(name))) ==> r == "create_" + Lower(Str.SnakeCase(name)) + "_table"
  {
    var n := Lower(Str.SnakeCase(name));
    Str.LowerOfNoUpper(Str.SnakeCase(name));
    if HasValidPrefix(n) then n
    else
      var r := "create_" + n + "_table";
      assert StartsWith(r, ValidPrefixes[0]);
      assert Str.NoSpace(r) && Str.NoUpper(r) by {
        forall i | 0 <= i < |r| ensures !IsSpace(r[i]) && !IsUpper(r[i]) {
          if 7 <= i < 7 + |n| { assert r[i] == n[i - 7]; }
        }
      }
      r
  }

  /** Formatting a formatted name changes nothing, so `handle` formatting twice is harmless. */
  lemma FormatIdempotent(name: string)
    ensures FormatMigrationName(FormatMigrationName(name)) == FormatMigrationName(name)
  {
    var f := FormatMigrationName(name);
    Str.CaseWithFixed(f, "_");
    Str.LowerOfNoUpper(f);
  }

  /** The last position before `k` holding a character outside `[a-z0-9]`, or -1. */
  function LastNonWordBefore(n: string, k: int): (r: int)
    requires 0 <= k <= |n|
    ensures -1 <= r < k
    ensures r >= 0 ==> !Str.IsAlnumLower(n[r])
    ensures forall j :: r < j < k ==> Str.IsAlnumLower(n[j])
    decreases k
  {
    if k == 0 then -1
    else if !Str.IsAlnumLower(n[k - 1]) then k - 1
    else LastNonWordBefore(n, k - 1)
  }

  predicate IsWord(w: string) {
    w != [] && forall i :: 0 <= i < |w| ==> Str.IsAlnumLower(w[i])
  }

  /** `name.match(/_([a-z0-9]+)_table$/)[1]`: the word between the last `_` and the final
      `_table`, when there is one. */
  function TableWord(n: string): (r: Option<string>)
    ensures r.Some? ==> IsWord(r.value) && EndsWith(n, "_" + r.value + "_table")
  {
    if !EndsWith(n, "_table") then None
    else
      var k := |n| - 6;
      var j := LastNonWordBefore(n, k);
      if j >= 0 && n[j] == '_' && j + 1 < k then
        var w := n[j + 1..k];
        assert n[j..] == "_" + w + "_table";
        Some(w)
      else None
  }

  /** The regular expression matches exactly the names ending in `_<word>_table`, and the
      word it captures is that word. */
  lemma TableWordMatches(n: string, w: string)
    requires IsWord(w) && EndsWith(n, "_" + w + "_table")
    ensures TableWord(n) == Some(w)
  {
    var t := "_" + w + "_table";
    assert n[|n| - 6..] == t[|w| + 1..];
    var k := |n| - 6;
    WordUnique(n, k, LastNonWordBefore(n, k), w);
  }

  /** A word ending at `k` after a `_` starts just after the last non-word character. */
  lemma WordUnique(n: string, k: int, j: int, w: string)
    requires 0 <= k && k + 6 == |n| && -1 <= j < k
    requires j >= 0 ==> !Str.IsAlnumLower(n[j])
    requires forall i :: j < i < k ==> Str.IsAlnumLower(n[i])
    requires IsWord(w) && EndsWith(n, "_" + w + "_table")
    ensures j == k - |w| - 1 && n[j] == '_' && n[j + 1..k] == w
  {
    var t := "_" + w + "_table";
    var p := k - |w| - 1;
    assert n[|n| - |t|..] == t;
    assert n[p] == t[0] == '_';
    assert n[p + 1..k] == w by {
      forall i | 0 <= i < |w| ensures n[p + 1 + i] == w[i] {
        assert n[p + 1 + i] == t[1 + i];
      }
    }
    assert !Str.IsAlnumLower(n[p]);
  }

  /** `getTableName(name)`. */
  function TableName(name: string): (r: string)
    ensures var n := Lower(Str.SnakeCase(name));
      (TableWord(n).Some? ==> r == Str.Plural(TableWord(n).value)) &&
      (TableWord(n).None? ==> r == Str.Plural(n))
  {
    var n := Lower(Str.SnakeCase(name));
    var m := TableWord(n);
    if EndsWith(n, "_table") && m.Some? then Str.Plural(m.value) else Str.Plural(n)
  }

  /** A name already in snake case reads as itself. */
  lemma SnakeFixed(n: string)
    requires Str.NoSpace(n) && Str.NoUpper(n)
    ensures Lower(Str.SnakeCase(n)) == n
  {
    Str.CaseWithFixed(n, "_");
    Str.LowerOfNoUpper(n);
  }

  /** `make:migration user` creates table `users`: a bare word is wrapped and its plural is
      the table. */
  lemma TableOfBareWord(w: string)
    requires IsWord(w) && !HasValidPrefix(w)
    ensures FormatMigrationName(w) == "create_" + w + "_table"
    ensures TableName(FormatMigrationName(w)) == Str.Plural(w)
  {
    SnakeFixed(w);
    var f := FormatMigrationName(w);
    SnakeFixed(f);
    CreateSuffix(w);
    TableWordMatches(f, w);
  }

  lemma CreateSuffix(w: string)
    ensures ("create_" + w + "_table")[6..] == "_" + w + "_table"
  {
    var t := "_" + w + "_table";
    assert "create_" + w + "_table" == "create" + t by {
      assert "create_" == "create" + "_";
      Assoc("create", "_", w);
      Assoc("create", "_" + w, "_table");
    }
    DropConcat("create", t, 6);
    assert "create"[6..] + t == t;
  }

  /** A name that already carries its table in the plural gets a second plural ending:
      `create_users_table` gives `userses`. */
  lemma PluralTableTwice(w: string)
    requires IsWord(w) && EndsWith(w, "s")
    ensures TableName("create_" + w + "_table") == w + "es"
  {
    var f := "create_" + w + "_table";
    assert Str.NoSpace(f) && Str.NoUpper(f) by {
      forall i | 0 <= i < |f| ensures !IsSpace(f[i]) && !IsUpper(f[i]) {
        if 7 <= i < 7 + |w| { assert f[i] == w[i - 7]; }
      }
    }
    SnakeFixed(f);
    CreateSuffix(w);
    TableWordMatches(f, w);
    assert !EndsWith(w, "y");
  }

  /** What `handle` receives: an array of strings, an object with positionals, or neither. */
  datatype Arguments = ArrayArgs(items: seq<string>) | ObjectArgs(positionals: seq<string>) | NotAnObject

  /** `getMigrationName(args)`: the first argument, formatted; none when there is none. An
      empty array is an object with no `positionals`. */
  function MigrationName(args: Arguments): (r: Option<string>)
    ensures r.None? <==> (args.NotAnObject? || (args.ArrayArgs? && args.items == []) || (args.ObjectArgs? && args.positionals == []))
    ensures args.ArrayArgs? && args.items != [] ==> r == Some(FormatMigrationName(args.items[0]))
    ensures args.ObjectArgs? && args.positionals != [] ==> r == Some(FormatMigrationName(args.positionals[0]))
  {
    match args
    case ArrayArgs(items) => if items != [] then Some(FormatMigrationName(items[0])) else None
    case ObjectArgs(positionals) => if positionals == [] then None else Some(FormatMigrationName(positionals[0]))
    case NotAnObject => None
  }

  /** The file `handle` writes: its name and the table the stub is filled with. */
  datatype MigrationFile = MigrationFile(fileName: string, tableName: string, className: string)

  /** `handle(args)`, up to the write: an error without a name or when the file already exists
      in `existing`. */
  function Handle(args: Arguments, now: GetTimestamp.DateTime, existing: set<string>): (r: Result<MigrationFile>)
    ensures MigrationName(args).None? ==> r == Err(NameRequired)
    ensures r.Ok? ==> r.value.fileName !in existing && EndsWith(r.value.fileName, ".ts")
  {
    var migrationName := MigrationName(args);
    if migrationName.None? then Err(NameRequired)
    else
      var formattedName := FormatMigrationName(migrationName.value);
      var fileName := Timestamp(now) + "_" + formattedName + ".ts";
      if fileName in existing then Err("Migration file already exists: " + fileName)
      else
        var tableName := TableName(formattedName);
        Ok(MigrationFile(fileName, tableName, Str.PascalCase(tableName)))
  }

  /** The file is named after the first positional formatted once, however often `handle`
      formats it, and the table comes from that name. */
  lemma HandleNamesFile(positionals: seq<string>, now: GetTimestamp.DateTime, existing: set<string>)
    requires positionals != []
    ensures var f := FormatMigrationName(positionals[0]);
      var name := Timestamp(now) + "_" + f + ".ts";
      var r := Handle(ObjectArgs(positionals), now, existing);
      (name in existing ==> r == Err("Migration file already exists: " + name)) &&
      (name !in existing ==> r == Ok(MigrationFile(name, TableName(f), Str.PascalCase(TableName(f)))))
  {
    FormatIdempotent(positionals[0]);
  }
}

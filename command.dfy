/** `command.ts`: the base of every console command. A command has a signature, a description,
    aliases and declared options (each with a description and an optional one-letter alias),
    and parses raw arguments into positionals and option values. */
module Command {
  import opened Wrappers
  import opened Text
  import Js

  /** What `option()` records for one option. */
  datatype OptionSpec = OptionSpec(description: string, alias: Option<string>)

  type Options = seq<(string, OptionSpec)>

  function Names(opts: Options): (r: seq<string>)
    ensures |r| == |opts|
    ensures forall i :: 0 <= i < |opts| ==> r[i] == opts[i].0
  {
    if opts == [] then [] else [opts[0].0] + Names(opts[1..])
  }

  /** `this.options[name] = { description, alias }`: an existing option keeps its place and
      gets the new metadata; a new one goes last. */
  function SetOption(opts: Options, name: string, spec: OptionSpec): (r: Options)
    ensures Names(r) == if name in Names(opts) then Names(opts) else Names(opts) + [name]
  {
    if opts == [] then [(name, spec)]
    else if opts[0].0 == name then [(name, spec)] + opts[1..]
    else
      assert name in Names(opts) <==> name in Names(opts[1..]);
      [opts[0]] + SetOption(opts[1..], name, spec)
  }

  /** `this.options[name]`: the metadata of the option `name`, if declared. */
  function OptionOf(opts: Options, name: string): Option<OptionSpec> {
    if opts == [] then None
    else if opts[0].0 == name then Some(opts[0].1)
    else OptionOf(opts[1..], name)
  }

  /** `option()` sets or overwrites the metadata of its option and leaves the others alone. */
  lemma {:induction false} SetOptionOf(opts: Options, name: string, spec: OptionSpec, other: string)
    ensures OptionOf(SetOption(opts, name, spec), other) == if other == name then Some(spec) else OptionOf(opts, other)
  {
    if opts != [] && opts[0].0 != name {
      SetOptionOf(opts[1..], name, spec, other);
    }
  }

  /** `getOptionNameFromAlias(alias)`: the first declared option whose alias is `alias`. */
  function AliasName(opts: Options, alias: string): (r: Option<string>)
    ensures r.None? <==> forall i :: 0 <= i < |opts| ==> opts[i].1.alias != Some(alias)
    ensures r.Some? ==> exists i :: (0 <= i < |opts| && opts[i].0 == r.value && opts[i].1.alias == Some(alias) &&
      forall j :: 0 <= j < i ==> opts[j].1.alias != Some(alias))
  {
    if opts == [] then None
    else if opts[0].1.alias == Some(alias) then Some(opts[0].0)
    else
      var r := AliasName(opts[1..], alias);
      if r.Some? then
        var i :| 0 <= i < |opts[1..]| && opts[1..][i].0 == r.value && opts[1..][i].1.alias == Some(alias) &&
          forall j :: 0 <= j < i ==> opts[1..][j].1.alias != Some(alias);
        assert opts[i + 1].0 == r.value && forall j :: 0 <= j < i + 1 ==> opts[j].1.alias != Some(alias) by {
          forall j | 0 <= j < i + 1 ensures opts[j].1.alias != Some(alias) {
            if j > 0 { assert opts[j] == opts[1..][j - 1]; }
          }
        }
        r
      else r
  }

  // ---- parseArgs ----

  predicate IsDash(arg: string) {
    StartsWith(arg, "-")
  }

  /** The text before the first `=`. */
  function BeforeEq(s: string): (r: string)
    ensures '=' !in r
    ensures '=' !in s ==> r == s
    ensures StartsWith(s, r)
  {
    if s == [] || s[0] == '=' then [] else [s[0]] + BeforeEq(s[1..])
  }

  /** The text after the first `=`, or `""` when there is none. */
  function AfterEq(s: string): string
  {
    if s == [] then []
    else if s[0] == '=' then s[1..]
    else AfterEq(s[1..])
  }

  /** A text with an `=` is the text before the first `=`, the `=`, and the text after it. */
  lemma {:induction false} EqSplit(s: string)
    requires '=' in s
    ensures s == BeforeEq(s) + "=" + AfterEq(s)
  {
    if s[0] == '=' {
      assert s == [] + "=" + s[1..];
    } else {
      assert s == [s[0]] + s[1..];
      assert '=' in s[1..];
      EqSplit(s[1..]);
      var b, r := BeforeEq(s[1..]), AfterEq(s[1..]);
      assert s == [s[0]] + (b + "=" + r);
      assert [s[0]] + (b + "=" + r) == ([s[0]] + b) + "=" + r;
    }
  }

  /** `const [name, value] = optionName.split("=")`: the value is the text between the first
      and the second `=` (to the end when there is no second one). */
  function SplitAssignment(s: string): (r: (string, string))
    requires '=' in s
    ensures s == r.0 + "=" + AfterEq(s) && '=' !in r.0 && '=' !in r.1
    ensures StartsWith(AfterEq(s), r.1)
    ensures '=' !in AfterEq(s) ==> r.1 == AfterEq(s)
  {
    EqSplit(s);
    (BeforeEq(s), BeforeEq(AfterEq(s)))
  }

  /** True for every argument that is there and does not start with `-`: the one an option
      takes as its value. */
  predicate TakesValue(raw: seq<string>, i: nat) {
    i + 1 < |raw| && !IsDash(raw[i + 1])
  }

  /** The letters of one `-abc` argument from letter `k` on: each letter that is some option's
      alias sets that option to `true`, or to the next argument when that one does not start
      with `-`, which is then consumed. The result is the index of the last consumed argument
      and the options. */
  function Shorts(opts: Options, raw: seq<string>, letters: string, i: nat, options: Js.Props): (r: (nat, Js.Props))
    ensures r.0 >= i
    ensures i < |raw| ==> r.0 < |raw|
    decreases |letters|
  {
    if letters == [] then (i, options)
    else
      var s := ShortLetter(opts, raw, letters[0], i, options);
      Shorts(opts, raw, letters[1..], s.0, s.1)
  }

  /** One letter: an alias with a non-empty option name sets that option to `true`, or to
      the next argument when that one does not start with `-`; any other letter is ignored. */
  function ShortLetter(opts: Options, raw: seq<string>, c: char, i: nat, options: Js.Props): (r: (nat, Js.Props))
    ensures r.0 == i || (r.0 == i + 1 && TakesValue(raw, i))
  {
    var name := AliasName(opts, [c]);
    if name.Some? && name.value != "" then
      var marked := Js.Put(options, name.value, Js.Bool(true));
      if TakesValue(raw, i) then (i + 1, Js.Put(marked, name.value, Js.Str(raw[i + 1])))
      else (i, marked)
    else (i, options)
  }

  lemma ShortsNext(opts: Options, raw: seq<string>, letters: string, k: nat, i: nat, options: Js.Props)
    requires k < |letters|
    ensures var s := ShortLetter(opts, raw, letters[k], i, options);
      Shorts(opts, raw, letters[k..], i, options) == Shorts(opts, raw, letters[k + 1..], s.0, s.1)
  {
    assert letters[k..][0] == letters[k] && letters[k..][1..] == letters[k + 1..];
  }

  /** One turn of the `while` loop at argument `i`: the index of the last argument it
      consumed, and the positionals and options after it. */
  function Step(opts: Options, raw: seq<string>, i: nat, pos: seq<string>, options: Js.Props): (r: (nat, seq<string>, Js.Props))
    requires i < |raw|
    ensures i <= r.0 < |raw|
  {
    var arg := raw[i];
    if StartsWith(arg, "--") then
      var name := arg[2..];
      if '=' in name then
        (i, pos, Js.Put(options, SplitAssignment(name).0, Js.Str(SplitAssignment(name).1)))
      else
        var marked := Js.Put(options, name, Js.Bool(true));
        if TakesValue(raw, i) then (i + 1, pos, Js.Put(marked, name, Js.Str(raw[i + 1])))
        else (i, pos, marked)
    else if IsDash(arg) then
      var s := Shorts(opts, raw, arg[1..], i, options);
      (s.0, pos, s.1)
    else (i, pos + [arg], options)
  }

  /** A turn adds a positional exactly for an argument that does not start with `-`. */
  lemma StepPositional(opts: Options, raw: seq<string>, i: nat, pos: seq<string>, options: Js.Props)
    requires i < |raw|
    ensures !IsDash(raw[i]) ==> Step(opts, raw, i, pos, options) == (i, pos + [raw[i]], options)
    ensures IsDash(raw[i]) ==> Step(opts, raw, i, pos, options).1 == pos
  {
    if StartsWith(raw[i], "--") {
      assert raw[i][..1] == raw[i][..2][..1];
    }
  }

  /** `parseArgs(rawArgs)` from argument `i` on, with what the earlier turns produced. */
  function ParseFrom(opts: Options, raw: seq<string>, i: nat, pos: seq<string>, options: Js.Props): (r: (seq<string>, Js.Props))
    requires i <= |raw|
    decreases |raw| - i
  {
    if i == |raw| then (pos, options)
    else
      var s := Step(opts, raw, i, pos, options);
      ParseFrom(opts, raw, s.0 + 1, s.1, s.2)
  }

  function Parse(opts: Options, raw: seq<string>): (seq<string>, Js.Props) {
    ParseFrom(opts, raw, 0, [], [])
  }

  /** `--name=value` stores the text between the first and the second `=` and consumes
      nothing more. */
  lemma LongAssignment(opts: Options, raw: seq<string>, i: nat, pos: seq<string>, options: Js.Props)
    requires i < |raw| && StartsWith(raw[i], "--") && '=' in raw[i][2..]
    ensures var s := Step(opts, raw, i, pos, options); var name := raw[i][2..];
      s.0 == i && s.1 == pos &&
      Js.Lookup(s.2, BeforeEq(name)) == Some(Js.Str(BeforeEq(AfterEq(name))))
  {
    var name := raw[i][2..];
    Js.LookupPut(options, SplitAssignment(name).0, Js.Str(SplitAssignment(name).1), BeforeEq(name));
  }

  /** `--flag` is `true`, unless the next argument exists and does not start with `-`: that
      argument is then the value, and is consumed. */
  lemma LongFlag(opts: Options, raw: seq<string>, i: nat, pos: seq<string>, options: Js.Props)
    requires i < |raw| && StartsWith(raw[i], "--") && '=' !in raw[i][2..]
    ensures var s := Step(opts, raw, i, pos, options); var name := raw[i][2..];
      s.1 == pos &&
      (if TakesValue(raw, i) then s.0 == i + 1 && Js.Lookup(s.2, name) == Some(Js.Str(raw[i + 1]))
       else s.0 == i && Js.Lookup(s.2, name) == Some(Js.Bool(true)))
  {
    var name := raw[i][2..];
    var marked := Js.Put(options, name, Js.Bool(true));
    Js.LookupPut(options, name, Js.Bool(true), name);
    if TakesValue(raw, i) {
      Js.LookupPut(marked, name, Js.Str(raw[i + 1]), name);
    }
  }

  /** A letter that is no option's alias changes nothing; in `-abc` the letters are read in
      order and each resolved one may take the next argument. */
  lemma ShortUnknown(opts: Options, raw: seq<string>, letters: string, i: nat, options: Js.Props)
    requires letters != [] && (AliasName(opts, [letters[0]]).None? || AliasName(opts, [letters[0]]) == Some(""))
    ensures Shorts(opts, raw, letters, i, options) == Shorts(opts, raw, letters[1..], i, options)
  {
  }

  /** A single resolved letter sets its option and consumes at most one argument. */
  lemma ShortOne(opts: Options, raw: seq<string>, c: char, i: nat, options: Js.Props, name: string)
    requires AliasName(opts, [c]) == Some(name) && name != ""
    ensures var s := Shorts(opts, raw, [c], i, options);
      if TakesValue(raw, i) then s.0 == i + 1 && Js.Lookup(s.1, name) == Some(Js.Str(raw[i + 1]))
      else s.0 == i && Js.Lookup(s.1, name) == Some(Js.Bool(true))
  {
    var marked := Js.Put(options, name, Js.Bool(true));
    assert [c][1..] == [];
    Js.LookupPut(options, name, Js.Bool(true), name);
    if TakesValue(raw, i) {
      Js.LookupPut(marked, name, Js.Str(raw[i + 1]), name);
    }
  }

  /** `xs` is `ys` with some elements left out. */
  predicate Subsequence(xs: seq<string>, ys: seq<string>)
    decreases |ys|
  {
    if xs == [] then true
    else if ys == [] then false
    else (xs[0] == ys[0] && Subsequence(xs[1..], ys[1..])) || Subsequence(xs, ys[1..])
  }

  /** The arguments that do not start with `-`, in order. */
  function NonDash(raw: seq<string>): (r: seq<string>)
    ensures forall a :: a in r ==> a in raw && !IsDash(a)
  {
    if raw == [] then [] else (if IsDash(raw[0]) then [] else [raw[0]]) + NonDash(raw[1..])
  }

  lemma {:induction false} SubsequenceDrop(xs: seq<string>, ys: seq<string>, k: nat)
    requires k <= |ys| && Subsequence(xs, ys[k..])
    ensures Subsequence(xs, ys)
    decreases k
  {
    if k > 0 {
      assert ys[1..][k - 1..] == ys[k..];
      SubsequenceDrop(xs, ys[1..], k - 1);
      if xs != [] {
        assert ys != [];
      }
    }
  }

  lemma {:induction false} NonDashSuffix(raw: seq<string>, i: nat, j: nat, xs: seq<string>)
    requires i <= j <= |raw| && Subsequence(xs, NonDash(raw[j..]))
    ensures Subsequence(xs, NonDash(raw[i..]))
    decreases j - i
  {
    if i < j {
      assert raw[i..][1..] == raw[i + 1..];
      NonDashSuffix(raw, i + 1, j, xs);
      var head := if IsDash(raw[i]) then [] else [raw[i]];
      assert NonDash(raw[i..]) == head + NonDash(raw[i + 1..]);
      assert NonDash(raw[i..])[|head|..] == NonDash(raw[i + 1..]);
      SubsequenceDrop(xs, NonDash(raw[i..]), |head|);
    }
  }

  /** The positionals a parse adds are arguments that do not start with `-`, in their order on
      the command line. */
  lemma {:induction false} PositionalsInOrder(opts: Options, raw: seq<string>, i: nat, pos: seq<string>, options: Js.Props)
    requires i <= |raw|
    ensures var r := ParseFrom(opts, raw, i, pos, options);
      |r.0| >= |pos| && r.0[..|pos|] == pos && Subsequence(r.0[|pos|..], NonDash(raw[i..]))
    decreases |raw| - i
  {
    if i < |raw| {
      var s := Step(opts, raw, i, pos, options);
      StepPositional(opts, raw, i, pos, options);
      PositionalsInOrder(opts, raw, s.0 + 1, s.1, s.2);
      var r := ParseFrom(opts, raw, i, pos, options);
      assert r == ParseFrom(opts, raw, s.0 + 1, s.1, s.2);
      if IsDash(raw[i]) {
        NonDashSuffix(raw, i, s.0 + 1, r.0[|pos|..]);
      } else {
        PositionalStep(raw, i, pos, r.0);
      }
    } else {
      assert pos[|pos|..] == [];
    }
  }

  lemma PositionalStep(raw: seq<string>, i: nat, pos: seq<string>, out: seq<string>)
    requires i < |raw| && !IsDash(raw[i])
    requires |out| >= |pos| + 1 && out[..|pos| + 1] == pos + [raw[i]]
    requires Subsequence(out[|pos| + 1..], NonDash(raw[i + 1..]))
    ensures out[..|pos|] == pos && Subsequence(out[|pos|..], NonDash(raw[i..]))
  {
    assert raw[i..][1..] == raw[i + 1..];
    var q := out[|pos| + 1..];
    assert out[..|pos|] == out[..|pos| + 1][..|pos|];
    assert out[|pos|..] == [raw[i]] + q;
    var nd := NonDash(raw[i + 1..]);
    assert NonDash(raw[i..]) == [raw[i]] + nd;
    assert ([raw[i]] + q)[1..] == q;
    assert ([raw[i]] + nd)[1..] == nd;
  }

  lemma ParsePositional(opts: Options, raw: seq<string>, i: nat, pos: seq<string>, options: Js.Props)
    requires i < |raw| && !IsDash(raw[i])
    ensures ParseFrom(opts, raw, i, pos, options) == ParseFrom(opts, raw, i + 1, pos + [raw[i]], options)
  {
    StepPositional(opts, raw, i, pos, options);
  }

  lemma ParseStep(opts: Options, raw: seq<string>, i: nat, pos: seq<string>, options: Js.Props)
    requires i < |raw|
    ensures var s := Step(opts, raw, i, pos, options);
      ParseFrom(opts, raw, i, pos, options) == ParseFrom(opts, raw, s.0 + 1, s.1, s.2)
  {
  }

  /** Without any argument starting with `-`, every argument is a positional, in order, and
      there are no options. */
  lemma {:induction false} PlainArguments(opts: Options, raw: seq<string>, i: nat, pos: seq<string>, options: Js.Props)
    requires i <= |raw| && forall k :: i <= k < |raw| ==> !IsDash(raw[k])
    ensures ParseFrom(opts, raw, i, pos, options) == (pos + raw[i..], options)
    decreases |raw| - i
  {
    if i < |raw| {
      var next := pos + [raw[i]];
      ParsePositional(opts, raw, i, pos, options);
      PlainArguments(opts, raw, i + 1, next, options);
      assert raw[i..] == [raw[i]] + raw[i + 1..];
      assert next + raw[i + 1..] == pos + raw[i..];
    } else {
      assert pos + raw[i..] == pos;
    }
  }

  /** The argument each turn stops at is the one it started at, or a later one within the
      arguments: the loop never revisits an argument and always ends. */
  lemma StepAdvances(opts: Options, raw: seq<string>, i: nat, pos: seq<string>, options: Js.Props)
    requires i < |raw|
    ensures i < Step(opts, raw, i, pos, options).0 + 1 <= |raw|
  {
  }

  /** The help text of a command. */
  function OptionLine(name: string, spec: OptionSpec): (r: string)
    ensures StartsWith(r, "--" + name)
  {
    var aliasText := if spec.alias.Some? && spec.alias.value != "" then " (-" + spec.alias.value + ")" else "";
    var r := "--" + name + aliasText + ": " + spec.description;
    assert r == ("--" + name) + (aliasText + ": " + spec.description);
    r
  }

  function OptionLines(opts: Options): (r: seq<string>)
    ensures |r| == |opts|
    ensures forall i :: 0 <= i < |opts| ==> r[i] == OptionLine(opts[i].0, opts[i].1)
  {
    if opts == [] then [] else [OptionLine(opts[0].0, opts[0].1)] + OptionLines(opts[1..])
  }

  /** `a || b` on strings. */
  function OrElse(a: string, b: string): string {
    if a != "" then a else b
  }

  lemma NoneShown()
    ensures "Aliases: " + OrElse(Join([], ", "), "None") == "Aliases: None"
  {
  }

  /** `getHelp()`: the signature and the description first, then the aliases, or "None",
      then each option's line, or "No options available.". */
  function Help(signature: string, description: string, aliases: seq<string>, opts: Options): (r: string)
    ensures StartsWith(r, "\n    Command: " + signature + "\n    Description: " + description + "\n    ")
    ensures aliases == [] ==> Contains(r, "Aliases: None")
    ensures Join(aliases, ", ") != "" ==> Contains(r, "Aliases: " + Join(aliases, ", "))
    ensures opts == [] ==> Contains(r, "No options available.")
    ensures forall i :: 0 <= i < |opts| ==> Contains(r, OptionLine(opts[i].0, opts[i].1))
  {
    var head := "\n    Command: " + signature + "\n    Description: " + description + "\n    ";
    var a := "Aliases: " + OrElse(Join(aliases, ", "), "None");
    var mid := "\n    \n    Options:\n    ";
    var o := OrElse(Join(OptionLines(opts), "\n"), "No options available.");
    var r := head + a + mid + o + "\n    ";
    HelpParts(head, a, mid, o, "\n    ");
    NoneShown();
    OptionsShown(opts, head + a + mid, "\n    ");
    r
  }

  /** The pieces of the help text occur in it, and the first one starts it. */
  lemma HelpParts(head: string, a: string, mid: string, o: string, tail: string)
    ensures StartsWith(head + a + mid + o + tail, head)
    ensures Contains(head + a + mid + o + tail, a)
    ensures Contains(head + a + mid + o + tail, o)
  {
    var r := head + a + mid + o + tail;
    assert r == head + (a + mid + o + tail);
    PrefixOfConcat(head, a + mid + o + tail);
    OccursBetween(head + a + mid, o, tail);
    Assoc(head + a, mid, o);
    Assoc(head + a, mid + o, tail);
    OccursBetween(head, a, mid + o + tail);
  }

  /** Every option line occurs in the options part of the help text. */
  lemma OptionsShown(opts: Options, before: string, after: string)
    ensures var o := OrElse(Join(OptionLines(opts), "\n"), "No options available.");
      forall i :: 0 <= i < |opts| ==> Contains(before + o + after, OptionLine(opts[i].0, opts[i].1))
  {
    var lines := OptionLines(opts);
    forall i | 0 <= i < |opts| ensures Contains(before + OrElse(Join(lines, "\n"), "No options available.") + after, lines[i]) {
      JoinHasParts(lines, "\n", i);
      assert |lines[i]| >= 2 by {
        assert StartsWith(lines[i], "--" + opts[i].0);
      }
      var j :| 0 <= j <= |Join(lines, "\n")| && OccursAt(Join(lines, "\n"), lines[i], j);
      ContainsAround(before, Join(lines, "\n"), after, lines[i]);
    }
  }

  class Command {
    const signature: string
    const description: string
    const aliases: seq<string>
    var options: Options

    constructor(signature: string, description: string, aliases: seq<string>)
      ensures this.signature == signature && this.description == description && this.aliases == aliases
      ensures options == []
    {
      this.signature := signature;
      this.description := description;
      this.aliases := aliases;
      options := [];
    }

    /** `option(name, description, alias)`. */
    method Option(name: string, description: string, alias: Wrappers.Option<string>)
      modifies this
      ensures options == SetOption(old(options), name, OptionSpec(description, alias))
    {
      options := SetOption(options, name, OptionSpec(description, alias));
    }

    function GetHelp(): string
      reads this
    {
      Help(signature, description, aliases, options)
    }

    /** `parseArgs(rawArgs)`. */
    method ParseArgs(raw: seq<string>) returns (positionals: seq<string>, parsed: Js.Props)
      ensures (positionals, parsed) == Parse(options, raw)
    {
      positionals := [];
      parsed := [];
      var i := 0;
      while i < |raw|
        invariant 0 <= i <= |raw|
        invariant Parse(options, raw) == ParseFrom(options, raw, i, positionals, parsed)
        decreases |raw| - i
      {
        ParseStep(options, raw, i, positionals, parsed);
        i, positionals, parsed := Turn(raw, i, positionals, parsed);
        i := i + 1;
      }
    }

    /** One turn of the loop of `parseArgs`, up to the final `i++`. */
    method Turn(raw: seq<string>, i0: nat, pos0: seq<string>, parsed0: Js.Props) returns (i: nat, positionals: seq<string>, parsed: Js.Props)
      requires i0 < |raw|
      ensures (i, positionals, parsed) == Step(options, raw, i0, pos0, parsed0)
    {
      i, positionals, parsed := i0, pos0, parsed0;
      var arg := raw[i];
      if StartsWith(arg, "--") {
        var name := arg[2..];
        if '=' in name {
          var assignment := SplitAssignment(name);
          parsed := Js.Put(parsed, assignment.0, Js.Str(assignment.1));
        } else {
          parsed := Js.Put(parsed, name, Js.Bool(true));
          if i + 1 < |raw| && !IsDash(raw[i + 1]) {
            i := i + 1;
            parsed := Js.Put(parsed, name, Js.Str(raw[i]));
          }
        }
      } else if IsDash(arg) {
        i, parsed := ShortOptions(raw, arg[1..], i, parsed);
      } else {
        positionals := positionals + [arg];
      }
    }

    /** The `for (const alias of aliases)` loop of `parseArgs`. */
    method ShortOptions(raw: seq<string>, letters: string, i0: nat, options0: Js.Props) returns (i: nat, parsed: Js.Props)
      requires i0 < |raw|
      ensures (i, parsed) == Shorts(options, raw, letters, i0, options0)
    {
      i, parsed := i0, options0;
      for k := 0 to |letters|
        invariant i0 <= i < |raw|
        invariant Shorts(options, raw, letters, i0, options0) == Shorts(options, raw, letters[k..], i, parsed)
      {
        ShortsNext(options, raw, letters, k, i, parsed);
        ghost var before := (i, parsed);
        var name := AliasName(options, [letters[k]]);
        if name.Some? && name.value != "" {
          parsed := Js.Put(parsed, name.value, Js.Bool(true));
          if i + 1 < |raw| && !IsDash(raw[i + 1]) {
            i := i + 1;
            parsed := Js.Put(parsed, name.value, Js.Str(raw[i]));
          }
        }
        assert (i, parsed) == ShortLetter(options, raw, letters[k], before.0, before.1);
      }
      assert letters[|letters|..] == [];
    }
  }
}

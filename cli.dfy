/** `cli.ts`: the console entry point. It keeps the loaded commands keyed by signature and an
    alias map, dispatches the first argument to a command, and lists the commands grouped by
    the signature's prefix. JavaScript `Map`s are sequences of entries in insertion order, a
    key's value being that of its first (and, in a `Map`, only) entry. */
module Cli {
  import opened Wrappers
  import opened Text
  import Str
  import CliFormatter
  import Command

  type Cmd = Command.Command

  // ---- Map<string, V> as an insertion-ordered list of entries ----

  /** The position of key `k`, if any. */
  function IndexOfKey<V>(m: seq<(string, V)>, k: string): (r: Option<nat>)
    ensures r.Some? ==> r.value < |m| && m[r.value].0 == k
    ensures r.None? <==> forall j :: 0 <= j < |m| ==> m[j].0 != k
  {
    if m == [] then None
    else if m[0].0 == k then Some(0)
    else match IndexOfKey(m[1..], k)
      case Some(i) => Some(i + 1)
      case None => None
  }

  /** `map.get(k)`. */
  function MapGet<V>(m: seq<(string, V)>, k: string): (r: Option<V>)
    ensures r.None? <==> forall j :: 0 <= j < |m| ==> m[j].0 != k
  {
    match IndexOfKey(m, k)
    case Some(i) => Some(m[i].1)
    case None => None
  }

  /** `map.set(k, v)`: an existing key keeps its place, a new one goes last. */
  function MapSet<V>(m: seq<(string, V)>, k: string, v: V): (r: seq<(string, V)>)
    ensures IndexOfKey(m, k).Some? ==> |r| == |m|
    ensures IndexOfKey(m, k).None? ==> r == m + [(k, v)]
  {
    match IndexOfKey(m, k)
    case Some(i) => m[i := (k, v)]
    case None => m + [(k, v)]
  }

  predicate DistinctKeys<V>(m: seq<(string, V)>) {
    forall i, j :: 0 <= i < j < |m| ==> m[i].0 != m[j].0
  }

  /** Reading a key after `set` gives the value set there, and every other key reads as before. */
  lemma {:induction false} GetAfterSet<V>(m: seq<(string, V)>, k: string, v: V, a: string)
    ensures MapGet(MapSet(m, k, v), a) == if a == k then Some(v) else MapGet(m, a)
    ensures DistinctKeys(m) ==> DistinctKeys(MapSet(m, k, v))
  {
    var r := MapSet(m, k, v);
    match IndexOfKey(m, k)
    case None =>
      IndexAppend(m, k, v, a);
    case Some(i) =>
      IndexUpdate(m, i, v, a);
  }

  lemma {:induction false} IndexAppend<V>(m: seq<(string, V)>, k: string, v: V, a: string)
    requires IndexOfKey(m, k).None?
    ensures IndexOfKey(m + [(k, v)], a) == if IndexOfKey(m, a).Some? then IndexOfKey(m, a) else if a == k then Some(|m|) else None
  {
    if m != [] {
      assert (m + [(k, v)])[1..] == m[1..] + [(k, v)];
      if m[0].0 != a {
        IndexAppend(m[1..], k, v, a);
      }
    }
  }

  lemma {:induction false} IndexUpdate<V>(m: seq<(string, V)>, i: nat, v: V, a: string)
    requires i < |m|
    ensures IndexOfKey(m[i := (m[i].0, v)], a) == IndexOfKey(m, a)
  {
    if m != [] && m[0].0 != a && i > 0 {
      assert m[i := (m[i].0, v)][1..] == m[1..][i - 1 := (m[i].0, v)];
      IndexUpdate(m[1..], i - 1, v, a);
    }
  }

  // ---- registerAliases ----

  /** Every alias in `names` set to `signature`, one after another. */
  function SetAll(m: seq<(string, string)>, names: seq<string>, signature: string): seq<(string, string)>
    decreases |names|
  {
    if names == [] then m else SetAll(MapSet(m, names[0], signature), names[1..], signature)
  }

  /** The alias map after `registerAliases` over `cmds`, starting from `m`. */
  function Registered(m: seq<(string, string)>, cmds: seq<Cmd>): seq<(string, string)>
    decreases |cmds|
  {
    if cmds == [] then m else Registered(SetAll(m, cmds[0].aliases, cmds[0].signature), cmds[1..])
  }

  lemma {:induction false} SetAllGet(m: seq<(string, string)>, names: seq<string>, signature: string, a: string)
    ensures MapGet(SetAll(m, names, signature), a) == if a in names then Some(signature) else MapGet(m, a)
    decreases |names|
  {
    if names != [] {
      var m' := MapSet(m, names[0], signature);
      GetAfterSet(m, names[0], signature, a);
      SetAllGet(m', names[1..], signature, a);
      assert SetAll(m, names, signature) == SetAll(m', names[1..], signature);
      LaterSetWins(a, names, Some(signature), MapGet(m, a), MapGet(m', a), MapGet(SetAll(m', names[1..], signature), a));
    }
  }

  /** Setting the head and then the tail of `names`: the tail's setting wins. */
  lemma LaterSetWins<V>(a: string, names: seq<string>, v: V, before: V, mid: V, after: V)
    requires names != []
    requires mid == if a == names[0] then v else before
    requires after == if a in names[1..] then v else mid
    ensures after == if a in names then v else before
  {
    assert names == [names[0]] + names[1..];
  }

  /** When several commands declare the same alias, the one registered last wins; an alias no
      command declares keeps what the map held before. */
  lemma {:induction false} LaterAliasWins(m: seq<(string, string)>, cmds: seq<Cmd>, a: string)
    ensures (forall i :: 0 <= i < |cmds| ==> a !in cmds[i].aliases) ==> MapGet(Registered(m, cmds), a) == MapGet(m, a)
    ensures forall i :: 0 <= i < |cmds| && a in cmds[i].aliases && (forall j :: i < j < |cmds| ==> a !in cmds[j].aliases) ==>
      MapGet(Registered(m, cmds), a) == Some(cmds[i].signature)
    decreases |cmds|
  {
    if cmds != [] {
      var m' := SetAll(m, cmds[0].aliases, cmds[0].signature);
      SetAllGet(m, cmds[0].aliases, cmds[0].signature, a);
      LaterAliasWins(m', cmds[1..], a);
      forall i | 0 <= i < |cmds| && a in cmds[i].aliases && (forall j :: i < j < |cmds| ==> a !in cmds[j].aliases)
        ensures MapGet(Registered(m, cmds), a) == Some(cmds[i].signature)
      {
        if i > 0 {
          assert cmds[1..][i - 1] == cmds[i];
          assert forall j :: i - 1 < j < |cmds| - 1 ==> a !in cmds[1..][j].aliases by {
            forall j | i - 1 < j < |cmds| - 1 ensures a !in cmds[1..][j].aliases {
              assert cmds[1..][j] == cmds[j + 1];
            }
          }
        } else {
          assert forall j :: 0 <= j < |cmds| - 1 ==> a !in cmds[1..][j].aliases by {
            forall j | 0 <= j < |cmds| - 1 ensures a !in cmds[1..][j].aliases {
              assert cmds[1..][j] == cmds[j + 1];
            }
          }
        }
      }
      if forall i :: 0 <= i < |cmds| ==> a !in cmds[i].aliases {
        assert a !in cmds[0].aliases;
        assert forall j :: 0 <= j < |cmds| - 1 ==> a !in cmds[1..][j].aliases by {
          forall j | 0 <= j < |cmds| - 1 ensures a !in cmds[1..][j].aliases {
            assert cmds[1..][j] == cmds[j + 1];
          }
        }
      }
    }
  }

  // ---- groupCommands ----

  /** `signature.split(":")[0]`: the text before the first colon. */
  function GroupOf(signature: string): (r: string)
    ensures StartsWith(signature, r) && ':' !in r
    ensures |r| < |signature| ==> signature[|r|] == ':'
  {
    SplitFirst(signature, ':');
    Str.Split(signature, ':')[0]
  }

  lemma {:induction false} SplitFirst(s: string, c: char)
    ensures var p := Str.Split(s, c)[0]; StartsWith(s, p) && (|p| < |s| ==> s[|p|] == c)
  {
    if s != [] && s[0] != c {
      SplitFirst(s[1..], c);
    }
  }

  /** `groups.has(g) || groups.set(g, [])`, then `groups.get(g).push(command)`. */
  function AddToGroup(groups: seq<(string, seq<Cmd>)>, g: string, c: Cmd): (r: seq<(string, seq<Cmd>)>)
    ensures MapGet(r, g) == Some(MapGet(groups, g).GetOr([]) + [c])
    ensures forall h :: h != g ==> MapGet(r, h) == MapGet(groups, h)
    ensures DistinctKeys(groups) ==> DistinctKeys(r)
  {
    var present := if IndexOfKey(groups, g).None? then groups + [(g, [])] else groups;
    GetAfterSet(groups, g, [], g);
    var i := IndexOfKey(present, g).value;
    var r := present[i := (g, present[i].1 + [c])];
    forall h ensures MapGet(r, h) == (if h == g then Some(present[i].1 + [c]) else MapGet(groups, h)) {
      IndexUpdate(present, i, present[i].1 + [c], h);
      if IndexOfKey(groups, g).None? {
        GetAfterSet(groups, g, [], h);
      }
    }
    assert MapGet(present, g) == Some(present[i].1);
    r
  }

  /** `groupCommands()` over the commands in insertion order. */
  function Grouped(cmds: seq<Cmd>): seq<(string, seq<Cmd>)>
  {
    if cmds == [] then []
    else
      var last := cmds[|cmds| - 1];
      AddToGroup(Grouped(cmds[..|cmds| - 1]), GroupOf(last.signature), last)
  }

  /** The commands whose group is `g`, in order. */
  function InGroup(cmds: seq<Cmd>, g: string): (r: seq<Cmd>)
    ensures forall k :: 0 <= k < |r| ==> GroupOf(r[k].signature) == g
  {
    if cmds == [] then []
    else
      var last := cmds[|cmds| - 1];
      InGroup(cmds[..|cmds| - 1], g) + (if GroupOf(last.signature) == g then [last] else [])
  }

  /** Each group holds exactly the commands of that group, in the order they were loaded, and
      a group exists exactly when some command belongs to it; no group appears twice. */
  lemma {:induction false} GroupsHoldTheirCommands(cmds: seq<Cmd>, g: string)
    ensures InGroup(cmds, g) == [] ==> MapGet(Grouped(cmds), g).None?
    ensures InGroup(cmds, g) != [] ==> MapGet(Grouped(cmds), g) == Some(InGroup(cmds, g))
  {
    if cmds != [] {
      var init, last := cmds[..|cmds| - 1], cmds[|cmds| - 1];
      GroupsHoldTheirCommands(init, g);
      var before := Grouped(init);
      GroupStep(before, GroupOf(last.signature), last, g);
      assert Grouped(cmds) == AddToGroup(before, GroupOf(last.signature), last);
      var now := Grouped(cmds);
      var members := InGroup(cmds, g);
      if GroupOf(last.signature) == g {
        assert members == InGroup(init, g) + [last];
        assert MapGet(before, g).GetOr([]) == InGroup(init, g);
        assert MapGet(now, g) == Some(members);
        assert members != [];
      } else {
        assert members == InGroup(init, g) + [];
        assert members == InGroup(init, g);
        assert MapGet(now, g) == MapGet(before, g);
      }
    } else {
      assert Grouped(cmds) == [] && InGroup(cmds, g) == [];
      assert MapGet(Grouped(cmds), g) == None;
    }
  }

  /** No group appears twice. */
  lemma {:induction false} GroupsDistinct(cmds: seq<Cmd>)
    ensures DistinctKeys(Grouped(cmds))
  {
    if cmds != [] {
      var init, last := cmds[..|cmds| - 1], cmds[|cmds| - 1];
      GroupsDistinct(init);
      GroupStep(Grouped(init), GroupOf(last.signature), last, "");
    }
  }

  lemma GroupStep(groups: seq<(string, seq<Cmd>)>, h: string, c: Cmd, g: string)
    ensures MapGet(AddToGroup(groups, h, c), g) == if g == h then Some(MapGet(groups, g).GetOr([]) + [c]) else MapGet(groups, g)
    ensures DistinctKeys(groups) ==> DistinctKeys(AddToGroup(groups, h, c))
  {
  }

  /** `groupCommands()`: the loop over the commands, building the map entry by entry. */
  method GroupCommands(cmds: seq<Cmd>) returns (groups: seq<(string, seq<Cmd>)>)
    ensures groups == Grouped(cmds)
  {
    groups := [];
    for i := 0 to |cmds|
      invariant groups == Grouped(cmds[..i])
    {
      var c := cmds[i];
      var g := GroupOf(c.signature);
      if IndexOfKey(groups, g).None? {
        groups := groups + [(g, [])];
        assert groups[|groups| - 1].0 == g;
      }
      var k := IndexOfKey(groups, g).value;
      groups := groups[k := (g, groups[k].1 + [c])];
      assert cmds[..i + 1][..i] == cmds[..i];
    }
    assert cmds[..|cmds|] == cmds;
  }

  // ---- listCommands ----

  const CommandWidth := 30

  /** One listed command: two spaces, the signature padded to 30 columns in cyan, ` : ` and
      the description. */
  function CommandLine(c: Cmd): (r: string)
    ensures StartsWith(r, "  " + CliFormatter.Sgr("36") + c.signature)
    ensures EndsWith(r, CliFormatter.Reset + " : " + c.description)
  {
    var padded := Str.PadRight(c.signature, CommandWidth, " ");
    var head, tail := "  " + CliFormatter.Sgr("36"), CliFormatter.Reset + " : " + c.description;
    var r := "  " + CliFormatter.Colorize(padded, "cyan", None) + " : " + c.description;
    assert r == head + padded + tail;
    PrefixThrough(head, padded, tail, c.signature);
    SuffixOfConcat(head + padded, tail);
    r
  }

  function CommandLines(cmds: seq<Cmd>): (r: seq<string>)
    ensures |r| == |cmds|
    ensures forall k :: 0 <= k < |cmds| ==> r[k] == CommandLine(cmds[k])
  {
    if cmds == [] then [] else [CommandLine(cmds[0])] + CommandLines(cmds[1..])
  }

  /** `displayCommandGroup(title, cmds)`: the title in bold yellow after a blank line, then
      one line per command. */
  function GroupLines(title: string, cmds: seq<Cmd>): (r: seq<string>)
    ensures |r| == |cmds| + 1
    ensures r[0] == CliFormatter.Colorize("\n" + title, "yellow", Some("bold"))
    ensures r[1..] == CommandLines(cmds)
  {
    [CliFormatter.Colorize("\n" + title, "yellow", Some("bold"))] + CommandLines(cmds)
  }

  /** The groups other than "general", in their order. */
  function OtherGroups(groups: seq<(string, seq<Cmd>)>): seq<(string, seq<Cmd>)>
  {
    if groups == [] then []
    else (if groups[0].0 != "general" then [groups[0]] else []) + OtherGroups(groups[1..])
  }

  /** The other groups are exactly the groups not named "general". */
  lemma {:induction false} OtherGroupsMembers(groups: seq<(string, seq<Cmd>)>)
    ensures forall x :: x in OtherGroups(groups) <==> x in groups && x.0 != "general"
  {
    if groups != [] {
      OtherGroupsMembers(groups[1..]);
      assert groups == [groups[0]] + groups[1..];
    }
  }

  /** The groups in the order they are shown: "general" first, titled "General", when it
      exists; then every other group in insertion order. */
  function ShownGroups(groups: seq<(string, seq<Cmd>)>): (r: seq<(string, seq<Cmd>)>)
    ensures MapGet(groups, "general").Some? ==> |r| > 0 && r[0] == ("General", MapGet(groups, "general").value)
    ensures MapGet(groups, "general").Some? ==> r[1..] == OtherGroups(groups)
    ensures MapGet(groups, "general").None? ==> r == OtherGroups(groups)
  {
    match MapGet(groups, "general")
    case Some(cs) => [("General", cs)] + OtherGroups(groups)
    case None => OtherGroups(groups)
  }

  function ShownLines(shown: seq<(string, seq<Cmd>)>): seq<string>
  {
    if shown == [] then [] else GroupLines(shown[0].0, shown[0].1) + ShownLines(shown[1..])
  }

  lemma {:induction false} ShownLinesAppend(a: seq<(string, seq<Cmd>)>, b: seq<(string, seq<Cmd>)>)
    ensures ShownLines(a + b) == ShownLines(a) + ShownLines(b)
  {
    if a != [] {
      assert (a + b)[1..] == a[1..] + b;
      ShownLinesAppend(a[1..], b);
    } else {
      assert a + b == b;
    }
  }

  /** Everything `listCommands()` prints, one string per `console.log`. */
  function Listing(cmds: seq<Cmd>): (r: seq<string>)
    ensures |r| > 0 && r[0] == CliFormatter.Header("Available Commands")
  {
    [CliFormatter.Header("Available Commands")] + ShownLines(ShownGroups(Grouped(cmds)))
  }

  /** The general group's lines, when there is one. */
  function GeneralLines(groups: seq<(string, seq<Cmd>)>): seq<string>
  {
    match MapGet(groups, "general")
    case Some(cs) => GroupLines("General", cs)
    case None => []
  }

  /** The shown groups print the general group's lines, then the other groups' lines. */
  lemma ShownSplits(groups: seq<(string, seq<Cmd>)>)
    ensures ShownLines(ShownGroups(groups)) == GeneralLines(groups) + ShownLines(OtherGroups(groups))
  {
    var others := OtherGroups(groups);
    match MapGet(groups, "general")
    case Some(cs) =>
      var one := [("General", cs)];
      ShownLinesAppend(one, others);
      assert one[1..] == [];
      assert ShownLines(one) == GroupLines("General", cs) + ShownLines([]);
    case None =>
  }

  lemma ListingSplits(cmds: seq<Cmd>, groups: seq<(string, seq<Cmd>)>)
    requires groups == Grouped(cmds)
    ensures Listing(cmds) == [CliFormatter.Header("Available Commands")] + GeneralLines(groups) + ShownLines(OtherGroups(groups))
  {
    var h := CliFormatter.Header("Available Commands");
    assert Listing(cmds) == [h] + ShownLines(ShownGroups(groups));
    HeadThenGroups(h, groups);
  }

  lemma HeadThenGroups(h: string, groups: seq<(string, seq<Cmd>)>)
    ensures [h] + ShownLines(ShownGroups(groups)) == [h] + GeneralLines(groups) + ShownLines(OtherGroups(groups))
  {
    ShownSplits(groups);
    var general, others := GeneralLines(groups), ShownLines(OtherGroups(groups));
    assert [h] + (general + others) == [h] + general + others;
  }

  /** The lines one group adds in the loop over the other groups. */
  function OtherLines(group: (string, seq<Cmd>)): seq<string>
  {
    if group.0 != "general" then GroupLines(group.0, group.1) else []
  }

  lemma OtherStep(groups: seq<(string, seq<Cmd>)>, k: nat)
    requires k < |groups|
    ensures ShownLines(OtherGroups(groups[k..])) == OtherLines(groups[k]) + ShownLines(OtherGroups(groups[k + 1..]))
  {
    assert groups[k..][1..] == groups[k + 1..];
    assert OtherGroups(groups[k..]) == (if groups[k].0 != "general" then [groups[k]] else []) + OtherGroups(groups[k + 1..]);
    if groups[k].0 != "general" {
      var one := [groups[k]];
      ShownLinesAppend(one, OtherGroups(groups[k + 1..]));
      assert one[1..] == [];
      assert ShownLines(one) == GroupLines(groups[k].0, groups[k].1) + ShownLines(one[1..]);
    } else {
      assert OtherGroups(groups[k..]) == OtherGroups(groups[k + 1..]);
    }
  }

  lemma LinesAssoc(a: seq<string>, b: seq<string>, c: seq<string>)
    ensures a + (b + c) == (a + b) + c
  {
  }

  /** Every command is listed, under its own group. */
  lemma EveryCommandShown(cmds: seq<Cmd>, k: nat)
    requires k < |cmds|
    ensures var g := GroupOf(cmds[k].signature);
      exists s :: s in ShownGroups(Grouped(cmds)) && s.0 == (if g == "general" then "General" else g) && cmds[k] in s.1
  {
    var g := GroupOf(cmds[k].signature);
    GroupsHoldTheirCommands(cmds, g);
    InGroupHas(cmds, g, k);
    ShownHas(Grouped(cmds), g, InGroup(cmds, g), cmds[k]);
  }

  /** A command of a group is shown under that group's title. */
  lemma ShownHas(groups: seq<(string, seq<Cmd>)>, g: string, cs: seq<Cmd>, c: Cmd)
    requires MapGet(groups, g) == Some(cs) && c in cs
    ensures exists s :: s in ShownGroups(groups) && s.0 == (if g == "general" then "General" else g) && c in s.1
  {
    var i := IndexOfKey(groups, g).value;
    if g == "general" {
      assert ShownGroups(groups)[0] in ShownGroups(groups);
    } else {
      OtherGroupsMembers(groups);
      assert groups[i] in OtherGroups(groups);
    }
  }

  lemma {:induction false} InGroupHas(cmds: seq<Cmd>, g: string, k: nat)
    requires k < |cmds| && GroupOf(cmds[k].signature) == g
    ensures cmds[k] in InGroup(cmds, g)
  {
    if k < |cmds| - 1 {
      assert cmds[..|cmds| - 1][k] == cmds[k];
      InGroupHas(cmds[..|cmds| - 1], g, k);
    }
  }

  // ---- run ----

  /** What a run does: list the commands, run one with the remaining arguments, or report an
      unknown name and list the commands. */
  datatype Outcome =
    | Listed(lines: seq<string>)
    | Ran(command: Cmd, args: seq<string>)
    | Unknown(lines: seq<string>)

  /** `this.aliases.get(name) || name`: an alias with an empty target falls back to the name. */
  function Resolve(aliases: seq<(string, string)>, name: string): (r: string)
    ensures MapGet(aliases, name).None? ==> r == name
    ensures MapGet(aliases, name).Some? && MapGet(aliases, name).value != "" ==> r == MapGet(aliases, name).value
  {
    match MapGet(aliases, name)
    case Some(s) => if s != "" then s else name
    case None => name
  }

  /** The command `commands.get(signature)` returns. */
  function FindCommand(cmds: seq<Cmd>, signature: string): (r: Option<Cmd>)
    ensures r.Some? ==> r.value in cmds && r.value.signature == signature
    ensures r.None? <==> forall k :: 0 <= k < |cmds| ==> cmds[k].signature != signature
  {
    if cmds == [] then None
    else if cmds[0].signature == signature then Some(cmds[0])
    else FindCommand(cmds[1..], signature)
  }

  /** The dispatch of `run(args)` once the commands and aliases are loaded. */
  function Dispatch(cmds: seq<Cmd>, aliases: seq<(string, string)>, args: seq<string>): (r: Outcome)
    ensures (|args| == 0 || args[0] == "list" || args[0] == "help") <==> r.Listed?
    ensures r.Ran? ==> r.args == args[1..] && r.command in cmds && r.command.signature == Resolve(aliases, args[0])
    ensures r.Unknown? ==> FindCommand(cmds, Resolve(aliases, args[0])).None?
    ensures r.Unknown? ==> |r.lines| > 0 && r.lines[0] == CliFormatter.ErrorLine("Unknown command: " + args[0]) && r.lines[1..] == Listing(cmds)
  {
    if |args| == 0 || args[0] == "list" || args[0] == "help" then Listed(Listing(cmds))
    else
      match FindCommand(cmds, Resolve(aliases, args[0]))
      case Some(c) => Ran(c, args[1..])
      case None => Unknown([CliFormatter.ErrorLine("Unknown command: " + args[0])] + Listing(cmds))
  }

  predicate DistinctSignatures(cmds: seq<Cmd>) {
    forall i, j :: 0 <= i < j < |cmds| ==> cmds[i].signature != cmds[j].signature
  }

  /** After loading, a command's alias runs the command that registered it last, with the
      remaining arguments. */
  lemma AliasRunsCommand(old_aliases: seq<(string, string)>, cmds: seq<Cmd>, i: nat, a: string, rest: seq<string>)
    requires DistinctSignatures(cmds) && i < |cmds| && a in cmds[i].aliases && cmds[i].signature != ""
    requires forall j :: i < j < |cmds| ==> a !in cmds[j].aliases
    requires a != "list" && a != "help"
    ensures Dispatch(cmds, Registered(old_aliases, cmds), [a] + rest) == Ran(cmds[i], rest)
  {
    LaterAliasWins(old_aliases, cmds, a);
    FindUnique(cmds, i);
    assert ([a] + rest)[1..] == rest;
  }

  /** A name that is no alias runs the command with that signature. */
  lemma SignatureRunsCommand(old_aliases: seq<(string, string)>, cmds: seq<Cmd>, i: nat, rest: seq<string>)
    requires DistinctSignatures(cmds) && i < |cmds|
    requires forall j :: 0 <= j < |cmds| ==> cmds[i].signature !in cmds[j].aliases
    requires MapGet(old_aliases, cmds[i].signature).None?
    requires cmds[i].signature != "list" && cmds[i].signature != "help"
    ensures Dispatch(cmds, Registered(old_aliases, cmds), [cmds[i].signature] + rest) == Ran(cmds[i], rest)
  {
    LaterAliasWins(old_aliases, cmds, cmds[i].signature);
    FindUnique(cmds, i);
    assert ([cmds[i].signature] + rest)[1..] == rest;
  }

  lemma {:induction false} FindUnique(cmds: seq<Cmd>, i: nat)
    requires DistinctSignatures(cmds) && i < |cmds|
    ensures FindCommand(cmds, cmds[i].signature) == Some(cmds[i])
  {
    if i > 0 {
      assert cmds[0].signature != cmds[i].signature;
      assert cmds[1..][i - 1] == cmds[i];
      FindUnique(cmds[1..], i - 1);
    }
  }

  /** The CLI: the loaded commands in load order (a `Map` keyed by signature) and the alias map,
      which each run fills again on top of what earlier runs left. */
  class Cli {
    var commands: seq<Cmd>
    var aliases: seq<(string, string)>

    constructor()
      ensures commands == [] && aliases == []
    {
      commands := [];
      aliases := [];
    }

    /** `registerAliases()`: every alias of every command, in order, set to its signature. */
    method RegisterAliases()
      modifies this
      ensures commands == old(commands)
      ensures aliases == Registered(old(aliases), commands)
    {
      ghost var start := aliases;
      for i := 0 to |commands|
        invariant commands == old(commands)
        invariant Registered(start, commands) == Registered(aliases, commands[i..])
      {
        var c := commands[i];
        assert commands[i..][1..] == commands[i + 1..];
        ghost var before := aliases;
        for j := 0 to |c.aliases|
          invariant commands == old(commands)
          invariant SetAll(before, c.aliases, c.signature) == SetAll(aliases, c.aliases[j..], c.signature)
        {
          assert c.aliases[j..][1..] == c.aliases[j + 1..];
          aliases := MapSet(aliases, c.aliases[j], c.signature);
        }
      }
    }

    /** `run(args)`, given what `CommandLoader.loadCommands` returns: the commands are loaded,
        their aliases registered, and the first argument dispatched. The loader's `Map` is keyed
        by signature, so no two loaded commands share one. */
    method Run(args: seq<string>, loaded: seq<Cmd>) returns (outcome: Outcome)
      requires DistinctSignatures(loaded)
      modifies this
      ensures commands == loaded
      ensures aliases == Registered(old(aliases), loaded)
      ensures outcome == Dispatch(commands, aliases, args)
    {
      commands := loaded;
      RegisterAliases();
      if |args| == 0 || args[0] == "list" || args[0] == "help" {
        var lines := ListCommands();
        return Listed(lines);
      }
      var name := args[0];
      var resolved := Resolve(aliases, name);
      var command := FindCommand(commands, resolved);
      if command.Some? {
        outcome := Ran(command.value, args[1..]);
      } else {
        var lines := ListCommands();
        outcome := Unknown([CliFormatter.ErrorLine("Unknown command: " + name)] + lines);
      }
    }

    /** `listCommands()`: the header, then the "general" group, then the others. */
    method ListCommands() returns (lines: seq<string>)
      ensures lines == Listing(commands)
    {
      var groups := GroupCommands(commands);
      lines := [CliFormatter.Header("Available Commands")];
      var general := MapGet(groups, "general");
      if general.Some? {
        lines := lines + GroupLines("General", general.value);
      }
      assert lines == [CliFormatter.Header("Available Commands")] + GeneralLines(groups);
      ListingSplits(commands, groups);
      lines := ShowOthers(groups, lines);
    }
  }

  /** The loop of `listCommands` over the groups other than "general", appending each one's
      lines to what was printed before. */
  method ShowOthers(groups: seq<(string, seq<Cmd>)>, before: seq<string>) returns (lines: seq<string>)
    ensures lines == before + ShownLines(OtherGroups(groups))
  {
    lines := before;
    assert groups[0..] == groups;
    for k := 0 to |groups|
      invariant lines + ShownLines(OtherGroups(groups[k..])) == before + ShownLines(OtherGroups(groups))
    {
      OtherStep(groups, k);
      ghost var rest := ShownLines(OtherGroups(groups[k + 1..]));
      LinesAssoc(lines, OtherLines(groups[k]), rest);
      if groups[k].0 != "general" {
        lines := lines + GroupLines(groups[k].0, groups[k].1);
      } else {
        assert lines + OtherLines(groups[k]) == lines;
      }
    }
    assert groups[|groups|..] == [];
  }
}

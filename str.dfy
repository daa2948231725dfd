/** `Str.ts`: the static string helpers, over ASCII text. Each regular-expression replace is
    written as a scan over the string with the same matching rule. */
module Str {
  import opened Text

  /** The ASCII characters `.` in a regular expression does not match. */
  predicate IsLineTerminator(c: char) { c == '\n' || c == '\r' }

  predicate IsAlnumLower(c: char) { IsLower(c) || IsDigit(c) }

  predicate NoSpace(s: string) { forall i :: 0 <= i < |s| ==> !IsSpace(s[i]) }

  predicate NoUpper(s: string) { forall i :: 0 <= i < |s| ==> !IsUpper(s[i]) }

  /** Whitespace occurs only as single `' '` characters. */
  predicate SingleSpaced(s: string) {
    forall i :: 0 <= i < |s| && IsSpace(s[i]) ==> s[i] == ' ' && (i + 1 < |s| ==> !IsSpace(s[i + 1]))
  }

  /** Every character is in `[a-z0-9]` or is a space. */
  predicate AlnumOrSpace(s: string) {
    forall i :: 0 <= i < |s| ==> IsAlnumLower(s[i]) || s[i] == ' '
  }

  /** A piece of a string keeps its single spacing and its alphabet. */
  lemma SliceKeepsShape(s: string, i: int, j: int)
    requires 0 <= i <= j <= |s|
    ensures SingleSpaced(s) ==> SingleSpaced(s[i..j])
    ensures AlnumOrSpace(s) ==> AlnumOrSpace(s[i..j])
  {
    var t := s[i..j];
    assert forall k :: 0 <= k < |t| ==> t[k] == s[i + k];
  }

  /** Neither the first nor the last character is whitespace. */
  predicate Trimmed(s: string) {
    s == [] || (!IsSpace(s[0]) && !IsSpace(s[|s| - 1]))
  }

  /** `s` with its leading whitespace dropped. */
  function DropSpaces(s: string): (r: string)
    ensures |r| <= |s| && r == s[|s| - |r|..]
    ensures r == [] || !IsSpace(r[0])
    ensures forall i :: 0 <= i < |s| - |r| ==> IsSpace(s[i])
  {
    if s != [] && IsSpace(s[0]) then DropSpaces(s[1..]) else s
  }

  /** `s` with its trailing whitespace dropped. */
  function DropTrailingSpaces(s: string): (r: string)
    ensures |r| <= |s| && r == s[..|r|]
    ensures r == [] || !IsSpace(r[|r| - 1])
    ensures forall i :: |r| <= i < |s| ==> IsSpace(s[i])
  {
    if s != [] && IsSpace(s[|s| - 1]) then DropTrailingSpaces(s[..|s| - 1]) else s
  }

  /** Every character is whitespace. */
  predicate AllSpace(s: string) { forall i :: 0 <= i < |s| ==> IsSpace(s[i]) }

  /** `trim()`: the piece of `s` left once the whitespace at both ends is cut off. */
  function Trim(s: string): (r: string)
    ensures exists a, b :: 0 <= a <= b <= |s| && r == s[a..b] && AllSpace(s[..a]) && AllSpace(s[b..])
    ensures Trimmed(r)
    ensures SingleSpaced(s) ==> SingleSpaced(r)
    ensures AlnumOrSpace(s) ==> AlnumOrSpace(r)
  {
    var t := DropSpaces(s);
    var r := DropTrailingSpaces(t);
    TrimPiece(s, t, r);
    r
  }

  /** A front piece of a back piece of the text, with no whitespace at either end, is a
      trimmed piece of the text. */
  lemma TrimPiece(s: string, t: string, r: string)
    requires |t| <= |s| && t == s[|s| - |t|..]
    requires |r| <= |t| && r == t[..|r|]
    requires t == [] || !IsSpace(t[0])
    requires r == [] || !IsSpace(r[|r| - 1])
    requires forall i :: 0 <= i < |s| - |t| ==> IsSpace(s[i])
    requires forall i :: |r| <= i < |t| ==> IsSpace(t[i])
    ensures exists a, b :: 0 <= a <= b <= |s| && r == s[a..b] && AllSpace(s[..a]) && AllSpace(s[b..])
    ensures Trimmed(r)
    ensures SingleSpaced(s) ==> SingleSpaced(r)
    ensures AlnumOrSpace(s) ==> AlnumOrSpace(r)
  {
    var a, b := |s| - |t|, |s| - |t| + |r|;
    SliceSlice(s, a, |r|);
    assert forall i :: 0 <= i < |s[b..]| ==> s[b..][i] == t[|r| + i];
    assert AllSpace(s[..a]) && AllSpace(s[b..]);
    SliceKeepsShape(s, |s| - |t|, |s| - |t| + |r|);
    if r != [] {
      assert r[0] == t[0];
    }
  }

  /** `replace(/\s+/g, sep)`: every run of whitespace becomes one `sep`. */
  function ReplaceSpaceRuns(s: string, sep: string): (r: string)
    ensures NoSpace(sep) ==> NoSpace(r)
    decreases |s|
  {
    if s == [] then []
    else if IsSpace(s[0]) then sep + ReplaceSpaceRuns(DropSpaces(s[1..]), sep)
    else [s[0]] + ReplaceSpaceRuns(s[1..], sep)
  }

  lemma {:induction false} SpaceRunsOfNoSpace(s: string, sep: string)
    requires NoSpace(s)
    ensures ReplaceSpaceRuns(s, sep) == s
  {
    if s != [] {
      SpaceRunsOfNoSpace(s[1..], sep);
    }
  }

  /** `replace(/([a-z])([A-Z])/g, "$1" + sep + "$2")`. */
  function SplitCamel(s: string, sep: string): (r: string)
    ensures NoSpace(s) && NoSpace(sep) ==> NoSpace(r)
  {
    if s == [] then []
    else if |s| >= 2 && IsLower(s[0]) && IsUpper(s[1]) then [s[0]] + sep + [s[1]] + SplitCamel(s[2..], sep)
    else [s[0]] + SplitCamel(s[1..], sep)
  }

  lemma {:induction false} SplitCamelOfNoUpper(s: string, sep: string)
    requires NoUpper(s)
    ensures SplitCamel(s, sep) == s
  {
    if s != [] {
      SplitCamelOfNoUpper(s[1..], sep);
    }
  }

  lemma LowerKeepsNoSpace(s: string)
    requires NoSpace(s)
    ensures NoSpace(Lower(s)) && NoUpper(Lower(s))
  {
    forall i | 0 <= i < |s| ensures !IsSpace(Lower(s)[i]) {
      assert Lower(s)[i] == LowerChar(s[i]);
    }
  }

  lemma LowerOfNoUpper(s: string)
    requires NoUpper(s)
    ensures Lower(s) == s
  {
  }

  /** The shared shape of `snakeCase` and `kebabCase`. */
  function CaseWith(value: string, sep: string): (r: string)
    requires NoSpace(sep)
    ensures NoSpace(r) && NoUpper(r)
  {
    var r := Lower(SplitCamel(ReplaceSpaceRuns(value, sep), sep));
    LowerKeepsNoSpace(SplitCamel(ReplaceSpaceRuns(value, sep), sep));
    r
  }

  /** Text without whitespace and without capitals is already in that case. */
  lemma {:induction false} CaseWithFixed(t: string, sep: string)
    requires NoSpace(sep) && NoSpace(t) && NoUpper(t)
    ensures CaseWith(t, sep) == t
  {
    SpaceRunsOfNoSpace(t, sep);
    SplitCamelOfNoUpper(t, sep);
    LowerOfNoUpper(t);
  }

  /** `snakeCase`: no whitespace and no capitals remain. */
  function SnakeCase(value: string): (r: string)
    ensures NoSpace(r) && NoUpper(r)
  {
    CaseWith(value, "_")
  }

  /** `kebabCase`: no whitespace and no capitals remain. */
  function KebabCase(value: string): (r: string)
    ensures NoSpace(r) && NoUpper(r)
  {
    CaseWith(value, "-")
  }

  lemma SnakeCaseIdempotent(value: string)
    ensures SnakeCase(SnakeCase(value)) == SnakeCase(value)
  {
    CaseWithFixed(SnakeCase(value), "_");
  }

  lemma KebabCaseIdempotent(value: string)
    ensures KebabCase(KebabCase(value)) == KebabCase(value)
  {
    CaseWithFixed(KebabCase(value), "-");
  }

  /** `charAt(0).toUpperCase() + slice(1)`: only the first character can change. */
  function Ucfirst(value: string): (r: string)
    ensures |r| == |value|
    ensures value != [] ==> r[0] == UpperChar(value[0]) && r[1..] == value[1..]
  {
    if value == [] then "" else [UpperChar(value[0])] + value[1..]
  }

  /** `charAt(0).toLowerCase() + slice(1)`: only the first character can change. */
  function Lcfirst(value: string): (r: string)
    ensures |r| == |value|
    ensures value != [] ==> r[0] == LowerChar(value[0]) && r[1..] == value[1..]
  {
    if value == [] then "" else [LowerChar(value[0])] + value[1..]
  }

  predicate IsCamelSeparator(c: char) { c == '-' || c == '_' }

  /** `replace(/[-_](.)/g, (_, c) => c.toUpperCase())`. */
  function CamelJoin(s: string): (r: string)
    ensures |r| <= |s|
    ensures (forall i :: 0 <= i < |s| ==> !IsCamelSeparator(s[i])) ==> r == s
  {
    if s == [] then []
    else if |s| >= 2 && IsCamelSeparator(s[0]) && !IsLineTerminator(s[1]) then [UpperChar(s[1])] + CamelJoin(s[2..])
    else [s[0]] + CamelJoin(s[1..])
  }

  lemma ConsRest(w: string, t: string)
    requires w != []
    ensures w + t == [w[0]] + (w[1..] + t)
  {
    assert w == [w[0]] + w[1..];
  }

  predicate NoCamelSeparator(s: string) { forall i :: 0 <= i < |s| ==> !IsCamelSeparator(s[i]) }

  /** The words, each after one separator character `c`. */
  function Separated(c: char, ws: seq<string>): string {
    if ws == [] then [] else [c] + ws[0] + Separated(c, ws[1..])
  }

  /** The words run together, each with its first character in capitals. */
  function UpperFirsts(ws: seq<string>): string {
    if ws == [] then [] else Ucfirst(ws[0]) + UpperFirsts(ws[1..])
  }

  /** Text without a separator passes through unchanged. */
  lemma {:induction false} CamelJoinPlain(w: string, s: string)
    requires NoCamelSeparator(w)
    ensures CamelJoin(w + s) == w + CamelJoin(s)
  {
    if w != [] {
      assert (w + s)[0] == w[0] && (w + s)[1..] == w[1..] + s;
      CamelJoinPlain(w[1..], s);
      ConsRest(w, CamelJoin(s));
    } else {
      assert w + s == s;
    }
  }

  /** Non-empty words without separators, none starting with a line terminator. */
  predicate CamelWords(ws: seq<string>) {
    forall i :: 0 <= i < |ws| ==> ws[i] != [] && NoCamelSeparator(ws[i]) && !IsLineTerminator(ws[i][0])
  }

  lemma CamelWordsTail(ws: seq<string>)
    requires ws != [] && CamelWords(ws)
    ensures CamelWords(ws[1..]) && ws[0] != [] && NoCamelSeparator(ws[0][1..]) && !IsLineTerminator(ws[0][0])
  {
    assert ws[0] == ws[0];
  }

  /** A separator capitalises the character after it. */
  lemma CamelJoinSeparator(c: char, v: string, rest: string)
    requires IsCamelSeparator(c) && v != [] && !IsLineTerminator(v[0])
    ensures CamelJoin([c] + v + rest) == [UpperChar(v[0])] + CamelJoin(v[1..] + rest)
  {
    var t := [c] + v + rest;
    assert t[0] == c && t[1] == v[0] && t[2..] == v[1..] + rest;
  }

  lemma UcfirstThen(v: string, x: string)
    requires v != []
    ensures Ucfirst(v) + x == [UpperChar(v[0])] + (v[1..] + x)
  {
    ConsRest(Ucfirst(v), x);
  }

  /** Words joined by separators come out in camel case: every word after a separator starts
      with a capital, and the separators are gone. */
  lemma {:induction false} CamelJoinWords(c: char, w: string, ws: seq<string>)
    requires IsCamelSeparator(c) && NoCamelSeparator(w) && CamelWords(ws)
    ensures CamelJoin(w + Separated(c, ws)) == w + UpperFirsts(ws)
    decreases |ws|
  {
    CamelJoinPlain(w, Separated(c, ws));
    if ws != [] {
      var v := ws[0];
      CamelWordsTail(ws);
      var rest := Separated(c, ws[1..]);
      assert Separated(c, ws) == [c] + v + rest;
      CamelJoinSeparator(c, v, rest);
      CamelJoinWords(c, v[1..], ws[1..]);
      UcfirstThen(v, UpperFirsts(ws[1..]));
    }
  }

  /** `camelCase`: the separators are joined, then `replace(/^(.)/, …toLowerCase())`, which
      lower-cases the first character (a line terminator there is left as it is either way). */
  function CamelCase(value: string): (r: string)
    ensures |r| <= |value|
    ensures (forall i :: 0 <= i < |value| ==> !IsCamelSeparator(value[i])) ==> r == Lcfirst(value)
    ensures r != [] ==> !IsUpper(r[0])
  {
    Lcfirst(CamelJoin(value))
  }

  predicate IsPascalSeparator(c: char) { c == '-' || c == '_' || IsSpace(c) }

  predicate NoPascalSeparator(s: string) { forall i :: 0 <= i < |s| ==> !IsPascalSeparator(s[i]) }

  function DropPascalSeparators(s: string): (r: string)
    ensures |r| <= |s|
    ensures r == [] || !IsPascalSeparator(r[0])
  {
    if s != [] && IsPascalSeparator(s[0]) then DropPascalSeparators(s[1..]) else s
  }

  /** `replace(/[-_\s]+(.)?/g, (_, c) => c ? c.toUpperCase() : "")`: a run of separators and
      the character after it become that character in capitals; a run at the end vanishes. */
  function PascalJoin(s: string): (r: string)
    ensures |r| <= |s|
    ensures NoPascalSeparator(r)
    decreases |s|
  {
    if s == [] then []
    else if IsPascalSeparator(s[0]) then
      var rest := DropPascalSeparators(s[1..]);
      if rest == [] then [] else [UpperChar(rest[0])] + PascalJoin(rest[1..])
    else [s[0]] + PascalJoin(s[1..])
  }

  predicate AllPascalSeparators(s: string) { forall i :: 0 <= i < |s| ==> IsPascalSeparator(s[i]) }

  /** The words, each after its own run of separators. */
  function RunSeparated(runs: seq<string>, ws: seq<string>): string
    requires |runs| == |ws|
  {
    if ws == [] then [] else runs[0] + ws[0] + RunSeparated(runs[1..], ws[1..])
  }

  lemma {:induction false} DropPascalRun(run: string, s: string)
    requires AllPascalSeparators(run) && (s == [] || !IsPascalSeparator(s[0]))
    ensures DropPascalSeparators(run + s) == s
  {
    if run == [] {
      assert run + s == s;
    } else {
      assert (run + s)[0] == run[0] && (run + s)[1..] == run[1..] + s;
      DropPascalRun(run[1..], s);
    }
  }

  /** Text without a separator passes through unchanged. */
  lemma {:induction false} PascalJoinPlain(w: string, s: string)
    requires NoPascalSeparator(w)
    ensures PascalJoin(w + s) == w + PascalJoin(s)
  {
    if w != [] {
      assert (w + s)[0] == w[0] && (w + s)[1..] == w[1..] + s;
      PascalJoinPlain(w[1..], s);
      ConsRest(w, PascalJoin(s));
    } else {
      assert w + s == s;
    }
  }

  /** A run of separators capitalises the character after it, or vanishes at the end. */
  lemma PascalJoinRun(run: string, s: string)
    requires run != [] && AllPascalSeparators(run) && (s == [] || !IsPascalSeparator(s[0]))
    ensures PascalJoin(run + s) == if s == [] then [] else [UpperChar(s[0])] + PascalJoin(s[1..])
  {
    assert (run + s)[0] == run[0] && (run + s)[1..] == run[1..] + s;
    DropPascalRun(run[1..], s);
  }

  /** Non-empty runs of separators before non-empty words without separators. */
  predicate PascalWords(runs: seq<string>, ws: seq<string>) {
    |runs| == |ws| &&
    forall i :: 0 <= i < |ws| ==>
      runs[i] != [] && AllPascalSeparators(runs[i]) && ws[i] != [] && NoPascalSeparator(ws[i])
  }

  lemma PascalWordsTail(runs: seq<string>, ws: seq<string>)
    requires ws != [] && PascalWords(runs, ws)
    ensures PascalWords(runs[1..], ws[1..])
    ensures runs[0] != [] && AllPascalSeparators(runs[0]) && ws[0] != [] && NoPascalSeparator(ws[0][1..])
    ensures !IsPascalSeparator(ws[0][0])
  {
    assert ws[0] == ws[0];
  }

  /** A run of separators before a word capitalises the word's first character. */
  lemma PascalJoinBefore(run: string, v: string, rest: string)
    requires run != [] && AllPascalSeparators(run) && v != [] && !IsPascalSeparator(v[0])
    ensures PascalJoin(run + v + rest) == [UpperChar(v[0])] + PascalJoin(v[1..] + rest)
  {
    assert run + v + rest == run + (v + rest);
    assert (v + rest)[0] == v[0] && (v + rest)[1..] == v[1..] + rest;
    PascalJoinRun(run, v + rest);
  }

  /** A trailing run of separators vanishes. */
  lemma PascalJoinTrailing(tail: string)
    requires AllPascalSeparators(tail)
    ensures PascalJoin(tail) == []
  {
    if tail != [] {
      PascalJoinRun(tail, []);
      assert tail + [] == tail;
    }
  }

  lemma Assoc(a: string, b: string, c: string)
    ensures a + b + c == a + (b + c)
  {
  }

  lemma Regroup(a: string, b: string, c: string, d: string)
    ensures a + b + c + d == a + b + (c + d)
  {
  }

  /** Words separated by runs of `-`, `_` or whitespace come out in Pascal case after the
      first word: every later word starts with a capital, and a trailing run vanishes. */
  lemma {:induction false} PascalJoinWords(w: string, runs: seq<string>, ws: seq<string>, tail: string)
    requires NoPascalSeparator(w) && AllPascalSeparators(tail) && PascalWords(runs, ws)
    ensures PascalJoin(w + RunSeparated(runs, ws) + tail) == w + UpperFirsts(ws)
    decreases |ws|
  {
    var body := RunSeparated(runs, ws) + tail;
    assert w + RunSeparated(runs, ws) + tail == w + body;
    PascalJoinPlain(w, body);
    if ws == [] {
      assert body == tail;
      PascalJoinTrailing(tail);
      assert w + [] == w;
    } else {
      var v := ws[0];
      PascalWordsTail(runs, ws);
      var later := RunSeparated(runs[1..], ws[1..]);
      assert RunSeparated(runs, ws) == runs[0] + v + later;
      Regroup(runs[0], v, later, tail);
      assert body == runs[0] + v + (later + tail);
      PascalJoinBefore(runs[0], v, later + tail);
      PascalJoinWords(v[1..], runs[1..], ws[1..], tail);
      Assoc(v[1..], later, tail);
      assert PascalJoin(body) == [UpperChar(v[0])] + (v[1..] + UpperFirsts(ws[1..]));
      UcfirstThen(v, UpperFirsts(ws[1..]));
    }
  }

  /** `pascalCase`: no separator or whitespace remains and the first character is not a
      lower-case letter. */
  function PascalCase(value: string): (r: string)
    ensures |r| <= |value|
    ensures NoPascalSeparator(r)
    ensures r != [] ==> !IsLower(r[0])
  {
    var j := PascalJoin(value);
    var r := Ucfirst(j);
    assert NoPascalSeparator(r) by {
      if j != [] {
        assert r[1..] == j[1..];
        forall i | 0 <= i < |r| ensures !IsPascalSeparator(r[i]) {
          if i > 0 { assert r[i] == j[1..][i - 1] == j[i]; }
        }
      }
    }
    r
  }

  const DefaultLimit := 100
  const DefaultEnd := "..."

  /** `limit(value, limit, end)`: a string over the limit is cut to its first `limit`
      characters (none for a negative limit) and `end` is appended. */
  function Limit(value: string, limit: int, end: string): (r: string)
    ensures |value| <= limit ==> r == value
    ensures |value| > limit ==>
      EndsWith(r, end) && |r| == (if limit < 0 then 0 else limit) + |end| && StartsWith(value, r[..|r| - |end|])
  {
    if |value| > limit then value[..if limit < 0 then 0 else limit] + end else value
  }

  /** `s` with its leading characters outside `[a-z0-9]` dropped. */
  function DropNonAlnum(s: string): (r: string)
    ensures |r| <= |s|
    ensures r == [] || IsAlnumLower(r[0])
  {
    if s != [] && !IsAlnumLower(s[0]) then DropNonAlnum(s[1..]) else s
  }

  /** The `[a-z0-9]` characters of `s`, in order. */
  function AlnumOf(s: string): (r: string)
    ensures forall i :: 0 <= i < |r| ==> IsAlnumLower(r[i])
  {
    if s == [] then [] else (if IsAlnumLower(s[0]) then [s[0]] else []) + AlnumOf(s[1..])
  }

  lemma AlnumOfCons(c: char, rest: string)
    ensures AlnumOf([c] + rest) == (if IsAlnumLower(c) then [c] else []) + AlnumOf(rest)
  {
    assert ([c] + rest)[0] == c && ([c] + rest)[1..] == rest;
  }

  /** Dropping leading characters outside `[a-z0-9]` keeps every `[a-z0-9]` character. */
  lemma {:induction false} AlnumOfDrop(s: string)
    ensures AlnumOf(DropNonAlnum(s)) == AlnumOf(s)
  {
    if s != [] && !IsAlnumLower(s[0]) {
      AlnumOfDrop(s[1..]);
    }
  }

  /** `replace(/[^a-z0-9]+/g, " ")`: every run outside `[a-z0-9]` becomes one space, and the
      `[a-z0-9]` characters stay, in order. */
  function NonAlnumToSpace(s: string): (r: string)
    ensures AlnumOrSpace(r) && SingleSpaced(r)
    ensures r != [] && r[0] == ' ' ==> s != [] && !IsAlnumLower(s[0])
    ensures AlnumOf(r) == AlnumOf(s)
    decreases |s|
  {
    if s == [] then []
    else if !IsAlnumLower(s[0]) then
      var rest := NonAlnumToSpace(DropNonAlnum(s[1..]));
      assert rest != [] ==> rest[0] != ' ';
      AlnumOfDrop(s[1..]);
      AlnumOfCons(' ', rest);
      " " + rest
    else
      var rest := NonAlnumToSpace(s[1..]);
      AlnumOfCons(s[0], rest);
      [s[0]] + rest
  }

  /** Each character, with every space written as `c`. */
  function SpacesAs(s: string, c: char): (r: string)
    ensures |r| == |s|
    ensures forall i :: 0 <= i < |s| ==> r[i] == if s[i] == ' ' then c else s[i]
  {
    if s == [] then [] else [if s[0] == ' ' then c else s[0]] + SpacesAs(s[1..], c)
  }

  lemma {:induction false} SpaceRunsOfSingle(s: string, c: char)
    requires AlnumOrSpace(s) && SingleSpaced(s)
    ensures ReplaceSpaceRuns(s, [c]) == SpacesAs(s, c)
  {
    if s != [] {
      SliceKeepsShape(s, 1, |s|);
      SpaceRunsOfSingle(s[1..], c);
      if IsSpace(s[0]) {
        assert |s| > 1 ==> !IsSpace(s[1]);
        assert DropSpaces(s[1..]) == s[1..];
        assert ReplaceSpaceRuns(s, [c]) == [c] + ReplaceSpaceRuns(s[1..], [c]);
      } else {
        assert ReplaceSpaceRuns(s, [c]) == [s[0]] + ReplaceSpaceRuns(s[1..], [c]);
      }
    }
  }

  const DefaultSeparator := "-"

  /** `slug(value, separator)`: lower-case, runs outside `[a-z0-9]` become one space, trim,
      then each space run becomes the separator. */
  function Slug(value: string, separator: string): string {
    ReplaceSpaceRuns(Trim(NonAlnumToSpace(Lower(value))), separator)
  }

  /** With a one-character separator outside `[a-z0-9]`, a slug is made of `[a-z0-9]` and the
      separator, neither starts nor ends with the separator, and never repeats it. */
  lemma SlugShape(value: string, c: char)
    requires !IsAlnumLower(c)
    ensures var r := Slug(value, [c]);
      (forall i :: 0 <= i < |r| ==> IsAlnumLower(r[i]) || r[i] == c) &&
      (r != [] ==> r[0] != c && r[|r| - 1] != c) &&
      (forall i :: 0 <= i < |r| - 1 ==> !(r[i] == c && r[i + 1] == c))
  {
    var t := Trim(NonAlnumToSpace(Lower(value)));
    assert Slug(value, [c]) == ReplaceSpaceRuns(t, [c]);
    assert AlnumOrSpace(t) && SingleSpaced(t) && Trimmed(t);
    SpacesAsShape(t, c);
  }

  /** Space runs become `c` in a trimmed, single-spaced text over `[a-z0-9 ]`. */
  lemma SpacesAsShape(t: string, c: char)
    requires !IsAlnumLower(c)
    requires AlnumOrSpace(t) && SingleSpaced(t) && Trimmed(t)
    ensures var r := ReplaceSpaceRuns(t, [c]);
      (forall i :: 0 <= i < |r| ==> IsAlnumLower(r[i]) || r[i] == c) &&
      (r != [] ==> r[0] != c && r[|r| - 1] != c) &&
      (forall i :: 0 <= i < |r| - 1 ==> !(r[i] == c && r[i + 1] == c))
  {
    SpaceRunsOfSingle(t, c);
    var r := SpacesAs(t, c);
    forall i | 0 <= i < |r| ensures (r[i] == c <==> t[i] == ' ') && (IsAlnumLower(r[i]) || r[i] == c) {
    }
  }

  /** `squish`: whitespace runs become one space, then trim; the characters other than
      whitespace stay, in their order. */
  function Squish(value: string): (r: string)
    ensures Trimmed(r) && SingleSpaced(r)
    ensures Visible(r) == Visible(value)
  {
    SpaceRunsSingle(value);
    VisibleSpaceRuns(value);
    VisibleTrim(ReplaceSpaceRuns(value, " "));
    Trim(ReplaceSpaceRuns(value, " "))
  }

  /** The characters of `s` other than whitespace, in order. */
  function Visible(s: string): (r: string)
    ensures NoSpace(r) && |r| <= |s|
  {
    if s == [] then [] else (if IsSpace(s[0]) then [] else [s[0]]) + Visible(s[1..])
  }

  lemma {:induction false} VisibleConcat(x: string, y: string)
    ensures Visible(x + y) == Visible(x) + Visible(y)
  {
    if x == [] {
      assert x + y == y;
    } else {
      assert (x + y)[0] == x[0] && (x + y)[1..] == x[1..] + y;
      VisibleConcat(x[1..], y);
    }
  }

  lemma {:induction false} VisibleAllSpace(s: string)
    requires AllSpace(s)
    ensures Visible(s) == []
  {
    if s != [] {
      VisibleAllSpace(s[1..]);
    }
  }

  /** Trimming removes whitespace only. */
  lemma VisibleTrim(s: string)
    ensures Visible(Trim(s)) == Visible(s)
  {
    var a, b :| 0 <= a <= b <= |s| && Trim(s) == s[a..b] && AllSpace(s[..a]) && AllSpace(s[b..]);
    assert s == s[..a] + s[a..b] + s[b..];
    VisibleConcat(s[..a] + s[a..b], s[b..]);
    VisibleConcat(s[..a], s[a..b]);
    VisibleAllSpace(s[..a]);
    VisibleAllSpace(s[b..]);
  }

  /** Dropping leading whitespace removes whitespace only. */
  lemma VisibleDropSpaces(s: string)
    ensures Visible(DropSpaces(s)) == Visible(s)
  {
    var t := DropSpaces(s);
    var k := |s| - |t|;
    assert s == s[..k] + t;
    VisibleConcat(s[..k], t);
    VisibleAllSpace(s[..k]);
  }

  /** Turning whitespace runs into single spaces removes whitespace only. */
  lemma {:induction false} VisibleSpaceRuns(s: string)
    ensures Visible(ReplaceSpaceRuns(s, " ")) == Visible(s)
    decreases |s|
  {
    if s != [] {
      if IsSpace(s[0]) {
        var t := DropSpaces(s[1..]);
        VisibleSpaceRuns(t);
        VisibleConcat(" ", ReplaceSpaceRuns(t, " "));
        VisibleDropSpaces(s[1..]);
      } else {
        VisibleSpaceRuns(s[1..]);
        VisibleConcat([s[0]], ReplaceSpaceRuns(s[1..], " "));
      }
    }
  }

  /** A character put in front of a single-spaced string keeps it single-spaced, unless it is
      a space other than ' ' or a space before another space. */
  lemma ConsSingle(c: char, t: string)
    requires SingleSpaced(t) && (IsSpace(c) ==> c == ' ' && (t == [] || !IsSpace(t[0])))
    ensures SingleSpaced([c] + t)
  {
    var s := [c] + t;
    forall i | 0 <= i < |s| && IsSpace(s[i]) ensures s[i] == ' ' && (i + 1 < |s| ==> !IsSpace(s[i + 1])) {
      if i > 0 {
        assert s[i] == t[i - 1];
        if i + 1 < |s| {
          assert s[i + 1] == t[i];
        }
      } else if i + 1 < |s| {
        assert s[i + 1] == t[0];
      }
    }
  }

  lemma {:induction false} SpaceRunsSingle(s: string)
    ensures SingleSpaced(ReplaceSpaceRuns(s, " "))
    ensures ReplaceSpaceRuns(s, " ") != [] && IsSpace(ReplaceSpaceRuns(s, " ")[0]) ==> s != [] && IsSpace(s[0])
    decreases |s|
  {
    if s != [] {
      if IsSpace(s[0]) {
        var rest := DropSpaces(s[1..]);
        SpaceRunsSingle(rest);
        var t := ReplaceSpaceRuns(rest, " ");
        assert ReplaceSpaceRuns(s, " ") == " " + t;
        ConsSingle(' ', t);
      } else {
        SpaceRunsSingle(s[1..]);
        var t := ReplaceSpaceRuns(s[1..], " ");
        assert ReplaceSpaceRuns(s, " ") == [s[0]] + t;
        ConsSingle(s[0], t);
      }
    }
  }

  lemma {:induction false} SpaceRunsOfSingleSpaced(s: string)
    requires SingleSpaced(s)
    ensures ReplaceSpaceRuns(s, " ") == s
  {
    if s != [] {
      if IsSpace(s[0]) {
        assert DropSpaces(s[1..]) == s[1..];
      }
      SliceKeepsShape(s, 1, |s|);
      SpaceRunsOfSingleSpaced(s[1..]);
    }
  }

  lemma TrimOfTrimmed(s: string)
    requires Trimmed(s)
    ensures Trim(s) == s
  {
  }

  lemma SquishIdempotent(value: string)
    ensures Squish(Squish(value)) == Squish(value)
  {
    var t := Squish(value);
    SpaceRunsOfSingleSpaced(t);
    TrimOfTrimmed(t);
  }

  /** `replaceFirst`: unchanged when `search` does not occur; otherwise its first occurrence
      is replaced. */
  function ReplaceFirst(value: string, search: string, replace: string): (r: string)
    ensures !Contains(value, search) ==> r == value
    ensures Contains(value, search) ==>
      exists i :: OccursAt(value, search, i) && (forall j :: 0 <= j < i ==> !OccursAt(value, search, j)) &&
        r == value[..i] + replace + value[i + |search|..]
    ensures Contains(value, search) ==> |r| == |value| - |search| + |replace|
  {
    var index := IndexOf(value, search);
    if index == -1 then value else value[..index] + replace + value[index + |search|..]
  }

  /** `replaceLast`: unchanged when `search` does not occur; otherwise its last occurrence is
      replaced. */
  function ReplaceLast(value: string, search: string, replace: string): (r: string)
    ensures !Contains(value, search) ==> r == value
    ensures Contains(value, search) ==>
      exists i :: OccursAt(value, search, i) && (forall j :: i < j ==> !OccursAt(value, search, j)) &&
        r == value[..i] + replace + value[i + |search|..]
    ensures Contains(value, search) ==> |r| == |value| - |search| + |replace|
  {
    var index := LastIndexOf(value, search);
    if index == -1 then value else value[..index] + replace + value[index + |search|..]
  }

  /** Replacing the first occurrence by itself changes nothing. */
  lemma ReplaceFirstBySelf(value: string, search: string)
    ensures ReplaceFirst(value, search, search) == value
  {
    var i := IndexOf(value, search);
    if i != -1 {
      assert value == value[..i] + value[i..i + |search|] + value[i + |search|..];
    }
  }

  /** Replacing the last occurrence by itself changes nothing. */
  lemma ReplaceLastBySelf(value: string, search: string)
    ensures ReplaceLast(value, search, search) == value
  {
    var i := LastIndexOf(value, search);
    if i != -1 {
      assert value == value[..i] + value[i..i + |search|] + value[i + |search|..];
    }
  }

  /** `split("").reverse().join("")`. */
  function Reverse(value: string): (r: string)
    ensures |r| == |value|
    ensures forall i :: 0 <= i < |value| ==> r[i] == value[|value| - 1 - i]
  {
    if value == [] then [] else Reverse(value[1..]) + [value[0]]
  }

  lemma ReverseInvolution(value: string)
    ensures Reverse(Reverse(value)) == value
  {
  }

  /** `plural`. */
  function Plural(value: string): (r: string)
    ensures EndsWith(r, "s")
    ensures EndsWith(value, "y") ==> r == value[..|value| - 1] + "ies"
    ensures !EndsWith(value, "y") && (EndsWith(value, "s") || EndsWith(value, "sh") || EndsWith(value, "ch")) ==>
              r == value + "es"
    ensures !EndsWith(value, "y") && !EndsWith(value, "s") && !EndsWith(value, "sh") && !EndsWith(value, "ch") ==>
              r == value + "s"
  {
    if EndsWith(value, "y") then value[..|value| - 1] + "ies"
    else if EndsWith(value, "s") || EndsWith(value, "sh") || EndsWith(value, "ch") then value + "es"
    else value + "s"
  }

  /** `singular`. */
  function Singular(value: string): (r: string)
    ensures EndsWith(value, "ies") ==> r == value[..|value| - 3] + "y"
    ensures !EndsWith(value, "ies") && EndsWith(value, "es") ==> r == value[..|value| - 2]
    ensures !EndsWith(value, "es") && EndsWith(value, "s") && !EndsWith(value, "ss") ==> r == value[..|value| - 1]
    ensures !EndsWith(value, "s") || (EndsWith(value, "ss") && !EndsWith(value, "es")) ==> r == value
  {
    if EndsWith(value, "ies") then value[..|value| - 3] + "y"
    else if EndsWith(value, "es") then value[..|value| - 2]
    else if EndsWith(value, "s") && !EndsWith(value, "ss") then value[..|value| - 1]
    else value
  }

  /** `singular` undoes `plural` for every word that does not end in `e` (for those, the
      `es` that `plural` never added is stripped). */
  lemma SingularOfPlural(value: string)
    requires !EndsWith(value, "e")
    ensures Singular(Plural(value)) == value
  {
    var n := |value|;
    if EndsWith(value, "y") {
      SingularIes(value[..n - 1]);
      assert value == value[..n - 1] + "y";
    } else if EndsWith(value, "s") || EndsWith(value, "sh") || EndsWith(value, "ch") {
      SingularEs(value);
    } else {
      SingularS(value);
    }
  }

  lemma SingularIes(stem: string)
    ensures Singular(stem + "ies") == stem + "y"
  {
    var p := stem + "ies";
    assert p[|p| - 3..] == "ies";
    assert p[..|p| - 3] == stem;
  }

  lemma SingularEs(value: string)
    requires EndsWith(value, "s") || EndsWith(value, "sh") || EndsWith(value, "ch")
    ensures Singular(value + "es") == value
  {
    var p := value + "es";
    assert value[|value| - 1] == 's' || value[|value| - 1] == 'h';
    assert p[|p| - 3] == value[|value| - 1];
    assert !EndsWith(p, "ies");
    assert p[|p| - 2..] == "es";
    assert p[..|p| - 2] == value;
  }

  lemma SingularS(value: string)
    requires !EndsWith(value, "e") && !EndsWith(value, "s")
    ensures Singular(value + "s") == value
  {
    var p := value + "s";
    if |p| >= 2 {
      assert p[|p| - 2] == value[|value| - 1];
      assert value[|value| - 1..] == [value[|value| - 1]];
    }
    assert !EndsWith(p, "es") && !EndsWith(p, "ss");
    assert !EndsWith(p, "ies");
    assert p[..|p| - 1] == value;
  }

  /** `containsAny`: some search occurs. */
  function ContainsAny(value: string, searches: seq<string>): (r: bool)
    ensures r <==> exists i :: 0 <= i < |searches| && Contains(value, searches[i])
  {
    if searches == [] then false
    else Contains(value, searches[0]) || ContainsAny(value, searches[1..])
  }

  /** `containsAll`: every search occurs (so an empty list holds). */
  function ContainsAll(value: string, searches: seq<string>): (r: bool)
    ensures r <==> forall i :: 0 <= i < |searches| ==> Contains(value, searches[i])
  {
    if searches == [] then true
    else Contains(value, searches[0]) && ContainsAll(value, searches[1..])
  }

  /** `startsWith` and `endsWith` are occurrences of the search at either end, so each implies
      `contains`; the empty search is found everywhere. */
  lemma AffixesOccur(value: string, search: string)
    ensures StartsWith(value, search) <==> OccursAt(value, search, 0)
    ensures EndsWith(value, search) <==> OccursAt(value, search, |value| - |search|)
    ensures StartsWith(value, search) || EndsWith(value, search) ==> Contains(value, search)
    ensures Contains(value, "") && StartsWith(value, "") && EndsWith(value, "")
  {
    assert OccursAt(value, "", 0);
    if StartsWith(value, search) {
      assert OccursAt(value, search, 0);
    }
    if EndsWith(value, search) {
      assert OccursAt(value, search, |value| - |search|);
    }
  }

  /** `padLeft`: long enough strings are unchanged; otherwise the pad is repeated in front,
      `length - |value|` times. */
  function PadLeft(value: string, length: int, pad: string): (r: string)
    ensures |value| >= length ==> r == value
    ensures EndsWith(r, value)
    ensures |value| < length && |pad| == 1 ==> |r| == length
    ensures |value| < length ==> |r| == |pad| * (length - |value|) + |value|
    ensures |value| < length && |pad| > 0 ==> forall i :: 0 <= i < |r| - |value| ==> r[i] == pad[i % |pad|]
  {
    if |value| >= length then value
    else
      var p := Repeat(pad, length - |value|);
      assert (p + value)[|p|..] == value;
      assert forall i :: 0 <= i < |p| ==> (p + value)[i] == p[i];
      RepeatEach(pad, length - |value|);
      p + value
  }

  /** `padRight`: long enough strings are unchanged; otherwise the pad is repeated behind,
      `length - |value|` times. */
  function PadRight(value: string, length: int, pad: string): (r: string)
    ensures |value| >= length ==> r == value
    ensures StartsWith(r, value)
    ensures |value| < length && |pad| == 1 ==> |r| == length
    ensures |value| < length ==> |r| == |value| + |pad| * (length - |value|)
    ensures |value| < length && |pad| > 0 ==> forall i :: |value| <= i < |r| ==> r[i] == pad[(i - |value|) % |pad|]
  {
    if |value| >= length then value
    else
      var p := Repeat(pad, length - |value|);
      assert forall i :: |value| <= i < |value| + |p| ==> (value + p)[i] == p[i - |value|];
      RepeatEach(pad, length - |value|);
      value + p
  }

  /** Every character of a repeated text is the pad's character at that position modulo its
      length. */
  lemma RepeatEach(pad: string, n: nat)
    ensures |pad| > 0 ==> forall i :: 0 <= i < |Repeat(pad, n)| ==> Repeat(pad, n)[i] == pad[i % |pad|]
  {
    if |pad| > 0 {
      forall i | 0 <= i < |Repeat(pad, n)| ensures Repeat(pad, n)[i] == pad[i % |pad|] {
        RepeatAt(pad, n, i);
      }
    }
  }

  /** `split(c)`: the pieces between the occurrences of `c`. */
  function Split(s: string, c: char): (r: seq<string>)
    ensures |r| > 0
    ensures forall i :: 0 <= i < |r| ==> c !in r[i]
  {
    if s == [] then [""]
    else if s[0] == c then [""] + Split(s[1..], c)
    else
      var rest := Split(s[1..], c);
      [[s[0]] + rest[0]] + rest[1..]
  }

  function UcfirstEach(words: seq<string>): (r: seq<string>)
    ensures |r| == |words|
    ensures forall i :: 0 <= i < |words| ==> r[i] == Ucfirst(words[i])
  {
    if words == [] then [] else [Ucfirst(words[0])] + UcfirstEach(words[1..])
  }

  /** `title`: lower-case, split on spaces, capitalise each word, join with spaces. */
  function Title(value: string): (r: string)
    ensures r == TitleChars(Lower(value), true)
  {
    TitleSplit(Lower(value), true);
    Join(UcfirstEach(Split(Lower(value), ' ')), " ")
  }

  /** The reference reading of `title`, character by character: a character is capitalised
      exactly when it starts the text or follows a space. */
  function TitleChars(s: string, atStart: bool): (r: string)
    ensures |r| == |s|
    ensures forall i :: 0 <= i < |s| ==>
      r[i] == if (i == 0 && atStart) || (i > 0 && s[i - 1] == ' ') then UpperChar(s[i]) else s[i]
  {
    if s == [] then [] else [if atStart then UpperChar(s[0]) else s[0]] + TitleChars(s[1..], s[0] == ' ')
  }

  /** The pieces with every one capitalised, or every one but the first. */
  function CapitalisePieces(words: seq<string>, first: bool): seq<string>
    requires |words| > 0
  {
    if first then UcfirstEach(words) else [words[0]] + UcfirstEach(words[1..])
  }

  lemma JoinConsFirst(c: char, x: string, t: seq<string>, sep: string)
    ensures Join([[c] + x] + t, sep) == [c] + Join([x] + t, sep)
  {
    if t != [] {
      assert ([[c] + x] + t)[1..] == t;
      assert ([x] + t)[1..] == t;
      assert ([c] + x) + sep + Join(t, sep) == [c] + (x + sep + Join(t, sep));
    }
  }

  lemma TitleCharsCons(s: string, first: bool)
    requires s != []
    ensures TitleChars(s, first) == [if first then UpperChar(s[0]) else s[0]] + TitleChars(s[1..], s[0] == ' ')
  {
  }

  lemma JoinAfterEmpty(u: seq<string>, sep: string)
    requires |u| > 0
    ensures Join([""] + u, sep) == sep + Join(u, sep)
  {
    assert ([""] + u)[1..] == u;
  }

  /** Splitting on spaces, capitalising the pieces and joining them back capitalises each
      character that starts the text (when `first`) or follows a space. */
  lemma {:induction false} TitleSplit(s: string, first: bool)
    ensures Join(CapitalisePieces(Split(s, ' '), first), " ") == TitleChars(s, first)
    decreases |s|
  {
    if s != [] {
      var rest := Split(s[1..], ' ');
      TitleCharsCons(s, first);
      if s[0] == ' ' {
        TitleSplit(s[1..], true);
        var u := UcfirstEach(rest);
        assert Split(s, ' ') == [""] + rest;
        assert CapitalisePieces(Split(s, ' '), first) == [""] + u by {
          if first {
            assert ([""] + rest)[1..] == rest;
          }
        }
        JoinAfterEmpty(u, " ");
        assert UpperChar(' ') == ' ';
      } else {
        TitleSplit(s[1..], false);
        var c := if first then UpperChar(s[0]) else s[0];
        assert Split(s, ' ') == [[s[0]] + rest[0]] + rest[1..];
        assert CapitalisePieces(Split(s, ' '), first) == [[c] + rest[0]] + UcfirstEach(rest[1..]);
        assert CapitalisePieces(rest, false) == [rest[0]] + UcfirstEach(rest[1..]);
        JoinConsFirst(c, rest[0], UcfirstEach(rest[1..]), " ");
      }
    }
  }
}

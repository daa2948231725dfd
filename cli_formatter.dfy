/** `cli_formatter.ts`: ANSI colouring of console text, and the rendering of a nested record
    as one dotted line per leaf. */
module CliFormatter {
  import opened Wrappers
  import opened Text
  import opened Js
  import Str

  const Esc: char := '\U{1B}'

  /** The escape sequence `ESC [ <code> m`. */
  function Sgr(code: string): (r: string)
    ensures |r| > 0 && r[0] == Esc
  {
    [Esc] + "[" + code + "m"
  }

  const Reset := Sgr("0")

  /** The named colours of `colorize`. */
  function ColorCode(color: string): (r: Option<string>)
    ensures r.Some? ==> |r.value| > 0 && r.value[0] == Esc
  {
    match color
    case "reset" => Some(Sgr("0"))
    case "red" => Some(Sgr("31"))
    case "green" => Some(Sgr("32"))
    case "yellow" => Some(Sgr("33"))
    case "blue" => Some(Sgr("34"))
    case "magenta" => Some(Sgr("35"))
    case "cyan" => Some(Sgr("36"))
    case "white" => Some(Sgr("37"))
    case "gray" => Some(Sgr("90"))
    case _ => None
  }

  /** The named styles of `colorize`. */
  function StyleCode(style: string): Option<string> {
    match style
    case "bold" => Some(Sgr("1"))
    case "dim" => Some(Sgr("2"))
    case "italic" => Some(Sgr("3"))
    case "underline" => Some(Sgr("4"))
    case _ => None
  }

  /** `${styles[style]}` for a given, non-empty style: an unknown one is `undefined`, which
      the template writes out as the text "undefined". */
  function StylePrefix(style: Option<string>): (r: string)
    ensures style.None? || style.value == "" ==> r == ""
    ensures style.Some? && StyleCode(style.value).Some? ==> r == StyleCode(style.value).value
    ensures style.Some? && style.value != "" && StyleCode(style.value).None? ==> r == "undefined"
  {
    if style.None? || style.value == "" then ""
    else StyleCode(style.value).GetOr("undefined")
  }

  /** `colorize(text, color, style)`: the style code, the colour code (nothing for an unknown
      colour), the text, and the reset code, which always ends the result. */
  function Colorize(text: string, color: string, style: Option<string>): (r: string)
    ensures EndsWith(r, text + Reset)
    ensures StartsWith(r, StylePrefix(style))
    ensures ColorCode(color).None? ==> r == StylePrefix(style) + text + Reset
    ensures ColorCode(color).Some? ==> r == StylePrefix(style) + ColorCode(color).value + text + Reset
  {
    var p, c := StylePrefix(style), ColorCode(color).GetOr("");
    var r := p + c + text + Reset;
    Assoc(p + c, text, Reset);
    SuffixOfConcat(p + c, text + Reset);
    Assoc(p, c, text + Reset);
    PrefixOfConcat(p, c + (text + Reset));
    r
  }

  /** The style code as evidently meant: an unknown style contributes nothing. */
  function IntendedStylePrefix(style: Option<string>): (r: string)
    ensures style.Some? && StyleCode(style.value).Some? ==> r == StyleCode(style.value).value
    ensures style.None? || StyleCode(style.value).None? ==> r == ""
  {
    if style.None? || style.value == "" then "" else StyleCode(style.value).GetOr("")
  }

  /** `colorize` with an unknown style treated like an unknown colour: it contributes nothing.
      It agrees with `Colorize` on every known style and on no style. */
  function ColorizeIntended(text: string, color: string, style: Option<string>): (r: string)
    ensures EndsWith(r, text + Reset)
    ensures style.Some? && StyleCode(style.value).None? ==> r == Colorize(text, color, None)
    ensures style.None? || StyleCode(style.value).Some? ==> r == Colorize(text, color, style)
  {
    var p, c := IntendedStylePrefix(style), ColorCode(color).GetOr("");
    var r := p + c + text + Reset;
    Assoc(p + c, text, Reset);
    SuffixOfConcat(p + c, text + Reset);
    r
  }

  /** As written, an unknown style puts the word "undefined" in front of the coloured text. */
  lemma UnknownStyleLeaks(text: string)
    ensures StartsWith(Colorize(text, "red", Some("blink")), "undefined")
    ensures ColorizeIntended(text, "red", Some("blink")) == Sgr("31") + text + Reset
  {
    var r := Colorize(text, "red", Some("blink"));
    assert StylePrefix(Some("blink")) == "undefined";
  }

  /** `printHeader(text)`: the line written, a blank line then the text in bold magenta. */
  function Header(text: string): (r: string)
    ensures StartsWith(r, "\n" + Sgr("1") + Sgr("35") + text)
    ensures EndsWith(r, text + Reset)
  {
    var b, m := Sgr("1"), Sgr("35");
    assert StylePrefix(Some("bold")) == b && ColorCode("magenta") == Some(m);
    var r := "\n" + Colorize(text, "magenta", Some("bold"));
    var h := "\n" + b + m;
    assert r == (h + text) + Reset;
    PrefixOfConcat(h + text, Reset);
    Assoc(h, text, Reset);
    SuffixOfConcat(h, text + Reset);
    r
  }

  /** `printError(message)`: a bold red "Error: " tag, the colours reset, then the message. */
  function ErrorLine(message: string): (r: string)
    ensures StartsWith(r, Sgr("1") + Sgr("31") + "Error: " + Reset)
    ensures EndsWith(r, Reset + message)
  {
    var b, red := Sgr("1"), Sgr("31");
    assert StylePrefix(Some("bold")) == b && ColorCode("red") == Some(red);
    var tag := Colorize("Error: ", "red", Some("bold"));
    assert tag == b + red + "Error: " + Reset;
    var r := tag + message;
    PrefixOfConcat(tag, message);
    Assoc(b + red + "Error: ", Reset, message);
    SuffixOfConcat(b + red + "Error: ", Reset + message);
    r
  }

  // ---- formatOutput ----

  /** The codes `formatOutput` uses: empty strings when colours are off. */
  function Code(colors: bool, code: string): (r: string)
    ensures colors ==> r == Sgr(code)
    ensures !colors ==> r == ""
  {
    if colors then Sgr(code) else ""
  }

  /** How a leaf value is shown: `true` in green, `false` in red, numbers in yellow, each
      followed by a reset, and anything else as `String(value)`; without colours every value
      is exactly `String(value)`. */
  function FormatValue(v: Value, colors: bool): (r: string)
    ensures v.Bool? ==> r == Code(colors, if v.b then "32" else "31") + ToText(v) + Code(colors, "0")
    ensures v.Num? ==> r == Code(colors, "33") + ToText(v) + Code(colors, "0")
    ensures !v.Bool? && !v.Num? ==> r == ToText(v)
    ensures !colors ==> r == ToText(v)
  {
    match v
    case Bool(b) =>
      if b then Code(colors, "32") + "true" + Code(colors, "0") else Code(colors, "31") + "false" + Code(colors, "0")
    case Num(n) => Code(colors, "33") + IntToString(n) + Code(colors, "0")
    case _ => ToText(v)
  }

  /** The key of an entry below `parentKey`: `parentKey-> key`, or `key` at the top. */
  function FullKey(parentKey: string, key: string): (r: string)
    ensures parentKey == "" ==> r == key
    ensures parentKey != "" ==> StartsWith(r, parentKey + "-> ") && EndsWith(r, key)
  {
    var r := if parentKey != "" then parentKey + "-> " + key else key;
    assert parentKey != "" ==> r[..|parentKey + "-> "|] == parentKey + "-> ";
    assert r[|r| - |key|..] == key;
    r
  }

  /** A leaf line: the full key padded with dots to `space` characters, a space, the value. */
  function LeafLine(fullKey: string, v: Value, colors: bool, space: int): (r: string)
    ensures StartsWith(r, fullKey)
    ensures EndsWith(r, " " + FormatValue(v, colors))
    ensures |fullKey| < space ==> |r| == space + 1 + |FormatValue(v, colors)|
    ensures |fullKey| >= space ==> r == fullKey + " " + FormatValue(v, colors)
  {
    var padded := Str.PadRight(fullKey, space, ".");
    var shown := " " + FormatValue(v, colors);
    var r := padded + shown;
    PrefixOfConcat(padded, shown);
    PrefixTrans(r, padded, fullKey);
    SuffixOfConcat(padded, shown);
    r
  }

  /** `formatOutput(sections, colors, space, parentKey)`: the entries' lines joined by
      newlines, a nested object or array contributing its own formatted block. */
  function FormatOutput(sections: Value, colors: bool, space: int, parentKey: string): string
    requires IsObject(sections)
    decreases sections, 1
  {
    Join(EntryLines(sections, Entries(sections), 0, colors, space, parentKey), "\n")
  }

  /** The element `output.push` receives for each entry from the `i`-th on. */
  function EntryLines(sections: Value, es: Props, i: nat, colors: bool, space: int, parentKey: string): (r: seq<string>)
    requires IsObject(sections) && es == Entries(sections) && i <= |es|
    ensures |r| == |es| - i
    decreases sections, 0, |es| - i
  {
    if i == |es| then []
    else
      var value := es[i].1;
      assert value < sections by { EntryBelow(sections, es, i); }
      var fullKey := FullKey(parentKey, es[i].0);
      var line :=
        if IsObject(value) then FormatOutput(value, colors, space, fullKey)
        else LeafLine(fullKey, value, colors, space);
      [line] + EntryLines(sections, es, i + 1, colors, space, parentKey)
  }

  lemma EntryBelow(sections: Value, es: Props, i: nat)
    requires IsObject(sections) && es == Entries(sections) && i < |es|
    ensures es[i].1 < sections
  {
    if sections.Obj? {
      assert es[i] in sections.props;
    } else {
      assert es[i].1 == sections.items[i];
    }
  }

  /** The output as one flat list of lines, independently of the nesting: a leaf line per
      leaf, under its full key path, and one empty line for an empty nested object. */
  function FlatLines(sections: Value, colors: bool, space: int, parentKey: string): seq<string>
    requires IsObject(sections)
    decreases sections, 1
  {
    FlatFrom(sections, Entries(sections), 0, colors, space, parentKey)
  }

  function FlatFrom(sections: Value, es: Props, i: nat, colors: bool, space: int, parentKey: string): (r: seq<string>)
    requires IsObject(sections) && es == Entries(sections) && i <= |es|
    ensures r == [] <==> i == |es|
    decreases sections, 0, |es| - i
  {
    if i == |es| then []
    else
      var value := es[i].1;
      assert value < sections by { EntryBelow(sections, es, i); }
      var fullKey := FullKey(parentKey, es[i].0);
      var lines :=
        if IsObject(value) then OrBlank(FlatLines(value, colors, space, fullKey))
        else [LeafLine(fullKey, value, colors, space)];
      lines + FlatFrom(sections, es, i + 1, colors, space, parentKey)
  }

  function OrBlank(lines: seq<string>): (r: seq<string>)
    ensures r != []
    ensures Join(r, "\n") == Join(lines, "\n")
  {
    if lines == [] then [""] else lines
  }

  /** `formatOutput` is the flat list of lines joined by newlines. */
  lemma {:induction false} FormatIsFlat(sections: Value, colors: bool, space: int, parentKey: string)
    requires IsObject(sections)
    ensures FormatOutput(sections, colors, space, parentKey) == Join(FlatLines(sections, colors, space, parentKey), "\n")
    decreases sections, 1
  {
    EntriesAreFlat(sections, Entries(sections), 0, colors, space, parentKey);
  }

  lemma {:induction false} EntriesAreFlat(sections: Value, es: Props, i: nat, colors: bool, space: int, parentKey: string)
    requires IsObject(sections) && es == Entries(sections) && i <= |es|
    ensures Join(EntryLines(sections, es, i, colors, space, parentKey), "\n") == Join(FlatFrom(sections, es, i, colors, space, parentKey), "\n")
    decreases sections, 0, |es| - i
  {
    if i < |es| {
      var value := es[i].1;
      EntryBelow(sections, es, i);
      var fullKey := FullKey(parentKey, es[i].0);
      var e := EntryLines(sections, es, i, colors, space, parentKey);
      var f := FlatFrom(sections, es, i, colors, space, parentKey);
      var er := EntryLines(sections, es, i + 1, colors, space, parentKey);
      var fr := FlatFrom(sections, es, i + 1, colors, space, parentKey);
      var c :=
        if IsObject(value) then OrBlank(FlatLines(value, colors, space, fullKey))
        else [LeafLine(fullKey, value, colors, space)];
      assert e == [e[0]] + er;
      assert f == c + fr;
      assert Join(c, "\n") == e[0] by {
        if IsObject(value) {
          FormatIsFlat(value, colors, space, fullKey);
        }
      }
      EntriesAreFlat(sections, es, i + 1, colors, space, parentKey);
      if i + 1 == |es| {
        assert e == [e[0]];
        assert f == c;
      } else {
        JoinAppend([e[0]], er, "\n");
        JoinAppend(c, fr, "\n");
      }
    }
  }

  /** Every line is empty or starts with `prefix`. */
  predicate AllUnder(lines: seq<string>, prefix: string) {
    forall k :: 0 <= k < |lines| ==> lines[k] == "" || StartsWith(lines[k], prefix)
  }

  /** Below a parent key, every line of the output is empty (an empty nested object) or
      starts with that key and the `-> ` separator. */
  lemma {:induction false} LinesUnderParent(sections: Value, colors: bool, space: int, parentKey: string)
    requires IsObject(sections) && parentKey != ""
    ensures AllUnder(FlatLines(sections, colors, space, parentKey), parentKey + "-> ")
    decreases sections, 1
  {
    FromUnderParent(sections, Entries(sections), 0, colors, space, parentKey);
  }

  lemma {:induction false} FromUnderParent(sections: Value, es: Props, i: nat, colors: bool, space: int, parentKey: string)
    requires IsObject(sections) && es == Entries(sections) && i <= |es| && parentKey != ""
    ensures AllUnder(FlatFrom(sections, es, i, colors, space, parentKey), parentKey + "-> ")
    decreases sections, 0, |es| - i
  {
    if i < |es| {
      var value := es[i].1;
      EntryBelow(sections, es, i);
      var p := parentKey + "-> ";
      var fullKey := FullKey(parentKey, es[i].0);
      var c :=
        if IsObject(value) then OrBlank(FlatLines(value, colors, space, fullKey))
        else [LeafLine(fullKey, value, colors, space)];
      var rest := FlatFrom(sections, es, i + 1, colors, space, parentKey);
      assert FlatFrom(sections, es, i, colors, space, parentKey) == c + rest;
      FromUnderParent(sections, es, i + 1, colors, space, parentKey);
      if IsObject(value) {
        LinesUnderParent(value, colors, space, fullKey);
        PrefixOfConcat(fullKey, "-> ");
        PrefixTrans(fullKey + "-> ", fullKey, p);
        UnderWeaken(FlatLines(value, colors, space, fullKey), fullKey + "-> ", p);
      } else {
        PrefixTrans(c[0], fullKey, p);
      }
      UnderConcat(c, rest, p);
    }
  }

  lemma UnderWeaken(lines: seq<string>, q: string, p: string)
    requires AllUnder(lines, q) && StartsWith(q, p)
    ensures AllUnder(lines, p) && AllUnder(OrBlank(lines), p)
  {
    forall k | 0 <= k < |lines| && lines[k] != ""
      ensures StartsWith(lines[k], p)
    {
      PrefixTrans(lines[k], q, p);
    }
  }

  lemma UnderConcat(a: seq<string>, b: seq<string>, p: string)
    requires AllUnder(a, p) && AllUnder(b, p)
    ensures AllUnder(a + b, p)
  {
    forall k | 0 <= k < |a + b|
      ensures (a + b)[k] == "" || StartsWith((a + b)[k], p)
    {
      if k >= |a| {
        assert (a + b)[k] == b[k - |a|];
      }
    }
  }

  lemma PrefixTrans(s: string, t: string, u: string)
    requires StartsWith(s, t) && StartsWith(t, u)
    ensures StartsWith(s, u)
  {
    assert s[..|u|] == t[..|u|];
  }
}

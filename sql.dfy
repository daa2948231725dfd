/** What the query builders and the schema facade hand to a database adapter, and the two
    placeholder conventions they write: `?` (MySQL, SQLite) and `$n` (PostgreSQL). */
module Sql {
  import opened Wrappers
  import opened Text
  import Js

  /** A row returned by the driver: a plain object. */
  type Row = Js.Props

  /** One call on the adapter: `adapter.query(sql, params)` or `adapter.execute(sql, params)`. */
  datatype Call = Query(sql: string, params: seq<Js.Value>) | Execute(sql: string, params: seq<Js.Value>)

  /** The adapter's answer to one call: the result rows, or the error it threw. */
  type Answer = Result<seq<Row>>

  /** The outcome of a call whose rows are not used. */
  function Done(answer: Answer): (r: Result<()>)
    ensures r.Err? <==> answer.Err?
    ensures r.Err? ==> r.error == answer.error
  {
    if answer.Err? then Err(answer.error) else Ok(())
  }

  /** The number of `?` placeholders in a statement. */
  function QMarks(s: string): nat { CountChar(s, '?') }

  /** The maximal run of digits at the start of `s`. */
  function DigitRun(s: string): (r: string)
    ensures |r| <= |s|
    ensures AllDigits(r)
  {
    if s != [] && IsDigit(s[0]) then [s[0]] + DigitRun(s[1..]) else []
  }

  /** The value of a decimal numeral. */
  function ParseNat(s: string): nat
    requires AllDigits(s)
  {
    if s == [] then 0 else 10 * ParseNat(s[..|s| - 1]) + (s[|s| - 1] as int - '0' as int)
  }

  /** The numbers of the `$n` placeholders of a statement, in textual order: each `$` followed
      by at least one digit contributes the number its maximal digit run spells. */
  function DollarNumbers(s: string): seq<nat>
    decreases |s|
  {
    if s == [] then []
    else if s[0] == '$' && |DigitRun(s[1..])| > 0 then
      var run := DigitRun(s[1..]);
      [ParseNat(run)] + DollarNumbers(s[1 + |run|..])
    else DollarNumbers(s[1..])
  }

  /** The numbers `lo, lo + 1, …, lo + n - 1`. */
  function Numerals(lo: int, n: nat): (r: seq<int>)
    ensures |r| == n
    ensures forall i :: 0 <= i < n ==> r[i] == lo + i
  {
    seq(n, i requires 0 <= i < n => lo + i)
  }

  /** A text after which nothing can extend a digit run. */
  predicate DigitSafe(b: string) { b == [] || !IsDigit(b[0]) }

  lemma {:induction false} ParseNatToString(n: nat)
    ensures ParseNat(NatToString(n)) == n
  {
    var s := NatToString(n);
    if n >= 10 {
      ParseNatToString(n / 10);
      assert s[..|s| - 1] == NatToString(n / 10);
    }
  }

  lemma {:induction false} DigitRunDigits(s: string)
    requires AllDigits(s)
    ensures DigitRun(s) == s
  {
    if s != [] {
      DigitRunDigits(s[1..]);
    }
  }

  lemma {:induction false} DigitRunConcat(x: string, b: string)
    requires DigitSafe(b)
    ensures DigitRun(x + b) == DigitRun(x)
  {
    if x == [] {
      assert x + b == b;
    } else {
      assert (x + b)[0] == x[0];
      assert (x + b)[1..] == x[1..] + b;
      if IsDigit(x[0]) {
        DigitRunConcat(x[1..], b);
      }
    }
  }

  /** Concatenation splits the placeholder numbers when the right part cannot extend a numeral. */
  lemma DollarHead(s: string, run: string)
    requires s != [] && s[0] == '$' && run == DigitRun(s[1..]) && |run| > 0
    ensures DollarNumbers(s) == [ParseNat(run)] + DollarNumbers(s[1 + |run|..])
  {
  }

  lemma DollarPass(s: string)
    requires s != [] && !(s[0] == '$' && |DigitRun(s[1..])| > 0)
    ensures DollarNumbers(s) == DollarNumbers(s[1..])
  {
  }

  lemma {:induction false} DollarConcat(a: string, b: string)
    requires DigitSafe(b)
    ensures DollarNumbers(a + b) == DollarNumbers(a) + DollarNumbers(b)
    decreases |a|
  {
    if a == [] {
      assert a + b == b;
    } else {
      var s := a + b;
      var tail := a[1..];
      DropConcat(a, b, 1);
      assert s[0] == a[0];
      DigitRunConcat(tail, b);
      var run := DigitRun(tail);
      if a[0] == '$' && |run| > 0 {
        var rest := a[1 + |run|..];
        DropConcat(a, b, 1 + |run|);
        DollarConcat(rest, b);
        DollarHead(s, run);
        DollarHead(a, run);
        var p, x, y := [ParseNat(run)], DollarNumbers(rest), DollarNumbers(b);
        assert p + (x + y) == (p + x) + y;
      } else {
        DollarConcat(tail, b);
        DollarPass(s);
        DollarPass(a);
      }
    }
  }

  lemma {:induction false} DollarNone(s: string)
    requires '$' !in s
    ensures DollarNumbers(s) == []
  {
    if s != [] {
      assert s[0] != '$';
      DollarNone(s[1..]);
    }
  }

  /** The placeholder `$n` carries exactly the number `n`. */
  lemma DollarOne(n: nat)
    ensures DollarNumbers("$" + NatToString(n)) == [n]
  {
    var d := NatToString(n);
    var s := "$" + d;
    assert s[1..] == d;
    DigitRunDigits(d);
    ParseNatToString(n);
    assert s[1 + |d|..] == [];
  }

  /** `$n` followed by a text that cannot extend it. */
  lemma DollarOneThen(n: nat, rest: string)
    requires DigitSafe(rest)
    ensures DollarNumbers("$" + NatToString(n) + rest) == [n] + DollarNumbers(rest)
  {
    DollarOne(n);
    DollarConcat("$" + NatToString(n), rest);
  }

  /** A number has no `?` in it. */
  lemma QMarksNumber(n: nat)
    ensures QMarks(NatToString(n)) == 0
  {
    CountCharNumber(n, '?');
  }
  /** A text without `$` adds no placeholder numbers in front of what follows it. */
  lemma {:induction false} DollarSkip(x: string, rest: string)
    requires '$' !in x
    ensures DollarNumbers(x + rest) == DollarNumbers(rest)
  {
    if x == [] {
      assert x + rest == rest;
    } else {
      assert (x + rest)[0] == x[0];
      assert (x + rest)[1..] == x[1..] + rest;
      DollarSkip(x[1..], rest);
    }
  }

  /** The placeholder numbers of each part, part after part. */
  function PartNumbers(parts: seq<string>): seq<nat>
  {
    if parts == [] then [] else PartNumbers(parts[..|parts| - 1]) + DollarNumbers(parts[|parts| - 1])
  }

  /** Joining with a separator that holds no `$` and does not start with a digit keeps each
      part's placeholder numbers apart. */
  lemma {:induction false} DollarJoin(parts: seq<string>, sep: string)
    requires sep != [] && !IsDigit(sep[0]) && '$' !in sep
    ensures DollarNumbers(Join(parts, sep)) == PartNumbers(parts)
  {
    if |parts| == 1 {
      assert parts[..0] == [];
    } else if |parts| > 1 {
      var a := parts[..|parts| - 1];
      var g := parts[|parts| - 1];
      assert parts == a + [g];
      JoinAppend(a, [g], sep);
      Assoc(Join(a, sep), sep, g);
      assert (sep + g)[0] == sep[0];
      DollarConcat(Join(a, sep), sep + g);
      DollarSkip(sep, g);
      DollarJoin(a, sep);
    }
  }

  lemma NumeralsAppend(lo: int, a: nat, b: nat)
    ensures Numerals(lo, a) + Numerals(lo + a, b) == Numerals(lo, a + b)
  {
  }

  /** Parts numbered `lo, lo + 1, …` one placeholder each give the consecutive numerals. */
  lemma {:induction false} PartNumbersEach(parts: seq<string>, lo: int)
    requires forall i :: 0 <= i < |parts| ==> DollarNumbers(parts[i]) == [lo + i]
    ensures PartNumbers(parts) == Numerals(lo, |parts|)
  {
    if parts != [] {
      var front := parts[..|parts| - 1];
      forall i | 0 <= i < |front| ensures DollarNumbers(front[i]) == [lo + i] {
        assert front[i] == parts[i];
      }
      PartNumbersEach(front, lo);
      assert Numerals(lo + |front|, 1) == [lo + |front|];
      NumeralsAppend(lo, |front|, 1);
    }
  }
}

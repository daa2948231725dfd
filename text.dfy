/** ASCII string helpers shared by the model: the JavaScript string primitives the source
    relies on (`join`, `startsWith`, `endsWith`, `indexOf`, `lastIndexOf`, `repeat`,
    `toLowerCase`, `toUpperCase`, number-to-text), written over `seq<char>`. */
module Text {

  predicate IsDigit(c: char) { '0' <= c <= '9' }
  predicate IsLower(c: char) { 'a' <= c <= 'z' }
  predicate IsUpper(c: char) { 'A' <= c <= 'Z' }

  /** The characters JavaScript's `\s` matches, restricted to ASCII. */
  predicate IsSpace(c: char) {
    c == ' ' || c == '\t' || c == '\n' || c == '\r' || c == '\U{000B}' || c == '\U{000C}'
  }

  predicate AllDigits(s: string) {
    forall i :: 0 <= i < |s| ==> IsDigit(s[i])
  }

  function LowerChar(c: char): (r: char)
    ensures !IsUpper(r)
    ensures !IsUpper(c) ==> r == c
  {
    if IsUpper(c) then (c as int + 32) as char else c
  }

  function UpperChar(c: char): (r: char)
    ensures !IsLower(r)
    ensures !IsLower(c) ==> r == c
  {
    if IsLower(c) then (c as int - 32) as char else c
  }

  /** `toLowerCase` on ASCII text. */
  function Lower(s: string): (r: string)
    ensures |r| == |s|
    ensures forall i :: 0 <= i < |s| ==> r[i] == LowerChar(s[i])
  {
    if s == [] then [] else [LowerChar(s[0])] + Lower(s[1..])
  }

  /** `toUpperCase` on ASCII text. */
  function Upper(s: string): (r: string)
    ensures |r| == |s|
    ensures forall i :: 0 <= i < |s| ==> r[i] == UpperChar(s[i])
  {
    if s == [] then [] else [UpperChar(s[0])] + Upper(s[1..])
  }

  function DigitChar(d: nat): (c: char)
    requires d < 10
    ensures IsDigit(c)
  {
    ('0' as int + d) as char
  }

  /** The decimal text of a non-negative number, as `String(n)` gives it. */
  function NatToString(n: nat): (r: string)
    ensures |r| > 0 && AllDigits(r)
    decreases n
  {
    if n < 10 then [DigitChar(n)] else NatToString(n / 10) + [DigitChar(n % 10)]
  }

  lemma DigitsConcat(a: string, b: string)
    requires AllDigits(a) && AllDigits(b)
    ensures AllDigits(a + b)
  {
    forall i | 0 <= i < |a + b| ensures IsDigit((a + b)[i]) {
      if i < |a| { assert (a + b)[i] == a[i]; } else { assert (a + b)[i] == b[i - |a|]; }
    }
  }

  /** The number a string of decimal digits spells. */
  function DigitsValue(s: string): nat
    requires AllDigits(s)
  {
    if s == [] then 0 else DigitsValue(s[..|s| - 1]) * 10 + (s[|s| - 1] as int - '0' as int)
  }

  /** Reading back the decimal text of a number gives the number. */
  lemma {:induction false} NatToStringValue(n: nat)
    ensures DigitsValue(NatToString(n)) == n
    decreases n
  {
    if n >= 10 {
      NatToStringValue(n / 10);
      var t := NatToString(n);
      assert t[..|t| - 1] == NatToString(n / 10);
    }
  }

  /** The decimal text of an integer, with a leading `-` when it is negative. */
  function IntToString(n: int): (r: string)
    ensures |r| > 0
    ensures n >= 0 ==> r == NatToString(n)
    ensures n < 0 ==> r == "-" + NatToString(-n)
  {
    if n >= 0 then NatToString(n) else "-" + NatToString(-n)
  }

  /** `parts.join(sep)`. */
  function Join(parts: seq<string>, sep: string): string
  {
    if |parts| == 0 then ""
    else if |parts| == 1 then parts[0]
    else parts[0] + sep + Join(parts[1..], sep)
  }

  predicate StartsWith(s: string, prefix: string) {
    |prefix| <= |s| && s[..|prefix|] == prefix
  }

  predicate EndsWith(s: string, suffix: string) {
    |suffix| <= |s| && s[|s| - |suffix|..] == suffix
  }

  /** `t` occurs in `s` at position `i`. */
  predicate OccursAt(s: string, t: string, i: int) {
    0 <= i && i + |t| <= |s| && s[i..i + |t|] == t
  }

  /** `s.includes(t)`. */
  predicate Contains(s: string, t: string) {
    exists i :: 0 <= i <= |s| && OccursAt(s, t, i)
  }

  function IndexFrom(s: string, t: string, i: nat): (r: int)
    requires i <= |s| + 1
    ensures r == -1 || (i <= r && OccursAt(s, t, r))
    ensures r == -1 ==> forall j :: i <= j ==> !OccursAt(s, t, j)
    ensures r != -1 ==> forall j :: i <= j < r ==> !OccursAt(s, t, j)
    decreases |s| + 1 - i
  {
    if i + |t| > |s| then -1
    else if s[i..i + |t|] == t then i
    else IndexFrom(s, t, i + 1)
  }

  /** `s.indexOf(t)`: the first position of `t` in `s`, or -1. */
  function IndexOf(s: string, t: string): (r: int)
    ensures r == -1 <==> !Contains(s, t)
    ensures r != -1 ==> OccursAt(s, t, r) && forall j :: 0 <= j < r ==> !OccursAt(s, t, j)
  {
    IndexFrom(s, t, 0)
  }

  function LastIndexBelow(s: string, t: string, i: int): (r: int)
    requires -1 <= i
    ensures r == -1 || (r <= i && OccursAt(s, t, r))
    ensures r == -1 ==> forall j :: j <= i ==> !OccursAt(s, t, j)
    ensures r != -1 ==> forall j :: r < j <= i ==> !OccursAt(s, t, j)
    decreases i + 1
  {
    if i < 0 then -1
    else if OccursAt(s, t, i) then i
    else LastIndexBelow(s, t, i - 1)
  }

  /** `s.lastIndexOf(t)`: the last position of `t` in `s`, or -1. */
  function LastIndexOf(s: string, t: string): (r: int)
    ensures r == -1 <==> !Contains(s, t)
    ensures r != -1 ==> OccursAt(s, t, r) && forall j :: r < j ==> !OccursAt(s, t, j)
  {
    LastIndexBelow(s, t, |s|)
  }

  /** `s.repeat(n)`. */
  function Repeat(s: string, n: nat): (r: string)
    ensures |r| == |s| * n
  {
    if n == 0 then "" else s + Repeat(s, n - 1)
  }

  /** Character `i` of `s` repeated is character `i % |s|` of `s`. */
  lemma {:induction false} RepeatAt(s: string, n: nat, i: nat)
    requires |s| > 0 && i < |s| * n
    ensures Repeat(s, n)[i] == s[i % |s|]
  {
    assert n != 0;
    var t := Repeat(s, n - 1);
    assert Repeat(s, n) == s + t;
    if i < |s| {
      assert i % |s| == i;
    } else {
      assert |s| * n == |s| * (n - 1) + |s|;
      RepeatAt(s, n - 1, i - |s|);
      ModShift(i, |s|);
    }
  }

  /** Stepping back by one period keeps the remainder. */
  lemma ModShift(i: int, k: int)
    requires k > 0 && i >= k
    ensures (i - k) % k == i % k
  {
    var q, r := i / k, i % k;
    assert i == q * k + r;
    assert i - k == (q - 1) * k + r;
    ModUnique(i - k, k, q - 1, r);
  }

  /** The remainder is the only one in range. */
  lemma ModUnique(x: int, k: int, q: int, r: int)
    requires k > 0 && 0 <= r < k && x == q * k + r
    ensures x % k == r
  {
    var q', r' := x / k, x % k;
    assert x == q' * k + r';
    var d := q - q';
    assert d * k == q * k - q' * k;
    assert d * k == r' - r;
    if d >= 1 {
      MulAtLeast(d, k);
    } else if d <= -1 {
      assert (-d) * k == -(d * k);
      MulAtLeast(-d, k);
    }
  }

  lemma {:induction false} MulAtLeast(a: int, k: int)
    requires a >= 1 && k > 0
    ensures a * k >= k
  {
    if a > 1 {
      MulAtLeast(a - 1, k);
      assert a * k == (a - 1) * k + k;
    }
  }

  /** The number of occurrences of the character `c` in `s`. */
  function CountChar(s: string, c: char): nat
  {
    if s == [] then 0 else (if s[0] == c then 1 else 0) + CountChar(s[1..], c)
  }

  lemma {:induction false} CountCharConcat(a: string, b: string, c: char)
    ensures CountChar(a + b, c) == CountChar(a, c) + CountChar(b, c)
  {
    if a == [] {
      assert a + b == b;
    } else {
      assert (a + b)[0] == a[0];
      assert (a + b)[1..] == a[1..] + b;
      CountCharConcat(a[1..], b, c);
    }
  }

  lemma {:induction false} CountCharAbsent(s: string, c: char)
    ensures c !in s <==> CountChar(s, c) == 0
  {
    if s != [] {
      CountCharAbsent(s[1..], c);
      assert s == [s[0]] + s[1..];
    }
  }

  lemma CountCharNumber(n: nat, c: char)
    requires !IsDigit(c)
    ensures CountChar(NatToString(n), c) == 0
  {
    CountCharAbsent(NatToString(n), c);
  }

  /** The occurrences of `c` in a joined list are those of the parts plus those of the separators. */
  lemma {:induction false} CountCharJoin(parts: seq<string>, sep: string, c: char, each: nat)
    requires forall i :: 0 <= i < |parts| ==> CountChar(parts[i], c) == each
    requires CountChar(sep, c) == 0
    ensures CountChar(Join(parts, sep), c) == each * |parts|
  {
    if |parts| == 1 {
      assert Join(parts, sep) == parts[0];
    } else if |parts| > 1 {
      var rest := Join(parts[1..], sep);
      assert Join(parts, sep) == parts[0] + sep + rest;
      CountCharJoin(parts[1..], sep, c, each);
      CountCharConcat(parts[0], sep, c);
      CountCharConcat(parts[0] + sep, rest, c);
      MulStep(each, |parts|);
    }
  }

  lemma MulStep(a: nat, n: nat)
    requires n > 0
    ensures a * n == a + a * (n - 1)
  {
  }

  /** Joining two non-empty lists is joining each and putting a separator between. */
  lemma {:induction false} JoinAppend(a: seq<string>, b: seq<string>, sep: string)
    requires |a| > 0 && |b| > 0
    ensures Join(a + b, sep) == Join(a, sep) + sep + Join(b, sep)
  {
    if |a| == 1 {
      assert (a + b)[1..] == b;
    } else {
      assert (a + b)[1..] == a[1..] + b;
      JoinAppend(a[1..], b, sep);
    }
  }

  /** A list of non-empty strings joins to the empty string exactly when it is empty. */
  lemma {:induction false} JoinEmptyIff(parts: seq<string>, sep: string)
    requires forall i :: 0 <= i < |parts| ==> parts[i] != ""
    ensures Join(parts, sep) == "" <==> |parts| == 0
  {
    if |parts| > 1 {
      assert |Join(parts, sep)| >= |parts[0]| > 0;
    }
  }

  /** `filter(Boolean)` on a list of strings. */
  function NonEmpty(ss: seq<string>): (r: seq<string>)
    ensures forall i :: 0 <= i < |r| ==> r[i] != ""
  {
    if ss == [] then [] else (if ss[0] != "" then [ss[0]] else []) + NonEmpty(ss[1..])
  }

  /** The groups of a list of lists, one after another. */
  function Flatten(gs: seq<seq<string>>): seq<string>
  {
    if gs == [] then [] else gs[0] + Flatten(gs[1..])
  }

  function JoinEach(gs: seq<seq<string>>, sep: string): (r: seq<string>)
    ensures |r| == |gs|
    ensures forall i :: 0 <= i < |gs| ==> r[i] == Join(gs[i], sep)
  {
    if gs == [] then [] else [Join(gs[0], sep)] + JoinEach(gs[1..], sep)
  }

  lemma {:induction false} JoinNonEmpty(parts: seq<string>, sep: string)
    requires |parts| > 0 && parts[0] != ""
    ensures Join(parts, sep) != ""
  {
    if |parts| > 1 {
      assert |Join(parts, sep)| >= |parts[0]|;
    }
  }

  /** Joining each group, dropping the empty results and joining those is joining all the
      items at once, when no item is empty. */
  lemma {:induction false} JoinGroups(gs: seq<seq<string>>, sep: string)
    requires forall i, j :: 0 <= i < |gs| && 0 <= j < |gs[i]| ==> gs[i][j] != ""
    ensures Join(NonEmpty(JoinEach(gs, sep)), sep) == Join(Flatten(gs), sep)
    ensures NonEmpty(JoinEach(gs, sep)) == [] <==> Flatten(gs) == []
  {
    if gs != [] {
      var g, rest := gs[0], gs[1..];
      JoinGroups(rest, sep);
      var s := JoinEach(gs, sep);
      assert s[1..] == JoinEach(rest, sep);
      var n := NonEmpty(JoinEach(rest, sep));
      var f := Flatten(rest);
      assert NonEmpty(s) == (if Join(g, sep) != "" then [Join(g, sep)] else []) + n;
      assert Flatten(gs) == g + f;
      JoinEmptyIff(g, sep);
      if g == [] {
        assert Flatten(gs) == f;
        assert NonEmpty(s) == n;
      } else if f == [] {
        assert NonEmpty(s) == [Join(g, sep)];
        assert Flatten(gs) == g;
      } else {
        assert NonEmpty(s) == [Join(g, sep)] + n;
        JoinAppend([Join(g, sep)], n, sep);
        JoinAppend(g, f, sep);
      }
    }
  }

  lemma FlattenThree(c: seq<string>, i: seq<string>, f: seq<string>)
    ensures Flatten([c, i, f]) == c + i + f
  {
    var gs := [c, i, f];
    assert gs[1..] == [i, f] && gs[1..][1..] == [f] && gs[1..][1..][1..] == [];
    assert Flatten([f]) == f + [] == f;
  }

  /** Three lists joined each, the empty results dropped and the rest joined, are the three
      lists joined at once, when no item is empty. */
  lemma JoinThree(c: seq<string>, i: seq<string>, f: seq<string>, sep: string)
    requires forall k :: 0 <= k < |c| ==> c[k] != ""
    requires forall k :: 0 <= k < |i| ==> i[k] != ""
    requires forall k :: 0 <= k < |f| ==> f[k] != ""
    ensures Join(NonEmpty([Join(c, sep), Join(i, sep), Join(f, sep)]), sep) == Join(c + i + f, sep)
  {
    var gs := [c, i, f];
    assert JoinEach(gs, sep) == [Join(c, sep), Join(i, sep), Join(f, sep)];
    FlattenThree(c, i, f);
    assert forall k, j :: 0 <= k < |gs| && 0 <= j < |gs[k]| ==> gs[k][j] != "" by {
      assert gs[0] == c && gs[1] == i && gs[2] == f;
    }
    JoinGroups(gs, sep);
  }

  lemma Assoc(a: string, b: string, c: string)
    ensures a + (b + c) == (a + b) + c
  {
  }

  lemma SliceSlice(s: string, i: nat, n: nat)
    requires i + n <= |s|
    ensures s[i..][..n] == s[i..i + n]
  {
  }

  /** Dropping a prefix of the left part of a concatenation. */
  lemma DropConcat(a: string, b: string, k: nat)
    requires k <= |a|
    ensures (a + b)[k..] == a[k..] + b
  {
  }

  lemma PrefixOfConcat(a: string, b: string)
    ensures StartsWith(a + b, a)
  {
    assert (a + b)[..|a|] == a;
  }

  /** A prefix of the middle part, after the left part, starts the whole. */
  lemma PrefixThrough(a: string, t: string, b: string, pre: string)
    requires StartsWith(t, pre)
    ensures StartsWith(a + t + b, a + pre)
  {
    var s := a + t + b;
    assert s == a + (t + b);
    assert s[..|a| + |pre|] == a + (t + b)[..|pre|];
    assert (t + b)[..|pre|] == t[..|pre|];
  }

  /** An occurrence stays one when text is put around it. */
  lemma ContainsAround(a: string, s: string, b: string, t: string)
    requires Contains(s, t)
    ensures Contains(a + s + b, t)
  {
    var i :| 0 <= i <= |s| && OccursAt(s, t, i);
    var x := a + s + b;
    assert x == a + (s + b);
    assert x[|a| + i..|a| + i + |t|] == (s + b)[i..i + |t|] == s[i..i + |t|];
    assert OccursAt(x, t, |a| + i);
  }

  /** Every part occurs in the joined text. */
  lemma {:induction false} JoinHasParts(parts: seq<string>, sep: string, k: nat)
    requires k < |parts|
    ensures Contains(Join(parts, sep), parts[k])
  {
    if |parts| == 1 {
      assert OccursAt(parts[0], parts[0], 0);
    } else {
      var tail := Join(parts[1..], sep);
      assert Join(parts, sep) == parts[0] + sep + tail;
      if k == 0 {
        assert OccursAt(parts[0], parts[0], 0);
        ContainsAround([], parts[0], sep + tail, parts[0]);
        assert [] + parts[0] + (sep + tail) == parts[0] + sep + tail;
      } else {
        JoinHasParts(parts[1..], sep, k - 1);
        ContainsAround(parts[0] + sep, tail, [], parts[k]);
        assert parts[0] + sep + tail + [] == parts[0] + sep + tail;
      }
    }
  }

  lemma OccursBetween(a: string, t: string, b: string)
    ensures OccursAt(a + t + b, t, |a|) && Contains(a + t + b, t)
  {
    var s := a + t + b;
    assert s == a + (t + b);
    assert s[|a|..] == t + b;
    assert s[|a|..|a| + |t|] == (t + b)[..|t|] == t;
    assert OccursAt(s, t, |a|);
  }

  lemma SuffixOfConcat(a: string, b: string)
    ensures EndsWith(a + b, b)
  {
    assert (a + b)[|a + b| - |b|..] == b;
  }

  /** A first list joined, then each further list joined and appended after a separator only
      when it joins to something, is all the lists joined at once. */
  lemma JoinOptionalTails(c: seq<string>, i: seq<string>, f: seq<string>, sep: string)
    requires |c| > 0
    requires forall k :: 0 <= k < |i| ==> i[k] != ""
    requires forall k :: 0 <= k < |f| ==> f[k] != ""
    ensures Join(c, sep) + (if Join(i, sep) != "" then sep + Join(i, sep) else "")
      + (if Join(f, sep) != "" then sep + Join(f, sep) else "") == Join(c + i + f, sep)
  {
    JoinEmptyIff(i, sep);
    JoinEmptyIff(f, sep);
    var cj, ij, fj := Join(c, sep), Join(i, sep), Join(f, sep);
    if i == [] && f == [] {
      assert c + i + f == c;
    } else if i == [] {
      assert c + i + f == c + f;
      JoinAppend(c, f, sep);
      assert cj + "" == cj;
      Assoc(cj, sep, fj);
    } else if f == [] {
      assert c + i + f == c + i;
      JoinAppend(c, i, sep);
      assert cj + (sep + ij) + "" == cj + (sep + ij);
      Assoc(cj, sep, ij);
    } else {
      JoinAppend(c, i, sep);
      JoinAppend(c + i, f, sep);
      Assoc(cj, sep, ij);
      Assoc(cj + sep + ij, sep, fj);
      Assoc(cj + (sep + ij), sep, fj);
    }
  }

  lemma LowerIdempotent(s: string)
    ensures Lower(Lower(s)) == Lower(s)
  {
  }
}

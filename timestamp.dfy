/** `get_timestamp.ts`: a file name stamped with the local date and time. The clock is a
    parameter: the date components as `Date` reports them (month counted from 0). */
module GetTimestamp {
  import opened Wrappers
  import opened Text

  datatype DateTime = DateTime(year: int, month: nat, date: nat, hours: nat, minutes: nat, seconds: nat)

  const DefaultPrefix := "file"
  const DefaultExtension := "txt"

  /** `("0" + n).slice(-2)`: the last two characters of the number with a `0` in front. */
  function TwoDigits(n: nat): (r: string)
    ensures |r| == 2 && AllDigits(r)
    ensures n < 100 ==> r == [DigitChar(n / 10), DigitChar(n % 10)]
  {
    var t := "0" + NatToString(n);
    assert AllDigits(t);
    assert 10 <= n < 100 ==> NatToString(n) == [DigitChar(n / 10)] + [DigitChar(n % 10)];
    t[|t| - 2..]
  }

  /** The number two digit characters spell. */
  function TwoDigitsValue(s: string): nat
    requires |s| == 2 && AllDigits(s)
  {
    (s[0] as int - '0' as int) * 10 + (s[1] as int - '0' as int)
  }

  lemma TwoDigitsRoundTrip(n: nat)
    requires n < 100
    ensures TwoDigitsValue(TwoDigits(n)) == n
  {
  }

  /** Month (from 1), day, hour, minute and second, two digits each. */
  function Fields(now: DateTime): (r: string)
    ensures |r| == 10 && AllDigits(r)
  {
    TwoDigits(now.month + 1) + TwoDigits(now.date) + TwoDigits(now.hours) + TwoDigits(now.minutes) + TwoDigits(now.seconds)
  }

  lemma FieldSlices(now: DateTime)
    ensures var f := Fields(now);
      f[0..2] == TwoDigits(now.month + 1) && f[2..4] == TwoDigits(now.date) && f[4..6] == TwoDigits(now.hours) &&
      f[6..8] == TwoDigits(now.minutes) && f[8..10] == TwoDigits(now.seconds)
  {
    var a, b, c, d, e := TwoDigits(now.month + 1), TwoDigits(now.date), TwoDigits(now.hours), TwoDigits(now.minutes), TwoDigits(now.seconds);
    var f := Fields(now);
    assert f == a + b + c + d + e;
    assert (a + b + c + d + e)[0..2] == a;
    assert (a + b + c + d + e)[2..4] == b;
    assert (a + b + c + d + e)[4..6] == c;
    assert (a + b + c + d + e)[6..8] == d;
    assert (a + b + c + d + e)[8..10] == e;
  }

  /** The full year, unpadded, then the two-digit fields. */
  function Timestamp(now: DateTime): (r: string)
    ensures |r| == |IntToString(now.year)| + 10
    ensures forall i :: |r| - 10 <= i < |r| ==> IsDigit(r[i])
  {
    var r := IntToString(now.year) + Fields(now);
    assert forall i :: |r| - 10 <= i < |r| ==> r[i] == Fields(now)[i - |r| + 10];
    r
  }

  /** A date the clock can report. */
  predicate InRange(now: DateTime) {
    0 <= now.year && now.month < 12 && 1 <= now.date <= 31 && now.hours < 24 && now.minutes < 60 && now.seconds < 60
  }

  /** The components read back from a timestamp whose year has `yearLength` digits. */
  function DecodeTimestamp(s: string, yearLength: nat): (r: Option<DateTime>)
    ensures r.Some? ==> |s| == yearLength + 10
  {
    if |s| != yearLength + 10 || !AllDigits(s) then None
    else
      var y := yearLength;
      var month := TwoDigitsValue(s[y..y + 2]);
      if month == 0 then None
      else
        Some(DateTime(DigitsValue(s[..y]), month - 1, TwoDigitsValue(s[y + 2..y + 4]),
                      TwoDigitsValue(s[y + 4..y + 6]), TwoDigitsValue(s[y + 6..y + 8]), TwoDigitsValue(s[y + 8..y + 10])))
  }

  /** Decoding reads each component from its own slice. */
  lemma DecodeParts(s: string, y: nat, now: DateTime)
    requires |s| == y + 10 && AllDigits(s) && 0 <= now.year
    requires DigitsValue(s[..y]) == now.year
    requires TwoDigitsValue(s[y..y + 2]) == now.month + 1
    requires TwoDigitsValue(s[y + 2..y + 4]) == now.date
    requires TwoDigitsValue(s[y + 4..y + 6]) == now.hours
    requires TwoDigitsValue(s[y + 6..y + 8]) == now.minutes
    requires TwoDigitsValue(s[y + 8..y + 10]) == now.seconds
    ensures DecodeTimestamp(s, y) == Some(now)
  {
  }

  lemma YearAndFields(ys: string, f: string)
    requires |f| == 10
    ensures var r, y := ys + f, |ys|;
      r[..y] == ys && r[y..y + 2] == f[0..2] && r[y + 2..y + 4] == f[2..4] && r[y + 4..y + 6] == f[4..6] &&
      r[y + 6..y + 8] == f[6..8] && r[y + 8..y + 10] == f[8..10]
  {
  }

  /** Every component of the date can be read back from the timestamp. */
  lemma TimestampRoundTrip(now: DateTime)
    requires InRange(now)
    ensures DecodeTimestamp(Timestamp(now), |IntToString(now.year)|) == Some(now)
  {
    var ys := IntToString(now.year);
    var f := Fields(now);
    var r := Timestamp(now);
    var y := |ys|;
    FieldSlices(now);
    YearAndFields(ys, f);
    DigitsConcat(ys, f);
    NatToStringValue(now.year);
    TwoDigitsRoundTrip(now.month + 1);
    TwoDigitsRoundTrip(now.date);
    TwoDigitsRoundTrip(now.hours);
    TwoDigitsRoundTrip(now.minutes);
    TwoDigitsRoundTrip(now.seconds);
    DecodeParts(r, y, now);
  }

  /** `generateTimestampedFilename(prefix, extension)`: `<prefix>_<timestamp>.<extension>`. */
  function GenerateTimestampedFilename(prefix: Option<string>, extension: Option<string>, now: DateTime): (r: string)
    ensures var p, e := prefix.GetOr(DefaultPrefix), extension.GetOr(DefaultExtension);
      StartsWith(r, p + "_") && EndsWith(r, "." + e) && |r| == |p| + |Timestamp(now)| + |e| + 2
      && r[|p| + 1..|r| - |e| - 1] == Timestamp(now)
  {
    var p, e := prefix.GetOr(DefaultPrefix), extension.GetOr(DefaultExtension);
    var r := p + "_" + Timestamp(now) + "." + e;
    assert r[..|p| + 1] == p + "_";
    assert r[|r| - |e| - 1..] == "." + e;
    r
  }
}

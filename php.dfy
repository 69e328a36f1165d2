/** The PHP runtime as the backend sees it: the scalar values that
    json_decode(..., true) produces and PDO binds, PHP's conversions between
    them, and DateTime with the two formats the backend writes. */
module Php {
  import opened Wrappers
  import opened Text

  /** A decoded JSON scalar, an element of a request body or of a row. */
  datatype Value = Null | Bool(b: bool) | Int(i: int) | Str(s: string)

  /** An associative array from column or field names to values. */
  type Row = map<string, Value>

  /** isset($m[$k]): the key is present and its value is not null. */
  predicate IsSet(m: map<string, Value>, k: string)
  {
    k in m && m[k] != Null
  }

  /** The string PHP passes for a scalar given where a string is expected
      (a `string` parameter without strict types, or `new DateTime($v)`). */
  function ToPhpString(v: Value): (s: string)
    ensures v.Str? ==> s == v.s
    ensures v.Int? ==> s == IntToString(v.i)
  {
    match v
    case Null => ""
    case Bool(b) => if b then "1" else ""
    case Int(i) => IntToString(i)
    case Str(s) => s
  }

  /** A calendar timestamp with second precision, the content of a PHP
      DateTime as far as the formats 'Y-m-d' and 'Y-m-d H:i:s' see it. */
  datatype Timestamp = Timestamp(year: nat, month: nat, day: nat, hour: nat, minute: nat, second: nat)
  {
    predicate Valid()
    {
      year <= 9999 && 1 <= month <= 12 && 1 <= day <= 31 && hour < 24 && minute < 60 && second < 60
    }
  }

  type DateTime = t: Timestamp | t.Valid() witness Timestamp(1970, 1, 1, 0, 0, 0)

  /** The library behaviour the backend relies on but does not define.
      parseDate(s) is `new DateTime(s)`: None when the constructor throws.
      leadingInt(s) is `(int)$s` for a string. */
  datatype Runtime = Runtime(parseDate: string -> Option<DateTime>, leadingInt: string -> int)

  /** `(int)$v`. */
  function IntCast(v: Value, rt: Runtime): (n: int)
    ensures v.Int? ==> n == v.i
    ensures v.Null? ==> n == 0
  {
    match v
    case Null => 0
    case Bool(b) => if b then 1 else 0
    case Int(i) => i
    case Str(s) => rt.leadingInt(s)
  }

  /** `$d->format('Y-m-d')`. */
  function FormatDate(d: DateTime): (s: string)
    ensures |s| == 10 && s[4] == '-' && s[7] == '-'
    ensures AllDigits(s[..4]) && AllDigits(s[5..7]) && AllDigits(s[8..])
  {
    Pad(d.year, 4) + "-" + Pad(d.month, 2) + "-" + Pad(d.day, 2)
  }

  /** `$d->format('Y-m-d H:i:s')`; its first ten characters are the date. */
  function FormatDateTime(d: DateTime): (s: string)
    ensures |s| == 19 && s[..10] == FormatDate(d)
  {
    FormatDate(d) + " " + Pad(d.hour, 2) + ":" + Pad(d.minute, 2) + ":" + Pad(d.second, 2)
  }

  /** How a 'Y-m-d H:i:s' string is read back (the DATETIME literal the
      database receives): fixed positions, digits and separators. */
  function ParseDateTime(s: string): (r: Option<DateTime>)
    ensures r.Some? ==> |s| == 19 && s[4] == '-' && s[7] == '-' && s[10] == ' ' && s[13] == ':' && s[16] == ':'
    ensures r.Some? ==> AllDigits(s[0..4]) && AllDigits(s[5..7]) && AllDigits(s[8..10])
                        && AllDigits(s[11..13]) && AllDigits(s[14..16]) && AllDigits(s[17..19])
  {
    if |s| == 19 && s[4] == '-' && s[7] == '-' && s[10] == ' ' && s[13] == ':' && s[16] == ':'
       && AllDigits(s[0..4]) && AllDigits(s[5..7]) && AllDigits(s[8..10])
       && AllDigits(s[11..13]) && AllDigits(s[14..16]) && AllDigits(s[17..19])
    then
      var t := Timestamp(ParseDigits(s[0..4]), ParseDigits(s[5..7]), ParseDigits(s[8..10]),
                         ParseDigits(s[11..13]), ParseDigits(s[14..16]), ParseDigits(s[17..19]));
      if t.Valid() then Some(t) else None
    else None
  }

  /** The six fields of a 'Y-m-d H:i:s' string sit at fixed positions. */
  lemma LayoutSlices(y: string, mo: string, d: string, h: string, mi: string, se: string)
    requires |y| == 4 && |mo| == 2 && |d| == 2 && |h| == 2 && |mi| == 2 && |se| == 2
    ensures var s := y + "-" + mo + "-" + d + " " + h + ":" + mi + ":" + se;
      && |s| == 19 && s[4] == '-' && s[7] == '-' && s[10] == ' ' && s[13] == ':' && s[16] == ':'
      && s[0..4] == y && s[5..7] == mo && s[8..10] == d
      && s[11..13] == h && s[14..16] == mi && s[17..19] == se
  {
    var s := y + "-" + mo + "-" + d + " " + h + ":" + mi + ":" + se;
    assert s == y + ("-" + mo + "-" + d + " " + h + ":" + mi + ":" + se);
    var t := "-" + mo + "-" + d + " " + h + ":" + mi + ":" + se;
    assert t == "-" + mo + ("-" + d + " " + h + ":" + mi + ":" + se);
    var u := "-" + d + " " + h + ":" + mi + ":" + se;
    assert u == "-" + d + (" " + h + ":" + mi + ":" + se);
    var v := " " + h + ":" + mi + ":" + se;
    assert v == " " + h + (":" + mi + ":" + se);
    var w := ":" + mi + ":" + se;
    assert w == ":" + mi + (":" + se);
  }

  /** Formatting a DateTime and reading it back gives the same DateTime. */
  lemma FormatDateTimeRoundTrip(d: DateTime)
    ensures ParseDateTime(FormatDateTime(d)) == Some(d)
  {
    LayoutSlices(Pad(d.year, 4), Pad(d.month, 2), Pad(d.day, 2), Pad(d.hour, 2), Pad(d.minute, 2), Pad(d.second, 2));
    PadRoundTrip(d.year, 4);
    PadRoundTrip(d.month, 2);
    PadRoundTrip(d.day, 2);
    PadRoundTrip(d.hour, 2);
    PadRoundTrip(d.minute, 2);
    PadRoundTrip(d.second, 2);
  }

  /** Every string the reader accepts is the format of what it reads: the
      'Y-m-d H:i:s' form of a DateTime is unique. */
  lemma ParseDateTimeCanonical(s: string)
    requires ParseDateTime(s).Some?
    ensures FormatDateTime(ParseDateTime(s).value) == s
  {
    var y, mo, d, h, mi, se := s[0..4], s[5..7], s[8..10], s[11..13], s[14..16], s[17..19];
    LayoutSlices(y, mo, d, h, mi, se);
    SameLayout(s, y + "-" + mo + "-" + d + " " + h + ":" + mi + ":" + se);
    PadCanonical(y);
    PadCanonical(mo);
    PadCanonical(d);
    PadCanonical(h);
    PadCanonical(mi);
    PadCanonical(se);
  }

  /** Two strings of the 'Y-m-d H:i:s' shape with the same fields are equal. */
  lemma SameLayout(s: string, f: string)
    requires |s| == 19 && |f| == 19
    requires s[4] == f[4] && s[7] == f[7] && s[10] == f[10] && s[13] == f[13] && s[16] == f[16]
    requires s[0..4] == f[0..4] && s[5..7] == f[5..7] && s[8..10] == f[8..10]
    requires s[11..13] == f[11..13] && s[14..16] == f[14..16] && s[17..19] == f[17..19]
    ensures s == f
  {
    forall i | 0 <= i < 19
      ensures s[i] == f[i]
    {
      if i < 4 { assert s[i] == s[0..4][i] && f[i] == f[0..4][i]; }
      else if 5 <= i < 7 { assert s[i] == s[5..7][i - 5] && f[i] == f[5..7][i - 5]; }
      else if 8 <= i < 10 { assert s[i] == s[8..10][i - 8] && f[i] == f[8..10][i - 8]; }
      else if 11 <= i < 13 { assert s[i] == s[11..13][i - 11] && f[i] == f[11..13][i - 11]; }
      else if 14 <= i < 16 { assert s[i] == s[14..16][i - 14] && f[i] == f[14..16][i - 14]; }
      else if 17 <= i { assert s[i] == s[17..19][i - 17] && f[i] == f[17..19][i - 17]; }
    }
  }
}

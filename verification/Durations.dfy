/** How long ago a service was started, in at most two units. */
module Durations {
  import opened Decimals
  import opened Results

  function FormatDuration(secs: nat): string {
    if secs < 60 then Decimal(secs) + "s"
    else
      var minutes := secs / 60;
      var seconds := secs % 60;
      if minutes < 60 then Decimal(minutes) + "m " + Decimal(seconds) + "s"
      else
        var hours := minutes / 60;
        var mins := minutes % 60;
        if hours < 24 then Decimal(hours) + "h " + Decimal(mins) + "m"
        else
          var days := hours / 24;
          var hrs := hours % 24;
          Decimal(days) + "d " + Decimal(hrs) + "h"
  }

  // ---------------------------------------------------------------- the parser

  function IndexOfSpace(s: string): (i: nat)
    ensures i <= |s| && (i < |s| ==> s[i] == ' ')
    ensures forall k | 0 <= k < i :: s[k] != ' '
  {
    if s == [] || s[0] == ' ' then 0
    else
      var rest := IndexOfSpace(s[1..]);
      assert forall k | 1 <= k < rest + 1 :: s[k] == s[1..][k - 1];
      1 + rest
  }

  /** A number without leading zeros and its unit. */
  function Field(s: string): Option<(nat, char)> {
    if s == [] || !Canonical(s[..|s| - 1]) then None else Some((Value(s[..|s| - 1]), s[|s| - 1]))
  }

  /** The seconds a text stands for; only a lone number of seconds below a minute, or two adjacent units
      with the smaller one in range, are texts of a duration. */
  function Parse(text: string): Option<nat> {
    var i := IndexOfSpace(text);
    if i == |text| then
      match Field(text)
      case Some((n, 's')) => if n < 60 then Some(n) else None
      case _ => None
    else
      match (Field(text[..i]), Field(text[i + 1..]))
      case (Some((hi, 'm')), Some((lo, 's'))) => if 1 <= hi < 60 && lo < 60 then Some(hi * 60 + lo) else None
      case (Some((hi, 'h')), Some((lo, 'm'))) => if 1 <= hi < 24 && lo < 60 then Some(hi * 3600 + lo * 60) else None
      case (Some((hi, 'd')), Some((lo, 'h'))) => if 1 <= hi && lo < 24 then Some(hi * 86400 + lo * 3600) else None
      case _ => None
  }

  // ---------------------------------------------------------------- round trips

  /** The duration without what its two units do not show. */
  function Rounded(secs: nat): (v: nat)
    ensures v <= secs
    ensures secs < 3600 ==> v == secs
    ensures secs < 86400 ==> secs - v < 60
    ensures secs - v < 3600
  {
    if secs < 3600 then secs else if secs < 86400 then secs - secs % 60 else secs - secs % 3600
  }

  lemma FieldOfDecimal(n: nat, u: char)
    requires !IsDigit(u)
    ensures Field(Decimal(n) + [u]) == Some((n, u))
    ensures u != ' ' ==> ' ' !in Decimal(n) + [u]
  {
    var s := Decimal(n) + [u];
    assert s[..|s| - 1] == Decimal(n);
    DecimalCanonical(n);
    ValueOfDecimal(n);
  }

  /** A text of two fields splits at its space. */
  lemma Splits(a: string, b: string)
    requires ' ' !in a
    ensures var text := a + " " + b; IndexOfSpace(text) == |a| && text[..|a|] == a && text[|a| + 1..] == b
  {
    var text := a + " " + b;
    assert text[|a|] == ' ';
  }

  lemma RoundedParts(secs: nat)
    ensures 60 <= secs < 3600 ==> 1 <= secs / 60 < 60 && Rounded(secs) == secs / 60 * 60 + secs % 60
    ensures 3600 <= secs < 86400 ==>
              60 <= secs / 60 && 1 <= secs / 60 / 60 < 24 && Rounded(secs) == secs / 60 / 60 * 3600 + secs / 60 % 60 * 60
    ensures 86400 <= secs ==>
              && 60 <= secs / 60 && 24 <= secs / 60 / 60 && 1 <= secs / 60 / 60 / 24
              && Rounded(secs) == secs / 60 / 60 / 24 * 86400 + secs / 60 / 60 % 24 * 3600
  {
  }

  /** A printed duration is parsed as the rounded one. */
  lemma ParseOfFormat(secs: nat)
    ensures Parse(FormatDuration(secs)) == Some(Rounded(secs))
  {
    hide Field, Decimal, IndexOfSpace;
    RoundedParts(secs);
    if secs < 60 {
      FieldOfDecimal(secs, 's');
      var text := Decimal(secs) + "s";
      assert IndexOfSpace(text) == |text|;
    } else if secs < 3600 {
      TwoFields(secs / 60, 'm', secs % 60, 's');
    } else if secs < 86400 {
      TwoFields(secs / 60 / 60, 'h', secs / 60 % 60, 'm');
    } else {
      TwoFields(secs / 60 / 60 / 24, 'd', secs / 60 / 60 % 24, 'h');
    }
  }

  lemma TwoFields(hi: nat, u: char, lo: nat, v: char)
    requires !IsDigit(u) && !IsDigit(v) && u != ' '
    ensures var text := Decimal(hi) + [u, ' '] + Decimal(lo) + [v];
            && IndexOfSpace(text) < |text|
            && Field(text[..IndexOfSpace(text)]) == Some((hi, u))
            && Field(text[IndexOfSpace(text) + 1..]) == Some((lo, v))
  {
    hide Field, Decimal, IndexOfSpace;
    FieldOfDecimal(hi, u);
    FieldOfDecimal(lo, v);
    Splits(Decimal(hi) + [u], Decimal(lo) + [v]);
    assert Decimal(hi) + [u, ' '] + Decimal(lo) + [v] == (Decimal(hi) + [u]) + " " + (Decimal(lo) + [v]);
  }

  lemma FieldIsDecimal(s: string)
    requires Field(s).Some?
    ensures s == Decimal(Field(s).value.0) + [Field(s).value.1]
  {
    DecimalOfValue(s[..|s| - 1]);
  }

  lemma FormatOfMinutes(hi: nat, lo: nat)
    requires 1 <= hi < 60 && lo < 60
    ensures FormatDuration(hi * 60 + lo) == Decimal(hi) + "m " + Decimal(lo) + "s"
  {
    hide Decimal;
    var secs := hi * 60 + lo;
    assert secs / 60 == hi && secs % 60 == lo;
  }

  lemma FormatOfHours(hi: nat, lo: nat)
    requires 1 <= hi < 24 && lo < 60
    ensures FormatDuration(hi * 3600 + lo * 60) == Decimal(hi) + "h " + Decimal(lo) + "m"
  {
    hide Decimal;
    var minutes := hi * 60 + lo;
    assert (hi * 3600 + lo * 60) / 60 == minutes && minutes / 60 == hi && minutes % 60 == lo;
  }

  lemma FormatOfDays(hi: nat, lo: nat)
    requires 1 <= hi && lo < 24
    ensures FormatDuration(hi * 86400 + lo * 3600) == Decimal(hi) + "d " + Decimal(lo) + "h"
  {
    hide Decimal;
    var hours := hi * 24 + lo;
    assert (hi * 86400 + lo * 3600) / 60 == hours * 60 && hours * 60 / 60 == hours;
    assert hours / 24 == hi && hours % 24 == lo;
  }

  /** The printer is canonical: every text of a duration is the one that is printed for it. */
  lemma FormatOfParse(text: string)
    requires Parse(text).Some?
    ensures FormatDuration(Parse(text).value) == text
  {
    hide Decimal, Field, IndexOfSpace;
    var i := IndexOfSpace(text);
    if i == |text| {
      FieldIsDecimal(text);
    } else {
      hide FormatDuration;
      var (hi, u) := Field(text[..i]).value;
      var (lo, v) := Field(text[i + 1..]).value;
      FieldIsDecimal(text[..i]);
      FieldIsDecimal(text[i + 1..]);
      assert text == (Decimal(hi) + [u]) + " " + (Decimal(lo) + [v]) == Decimal(hi) + [u, ' '] + Decimal(lo) + [v];
      match u {
        case 'm' => FormatOfMinutes(hi, lo);
        case 'h' => FormatOfHours(hi, lo);
        case _ => FormatOfDays(hi, lo);
      }
    }
  }

  /** Two durations print alike exactly when they round to the same one. */
  lemma PrintAlikeExactly(a: nat, b: nat)
    ensures FormatDuration(a) == FormatDuration(b) <==> Rounded(a) == Rounded(b)
  {
    ParseOfFormat(a);
    ParseOfFormat(b);
    FormatOfParse(FormatDuration(a));
    FormatOfParse(FormatDuration(b));
  }
}

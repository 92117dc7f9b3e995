/**
 * The postmortem page header: the resolution time written as hours and
 * minutes, and the colour and label of the status pill.
 */
module PostmortemHeader {
  import opened Base
  import opened Text

  /** JavaScript's `a % b` for a positive divisor: the remainder takes the sign of `a`. */
  function JsRemainder(a: int, b: int): (r: int)
    requires b > 0
    ensures a >= 0 ==> 0 <= r < b
    ensures a < 0 ==> -b < r <= 0
    ensures a >= 0 ==> r == a % b
    ensures a < 0 ==> r == a - b * -((-a) / b)
  {
    if a >= 0 then a % b else -((-a) % b)
  }

  /** `Math.floor(minutes / 60)`. */
  function Hours(minutes: int): int
  {
    minutes / 60
  }

  /** `formatDuration`: `<hours>h <mins>m` when there is a whole hour, `<mins>m` otherwise. */
  function FormatDuration(minutes: int): string
  {
    var hours := Hours(minutes);
    var mins := JsRemainder(minutes, 60);
    if hours > 0 then IntToString(hours) + "h " + IntToString(mins) + "m" else IntToString(mins) + "m"
  }

  /** For a non-negative duration the hours and minutes add back up to it, and the minutes lie below 60. */
  lemma DurationSplits(minutes: nat)
    ensures 60 * Hours(minutes) + JsRemainder(minutes, 60) == minutes
    ensures 0 <= JsRemainder(minutes, 60) < 60
    ensures Hours(minutes) > 0 <==> minutes >= 60
  {
  }

  /** The two forms: with an hour part exactly from 60 minutes on. */
  lemma DurationForms(minutes: nat)
    ensures minutes >= 60 ==> FormatDuration(minutes) == NatToString(minutes / 60) + "h " + NatToString(minutes % 60) + "m"
    ensures minutes < 60 ==> FormatDuration(minutes) == NatToString(minutes) + "m"
  {
  }

  /** The index of the first `c` in `s`. */
  function IndexOf(s: string, c: char): (r: Option<nat>)
    ensures r.Some? ==> r.value < |s| && s[r.value] == c && c !in s[..r.value]
    ensures r.None? ==> c !in s
  {
    if s == [] then None
    else if s[0] == c then Some(0)
    else match IndexOf(s[1..], c)
      case Some(i) => Some(i + 1)
      case None => None
  }

  /** Reads a duration back: `<h>h <m>m` as `60h + m`, or `<m>m` as `m`. */
  function ParseDuration(s: string): Option<nat>
  {
    if |s| >= 2 && s[|s| - 1] == 'm' then
      var body := s[..|s| - 1];
      match IndexOf(body, 'h')
      case None => ParseNat(body)
      case Some(k) =>
        if k + 2 <= |body| && body[k + 1] == ' ' then
          match (ParseNat(body[..k]), ParseNat(body[k + 2..]))
          case (Some(h), Some(m)) => Some(60 * h + m)
          case _ => None
        else None
    else None
  }

  /** Digits contain no `h`, so the first `h` after a digit string is the one following it. */
  lemma IndexAfterDigits(digits: string, rest: string)
    requires AllDigits(digits)
    ensures IndexOf(digits + "h" + rest, 'h') == Some(|digits|)
  {
    var s := digits + "h" + rest;
    assert s[|digits|] == 'h';
    assert s[..|digits|] == digits;
    IndexOfFirst(s, 'h', |digits|);
  }

  lemma {:induction false} IndexOfFirst(s: string, c: char, k: nat)
    requires k < |s| && s[k] == c && c !in s[..k]
    ensures IndexOf(s, c) == Some(k)
    decreases k
  {
    if k > 0 {
      assert s[0] in s[..k];
      assert s[1..][..k - 1] == s[1..k];
      assert s[1..k] == s[..k][1..];
      IndexOfFirst(s[1..], c, k - 1);
    }
  }

  /** A text whose hour and minute parts read as numbers reads as their total. */
  lemma ParseWithHours(s: string, k: nat, h: nat, m: nat)
    requires |s| >= 2 && s[|s| - 1] == 'm'
    requires IndexOf(s[..|s| - 1], 'h') == Some(k)
    requires k + 2 <= |s| - 1 && s[..|s| - 1][k + 1] == ' '
    requires ParseNat(s[..|s| - 1][..k]) == Some(h)
    requires ParseNat(s[..|s| - 1][k + 2..]) == Some(m)
    ensures ParseDuration(s) == Some(60 * h + m)
  {
  }

  /** A text `<hs>h <ms>m` whose two parts read as numbers reads as their total. */
  lemma ParseHoursAndMinutesText(hs: string, ms: string, h: nat, m: nat)
    requires AllDigits(hs) && ParseNat(hs) == Some(h) && ParseNat(ms) == Some(m)
    ensures ParseDuration(hs + "h " + ms + "m") == Some(60 * h + m)
  {
    var body := hs + "h " + ms;
    var s := body + "m";
    assert s[..|s| - 1] == body;
    assert IndexOf(body, 'h') == Some(|hs|) by {
      assert body == hs + "h" + (" " + ms);
      IndexAfterDigits(hs, " " + ms);
    }
    assert body[|hs| + 1] == ' ';
    assert body[..|hs|] == hs;
    assert body[|hs| + 2..] == ms;
    ParseWithHours(s, |hs|, h, m);
  }

  /** `<h>h <m>m` reads back as `60h + m`. */
  lemma ParseHoursAndMinutes(h: nat, m: nat)
    ensures ParseDuration(NatToString(h) + "h " + NatToString(m) + "m") == Some(60 * h + m)
  {
    NatToStringRoundTrip(h);
    NatToStringRoundTrip(m);
    ParseHoursAndMinutesText(NatToString(h), NatToString(m), h, m);
  }

  /** `<m>m` reads back as `m`. */
  lemma ParseMinutes(m: nat)
    ensures ParseDuration(NatToString(m) + "m") == Some(m)
  {
    var ms := NatToString(m);
    var s := ms + "m";
    assert s[..|s| - 1] == ms;
    NatToStringRoundTrip(m);
  }

  /** Every non-negative duration reads back from its text. */
  lemma DurationRoundTrip(minutes: nat)
    ensures ParseDuration(FormatDuration(minutes)) == Some(minutes)
  {
    DurationForms(minutes);
    if minutes >= 60 {
      ParseHoursAndMinutes(minutes / 60, minutes % 60);
    } else {
      ParseMinutes(minutes);
    }
  }

  /** `getStatusColor`: resolved, critical and urgent have their own classes; every other status the primary one. */
  function StatusColor(status: string): (r: string)
    ensures status == "resolved" ==> r == "text-success bg-success/10"
    ensures status == "critical" ==> r == "text-error bg-error/10"
    ensures status == "urgent" ==> r == "text-warning bg-warning/10"
    ensures status !in ["resolved", "critical", "urgent"] ==> r == "text-primary bg-primary/10"
  {
    match status
    case "resolved" => "text-success bg-success/10"
    case "critical" => "text-error bg-error/10"
    case "urgent" => "text-warning bg-warning/10"
    case _ => "text-primary bg-primary/10"
  }

  /** The status pill's text: the status with its first letter upper-cased and the rest kept. */
  function StatusLabel(status: string): (r: string)
    ensures |r| == |status|
    ensures |status| > 0 ==> r[0] == UpperChar(status[0]) && r[1..] == status[1..]
    ensures Lower(r) == Lower(status)
  {
    CapitalizeFirstSameLower(status);
    CapitalizeFirst(status)
  }
}

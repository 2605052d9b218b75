/**
  The dashboard's display formatters for durations, session numbers and device
  ids (frontend/lib/format.ts). Inputs are restricted to whole, non-negative
  values: minutes, and a session index not above the total.
 */
module Format {
  import opened Decimal
  import opened Opt

  /** `Math.floor(minutes / 60)` and `minutes % 60` for whole minutes. */
  function SplitMinutes(minutes: nat): (hm: (nat, nat))
    ensures hm.0 * 60 + hm.1 == minutes
    ensures hm.1 < 60
  {
    (minutes / 60, minutes % 60)
  }

  /** `formatTime`: "{h}h {m}m" when there is at least one hour, else "{m}m". */
  function FormatTime(minutes: nat): (s: string)
    ensures |s| >= 2 && s[|s| - 1] == 'm'
  {
    var hm := SplitMinutes(minutes);
    HoursMinutesText(hm.0, hm.1)
  }

  function HoursMinutesText(hrs: nat, mins: nat): (s: string)
    ensures |s| >= 2 && s[|s| - 1] == 'm'
  {
    if hrs > 0 then NatToString(hrs) + ("h " + (NatToString(mins) + "m")) else NatToString(mins) + "m"
  }

  /** The hour part, and its "h " marker, appear exactly from 60 minutes on. */
  lemma FormatTimeHourMark(minutes: nat)
    ensures Contains(FormatTime(minutes), "h ") <==> minutes >= 60
  {
    var hrs, mins := minutes / 60, minutes % 60;
    var s := FormatTime(minutes);
    if hrs > 0 {
      assert MatchAt(s, "h ", |NatToString(hrs)|);
    } else {
      NoHourMark(NatToString(mins));
    }
  }

  /** `t` occurs in `s` starting at position `i`. */
  predicate MatchAt(s: string, t: string, i: nat) {
    i + |t| <= |s| && s[i..i + |t|] == t
  }

  ghost predicate Contains(s: string, t: string) {
    exists i: nat :: MatchAt(s, t, i)
  }

  lemma NoHourMark(d: string)
    requires AllDigits(d)
    ensures !Contains(d + "m", "h ")
  {
    var s := d + "m";
    forall i: nat | i + 2 <= |s| ensures !MatchAt(s, "h ", i) {
      assert s[i..i + 2][0] == s[i];
    }
  }

  /** Length of the run of digits at the front of `s`. */
  function DigitRun(s: string): (n: nat)
    ensures n <= |s| && AllDigits(s[..n])
    ensures n < |s| ==> !IsDigit(s[n])
  {
    if s == [] || !IsDigit(s[0]) then 0
    else
      var n := 1 + DigitRun(s[1..]);
      assert s[..n] == [s[0]] + s[1..][..n - 1];
      n
  }

  lemma {:induction false} DigitRunOfDigits(d: string, t: string)
    requires AllDigits(d)
    requires t == [] || !IsDigit(t[0])
    ensures DigitRun(d + t) == |d|
  {
    if d != [] {
      assert (d + t)[1..] == d[1..] + t;
      DigitRunOfDigits(d[1..], t);
    } else {
      assert d + t == t;
    }
  }

  /**
    Reads back exactly the texts `FormatTime` writes: "{h}h {m}m" with h > 0
    and m < 60, or "{m}m" with m < 60, every number without leading zeros.
   */
  function ParseTime(s: string): Option<nat> {
    var i := DigitRun(s);
    if !NumberAt(s, i) then None else AfterNumber(ParseNat(s[..i]), s[i..])
  }

  /** The first `i` characters, all digits, form a number without a leading zero. */
  predicate NumberAt(s: string, i: nat) {
    1 <= i <= |s| && (i == 1 || s[0] != '0')
  }

  lemma NumberAtCanonical(s: string)
    requires NumberAt(s, DigitRun(s))
    ensures Canonical(s[..DigitRun(s)])
  {
    assert s[..DigitRun(s)][0] == s[0];
  }

  function AfterNumber(v: nat, t: string): Option<nat> {
    if t == "m" then (if v < 60 then Some(v) else None)
    else if v > 0 && |t| >= 2 && t[..2] == "h " then MinutesPart(v, t[2..])
    else None
  }

  function MinutesPart(hrs: nat, t: string): Option<nat> {
    var j := DigitRun(t);
    if NumberAt(t, j) && t[j..] == "m" && ParseNat(t[..j]) < 60 then Some(hrs * 60 + ParseNat(t[..j])) else None
  }

  /** A canonical number followed by a non-digit is read as that number. */
  lemma ParseLeadingNumber(d: string, t: string)
    requires Canonical(d)
    requires t == [] || !IsDigit(t[0])
    ensures ParseTime(d + t) == AfterNumber(ParseNat(d), t)
  {
    DigitRunOfDigits(d, t);
    assert (d + t)[0] == d[0];
    assert (d + t)[..|d|] == d;
    assert (d + t)[|d|..] == t;
  }

  lemma ParseMinutesPart(hrs: nat, m: string)
    requires Canonical(m) && ParseNat(m) < 60
    ensures MinutesPart(hrs, m + "m") == Some(hrs * 60 + ParseNat(m))
  {
    var t := m + "m";
    DigitRunOfDigits(m, "m");
    assert DigitRun(t) == |m| && t[0] == m[0];
    assert t[..|m|] == m;
    assert t[|m|..] == "m";
  }

  lemma AfterHoursNumber(hrs: nat, m: string)
    requires hrs > 0 && Canonical(m) && ParseNat(m) < 60
    ensures AfterNumber(hrs, "h " + (m + "m")) == Some(hrs * 60 + ParseNat(m))
  {
    var t := "h " + (m + "m");
    assert |t| >= 4 && t != "m";
    assert t[..2] == "h " && t[2..] == m + "m";
    ParseMinutesPart(hrs, m);
  }

  lemma ParseHoursMinutes(s: string, h: string, m: string, total: nat)
    requires Canonical(h) && ParseNat(h) > 0
    requires Canonical(m) && ParseNat(m) < 60
    requires s == h + ("h " + (m + "m")) && total == ParseNat(h) * 60 + ParseNat(m)
    ensures ParseTime(s) == Some(total)
  {
    ParseLeadingNumber(h, "h " + (m + "m"));
    AfterHoursNumber(ParseNat(h), m);
  }

  /** Under an hour the text is "{m}m", and it reads back as m. */
  lemma ParseMinutesText(minutes: nat)
    requires minutes < 60
    ensures ParseTime(FormatTime(minutes)) == Some(minutes)
  {
    var m := NatToString(minutes);
    assert SplitMinutes(minutes) == (0, minutes);
    assert FormatTime(minutes) == m + "m";
    ParseNatToString(minutes);
    ParseLeadingNumber(m, "m");
  }

  lemma HoursShape(minutes: nat)
    requires minutes >= 60
    ensures minutes / 60 > 0 && minutes % 60 < 60
    ensures FormatTime(minutes) == NatToString(minutes / 60) + ("h " + (NatToString(minutes % 60) + "m"))
  {
    assert SplitMinutes(minutes) == (minutes / 60, minutes % 60);
  }

  /** From an hour on the text is "{h}h {m}m", and it reads back as 60h + m. */
  lemma ParseHoursText(minutes: nat)
    requires minutes >= 60
    ensures ParseTime(FormatTime(minutes)) == Some(minutes)
  {
    var hrs, mins := minutes / 60, minutes % 60;
    HoursShape(minutes);
    ParseNatToString(hrs);
    ParseNatToString(mins);
    ParseHoursMinutes(FormatTime(minutes), NatToString(hrs), NatToString(mins), minutes);
  }

  /** The duration text determines the minutes it was made from. */
  lemma FormatTimeRoundTrip(minutes: nat)
    ensures ParseTime(FormatTime(minutes)) == Some(minutes)
  {
    if minutes < 60 {
      ParseMinutesText(minutes);
    } else {
      ParseHoursText(minutes);
    }
  }

  lemma SplitWhole(hrs: nat, mins: nat)
    requires mins < 60
    ensures SplitMinutes(hrs * 60 + mins) == (hrs, mins)
  {
  }

  /** What `AfterNumber` accepts after a number `v`: "m" with v < 60, or "h {m}m" with v > 0 and m < 60. */
  lemma AfterNumberParts(v: nat, t: string, n: nat) returns (mins: nat)
    requires AfterNumber(v, t) == Some(n)
    ensures t == "m" ==> n == v < 60
    ensures t != "m" ==> v > 0 && mins < 60 && n == v * 60 + mins && t == "h " + (NatToString(mins) + "m")
  {
    mins := 0;
    if t != "m" {
      var u := t[2..];
      assert t == "h " + u;
      var j := DigitRun(u);
      var m := u[..j];
      NumberAtCanonical(u);
      CanonicalRoundTrip(m);
      assert u == m + u[j..];
      mins := ParseNat(m);
    }
  }

  lemma MinutesTextOf(n: nat)
    requires n < 60
    ensures FormatTime(n) == NatToString(n) + "m"
  {
    SplitWhole(0, n);
  }

  lemma HoursTextOf(hrs: nat, mins: nat, n: nat)
    requires hrs > 0 && mins < 60 && n == hrs * 60 + mins
    ensures FormatTime(n) == NatToString(hrs) + ("h " + (NatToString(mins) + "m"))
  {
    SplitWhole(hrs, mins);
  }

  /** Whatever `ParseTime` accepts is the text `FormatTime` writes for that value. */
  lemma ParsedTimeIsFormatted(s: string, n: nat)
    requires ParseTime(s) == Some(n)
    ensures FormatTime(n) == s
  {
    var i := DigitRun(s);
    var d, t := s[..i], s[i..];
    var v := ParseNat(d);
    NumberAtCanonical(s);
    CanonicalRoundTrip(d);
    assert s == NatToString(v) + t;
    var mins := AfterNumberParts(v, t, n);
    if t == "m" {
      MinutesTextOf(n);
    } else {
      HoursTextOf(v, mins, n);
    }
  }

  /** `FormatTime` is a bijection onto the texts `ParseTime` accepts. */
  lemma FormatTimeParse(s: string, n: nat)
    ensures ParseTime(s) == Some(n) <==> FormatTime(n) == s
  {
    if ParseTime(s) == Some(n) {
      ParsedTimeIsFormatted(s, n);
    }
    if FormatTime(n) == s {
      FormatTimeRoundTrip(n);
    }
  }

  /** `formatSessionId`: '#' and the session number, zero-padded to three digits. */
  function FormatSessionId(index: int, total: int): (s: string)
    requires total - index >= 0
    ensures |s| == 1 + if |NatToString(total - index)| >= 3 then |NatToString(total - index)| else 3
    ensures s[0] == '#' && AllDigits(s[1..])
    ensures ParseNat(s[1..]) == total - index
  {
    var k := total - index;
    var digits := NatToString(k);
    var padded := PadStart(digits, 3, '0');
    ParseNatToString(k);
    assert padded == Repeat('0', |padded| - |digits|) + digits;
    ParseNatLeadingZeros(|padded| - |digits|, digits);
    assert ("#" + padded)[1..] == padded;
    "#" + padded
  }

  /** Session numbers below 1000 always take exactly four characters. */
  lemma SessionIdWidth(index: int, total: int)
    requires total - index >= 0
    ensures |FormatSessionId(index, total)| == 4 <==> total - index < 1000
  {
    var k := total - index;
    NatToStringLength(k, 3);
    assert Pow10(1) == 10;
    assert Pow10(2) == 100;
    assert Pow10(3) == 1000;
    var r := FormatSessionId(index, total);
    assert |r| == 4 <==> |NatToString(k)| <= 3;
  }

  const SimPrefix := "SIM-"

  /** Position of the first occurrence of `p` in `s`, as `indexOf` finds it. */
  function IndexOf(s: string, p: string): (r: Option<nat>)
    ensures r.Some? ==> MatchAt(s, p, r.value)
    ensures r.Some? ==> forall j: nat :: j < r.value ==> !MatchAt(s, p, j)
    ensures r.None? ==> forall j: nat :: !MatchAt(s, p, j)
    decreases |s|
  {
    if |s| < |p| then None
    else if s[..|p|] == p then Some(0)
    else
      assert !MatchAt(s, p, 0);
      match IndexOf(s[1..], p)
      case None =>
        MatchAtShift(s, p);
        None
      case Some(i) =>
        MatchAtShift(s, p);
        Some(i + 1)
  }

  lemma MatchAtShift(s: string, p: string)
    requires s != []
    ensures forall j: nat :: j >= 1 ==> MatchAt(s, p, j) == MatchAt(s[1..], p, j - 1)
  {
    forall j: nat | j >= 1 ensures MatchAt(s, p, j) == MatchAt(s[1..], p, j - 1) {
      if j + |p| <= |s| {
        assert s[j..j + |p|] == s[1..][j - 1..j - 1 + |p|];
      }
    }
  }

  /** `formatDeviceId`: `id.replace('SIM-', '')`, which drops the first occurrence only. */
  function FormatDeviceId(id: string): (r: string)
    ensures IndexOf(id, SimPrefix).None? ==> r == id
    ensures IndexOf(id, SimPrefix).Some? ==>
      var i := IndexOf(id, SimPrefix).value;
      |r| == |id| - 4 && r == id[..i] + id[i + 4..]
  {
    match IndexOf(id, SimPrefix)
    case None => id
    case Some(i) => id[..i] + id[i + |SimPrefix|..]
  }

  /** The simulator's "SIM-" prefix is stripped and nothing else is touched. */
  lemma FormatDeviceIdStripsPrefix(s: string)
    ensures FormatDeviceId(SimPrefix + s) == s
  {
    var id := SimPrefix + s;
    assert id[..4] == SimPrefix;
    assert id[4..] == s;
  }
}

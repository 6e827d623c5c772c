/** The session clock of frontend/lib/utils.ts: `formatTime` renders a count
    of seconds as zero-padded minutes and seconds, "mm:ss". */
module FormatTime {
  import opened Wrappers
  import opened Text

  /** The minutes field: whole minutes, padded on the left to two digits. */
  function MinutesField(seconds: nat): string {
    PadStart(NatToString(seconds / 60), 2, '0')
  }

  /** The seconds field: the remaining seconds, padded on the left to two digits. */
  function SecondsField(seconds: nat): string {
    PadStart(NatToString(seconds % 60), 2, '0')
  }

  /** `formatTime(seconds)`. The session timer only ever holds a whole,
      non-negative count, so `Math.floor` is Dafny's division on `nat`. */
  function FormatTime(seconds: nat): (r: string)
    ensures |r| >= 5 && r[|r| - 3] == ':'
    ensures seconds < 6000 <==> |r| == 5
  {
    MinutesField(seconds) + ":" + SecondsField(seconds)
  }

  /** A numeral padded to two places with zeros still reads as its number. */
  lemma PaddedParses(n: nat)
    ensures IsDigits(PadStart(NatToString(n), 2, '0'))
    ensures ParseDigits(PadStart(NatToString(n), 2, '0')) == n
  {
    var t := NatToString(n);
    ParseNatToString(n);
    if |t| < 2 {
      ParseLeadingZeros(Repeat('0', 2 - |t|), t);
    }
  }

  /** The seconds field is exactly two digits and holds the seconds past the minute. */
  lemma SecondsFieldIsTwoDigits(seconds: nat)
    ensures |SecondsField(seconds)| == 2 && IsDigits(SecondsField(seconds))
    ensures ParseDigits(SecondsField(seconds)) == seconds % 60 < 60
  {
    PaddedParses(seconds % 60);
  }

  /** The minutes field is never truncated: it is at least two digits and holds all the minutes. */
  lemma MinutesFieldHoldsMinutes(seconds: nat)
    ensures |MinutesField(seconds)| >= 2 && IsDigits(MinutesField(seconds))
    ensures ParseDigits(MinutesField(seconds)) == seconds / 60
  {
    PaddedParses(seconds / 60);
  }

  /** Reads an "mm:ss" clock back as a count of seconds: the digits before
      the colon are minutes, the two after it seconds. */
  function ReadClock(r: string): (v: Option<nat>)
    ensures v.Some? ==> |r| >= 5 && r[|r| - 3] == ':'
  {
    if |r| >= 5 && r[|r| - 3] == ':' && IsDigits(r[..|r| - 3]) && IsDigits(r[|r| - 2..])
    then Some(ParseDigits(r[..|r| - 3]) * 60 + ParseDigits(r[|r| - 2..]))
    else None
  }

  /** Reading the clock back gives the original count. */
  lemma FormatTimeRoundTrip(seconds: nat)
    ensures ReadClock(FormatTime(seconds)) == Some(seconds)
  {
    var m, c := MinutesField(seconds), SecondsField(seconds);
    assert |m| >= 2 && |c| == 2 && IsDigits(m) && IsDigits(c) by {
      MinutesFieldHoldsMinutes(seconds);
      SecondsFieldIsTwoDigits(seconds);
    }
    assert ParseDigits(m) * 60 + ParseDigits(c) == seconds by {
      MinutesFieldHoldsMinutes(seconds);
      SecondsFieldIsTwoDigits(seconds);
    }
    ReadClockOfFields(m, c);
    assert FormatTime(seconds) == m + ":" + c;
  }

  /** A clock built from a minutes field and a two-digit seconds field reads back as their value. */
  lemma ReadClockOfFields(m: string, c: string)
    requires |m| >= 2 && |c| == 2 && IsDigits(m) && IsDigits(c)
    ensures ReadClock(m + ":" + c) == Some(ParseDigits(m) * 60 + ParseDigits(c))
  {
    var r := m + ":" + c;
    assert r[..|r| - 3] == m && r[|r| - 2..] == c && r[|r| - 3] == ':';
    ReadClockOfParts(r, m, c);
  }

  lemma ReadClockOfParts(r: string, m: string, c: string)
    requires |r| >= 5 && r[|r| - 3] == ':' && r[..|r| - 3] == m && r[|r| - 2..] == c
    requires IsDigits(m) && IsDigits(c)
    ensures ReadClock(r) == Some(ParseDigits(m) * 60 + ParseDigits(c))
  {
  }

  /** Different counts never show the same clock. */
  lemma FormatTimeInjective(a: nat, b: nat)
    requires FormatTime(a) == FormatTime(b)
    ensures a == b
  {
    FormatTimeRoundTrip(a);
    FormatTimeRoundTrip(b);
  }

  /** A fresh session shows "00:00". */
  lemma FormatTimeZero()
    ensures FormatTime(0) == "00:00"
  {
    assert NatToString(0) == "0";
  }
}

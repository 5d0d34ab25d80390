/** The `m:ss` rendering of a remaining-seconds counter shared by the
    meditation timer and the nature escape player. */
module TimeFormat {
  import opened Numerals

  /** Seconds below ten get a leading zero. */
  function PadSeconds(seconds: nat): string {
    (if seconds < 10 then "0" else "") + NatToString(seconds)
  }

  /** Whole minutes, a colon, then the seconds zero-padded to two digits. */
  function FormatTime(timeInSeconds: nat): (r: string)
    ensures |r| >= 4 && r[|r| - 3] == ':'
    ensures AllDigits(r[..|r| - 3]) && AllDigits(r[|r| - 2..])
  {
    var minutes := timeInSeconds / 60;
    var seconds := timeInSeconds % 60;
    PaddedSeconds(seconds);
    SplitAtColon(NatToString(minutes), PadSeconds(seconds));
    NatToString(minutes) + ":" + PadSeconds(seconds)
  }

  /** Reads an `m:ss` string back into seconds. */
  function ParseTime(s: string): nat
    requires |s| >= 4 && AllDigits(s[..|s| - 3]) && AllDigits(s[|s| - 2..])
  {
    ParseNat(s[..|s| - 3]) * 60 + ParseNat(s[|s| - 2..])
  }

  /** Two-digit seconds read back as the number printed. */
  lemma PaddedSeconds(seconds: nat)
    requires seconds < 60
    ensures |PadSeconds(seconds)| == 2 && AllDigits(PadSeconds(seconds))
    ensures ParseNat(PadSeconds(seconds)) == seconds
  {
    var p := PadSeconds(seconds);
    ParseNatToString(seconds);
    if seconds < 10 {
      assert p[..1] == "0";
    }
  }

  /** The two fields of `m:ss` are where ParseTime looks for them. */
  lemma SplitAtColon(m: string, p: string)
    requires |p| == 2
    ensures var r := m + ":" + p; r[..|r| - 3] == m && r[|r| - 2..] == p && r[|r| - 3] == ':'
  {
  }

  /** Minutes and padded seconds, printed and read back. */
  lemma ReadBack(minutes: nat, seconds: nat)
    requires seconds < 60
    ensures ParseTime(NatToString(minutes) + ":" + PadSeconds(seconds)) == minutes * 60 + seconds
  {
    PaddedSeconds(seconds);
    ParseNatToString(minutes);
    SplitAtColon(NatToString(minutes), PadSeconds(seconds));
  }

  /** Formatting loses nothing: the minutes and padded seconds read back as the
      original number of seconds. */
  lemma ParseFormatTime(t: nat)
    ensures ParseTime(FormatTime(t)) == t
  {
    ReadBack(t / 60, t % 60);
  }

  /** Distinct counters are displayed differently. */
  lemma FormatTimeInjective(a: nat, b: nat)
    requires FormatTime(a) == FormatTime(b)
    ensures a == b
  {
    ParseFormatTime(a);
    ParseFormatTime(b);
  }

  lemma FormatTimeExamples()
    ensures FormatTime(300) == "5:00"
    ensures FormatTime(65) == "1:05"
    ensures FormatTime(0) == "0:00"
  {
    assert NatToString(0) == "0" && NatToString(1) == "1" && NatToString(5) == "5";
    assert PadSeconds(0) == "00" && PadSeconds(5) == "05";
    assert FormatTime(300) == NatToString(5) + ":" + PadSeconds(0);
    assert FormatTime(65) == NatToString(1) + ":" + PadSeconds(5);
    assert FormatTime(0) == NatToString(0) + ":" + PadSeconds(0);
  }
}

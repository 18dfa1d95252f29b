/** `MusicPlayer.formatTime`: whole seconds shown as `minutes:seconds`. */
module TimeFormat {
  import opened Wrappers
  import opened Strings

  /**
   * `text` is the display of `seconds`: the whole minutes without leading
   * zeros, a colon, then the seconds within the minute as two digits.
   */
  predicate Shows(text: string, seconds: nat)
  {
    && 4 <= |text| && text[|text| - 3] == ':'
    && Canonical(text[..|text| - 3]) && DecimalValue(text[..|text| - 3]) == seconds / 60
    && AllDigits(text[|text| - 2..]) && DecimalValue(text[|text| - 2..]) == seconds % 60
  }

  /** `formatTime`: unpadded minutes, a colon, and the seconds zero-padded to two digits. */
  function FormatTime(seconds: nat): (r: string)
    ensures Shows(r, seconds)
  {
    var mins := NatToString(seconds / 60);
    var secs := PadStart(NatToString(seconds % 60), 2, '0');
    FieldsReadBack(seconds);
    ShowsJoined(mins, secs, seconds);
    mins + ":" + secs
  }

  /** Reads back a `minutes:ss` display; `None` for any other text. */
  function ParseTime(text: string): (r: Option<nat>)
  {
    if |text| >= 4 && text[|text| - 3] == ':' && AllDigits(text[..|text| - 3])
       && AllDigits(text[|text| - 2..])
    then Some(60 * DecimalValue(text[..|text| - 3]) + DecimalValue(text[|text| - 2..]))
    else None
  }

  /** The two-character seconds field reads back as the seconds. */
  lemma PaddedSecondsValue(s: nat)
    requires s < 60
    ensures var t := PadStart(NatToString(s), 2, '0');
      |t| == 2 && AllDigits(t) && DecimalValue(t) == s
  {
    var t := PadStart(NatToString(s), 2, '0');
    DecimalRoundTrip(s);
    if s < 10 {
      assert t == ['0', DigitChar(s)];
      assert t[..1] == ['0'];
      assert DecimalValue(t[..1]) == 0;
    } else {
      assert t == NatToString(s);
    }
  }

  /** Every two-digit field is the zero-padded `toString` of the number it denotes. */
  lemma PaddedFieldIsPadStart(t: string)
    requires |t| == 2 && AllDigits(t)
    ensures t == PadStart(NatToString(DecimalValue(t)), 2, '0')
  {
    if t[0] == '0' {
      var low := t[1..];
      assert t[..1] == ['0'] && DecimalValue(t[..1]) == 0 by {
        assert t[..1][..0] == [];
      }
      assert DecimalValue(t) == DecimalValue(low) by {
        assert t[..1] == t[..|t| - 1] && low[..0] == [] && low[0] == t[1];
      }
      CanonicalIsNatToString(low);
      assert t == ['0'] + low;
    } else {
      CanonicalIsNatToString(t);
    }
  }

  /** A canonical minutes field, a colon and a two-digit seconds field make a display. */
  lemma ShowsJoined(mins: string, secs: string, time: nat)
    requires Canonical(mins) && DecimalValue(mins) == time / 60
    requires |secs| == 2 && AllDigits(secs) && DecimalValue(secs) == time % 60
    ensures Shows(mins + ":" + secs, time)
  {
    var head := mins + ":";
    var text := head + secs;
    assert text[..|head|] == head && text[|head|..] == secs;
    assert head[..|mins|] == mins;
    assert text[..|text| - 3] == mins;
    assert text[|text| - 2..] == secs;
  }

  /** Both fields of the display read back as the minutes and the seconds. */
  lemma FieldsReadBack(seconds: nat)
    ensures var m, q := seconds / 60, seconds % 60;
      var mins, secs := NatToString(m), PadStart(NatToString(q), 2, '0');
      && Canonical(mins) && DecimalValue(mins) == m
      && |secs| == 2 && AllDigits(secs) && DecimalValue(secs) == q
  {
    DecimalRoundTrip(seconds / 60);
    PaddedSecondsValue(seconds % 60);
  }

  /** `Shows` leaves no choice: the only display of `seconds` is `FormatTime(seconds)`. */
  lemma ShownIsFormatTime(text: string, seconds: nat)
    requires Shows(text, seconds)
    ensures text == FormatTime(seconds)
  {
    var mins, secs := text[..|text| - 3], text[|text| - 2..];
    CanonicalIsNatToString(mins);
    PaddedFieldIsPadStart(secs);
    Rejoined(text);
    assert mins == NatToString(seconds / 60);
    assert secs == PadStart(NatToString(seconds % 60), 2, '0');
  }

  /** A display is its minutes field, the colon and its seconds field put back together. */
  lemma Rejoined(text: string)
    requires 4 <= |text| && text[|text| - 3] == ':'
    ensures text == text[..|text| - 3] + ":" + text[|text| - 2..]
  {
  }

  /** Reading a display back gives the time it shows. */
  lemma ParseShown(text: string, seconds: nat)
    requires Shows(text, seconds)
    ensures ParseTime(text) == Some(seconds)
  {
  }

  /** The display determines the time: parsing undoes formatting. */
  lemma FormatTimeRoundTrip(seconds: nat)
    ensures ParseTime(FormatTime(seconds)) == Some(seconds)
  {
    ParseShown(FormatTime(seconds), seconds);
  }

  /** Two different times never share a display. */
  lemma FormatTimeInjective(a: nat, b: nat)
    requires FormatTime(a) == FormatTime(b)
    ensures a == b
  {
    FormatTimeRoundTrip(a);
    FormatTimeRoundTrip(b);
  }

  lemma FormatTimeExample245()
    ensures FormatTime(245) == "4:05"
  {
    assert 245 / 60 == 4 && 245 % 60 == 5;
    assert NatToString(4) == "4" && NatToString(5) == "5";
  }

  lemma FormatTimeExample59()
    ensures FormatTime(59) == "0:59"
  {
    assert 59 / 60 == 0 && 59 % 60 == 59;
    assert DigitChar(5) == '5' && DigitChar(9) == '9';
    assert NatToString(5) == "5";
    assert NatToString(59) == NatToString(5) + [DigitChar(9)] == "59";
    assert PadStart("59", 2, '0') == "59";
    assert NatToString(0) == "0";
  }

  lemma FormatTimeExample0()
    ensures FormatTime(0) == "0:00"
  {
    assert NatToString(0) == "0";
  }
}

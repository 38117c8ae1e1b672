/**
 * The two text conversions of the player: a lyric line becomes HTML by
 * turning each line feed into a `<br>` tag, and a number of seconds becomes
 * the `m:ss` clock shown beside the progress bar.
 */
module Format {
  import opened Wrappers

  // ---------------------------------------------------------------------
  // Lyric text: every '\n' becomes "<br>"
  // ---------------------------------------------------------------------

  const LineBreakTag: string := "<br>"

  /** The text of a lyric cue as it is written into the lyrics element. */
  function FormatLyric(text: string): (html: string)
    ensures |text| <= |html|
  {
    if text == [] then []
    else (if text[0] == '\n' then LineBreakTag else [text[0]]) + FormatLyric(text[1..])
  }

  /**
   * No line feed survives the replacement, text without one comes back
   * unchanged, and each line feed lengthens the text by three characters.
   */
  lemma {:induction false} FormatLyricReplacesEveryNewline(text: string)
    ensures '\n' !in FormatLyric(text)
    ensures '\n' !in text ==> FormatLyric(text) == text
    ensures |FormatLyric(text)| == |text| + 3 * multiset(text)['\n']
  {
    if text != [] {
      FormatLyricReplacesEveryNewline(text[1..]);
      assert text == [text[0]] + text[1..];
      assert multiset(text) == multiset([text[0]]) + multiset(text[1..]);
    }
  }

  /** The replacement works piece by piece: it never looks across a boundary. */
  lemma {:induction false} FormatLyricAppend(a: string, b: string)
    ensures FormatLyric(a + b) == FormatLyric(a) + FormatLyric(b)
  {
    if a == [] {
      assert a + b == b;
    } else {
      assert (a + b)[0] == a[0];
      assert (a + b)[1..] == a[1..] + b;
      FormatLyricAppend(a[1..], b);
      var head := if a[0] == '\n' then LineBreakTag else [a[0]];
      assert FormatLyric(a + b) == head + FormatLyric(a[1..] + b);
      assert FormatLyric(a) == head + FormatLyric(a[1..]);
      assert head + (FormatLyric(a[1..]) + FormatLyric(b)) == (head + FormatLyric(a[1..])) + FormatLyric(b);
    }
  }

  /** Reads HTML produced by FormatLyric back: each "<br>" becomes a line feed. */
  function UnformatLyric(html: string): (text: string)
  {
    if html == [] then []
    else if |html| >= 4 && html[..4] == LineBreakTag then "\n" + UnformatLyric(html[4..])
    else [html[0]] + UnformatLyric(html[1..])
  }

  /**
   * No line break is lost: a lyric whose text holds no '<' (so no tag of its
   * own) is recovered exactly from the HTML written for it.
   */
  lemma {:induction false} UnformatFormatLyric(text: string)
    requires '<' !in text
    ensures UnformatLyric(FormatLyric(text)) == text
  {
    if text != [] {
      var rest := FormatLyric(text[1..]);
      assert text == [text[0]] + text[1..];
      UnformatFormatLyric(text[1..]);
      if text[0] == '\n' {
        assert FormatLyric(text) == LineBreakTag + rest;
        assert (LineBreakTag + rest)[..4] == LineBreakTag;
        assert (LineBreakTag + rest)[4..] == rest;
      } else {
        assert FormatLyric(text) == [text[0]] + rest;
        assert ([text[0]] + rest)[1..] == rest;
        assert |[text[0]] + rest| >= 4 ==> ([text[0]] + rest)[..4] != LineBreakTag by {
          if |[text[0]] + rest| >= 4 { assert ([text[0]] + rest)[..4][0] == text[0]; }
        }
      }
    }
  }

  // ---------------------------------------------------------------------
  // Clock text: seconds as m:ss
  // ---------------------------------------------------------------------

  predicate IsDigit(c: char) {
    '0' <= c <= '9'
  }

  /** Every character is a decimal digit. */
  predicate AllDigits(s: string) {
    forall i :: 0 <= i < |s| ==> IsDigit(s[i])
  }

  function DigitChar(d: nat): (c: char)
    requires d < 10
    ensures IsDigit(c) && c as int - '0' as int == d
  {
    ('0' as int + d) as char
  }

  /** A non-negative integer written in decimal, as Number.prototype.toString does. */
  function Decimal(n: nat): (s: string)
    ensures 1 <= |s|
    ensures n < 10 <==> |s| == 1
  {
    if n < 10 then [DigitChar(n)] else Decimal(n / 10) + [DigitChar(n % 10)]
  }

  /** Decimal writes digits only, with no leading zero except for 0 itself. */
  lemma {:induction false} DecimalDigits(n: nat)
    ensures AllDigits(Decimal(n))
    ensures Decimal(n)[0] == '0' ==> n == 0
  {
    if n >= 10 {
      DecimalDigits(n / 10);
      assert Decimal(n)[0] == Decimal(n / 10)[0];
    }
  }

  /** The value of a string read as decimal digits, most significant first. */
  function ParseDecimal(s: string): int
  {
    if s == [] then 0 else 10 * ParseDecimal(s[..|s| - 1]) + (s[|s| - 1] as int - '0' as int)
  }

  /** Reading the decimal text back gives the number. */
  lemma {:induction false} ParseDecimalOfDecimal(n: nat)
    ensures ParseDecimal(Decimal(n)) == n
  {
    if n >= 10 {
      var s := Decimal(n);
      assert s[..|s| - 1] == Decimal(n / 10);
      ParseDecimalOfDecimal(n / 10);
    }
  }

  /** String.prototype.padStart(width, fill) for a one-character fill. */
  function PadStart(s: string, width: nat, fill: char): (r: string)
    ensures |r| == if |s| < width then width else |s|
    ensures r[|r| - |s|..] == s
    ensures forall i :: 0 <= i < |r| - |s| ==> r[i] == fill
  {
    if |s| < width then seq(width - |s|, _ => fill) + s else s
  }

  /** secs.toString().padStart(2, '0'): the seconds as exactly two digits. */
  function SecondsField(secs: nat): (field: string)
    requires secs < 60
    ensures |field| == 2
  {
    PadStart(Decimal(secs), 2, '0')
  }

  /** The seconds field has two digits and reads back as the seconds. */
  lemma SecondsFieldValue(secs: nat)
    requires secs < 60
    ensures |SecondsField(secs)| == 2 && AllDigits(SecondsField(secs))
    ensures ParseDecimal(SecondsField(secs)) == secs
  {
    var d := Decimal(secs);
    if secs >= 10 {
      assert d == Decimal(secs / 10) + [DigitChar(secs % 10)];
    }
    DecimalDigits(secs);
    ParseDecimalOfDecimal(secs);
    var field := SecondsField(secs);
    if |d| == 1 {
      assert field == ['0'] + d;
      assert field[..1] == ['0'] && d[..0] == [];
    }
  }

  /** formatTime: whole minutes, a colon, then the seconds as exactly two digits. */
  function FormatTime(seconds: nat): (clock: string)
    ensures 4 <= |clock| && clock[|clock| - 3] == ':'
  {
    Decimal(seconds / 60) + ":" + SecondsField(seconds % 60)
  }

  /** The three fields of the clock: the minutes, a colon, the seconds field. */
  lemma FormatTimeFields(seconds: nat)
    ensures ClockShows(FormatTime(seconds), seconds / 60, seconds % 60)
  {
    var mins, secs := seconds / 60, seconds % 60;
    SecondsFieldValue(secs);
    DecimalDigits(mins);
    ParseDecimalOfDecimal(mins);
    JoinFields(Decimal(mins), SecondsField(secs), mins, secs);
  }

  /** A clock string: digits for `mins`, a colon, and two digits for `secs`. */
  ghost predicate ClockShows(c: string, mins: int, secs: int) {
    && 4 <= |c| && c[|c| - 3] == ':'
    && AllDigits(c[..|c| - 3]) && ParseDecimal(c[..|c| - 3]) == mins
    && AllDigits(c[|c| - 2..]) && ParseDecimal(c[|c| - 2..]) == secs
  }

  /** Minutes and a two-character seconds field joined by a colon form a clock. */
  lemma JoinFields(m: string, f: string, mins: int, secs: int)
    requires 1 <= |m| && AllDigits(m) && ParseDecimal(m) == mins
    requires |f| == 2 && AllDigits(f) && ParseDecimal(f) == secs
    ensures ClockShows(m + ":" + f, mins, secs)
  {
    var c := m + ":" + f;
    assert c[..|m|] == m;
    assert c[|m| + 1..] == f;
  }

  /** Reads an m:ss clock back into seconds; None if it is not one. */
  function ParseTime(clock: string): (seconds: Option<nat>)
  {
    if |clock| < 4 || clock[|clock| - 3] != ':' then None
    else if !AllDigits(clock[..|clock| - 3]) || !AllDigits(clock[|clock| - 2..]) then None
    else
      var mins := ParseDecimal(clock[..|clock| - 3]);
      var secs := ParseDecimal(clock[|clock| - 2..]);
      if 0 <= mins && 0 <= secs < 60 then Some(mins * 60 + secs) else None
  }

  /**
   * The clock loses nothing: reading it back, minutes * 60 plus the
   * two-digit seconds field (always below 60) gives the seconds again.
   */
  lemma FormatTimeRoundTrip(seconds: nat)
    ensures ParseTime(FormatTime(seconds)) == Some(seconds)
  {
    var mins, secs := seconds / 60, seconds % 60;
    FormatTimeFields(seconds);
    ParseClockShows(FormatTime(seconds), mins, secs);
    DivMod60(seconds);
  }

  /** Whole minutes and the remaining seconds add back up to the seconds. */
  lemma DivMod60(seconds: nat)
    ensures (seconds / 60) * 60 + seconds % 60 == seconds
  {
  }

  /** ParseTime reads any clock string as minutes * 60 + seconds. */
  lemma ParseClockShows(c: string, mins: nat, secs: nat)
    requires secs < 60 && ClockShows(c, mins, secs)
    ensures ParseTime(c) == Some(mins * 60 + secs)
  {
  }

  /** Two different second counts never show the same clock. */
  lemma FormatTimeInjective(s1: nat, s2: nat)
    requires s1 != s2
    ensures FormatTime(s1) != FormatTime(s2)
  {
    FormatTimeRoundTrip(s1);
    FormatTimeRoundTrip(s2);
  }

  /**
   * The page passes formatTime a non-negative floating-point time; taking
   * its floor first loses nothing: floor(t / 60) and floor(t % 60) are the
   * minutes and seconds of floor(t).
   */
  lemma {:induction false} FloorOfRealTime(t: real)
    requires t >= 0.0
    ensures (t / 60.0).Floor == t.Floor / 60
    ensures (t - 60.0 * (t / 60.0).Floor as real).Floor == t.Floor % 60
  {
    var n := t.Floor;
    var q, r := n / 60, n % 60;
    assert n == 60 * q + r;
    assert q as real <= t / 60.0 < q as real + 1.0;
  }
}

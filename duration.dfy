/** The YouTube duration code (`PT#H#M#S`, the hours/minutes/seconds part of an
    ISO 8601 duration) and the clock string shown for a video. */
module Duration {
  import opened Text
  import opened Wrappers

  /** The longest prefix of `s` made of decimal digits (the greedy `\d+`). */
  function DigitRun(s: string): (d: string)
    ensures |d| <= |s| && d == s[..|d|] && AllDigits(d)
    ensures |d| < |s| ==> !IsDigit(s[|d|])
  {
    if s == [] || !IsDigit(s[0]) then [] else [s[0]] + DigitRun(s[1..])
  }

  /** One optional group `(?:(\d+)U)?` of the pattern: its value (0 when the
      group is absent) and the text after it. */
  function Group(s: string, unit: char): (r: (nat, string))
  {
    var d := DigitRun(s);
    if d != [] && |d| < |s| && s[|d|] == unit then (DigitsValue(d), s[|d| + 1..]) else (0, s)
  }

  /** `_parse_duration`: `re.match(r'PT(?:(\d+)H)?(?:(\d+)M)?(?:(\d+)S)?', code)`,
      anchored at the start, text after the match ignored; 0 when there is no match. */
  function ParseDuration(code: string): (seconds: nat)
    ensures !StartsWith(code, "PT") ==> seconds == 0
  {
    if !StartsWith(code, "PT") then 0
    else
      var (h, afterH) := Group(code[2..], 'H');
      var (m, afterM) := Group(afterH, 'M');
      var (s, _) := Group(afterM, 'S');
      h * 3600 + m * 60 + s
  }

  /** A duration code with each of its three groups present or absent. */
  function Code(h: Option<nat>, m: Option<nat>, s: Option<nat>): string {
    "PT" + Field(h, 'H') + Field(m, 'M') + Field(s, 'S')
  }

  function Field(n: Option<nat>, unit: char): string {
    match n
    case Some(v) => NatToString(v) + [unit]
    case None => []
  }

  lemma {:induction false} DigitRunOfDigitsThen(d: string, rest: string)
    requires AllDigits(d)
    requires rest == [] || !IsDigit(rest[0])
    ensures DigitRun(d + rest) == d
  {
    if d == [] {
      assert d + rest == rest;
    } else {
      assert (d + rest)[1..] == d[1..] + rest;
      DigitRunOfDigitsThen(d[1..], rest);
      assert [d[0]] + d[1..] == d;
    }
  }

  /** A group is absent where the text does not start with a digit. */
  lemma NoGroupAtNonDigit(t: string, unit: char)
    requires t == [] || !IsDigit(t[0])
    ensures Group(t, unit) == (0, t)
  {
    DigitRunOfDigitsThen([], t);
  }

  /** Reading a group back from the text that `Field` wrote for it. */
  lemma GroupOfField(n: Option<nat>, unit: char, rest: string)
    requires !IsDigit(unit)
    requires n.None? ==> Group(rest, unit) == (0, rest)
    ensures Group(Field(n, unit) + rest, unit) == (n.GetOr(0), rest)
  {
    var s := Field(n, unit) + rest;
    if n.Some? {
      var d := NatToString(n.value);
      assert s == d + ([unit] + rest);
      DigitRunOfDigitsThen(d, [unit] + rest);
      NatToStringValue(n.value);
      assert s[|d| + 1..] == rest;
    } else {
      assert s == rest;
    }
  }

  /** A group for another unit is skipped without consuming anything. */
  lemma GroupOfOtherField(n: Option<nat>, u: char, unit: char, rest: string)
    requires !IsDigit(u) && u != unit
    requires n.None? ==> Group(rest, unit) == (0, rest)
    ensures Group(Field(n, u) + rest, unit) == (0, Field(n, u) + rest)
  {
    var s := Field(n, u) + rest;
    if n.Some? {
      var d := NatToString(n.value);
      assert s == d + ([u] + rest);
      DigitRunOfDigitsThen(d, [u] + rest);
    } else {
      assert s == rest;
    }
  }

  /** Every well-formed code parses to h*3600 + m*60 + s, absent groups counting as 0,
      whatever text not starting with a digit follows it. */
  lemma {:induction false} ParseCode(h: Option<nat>, m: Option<nat>, s: Option<nat>, tail: string)
    requires tail == [] || !IsDigit(tail[0])
    ensures ParseDuration(Code(h, m, s) + tail) == h.GetOr(0) * 3600 + m.GetOr(0) * 60 + s.GetOr(0)
  {
    var code := Code(h, m, s) + tail;
    var fh, fm, fs := Field(h, 'H'), Field(m, 'M'), Field(s, 'S');
    assert code == "PT" + (fh + (fm + (fs + tail)));
    assert StartsWith(code, "PT");
    assert code[2..] == fh + (fm + (fs + tail));
    var afterS := fs + tail;
    var afterM := fm + afterS;
    NoGroupAtNonDigit(tail, 'S');
    NoGroupAtNonDigit(tail, 'M');
    NoGroupAtNonDigit(tail, 'H');
    GroupOfField(s, 'S', tail);
    GroupOfOtherField(s, 'S', 'M', tail);
    GroupOfOtherField(s, 'S', 'H', tail);
    GroupOfField(m, 'M', afterS);
    GroupOfOtherField(m, 'M', 'H', afterS);
    GroupOfField(h, 'H', afterM);
  }

  /** A text that does not begin with `PT` (for instance one with a day part,
      `P1DT2H`) is not an error: it counts as 0 seconds. */
  lemma DayCodeIsZero(days: nat, rest: string)
    ensures ParseDuration("P" + NatToString(days) + "D" + rest) == 0
  {
    var code := "P" + NatToString(days) + "D" + rest;
    assert code[1] == NatToString(days)[0];
    assert code[..2] != "PT";
  }

  /** `_format_duration`: `HH:MM:SS` (each field zero-padded to two digits) when the
      video lasts an hour or more, `MM:SS` otherwise. */
  function FormatDuration(seconds: nat): (clock: string)
    ensures |clock| >= 5 && forall i :: 0 <= i < |clock| ==> IsDigit(clock[i]) || clock[i] == ':'
    ensures seconds >= 3600 ==> |clock| >= 8
  {
    var hours, minutes, secs := seconds / 3600, seconds % 3600 / 60, seconds % 60;
    if hours > 0 then Pad2(hours) + ":" + Pad2(minutes) + ":" + Pad2(secs)
    else Pad2(minutes) + ":" + Pad2(secs)
  }

  /** Reads a clock string back: its `:`-separated decimal fields (none if one is not decimal). */
  function ReadClock(clock: string): (fields: seq<nat>)
  {
    var parts := SplitOn(clock, ':');
    if forall i :: 0 <= i < |parts| ==> AllDigits(parts[i]) then
      seq(|parts|, i requires 0 <= i < |parts| => DigitsValue(parts[i]))
    else []
  }

  /** The weighted value of clock fields, most significant first. */
  function ClockSeconds(fields: seq<nat>): nat {
    if |fields| == 3 then fields[0] * 3600 + fields[1] * 60 + fields[2]
    else if |fields| == 2 then fields[0] * 60 + fields[1]
    else 0
  }

  /** The three clock fields recombine to the duration. */
  lemma ClockArithmetic(seconds: nat)
    ensures seconds % 3600 / 60 < 60 && seconds % 60 < 60
    ensures seconds / 3600 * 3600 + seconds % 3600 / 60 * 60 + seconds % 60 == seconds
  {
    var r := seconds % 3600;
    assert seconds == seconds / 3600 * 3600 + r;
    assert r == r / 60 * 60 + r % 60;
    assert r % 60 == seconds % 60 by {
      assert seconds == (seconds / 3600 * 60) * 60 + r;
    }
  }

  lemma ClockSplit(seconds: nat)
    ensures var hours, minutes, secs := seconds / 3600, seconds % 3600 / 60, seconds % 60;
      SplitOn(FormatDuration(seconds), ':') ==
        if hours > 0 then [Pad2(hours), Pad2(minutes), Pad2(secs)] else [Pad2(minutes), Pad2(secs)]
  {
    var hours, minutes, secs := seconds / 3600, seconds % 3600 / 60, seconds % 60;
    var ph, pm, ps := Pad2(hours), Pad2(minutes), Pad2(secs);
    assert ':' !in ph && ':' !in pm && ':' !in ps;
    SplitOnNoSep(ps, ':');
    SplitOnAtSep(pm, ':', ps);
    assert pm + ":" + ps == pm + [':'] + ps;
    if hours > 0 {
      SplitOnAtSep(ph, ':', pm + ":" + ps);
      assert ph + ":" + pm + ":" + ps == ph + [':'] + (pm + ":" + ps);
    }
  }

  /** A clock whose fields are zero-padded numbers reads back as those numbers. */
  lemma ReadPadded(clock: string, ns: seq<nat>)
    requires SplitOn(clock, ':') == seq(|ns|, i requires 0 <= i < |ns| => Pad2(ns[i]))
    ensures ReadClock(clock) == ns
  {
    var parts := SplitOn(clock, ':');
    assert forall i :: 0 <= i < |parts| ==> parts[i] == Pad2(ns[i]);
  }

  /** The fields of the formatted clock, read back. */
  lemma ClockFields(seconds: nat)
    ensures var hours, minutes, secs := seconds / 3600, seconds % 3600 / 60, seconds % 60;
      ReadClock(FormatDuration(seconds)) == if hours > 0 then [hours, minutes, secs] else [minutes, secs]
  {
    var hours, minutes, secs := seconds / 3600, seconds % 3600 / 60, seconds % 60;
    ClockSplit(seconds);
    var ns: seq<nat> := if hours > 0 then [hours, minutes, secs] else [minutes, secs];
    assert SplitOn(FormatDuration(seconds), ':') == seq(|ns|, i requires 0 <= i < |ns| => Pad2(ns[i]));
    ReadPadded(FormatDuration(seconds), ns);
  }

  /** Formatting then reading the clock back gives three fields exactly when the video
      lasts an hour or more, minutes and seconds below 60, and fields whose weighted sum
      is the duration. Re-parsing the matching `PT` code gives the duration back too. */
  lemma {:induction false} FormatDurationRoundTrip(seconds: nat)
    ensures var fields := ReadClock(FormatDuration(seconds));
      && (|fields| == 3 <==> seconds >= 3600)
      && (|fields| == 2 <==> seconds < 3600)
      && fields[|fields| - 1] < 60 && fields[|fields| - 2] < 60
      && ClockSeconds(fields) == seconds
    ensures ParseDuration(Code(Some(seconds / 3600), Some(seconds % 3600 / 60), Some(seconds % 60))) == seconds
  {
    var hours, minutes, secs := seconds / 3600, seconds % 3600 / 60, seconds % 60;
    ClockArithmetic(seconds);
    ClockFields(seconds);
    ParseCode(Some(hours), Some(minutes), Some(secs), []);
    assert Code(Some(hours), Some(minutes), Some(secs)) + [] == Code(Some(hours), Some(minutes), Some(secs));
  }
}

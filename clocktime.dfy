/** Clock-time arithmetic of src/pre-time.py: HHMMSS strings, seizure start and
    end times from second offsets, interictal bounds some minutes around each
    seizure, offsets between two clock times and the pre-ictal start.

    A parsed time carries the date 1900-01-01, so a moment is modelled as an
    integer number of seconds from 1900-01-01 00:00:00; offsets may move it to
    another day, and rendering shows only its time of day. */
module ClockTime {
  import opened Common

  const SecondsPerDay: nat := 86400

  predicate IsDigit(c: char)
  {
    '0' <= c <= '9'
  }

  function DigitValue(c: char): nat
    requires IsDigit(c)
  {
    (c as int) - ('0' as int)
  }

  function DigitChar(d: nat): (c: char)
    requires d < 10
    ensures IsDigit(c) && DigitValue(c) == d
  {
    (('0' as int) + d) as char
  }

  /** The value of a two-digit field. */
  function Field(s: string, i: nat): nat
    requires i + 1 < |s| && IsDigit(s[i]) && IsDigit(s[i + 1])
  {
    DigitValue(s[i]) * 10 + DigitValue(s[i + 1])
  }

  /** A number below 100 as two zero-padded digits (strftime's %H, %M, %S). */
  function Pad2(n: nat): (s: string)
    requires n < 100
    ensures |s| == 2 && IsDigit(s[0]) && IsDigit(s[1]) && Field(s, 0) == n
  {
    [DigitChar(n / 10), DigitChar(n % 10)]
  }

  /** parse_time: an HHMMSS string to its seconds of day; strptime refuses
      anything else with a ValueError. */
  function ParseTime(s: string): (r: Result<int>)
    ensures r.Ok? ==> 0 <= r.value < SecondsPerDay
    ensures r.Ok? <==> |s| == 6 && (forall i :: 0 <= i < 6 ==> IsDigit(s[i])) &&
                       Field(s, 0) < 24 && Field(s, 2) < 60 && Field(s, 4) < 60
  {
    if |s| != 6 || !(forall i :: 0 <= i < 6 ==> IsDigit(s[i])) then Err(TimeFormat)
    else
      var h, m, sec := Field(s, 0), Field(s, 2), Field(s, 4);
      if h < 24 && m < 60 && sec < 60 then Ok(h * 3600 + m * 60 + sec) else Err(TimeFormat)
  }

  /** The time of day of a moment, wrapping modulo 24 hours. */
  function TimeOfDay(t: int): (d: nat)
    ensures d < SecondsPerDay
  {
    t % SecondsPerDay
  }

  /** strftime("%H:%M:%S") of a moment: its time of day as HH:MM:SS. */
  function Render(t: int): (r: string)
    ensures |r| == 8 && r[2] == ':' && r[5] == ':'
    ensures forall i :: 0 <= i < 8 && i != 2 && i != 5 ==> IsDigit(r[i])
  {
    var d := TimeOfDay(t);
    assert d / 3600 < 24;
    Pad2(d / 3600) + ":" + Pad2(d % 3600 / 60) + ":" + Pad2(d % 3600 % 60)
  }

  /** A string with every ':' removed. */
  function RemoveColons(s: string): (r: string)
    ensures |r| <= |s|
  {
    if s == [] then []
    else (if s[0] == ':' then [] else [s[0]]) + RemoveColons(s[1..])
  }

  lemma RemoveColonsRendered(t: int)
    ensures var r := Render(t); RemoveColons(r) == r[0..2] + r[3..5] + r[6..8]
  {
    RemoveTwoColons(Render(t));
  }

  /** Removing the colons of an HH:MM:SS-shaped string leaves its six digits. */
  lemma RemoveTwoColons(r: string)
    requires |r| == 8 && r[2] == ':' && r[5] == ':'
    requires forall i :: 0 <= i < 8 && i != 2 && i != 5 ==> IsDigit(r[i])
    ensures RemoveColons(r) == r[0..2] + r[3..5] + r[6..8]
  {
    var hh, mm, ss := r[0..2], r[3..5], r[6..8];
    var tail := mm + [':'] + ss;
    assert r == hh + [':'] + tail;
    assert forall i :: 0 <= i < 2 ==> hh[i] == r[i] && mm[i] == r[3 + i] && ss[i] == r[6 + i];
    RemoveColonsAround(mm, ss);
    RemoveColonsNone(ss);
    RemoveColonsAround(hh, tail);
  }

  /** A colon after a colon-free prefix disappears and the prefix stays. */
  lemma {:induction false} RemoveColonsAround(a: string, b: string)
    requires forall i :: 0 <= i < |a| ==> a[i] != ':'
    ensures RemoveColons(a + [':'] + b) == a + RemoveColons(b)
  {
    assert a + [':'] + b == a + ([':'] + b);
    RemoveColonsConcat(a, [':'] + b);
    RemoveColonsNone(a);
    assert ([':'] + b)[1..] == b;
  }

  lemma {:induction false} RemoveColonsConcat(a: string, b: string)
    ensures RemoveColons(a + b) == RemoveColons(a) + RemoveColons(b)
  {
    if a == [] {
      assert a + b == b;
    } else {
      assert (a + b)[0] == a[0];
      assert (a + b)[1..] == a[1..] + b;
      RemoveColonsConcat(a[1..], b);
    }
  }

  lemma {:induction false} RemoveColonsNone(s: string)
    requires forall i :: 0 <= i < |s| ==> s[i] != ':'
    ensures RemoveColons(s) == s
  {
    if s != [] {
      RemoveColonsNone(s[1..]);
    }
  }

  /** Every rendered time, with its colons removed, is a valid HHMMSS string
      that parses back to the moment's time of day. */
  lemma {:induction false} RenderParses(t: int)
    ensures ParseTime(RemoveColons(Render(t))) == Ok(TimeOfDay(t))
  {
    var d := TimeOfDay(t);
    var h, m, sec := d / 3600, d % 3600 / 60, d % 3600 % 60;
    assert d == h * 3600 + m * 60 + sec && h < 24 by {
      DivModUnique(d % 3600, 60, m, sec);
    }
    RemoveColonsRendered(t);
    assert RemoveColons(Render(t)) == Pad2(h) + Pad2(m) + Pad2(sec);
    PadFields(h, m, sec);
  }

  /** Three padded fields side by side read back as those fields. */
  lemma PadFields(h: nat, m: nat, sec: nat)
    requires h < 100 && m < 100 && sec < 100
    ensures var s := Pad2(h) + Pad2(m) + Pad2(sec);
      |s| == 6 && (forall i :: 0 <= i < 6 ==> IsDigit(s[i])) &&
      Field(s, 0) == h && Field(s, 2) == m && Field(s, 4) == sec
  {
    var s := Pad2(h) + Pad2(m) + Pad2(sec);
    assert s[0..2] == Pad2(h) && s[2..4] == Pad2(m) && s[4..6] == Pad2(sec);
  }

  /** Conversely, rendering a parsed time and removing the colons gives back
      the string that was parsed. */
  lemma {:induction false} ParseRenders(s: string)
    requires ParseTime(s).Ok?
    ensures RemoveColons(Render(ParseTime(s).value)) == s
  {
    var v := ParseTime(s).value;
    var h, m, sec := Field(s, 0), Field(s, 2), Field(s, 4);
    assert v == h * 3600 + (m * 60 + sec);
    DivModUnique(v, SecondsPerDay, 0, v);
    DivModUnique(v, 3600, h, m * 60 + sec);
    DivModUnique(m * 60 + sec, 60, m, sec);
    RemoveColonsRendered(v);
    var r := Render(v);
    assert r[0..2] == Pad2(h) && r[3..5] == Pad2(m) && r[6..8] == Pad2(sec);
    PadField(s, 0);
    PadField(s, 2);
    PadField(s, 4);
    assert s == s[0..2] + s[2..4] + s[4..6];
  }

  lemma PadField(s: string, i: nat)
    requires i + 1 < |s| && IsDigit(s[i]) && IsDigit(s[i + 1])
    ensures Field(s, i) < 100 && Pad2(Field(s, i)) == s[i..i + 2]
  {
    var f := Field(s, i);
    DivModUnique(f, 10, DigitValue(s[i]), DigitValue(s[i + 1]));
    assert DigitChar(DigitValue(s[i])) == s[i];
    assert DigitChar(DigitValue(s[i + 1])) == s[i + 1];
  }

  // ---------------------------------------------------------------------
  // Seizure and interictal times

  /** A seizure's number (from 1) and its start and end moments. */
  datatype SeizureTime = SeizureTime(number: nat, start: int, end: int)

  /** calculate_seizure_times: one record per (start, end) offset pair, in
      order, numbered from 1, each offset added to the file's start time. */
  method CalculateSeizureTimes(fileStart: string, seizureIntervals: seq<(int, int)>)
    returns (r: Result<seq<SeizureTime>>)
    ensures r.Err? <==> ParseTime(fileStart).Err?
    ensures r.Ok? ==>
      |r.value| == |seizureIntervals| &&
      forall k :: 0 <= k < |seizureIntervals| ==>
        r.value[k].number == k + 1 &&
        r.value[k].start == ParseTime(fileStart).value + seizureIntervals[k].0 &&
        r.value[k].end == ParseTime(fileStart).value + seizureIntervals[k].1
  {
    var startDt := ParseTime(fileStart);
    if startDt.Err? {
      return Err(startDt.error);
    }
    var seizureTimes: seq<SeizureTime> := [];
    for idx := 0 to |seizureIntervals|
      invariant |seizureTimes| == idx
      invariant forall k :: 0 <= k < idx ==>
        seizureTimes[k] == SeizureTime(k + 1, startDt.value + seizureIntervals[k].0,
                                       startDt.value + seizureIntervals[k].1)
    {
      var (s, e) := seizureIntervals[idx];
      seizureTimes := seizureTimes + [SeizureTime(idx + 1, startDt.value + s, startDt.value + e)];
    }
    return Ok(seizureTimes);
  }

  /** A seizure's number and the bounds of its interictal exclusion zone as
      HH:MM:SS strings. */
  datatype Interictal = Interictal(number: nat, start: string, end: string)

  /** calculate_interictal_times: for each seizure, `minute` minutes before its
      start and `minute` minutes after its end, rendered as times of day (see
      RenderParses for what a rendered time holds). */
  method CalculateInterictalTimes(seizureTimes: seq<SeizureTime>, minute: int)
    returns (interictals: seq<Interictal>)
    ensures |interictals| == |seizureTimes|
    ensures forall k :: 0 <= k < |seizureTimes| ==>
      interictals[k] == Interictal(seizureTimes[k].number, Render(seizureTimes[k].start - minute * 60),
                                   Render(seizureTimes[k].end + minute * 60))
  {
    interictals := [];
    for i := 0 to |seizureTimes|
      invariant |interictals| == i
      invariant forall k :: 0 <= k < i ==>
        interictals[k] == Interictal(seizureTimes[k].number, Render(seizureTimes[k].start - minute * 60),
                                     Render(seizureTimes[k].end + minute * 60))
    {
      var seizure := seizureTimes[i];
      var interictalStart := Render(seizure.start - minute * 60);
      var interictalEnd := Render(seizure.end + minute * 60);
      interictals := interictals + [Interictal(seizure.number, interictalStart, interictalEnd)];
    }
  }

  // ---------------------------------------------------------------------
  // Offsets

  /** timepoint_to_seconds: the signed number of seconds from the file's start
      time to a time point, both on the same day. */
  function TimepointToSeconds(fileStart: string, timePoint: string): (r: Result<int>)
    ensures r.Ok? <==> ParseTime(fileStart).Ok? && ParseTime(timePoint).Ok?
    ensures r.Ok? ==> 0 < r.value + SecondsPerDay && r.value < SecondsPerDay
  {
    var startDt := ParseTime(fileStart);
    if startDt.Err? then Err(startDt.error)
    else
      var pointDt := ParseTime(timePoint);
      if pointDt.Err? then Err(pointDt.error)
      else Ok(pointDt.value - startDt.value)
  }

  /** The offset is zero from a time to itself, negative exactly when the time
      point is earlier (no day wrap), reverses sign when the two swap, and adds
      up along a chain of three times. */
  lemma TimepointOrder(a: string, b: string, c: string)
    requires ParseTime(a).Ok? && ParseTime(b).Ok? && ParseTime(c).Ok?
    ensures TimepointToSeconds(a, a) == Ok(0)
    ensures TimepointToSeconds(a, b).value < 0 <==> ParseTime(b).value < ParseTime(a).value
    ensures TimepointToSeconds(a, b).value == -TimepointToSeconds(b, a).value
    ensures TimepointToSeconds(a, b).value + TimepointToSeconds(b, c).value ==
            TimepointToSeconds(a, c).value
  {}

  /** A seizure that starts on the file's own day is found again by
      timepoint_to_seconds: the offset of its rendered start time is the
      seizure's offset. */
  lemma {:induction false} SeizureOffsetRoundTrip(fileStart: string, offset: int)
    requires ParseTime(fileStart).Ok?
    requires 0 <= ParseTime(fileStart).value + offset < SecondsPerDay
    ensures TimepointToSeconds(fileStart, RemoveColons(Render(ParseTime(fileStart).value + offset))) == Ok(offset)
  {
    var t := ParseTime(fileStart).value + offset;
    RenderParses(t);
    DivModUnique(t, SecondsPerDay, 0, t);
  }

  /** cal_pre_time: the pre-ictal start second `start - interval * 60`, not
      clamped at zero, and the time of day `interval` minutes before the last
      seizure's start. With no seizure the time of day is never bound and the
      return raises UnboundLocalError. */
  method CalPreTime(start: int, seizureTimes: seq<SeizureTime>, interval: int)
    returns (r: Result<(int, string)>)
    ensures r.Ok? <==> |seizureTimes| > 0
    ensures r.Ok? ==>
      r.value.0 == start - interval * 60 &&
      r.value.1 == Render(seizureTimes[|seizureTimes| - 1].start - interval * 60)
  {
    var preTime := start - interval * 60;
    var preStart: Option<string> := None;
    for i := 0 to |seizureTimes|
      invariant i == 0 <==> preStart.None?
      invariant i > 0 ==> preStart.value == Render(seizureTimes[i - 1].start - interval * 60)
    {
      var startTime := seizureTimes[i].start;
      preStart := Some(Render(startTime - interval * 60));
    }
    if preStart.None? {
      return Err(UnboundLocal);
    }
    return Ok((preTime, preStart.value));
  }
}

/** The clock-face time picker: the "HH:MM AM/PM" text it reads and
    writes, the snapping of a pointer angle to an hour or a minute, and the
    hours/minutes view with its drag state. Angles are whole degrees,
    measured clockwise from twelve o'clock, in [0, 360). */
module TimePicker {
  import opened Optional
  import opened Text

  datatype Period = AM | PM

  datatype TimeState = TimeState(hour: nat, minute: nat, period: Period)

  datatype View = Hours | Minutes

  /** The time the picker starts from when it is given none. */
  const DefaultInitialTime: string := "07:00 AM"

  /** What an unreadable time string parses to. */
  const DefaultTime: TimeState := TimeState(7, 0, AM)

  function PeriodText(p: Period): (s: string)
    ensures |s| == 2 && s[1] == 'M'
    ensures p == AM <==> s[0] == 'A'
  {
    match p
    case AM => "AM"
    case PM => "PM"
  }

  // ---------------------------------------------------------------------
  // Reading: the first match of /(\d{1,2}):(\d{2})\s?(AM|PM)/i.

  /** `AM` or `PM`, in either case, at `s[j..j + 2]`. */
  function PeriodAt(s: string, j: nat): (r: Option<Period>)
    ensures r.Some? ==> j + 2 <= |s| && (s[j + 1] == 'M' || s[j + 1] == 'm')
    ensures r == Some(AM) ==> s[j] == 'A' || s[j] == 'a'
    ensures r == Some(PM) ==> s[j] == 'P' || s[j] == 'p'
  {
    if j + 2 <= |s| && (s[j + 1] == 'M' || s[j + 1] == 'm') then
      if s[j] == 'A' || s[j] == 'a' then Some(AM)
      else if s[j] == 'P' || s[j] == 'p' then Some(PM)
      else None
    else None
  }

  /** The match that starts at `i` with an hour of `n` digits, if any. The
      optional white space is tried first, as a greedy `\s?` is. */
  function MatchWith(s: string, i: nat, n: nat): (r: Option<TimeState>)
    requires n == 1 || n == 2
    ensures r.Some? ==>
      i + n + 5 <= |s| && AllDigits(s[i..i + n]) && s[i + n] == ':' && AllDigits(s[i + n + 1..i + n + 3])
      && r.value.hour == DigitsValue(s[i..i + n]) && r.value.minute == DigitsValue(s[i + n + 1..i + n + 3])
    ensures r.Some? ==> r.value.hour < 100 && r.value.minute < 100
  {
    if i + n + 3 <= |s| && AllDigits(s[i..i + n]) && s[i + n] == ':' && AllDigits(s[i + n + 1..i + n + 3]) then
      var j := i + n + 3;
      var p := if j < |s| && IsWhitespace(s[j]) && PeriodAt(s, j + 1).Some? then PeriodAt(s, j + 1) else PeriodAt(s, j);
      SmallDigitsValue(s[i..i + n]);
      SmallDigitsValue(s[i + n + 1..i + n + 3]);
      if p.Some? then Some(TimeState(DigitsValue(s[i..i + n]), DigitsValue(s[i + n + 1..i + n + 3]), p.value))
      else None
    else None
  }

  lemma SmallDigitsValue(s: string)
    requires AllDigits(s) && |s| <= 2
    ensures DigitsValue(s) < 100
  {
    if |s| == 2 {
      assert DigitsValue(s[..1]) == DigitValue(s[..1][0]);
    }
  }

  /** The match that starts at `i`: two hour digits are tried before one. */
  function MatchAt(s: string, i: nat): Option<TimeState> {
    if MatchWith(s, i, 2).Some? then MatchWith(s, i, 2) else MatchWith(s, i, 1)
  }

  /** The leftmost position at or after `i` where a match starts. */
  function FirstMatch(s: string, i: nat): (r: Option<nat>)
    requires i <= |s|
    ensures r.Some? ==> i <= r.value <= |s| && MatchAt(s, r.value).Some?
    ensures r.Some? ==> forall q :: i <= q < r.value ==> MatchAt(s, q).None?
    ensures r.None? ==> forall q :: i <= q <= |s| ==> MatchAt(s, q).None?
    decreases |s| - i
  {
    if MatchAt(s, i).Some? then Some(i)
    else if i == |s| then None
    else FirstMatch(s, i + 1)
  }

  /** `parseTime(timeStr)`: the first match, anywhere in the string; no
      range check on the hour or the minute. */
  function ParseTime(s: string): (t: TimeState)
    ensures (forall q :: 0 <= q <= |s| ==> MatchAt(s, q).None?) ==> t == DefaultTime
    ensures (exists q :: 0 <= q <= |s| && MatchAt(s, q).Some?) ==>
      exists p :: 0 <= p <= |s| && MatchAt(s, p) == Some(t) && forall q :: 0 <= q < p ==> MatchAt(s, q).None?
    ensures t.hour < 100 && t.minute < 100
  {
    match FirstMatch(s, 0)
    case Some(p) =>
      assert MatchAt(s, p) == Some(MatchAt(s, p).value);
      MatchAt(s, p).value
    case None => DefaultTime
  }

  // ---------------------------------------------------------------------
  // Writing: `handleOk`.

  /** `n.toString().padStart(2, "0")` */
  function Pad2(n: nat): (r: string)
    ensures n < 100 ==> r == [DigitChar(n / 10), DigitChar(n % 10)]
    ensures n >= 100 ==> r == NatToString(n)
  {
    if n < 10 then
      assert NatToString(n) == [DigitChar(n)];
      PadStart2(NatToString(n))
    else
      assert n < 100 ==> NatToString(n / 10) == [DigitChar(n / 10)];
      PadStart2(NatToString(n))
  }

  /** `${h}:${m} ${period}` */
  function FormatTime(t: TimeState): (s: string)
    ensures t.hour < 100 && t.minute < 100 ==> |s| == 8 && s[2] == ':' && s[5] == ' '
  {
    Pad2(t.hour) + ":" + Pad2(t.minute) + " " + PeriodText(t.period)
  }

  lemma TwoDigitsValue(n: nat)
    requires n < 100
    ensures AllDigits(Pad2(n)) && DigitsValue(Pad2(n)) == n
  {
    var s := Pad2(n);
    assert s[..1] == [DigitChar(n / 10)];
    assert s[..1][..0] == [];
  }

  /** Reading back a formatted time gives the same time, whenever the hour
      and the minute have at most two digits. */
  lemma ParseFormatted(t: TimeState)
    requires t.hour < 100 && t.minute < 100
    ensures ParseTime(FormatTime(t)) == t
  {
    var s := FormatTime(t);
    TwoDigitsValue(t.hour);
    TwoDigitsValue(t.minute);
    assert s[0..2] == Pad2(t.hour);
    assert s[3..5] == Pad2(t.minute);
    assert IsWhitespace(s[5]);
    assert s[6..8] == PeriodText(t.period);
    assert PeriodAt(s, 6) == Some(t.period);
    assert MatchWith(s, 0, 2) == Some(t);
  }

  /** The picker's own default reads as seven in the morning. */
  lemma DefaultInitialTimeParses()
    ensures ParseTime(DefaultInitialTime) == DefaultTime
  {
    ParseFormatted(DefaultTime);
    assert FormatTime(DefaultTime) == DefaultInitialTime;
  }

  /** The hour and the minute are read as written, out of range or not. */
  lemma NoRangeCheck()
    ensures ParseTime("99:99 pm") == TimeState(99, 99, PM)
  {
    var s := "99:99 pm";
    assert s[0..2] == "99" && s[3..5] == "99";
    assert DigitsValue("99") == 99 by {
      assert "99"[..1] == "9";
    }
    assert PeriodAt(s, 6) == Some(PM);
    assert MatchAt(s, 0) == Some(TimeState(99, 99, PM));
  }

  /** A one-digit hour and no space before the period read too. */
  lemma OneDigitHour()
    ensures ParseTime("at 7:05pm") == TimeState(7, 5, PM)
  {
    var s := "at 7:05pm";
    assert s[5..7] == "05";
    assert DigitsValue("05") == 5 by {
      assert "05"[..1] == "0";
    }
    assert s[3..4] == "7";
    assert !IsDigit(s[4]);
    assert PeriodAt(s, 7) == Some(PM);
    assert MatchAt(s, 0).None? && MatchAt(s, 1).None? && MatchAt(s, 2).None?;
    assert MatchAt(s, 3) == Some(TimeState(7, 5, PM));
  }

  /** A time without a readable "h:mm AM/PM" in it reads as the default. */
  lemma NoDigitsReadsDefault(s: string)
    requires forall i :: 0 <= i < |s| ==> !IsDigit(s[i])
    ensures ParseTime(s) == DefaultTime
  {
    forall q | 0 <= q <= |s|
      ensures MatchAt(s, q).None?
    {
      if q < |s| {
        assert s[q..q + 1][0] == s[q];
      }
    }
  }

  // ---------------------------------------------------------------------
  // Snapping a pointer angle.

  /** `Math.round(deg / 30)`, with 0 read as 12. For a whole number of
      degrees, rounding half up is `(deg + 15) / 30` rounded down. */
  function HourFromAngle(deg: int): (hour: int)
    ensures 0 <= deg < 360 ==> 1 <= hour <= 12
    ensures 0 <= deg < 360 ==> -15 < hour * 30 - deg <= 15 || -15 < hour * 30 - 360 - deg <= 15
  {
    var h := (deg + 15) / 30;
    if h == 0 then 12 else h
  }

  /** `Math.round(deg / 6)`, with 60 read as 0. */
  function MinuteFromAngle(deg: int): (minute: int)
    ensures 0 <= deg < 360 ==> 0 <= minute <= 59
    ensures 0 <= deg < 360 ==> -3 < minute * 6 - deg <= 3 || -3 < minute * 6 + 360 - deg <= 3
  {
    var m := (deg + 3) / 6;
    if m == 60 then 0 else m
  }

  /** The angle of the clock hand: 30 degrees an hour, 6 a minute. */
  function HandRotation(view: View, t: TimeState): (deg: int)
    ensures view == Hours && 1 <= t.hour <= 12 ==> 30 <= deg <= 360
    ensures view == Minutes && t.minute < 60 ==> 0 <= deg < 360
  {
    if view == Hours then t.hour * 30 else t.minute * 6
  }

  /** Pointing at the hand of an hour selects that hour again. */
  lemma HourSnapsToHand(hour: nat)
    requires 1 <= hour <= 11
    ensures HourFromAngle(HandRotation(Hours, TimeState(hour, 0, AM))) == hour
  {
  }

  /** Pointing at the hand of a minute selects that minute again. */
  lemma MinuteSnapsToHand(minute: nat)
    requires minute < 60
    ensures MinuteFromAngle(HandRotation(Minutes, TimeState(0, minute, AM))) == minute
  {
  }

  // ---------------------------------------------------------------------
  // The picker's state.

  class Picker {
    var timeState: TimeState
    var view: View
    var isDragging: bool

    /** The picker opens on the hours view, reading `initialTime`. */
    constructor(initialTime: string)
      ensures timeState == ParseTime(initialTime) && view == Hours && !isDragging
    {
      timeState := ParseTime(initialTime);
      view := Hours;
      isDragging := false;
    }

    /** `handleClockInteraction(e, isEnd)` at pointer angle `deg`: set the
        hour or the minute of the current view; the end of a drag on the
        hours view moves on to the minutes. */
    method Interact(deg: int, isEnd: bool)
      requires 0 <= deg < 360
      modifies this`timeState, this`view
      ensures old(view) == Hours ==> timeState == old(timeState).(hour := HourFromAngle(deg))
      ensures old(view) == Minutes ==> timeState == old(timeState).(minute := MinuteFromAngle(deg))
      ensures view == (if old(view) == Hours && isEnd then Minutes else old(view))
    {
      if view == Hours {
        timeState := timeState.(hour := HourFromAngle(deg));
        if isEnd {
          view := Minutes;
        }
      } else {
        timeState := timeState.(minute := MinuteFromAngle(deg));
      }
    }

    /** `handleMouseDown`: a drag starts, and the pointer already counts. */
    method MouseDown(deg: int)
      requires 0 <= deg < 360
      modifies this
      ensures isDragging && view == old(view)
      ensures old(view) == Hours ==> timeState == old(timeState).(hour := HourFromAngle(deg))
      ensures old(view) == Minutes ==> timeState == old(timeState).(minute := MinuteFromAngle(deg))
    {
      isDragging := true;
      Interact(deg, false);
    }

    /** `handleMouseMove`: only a drag in progress moves the hand. */
    method MouseMove(deg: int)
      requires 0 <= deg < 360
      modifies this
      ensures isDragging == old(isDragging) && view == old(view)
      ensures !old(isDragging) ==> timeState == old(timeState)
      ensures old(isDragging) && old(view) == Hours ==> timeState == old(timeState).(hour := HourFromAngle(deg))
      ensures old(isDragging) && old(view) == Minutes ==> timeState == old(timeState).(minute := MinuteFromAngle(deg))
    {
      if isDragging {
        Interact(deg, false);
      }
    }

    /** `handleMouseUp`: the drag ends; on the hours view the picker moves
        on to the minutes. A release without a drag does nothing. */
    method MouseUp(deg: int)
      requires 0 <= deg < 360
      modifies this
      ensures !isDragging
      ensures !old(isDragging) ==> timeState == old(timeState) && view == old(view)
      ensures old(isDragging) ==> view == Minutes
      ensures old(isDragging) && old(view) == Hours ==> timeState == old(timeState).(hour := HourFromAngle(deg))
      ensures old(isDragging) && old(view) == Minutes ==> timeState == old(timeState).(minute := MinuteFromAngle(deg))
    {
      if isDragging {
        isDragging := false;
        Interact(deg, true);
      }
    }

    /** The AM and PM buttons change the period and nothing else. */
    method SetPeriod(p: Period)
      modifies this`timeState
      ensures timeState == old(timeState).(period := p)
    {
      timeState := timeState.(period := p);
    }

    /** The HOUR and MINUTE tabs. */
    method ShowView(v: View)
      modifies this`view
      ensures view == v
    {
      view := v;
    }

    /** `handleOk`: the text handed to `onTimeChange`, which reads back as
        the time shown whenever hour and minute have at most two digits. */
    method Ok() returns (text: string)
      ensures timeState.hour < 100 && timeState.minute < 100 ==> ParseTime(text) == timeState
      ensures text == FormatTime(timeState)
    {
      text := FormatTime(timeState);
      if timeState.hour < 100 && timeState.minute < 100 {
        ParseFormatted(timeState);
      }
    }
  }

  /** A press and release on the hours view picks the hour under the
      pointer and opens the minutes. */
  method PickHour(picker: Picker, deg: int)
    requires 0 <= deg < 360 && picker.view == Hours
    modifies picker
    ensures 1 <= picker.timeState.hour <= 12 && picker.timeState.hour == HourFromAngle(deg)
    ensures picker.view == Minutes && !picker.isDragging
    ensures picker.timeState.minute == old(picker.timeState.minute) && picker.timeState.period == old(picker.timeState.period)
  {
    picker.MouseDown(deg);
    picker.MouseUp(deg);
  }
}

/**
 * A lead's local time and how good a moment it is to call
 * (`getLocalHour` and `getCallWindow`, app/dashboard/lib/utils.ts:23-52).
 * Local time is counted in whole minutes since local midnight, 0..1439.
 */
module CallWindow {
  import opened Js
  import opened Constants
  import opened Calendar

  /** The offset in hours applied to UTC: the table's value, plus one in daylight-saving time outside AZ and HI. */
  function Adjustment(state: string, now: UtcDateTime): Option<int>
    requires 1 <= now.month <= 12
  {
    var key := ToUpper(state);
    match UtcOffset(key)
    case None => None
    case Some(off) => Some(if IsDst(now) && key !in NoDstStates then off + 1 else off)
  }

  /** The lead's wall-clock time: UTC minutes shifted by the adjustment, on the 24-hour dial. */
  function LocalMinutes(state: string, now: UtcDateTime): (r: Option<int>)
    requires 1 <= now.month <= 12
    ensures r.Some? ==> 0 <= r.value < 1440
  {
    match Adjustment(state, now)
    case None => None
    case Some(adj) => Some((now.hour * 60 + now.minute + adj * 60) % 1440)
  }

  /** `getLocalHour`: shift UTC by the offset, then wrap once in each direction. */
  method GetLocalHour(state: string, now: UtcDateTime) returns (h: Option<int>)
    requires Valid(now)
    ensures h == LocalMinutes(state, now)
    ensures h.None? <==> UtcOffset(ToUpper(state)).None?
  {
    var key := ToUpper(state);
    var offset := UtcOffset(key);
    if offset.None? {
      return None;
    }
    var adj := offset.value;
    if IsDst(now) && key !in NoDstStates {
      adj := adj + 1;
    }
    OffsetRange(key);
    var m := WrapDay(now.hour * 60 + now.minute + adj * 60);
    return Some(m);
  }

  /** Bringing a shifted time back onto the dial: add or subtract one day at most once. */
  method WrapDay(m0: int) returns (m: int)
    requires -1440 <= m0 < 2880
    ensures 0 <= m < 1440 && m == m0 % 1440
  {
    m := m0;
    if m < 0 {
      m := m + 1440;
    }
    if m >= 1440 {
      m := m - 1440;
    }
  }

  /** Whether the local time would be shown as PM, and the hour on a 12-hour dial. */
  function Hour12(m: int): (r: int)
    requires 0 <= m < 1440
    ensures 1 <= r <= 12
    ensures r % 12 == (m / 60) % 12
  {
    var dh := m / 60;
    if dh == 0 then 12 else if dh > 12 then dh - 12 else dh
  }

  function AmPm(m: int): string
  {
    if m / 60 >= 12 then "PM" else "AM"
  }

  /** The `time` text: `h:mm AM` or `h:mm PM`. */
  function ClockText(m: int): string
    requires 0 <= m < 1440
  {
    NatToString(Hour12(m)) + ":" + Pad2(m % 60) + " " + AmPm(m)
  }

  /** A reader for `h:mm AM` / `h:mm PM` text, independent of how it is written. */
  function ParseClock(s: string): Option<int>
  {
    var parts := Split(s, ':');
    if |parts| != 2 then None
    else
      var sub := Split(parts[1], ' ');
      if |sub| != 2 || parts[0] == [] || sub[0] == [] || !AllDigits(parts[0]) || !AllDigits(sub[0]) then None
      else
        var h := DigitsValue(parts[0]);
        var mm := DigitsValue(sub[0]);
        if h < 1 || h > 12 || mm >= 60 then None
        else if sub[1] == "AM" then Some((h % 12) * 60 + mm)
        else if sub[1] == "PM" then Some((h % 12 + 12) * 60 + mm)
        else None
  }

  /** `h:mm XM` text splits back into its hour digits, minute digits and suffix. */
  lemma ClockPieces(hs: string, ms: string, ap: string)
    requires AllDigits(hs) && AllDigits(ms) && ' ' !in ap && ':' !in ap
    ensures Split(hs + ":" + ms + " " + ap, ':') == [hs, ms + " " + ap]
    ensures Split(ms + " " + ap, ' ') == [ms, ap]
  {
    assert ':' !in hs;
    assert ' ' !in ms && ':' !in ms;
    assert ':' !in ms + " " + ap;
    assert hs + ":" + ms + " " + ap == hs + [':'] + (ms + " " + ap);
    assert ms + " " + ap == ms + [' '] + ap;
    SplitAtFirst(hs, ':', ms + " " + ap);
    SplitNoDelim(ms + " " + ap, ':');
    SplitAtFirst(ms, ' ', ap);
    SplitNoDelim(ap, ' ');
  }

  /** The displayed time names exactly the local minute it was made from. */
  lemma ClockTextRoundTrip(m: int)
    requires 0 <= m < 1440
    ensures ParseClock(ClockText(m)) == Some(m)
  {
    var hs := NatToString(Hour12(m));
    var ms := Pad2(m % 60);
    ClockPieces(hs, ms, AmPm(m));
    assert ClockText(m) == hs + ":" + ms + " " + AmPm(m);
    NatToStringRoundTrip(Hour12(m));
    Pad2Value(m % 60);
    ClockArithmetic(m);
  }

  /** The hour on the 12-hour dial and the minutes give back the minute of the day. */
  lemma ClockArithmetic(m: int)
    requires 0 <= m < 1440
    ensures m < 720 ==> (Hour12(m) % 12) * 60 + m % 60 == m
    ensures m >= 720 ==> (Hour12(m) % 12 + 12) * 60 + m % 60 == m
  {
  }

  /** What `getCallWindow` returns. */
  datatype Window = Window(labelText: string, score: int, time: string, color: string)

  /** The eight bands of the local day. */
  function Band(m: int, time: string): Window
  {
    if m < 480 then Window("Too Early", 0, time, "#EF4444")
    else if m < 600 then Window("Prime", 10, time, "#22C55E")
    else if m < 720 then Window("Great", 9, time, "#22C55E")
    else if m < 840 then Window("Lunch", 7, time, "#EAB308")
    else if m < 1020 then Window("Good", 8, time, "#3B82F6")
    else if m < 1140 then Window("Evening", 6, time, "#F97316")
    else if m < 1260 then Window("Late", 3, time, "#EF4444")
    else Window("Too Late", 0, time, "#EF4444")
  }

  /** The window for an unknown state. */
  const UnknownWindow := Window("Unknown", 5, "--:--", "#6B7280")

  /** `getCallWindow(state)` at instant `now`. */
  function GetCallWindow(state: string, now: UtcDateTime): Window
    requires 1 <= now.month <= 12
  {
    match LocalMinutes(state, now)
    case None => UnknownWindow
    case Some(m) => Band(m, ClockText(m))
  }

  /** The score of the window, the only part the queue uses; the band does not depend on the time text. */
  function Score(state: string, now: UtcDateTime): int
    requires 1 <= now.month <= 12
  {
    match LocalMinutes(state, now)
    case None => UnknownWindow.score
    case Some(m) => Band(m, "").score
  }

  /** `Score` is the score field of `getCallWindow`'s result. */
  lemma ScoreIsWindowScore(state: string, now: UtcDateTime)
    requires 1 <= now.month <= 12
    ensures Score(state, now) == GetCallWindow(state, now).score
  {
  }

  /** Scores take eight values; a lead can be called iff its state is unknown or it is 8:00 to 20:59 there. */
  lemma ScoreFacts(state: string, now: UtcDateTime)
    requires 1 <= now.month <= 12
    ensures Score(state, now) in {0, 3, 5, 6, 7, 8, 9, 10}
    ensures Score(state, now) > 0 <==>
      LocalMinutes(state, now).None? || 480 <= LocalMinutes(state, now).value < 1260
    ensures Score(state, now) == 5 <==> LocalMinutes(state, now).None?
  {
  }

  /** An unknown state has the neutral window, and a known one shows its local time. */
  lemma WindowText(state: string, now: UtcDateTime)
    requires 1 <= now.month <= 12
    ensures LocalMinutes(state, now).None? ==> GetCallWindow(state, now) == UnknownWindow
    ensures LocalMinutes(state, now).Some? ==>
      ParseClock(GetCallWindow(state, now).time) == LocalMinutes(state, now)
      && (AmPm(LocalMinutes(state, now).value) == "PM" <==> LocalMinutes(state, now).value >= 720)
  {
    if LocalMinutes(state, now).Some? {
      ClockTextRoundTrip(LocalMinutes(state, now).value);
    }
  }

  /** Lower-case and upper-case spellings of a state name give the same local time. */
  lemma LocalMinutesCaseInsensitive(state: string, now: UtcDateTime)
    requires 1 <= now.month <= 12
    ensures LocalMinutes(ToUpper(state), now) == LocalMinutes(state, now)
  {
    assert ToUpper(ToUpper(state)) == ToUpper(state);
  }

  /** Arizona and Hawaii never shift: their adjustment is the table offset all year. */
  lemma NoDstStatesFixed(now: UtcDateTime)
    requires 1 <= now.month <= 12
    ensures Adjustment("AZ", now) == Some(-7) && Adjustment("HI", now) == Some(-10)
  {
    assert ToUpper("AZ") == "AZ";
    assert ToUpper("HI") == "HI";
  }
}

/** The display transformer: rebuilds a fetched grid into display-ready studios and
    periods, normalising each status onto the four `PeriodStatus` values and
    rendering each slot's start and end as one time-range string. */
module ApiTransformers {
  import opened CalendarTypes

  /** 'available' | 'booked' | 'in_use' | 'canceled' */
  datatype PeriodStatus = Available | Booked | InUse | Canceled

  datatype PeriodSlot = PeriodSlot(
    id: PeriodId,
    periodLabel: string,  // `label` in the source; `label` is a Dafny keyword
    timeRange: string,
    status: PeriodStatus,
    reservationType: Option<string>,
    eventName: Option<string>)

  datatype Studio = Studio(id: string, name: string, periods: seq<PeriodSlot>)

  /** The separator of a rendered time range, U+2013 EN DASH. */
  const EnDash: char := '–'

  // ---------------------------------------------------------------------------
  // Status normalisation

  /** A `switch` over the backend vocabulary whose default case is 'available'. Which
      raw tokens land on each display status: the two reservation tokens and no other
      give 'booked'; 'available' is the empty token or anything unknown. */
  function MapStatusToFrontend(backendStatus: string): (r: PeriodStatus)
    ensures r == Booked <==> backendStatus == StatusReserved || backendStatus == StatusConfirmed
    ensures r == InUse <==> backendStatus == StatusInUse
    ensures r == Canceled <==> backendStatus == StatusCanceled
    ensures r == Available <==> backendStatus == StatusEmpty || backendStatus !in Vocabulary
  {
    if backendStatus == StatusEmpty then Available
    else if backendStatus == StatusReserved || backendStatus == StatusConfirmed then Booked
    else if backendStatus == StatusInUse then InUse
    else if backendStatus == StatusCanceled then Canceled
    else Available
  }

  /** The mapping, case by case, with the fallback for every other string. */
  lemma MapStatusToFrontendCases(s: string)
    ensures MapStatusToFrontend(StatusEmpty) == Available
    ensures MapStatusToFrontend(StatusReserved) == Booked
    ensures MapStatusToFrontend(StatusConfirmed) == Booked
    ensures MapStatusToFrontend(StatusInUse) == InUse
    ensures MapStatusToFrontend(StatusCanceled) == Canceled
    ensures s !in Vocabulary ==> MapStatusToFrontend(s) == Available
  {
  }

  /** The tentative and the confirmed reservation token are indistinguishable here. */
  lemma ReservationTokensAgree()
    ensures MapStatusToFrontend(StatusReserved) == MapStatusToFrontend(StatusConfirmed) == Booked
  {
  }

  // ---------------------------------------------------------------------------
  // String.prototype.split with a one-character separator, and its inverse

  /** `s.split(sep)` for a one-character `sep`: the maximal runs between separators,
      one more than there are separators, an empty string included. */
  function Split(s: string, sep: char): (parts: seq<string>)
    ensures |parts| >= 1
    ensures forall k :: 0 <= k < |parts| ==> sep !in parts[k]
    decreases |s|
  {
    if s == [] then [""]
    else
      var rest := Split(s[1..], sep);
      if s[0] == sep then [""] + rest
      else [[s[0]] + rest[0]] + rest[1..]
  }

  /** `parts.join(sep)`. */
  function Join(parts: seq<string>, sep: char): string
    requires |parts| >= 1
  {
    if |parts| == 1 then parts[0] else parts[0] + [sep] + Join(parts[1..], sep)
  }

  lemma {:induction false} JoinSplit(s: string, sep: char)
    ensures Join(Split(s, sep), sep) == s
    decreases |s|
  {
    if s != [] {
      var rest := Split(s[1..], sep);
      JoinSplit(s[1..], sep);
      if s[0] == sep {
        assert Split(s, sep)[1..] == rest;
      } else if |rest| == 1 {
        assert Split(s, sep) == [[s[0]] + rest[0]];
      } else {
        assert Split(s, sep)[1..] == rest[1..];
        assert Join(rest, sep) == rest[0] + [sep] + Join(rest[1..], sep);
      }
    }
  }

  /** Prepending separator-free text to a string extends its first part only. */
  lemma {:induction false} SplitPrepend(w: string, s: string, sep: char)
    requires sep !in w
    ensures Split(w + s, sep) == [w + Split(s, sep)[0]] + Split(s, sep)[1..]
    decreases |w|
  {
    if w != [] {
      assert (w + s)[1..] == w[1..] + s;
      assert w[0] != sep;
      SplitPrepend(w[1..], s, sep);
      assert [w[0]] + (w[1..] + Split(s, sep)[0]) == w + Split(s, sep)[0];
    } else {
      var parts := Split(s, sep);
      assert w + s == s && w + parts[0] == parts[0];
      assert [parts[0]] + parts[1..] == parts;
    }
  }

  lemma {:induction false} SplitJoin(parts: seq<string>, sep: char)
    requires |parts| >= 1
    requires forall k :: 0 <= k < |parts| ==> sep !in parts[k]
    ensures Split(Join(parts, sep), sep) == parts
  {
    if |parts| == 1 {
      SplitPrepend(parts[0], "", sep);
      assert parts[0] + "" == parts[0];
    } else {
      var tail := Join(parts[1..], sep);
      SplitJoin(parts[1..], sep);
      assert Join(parts, sep) == parts[0] + ([sep] + tail);
      SplitPrepend(parts[0], [sep] + tail, sep);
      SplitAfterSeparator(tail, sep);
      assert parts[0] + "" == parts[0];
      assert [parts[0]] + parts[1..] == parts;
    }
  }

  /** A leading separator closes an empty first part. */
  lemma SplitAfterSeparator(s: string, sep: char)
    ensures Split([sep] + s, sep) == [""] + Split(s, sep)
  {
    assert ([sep] + s)[1..] == s;
  }

  /** Position of the first `c` in `s`, or `|s|` when `s` has none. */
  function IndexOf(s: string, c: char): (i: nat)
    ensures i <= |s|
    ensures i < |s| ==> s[i] == c
    ensures forall k :: 0 <= k < i ==> s[k] != c
  {
    if s == [] || s[0] == c then 0 else 1 + IndexOf(s[1..], c)
  }

  /** The first part of a split runs up to the first separator; the remaining parts
      are the split of what follows it. */
  lemma {:induction false} SplitFirst(s: string, c: char)
    ensures Split(s, c)[0] == s[..IndexOf(s, c)]
    ensures IndexOf(s, c) < |s| ==> Split(s, c)[1..] == Split(s[IndexOf(s, c) + 1..], c)
    decreases |s|
  {
    if s != [] && s[0] != c {
      var k := IndexOf(s[1..], c);
      SplitFirst(s[1..], c);
      assert s[..1 + k] == [s[0]] + s[1..][..k];
      if 1 + k < |s| {
        assert s[1..][k + 1..] == s[k + 2..];
      }
    }
  }

  /** `s.substring(0, n)`: at most the first `n` characters. */
  function Prefix(s: string, n: nat): (r: string)
    ensures |r| <= n && r <= s
    ensures |r| == if |s| <= n then |s| else n
    ensures |s| <= n ==> r == s
  {
    if |s| <= n then s else s[..n]
  }

  // ---------------------------------------------------------------------------
  // Time-range formatting

  /** A start or end time as shown: an input containing 'T' keeps the part after
      its first 'T' (up to the next 'T'), cut to five characters; any other input is
      kept as it is. */
  function TimeOfDay(t: string): (r: string)
    ensures 'T' !in t ==> r == t
    ensures 'T' in t ==>
              var rest := t[IndexOf(t, 'T') + 1..];
              |r| <= 5 && r == Prefix(rest[..IndexOf(rest, 'T')], 5)
    ensures forall k :: 0 <= k < |r| ==> r[k] in t
  {
    if 'T' in t then
      var i := IndexOf(t, 'T');
      assert i < |t|;
      SplitFirst(t, 'T');
      var rest := t[i + 1..];
      SplitFirst(rest, 'T');
      var part := Split(t, 'T')[1];
      assert part == rest[..IndexOf(rest, 'T')];
      assert forall k :: 0 <= k < |part| ==> part[k] == t[i + 1 + k];
      Prefix(part, 5)
    else t
  }

  /** The `HH:mm–HH:mm` rendering of a start and an end time. */
  function FormatTimeRange(startTime: string, endTime: string): (r: string)
    ensures 'T' !in startTime && 'T' !in endTime ==> r == startTime + [EnDash] + endTime
    ensures |r| == |TimeOfDay(startTime)| + 1 + |TimeOfDay(endTime)|
    ensures r[|TimeOfDay(startTime)|] == EnDash
  {
    TimeOfDay(startTime) + [EnDash] + TimeOfDay(endTime)
  }

  /** When neither input contains an en dash, splitting the rendering at the en dash
      gives back the two displayed times. */
  lemma FormatTimeRangeSplits(startTime: string, endTime: string)
    requires EnDash !in startTime && EnDash !in endTime
    ensures Split(FormatTimeRange(startTime, endTime), EnDash) == [TimeOfDay(startTime), TimeOfDay(endTime)]
  {
    var a, b := TimeOfDay(startTime), TimeOfDay(endTime);
    assert EnDash !in a && EnDash !in b;
    SplitJoin([a, b], EnDash);
    assert Join([a, b], EnDash) == a + [EnDash] + Join([b], EnDash);
  }

  /** A timestamp `date + "T" + time` shows the first five characters of its time. */
  lemma TimeOfDayOfTimestamp(date: string, time: string)
    requires 'T' !in date && 'T' !in time
    ensures TimeOfDay(date + "T" + time) == Prefix(time, 5)
  {
    var t := date + "T" + time;
    assert t[|date|] == 'T';
    assert IndexOf(t, 'T') == |date|;
    assert t[|date| + 1..] == time;
  }

  /** Two timestamps render as the first five characters of their times. */
  lemma FormatTimeRangeOfTimestamps(date1: string, time1: string, date2: string, time2: string)
    requires 'T' !in date1 && 'T' !in time1 && 'T' !in date2 && 'T' !in time2
    ensures FormatTimeRange(date1 + "T" + time1, date2 + "T" + time2) == Prefix(time1, 5) + [EnDash] + Prefix(time2, 5)
  {
    TimeOfDayOfTimestamp(date1, time1);
    TimeOfDayOfTimestamp(date2, time2);
  }

  /** The worked example: a full timestamp pair renders as its two times of day. */
  lemma FormatTimeRangeExample()
    ensures FormatTimeRange("2024-04-01T09:00:00", "2024-04-01T10:30:00") == "09:00–10:30"
  {
    ExampleParts();
    FormatTimeRangeOfTimestamps("2024-04-01", "09:00:00", "2024-04-01", "10:30:00");
  }

  lemma ExampleParts()
    ensures 'T' !in "2024-04-01" && 'T' !in "09:00:00" && 'T' !in "10:30:00"
    ensures "2024-04-01" + "T" + "09:00:00" == "2024-04-01T09:00:00"
    ensures "2024-04-01" + "T" + "10:30:00" == "2024-04-01T10:30:00"
    ensures Prefix("09:00:00", 5) + [EnDash] + Prefix("10:30:00", 5) == "09:00–10:30"
  {
  }

  /** Bare `HH:mm` inputs pass through. */
  lemma FormatTimeRangeBare()
    ensures FormatTimeRange("09:00", "10:30") == "09:00–10:30"
  {
  }

  // ---------------------------------------------------------------------------
  // Rebuilding the grid for display

  /** The display label of a period is its identifier; there is no label table. */
  function GetPeriodLabel(periodId: PeriodId): (periodLabel: string)
    ensures periodLabel == periodId
  {
    periodId
  }

  function TransformSlotView(slot: SlotView): (r: PeriodSlot)
    ensures r.id == slot.periodId && r.periodLabel == slot.periodId
    ensures r.timeRange == FormatTimeRange(slot.startTime, slot.endTime)
    ensures r.status == MapStatusToFrontend(slot.status)
    ensures r.reservationType == slot.reservationType && r.eventName == slot.eventName
  {
    PeriodSlot(
      slot.periodId,
      GetPeriodLabel(slot.periodId),
      FormatTimeRange(slot.startTime, slot.endTime),
      MapStatusToFrontend(slot.status),
      slot.reservationType,
      slot.eventName)
  }

  /** The display slot does not depend on the booking identifier or the grace flag:
      two slots that differ only there display alike. */
  lemma TransformSlotViewIgnoresBooking(a: SlotView, b: SlotView)
    requires a.periodId == b.periodId && a.status == b.status
    requires a.reservationType == b.reservationType && a.eventName == b.eventName
    requires a.startTime == b.startTime && a.endTime == b.endTime
    ensures TransformSlotView(a) == TransformSlotView(b)
  {
  }

  /** `slots.map(transformSlotView)`. */
  function TransformSlots(slots: seq<SlotView>): (r: seq<PeriodSlot>)
    ensures |r| == |slots|
    ensures forall j :: 0 <= j < |slots| ==> r[j] == TransformSlotView(slots[j])
  {
    if slots == [] then []
    else
      var rest := TransformSlots(slots[1..]);
      assert forall j :: 0 < j < |slots| ==> rest[j - 1] == TransformSlotView(slots[j]);
      [TransformSlotView(slots[0])] + rest
  }

  function TransformStudioRow(studioRow: StudioRow): (r: Studio)
    ensures r.id == studioRow.studioId && r.name == studioRow.studioName
    ensures |r.periods| == |studioRow.slots|
    ensures forall j :: 0 <= j < |studioRow.slots| ==> r.periods[j] == TransformSlotView(studioRow.slots[j])
  {
    Studio(studioRow.studioId, studioRow.studioName, TransformSlots(studioRow.slots))
  }

  /** `rows.map(transformStudioRow)`. */
  function TransformRows(rows: seq<StudioRow>): (r: seq<Studio>)
    ensures |r| == |rows|
    ensures forall i :: 0 <= i < |rows| ==> r[i] == TransformStudioRow(rows[i])
  {
    if rows == [] then []
    else
      var rest := TransformRows(rows[1..]);
      assert forall i :: 0 < i < |rows| ==> rest[i - 1] == TransformStudioRow(rows[i]);
      [TransformStudioRow(rows[0])] + rest
  }

  /** One display studio per row, in row order, each with one display period per slot,
      in slot order: nothing is dropped, reordered or filtered. */
  function TransformBookingCalendarToStudios(calendarData: BookingCalendarView): (r: seq<Studio>)
    ensures |r| == |calendarData.rows|
    ensures calendarData.rows == [] ==> r == []
    ensures forall i :: 0 <= i < |r| ==>
              r[i].id == calendarData.rows[i].studioId && r[i].name == calendarData.rows[i].studioName &&
              |r[i].periods| == |calendarData.rows[i].slots|
    ensures forall i, j :: 0 <= i < |r| && 0 <= j < |calendarData.rows[i].slots| ==>
              r[i].periods[j] == TransformSlotView(calendarData.rows[i].slots[j])
  {
    TransformRows(calendarData.rows)
  }
}

/** The available-slot projection: the (studio, date, period) triples of every slot of
    a fetched grid that is judged empty. */
module ApiSlots {
  import opened CalendarTypes

  datatype AvailableSlot = AvailableSlot(studioId: string, usageDate: string, period: PeriodId)

  /** A slot is empty when it has no booking identifier (missing or the empty string),
      or when its status is the empty token; either signal alone suffices. So a slot is
      judged occupied exactly when it carries a non-empty booking identifier and a
      status other than the empty token. */
  predicate IsEmptySlot(s: SlotView)
    ensures !IsEmptySlot(s) <==> s.bookingId.Some? && s.bookingId.value != "" && s.status != StatusEmpty
  {
    s.bookingId == None || s.bookingId == Some("") || s.status == StatusEmpty
  }

  /** The record listed for a slot. */
  function SlotRecord(p: Placed, usageDate: string): AvailableSlot
  {
    AvailableSlot(p.studioId, usageDate, p.slot.periodId)
  }

  /** What the loop has listed after visiting the slots `ps`, in visiting order. */
  function Project(ps: seq<Placed>, usageDate: string): seq<AvailableSlot>
  {
    if ps == [] then []
    else
      var last := ps[|ps| - 1];
      Project(ps[..|ps| - 1], usageDate) + (if IsEmptySlot(last.slot) then [SlotRecord(last, usageDate)] else [])
  }

  /** The positions, ascending, of the empty slots among `ps`. */
  function EmptyPositions(ps: seq<Placed>): seq<nat>
  {
    if ps == [] then []
    else EmptyPositions(ps[..|ps| - 1]) + (if IsEmptySlot(ps[|ps| - 1].slot) then [|ps| - 1] else [])
  }

  /** The projection of a whole grid. */
  function AvailableSlotsOf(view: BookingCalendarView): seq<AvailableSlot>
  {
    Project(Flatten(view.rows), view.usageDate)
  }

  /** Visiting one more slot appends its record when it is empty, and nothing else. */
  lemma ProjectSnoc(ps: seq<Placed>, p: Placed, usageDate: string)
    ensures Project(ps + [p], usageDate) ==
              Project(ps, usageDate) + (if IsEmptySlot(p.slot) then [SlotRecord(p, usageDate)] else [])
  {
    assert (ps + [p])[..|ps|] == ps;
  }

  /** The empty positions are ascending positions of `ps`, and a position is among
      them exactly when its slot is empty. */
  lemma {:induction false} EmptyPositionsExact(ps: seq<Placed>)
    ensures forall k :: 0 <= k < |EmptyPositions(ps)| ==> EmptyPositions(ps)[k] < |ps|
    ensures forall k, l :: 0 <= k < l < |EmptyPositions(ps)| ==> EmptyPositions(ps)[k] < EmptyPositions(ps)[l]
    ensures forall q :: 0 <= q < |ps| ==> (q in EmptyPositions(ps) <==> IsEmptySlot(ps[q].slot))
  {
    if ps != [] {
      var init, n := ps[..|ps| - 1], |ps| - 1;
      EmptyPositionsExact(init);
      var e0 := EmptyPositions(init);
      var e := EmptyPositions(ps);
      assert e == e0 + (if IsEmptySlot(ps[n].slot) then [n] else []);
      assert n !in e0;
      forall q | 0 <= q < |ps| ensures q in e <==> IsEmptySlot(ps[q].slot) {
        if q < n {
          assert ps[q] == init[q];
        }
      }
    }
  }

  /** `Project` is the in-order filter of `ps`: entry `k` is the record of the slot at
      the `k`-th empty position. */
  lemma {:induction false} ProjectFilters(ps: seq<Placed>, usageDate: string)
    ensures |Project(ps, usageDate)| == |EmptyPositions(ps)| <= |ps|
    ensures forall k :: 0 <= k < |EmptyPositions(ps)| ==>
              EmptyPositions(ps)[k] < |ps| &&
              Project(ps, usageDate)[k] == SlotRecord(ps[EmptyPositions(ps)[k]], usageDate)
  {
    EmptyPositionsExact(ps);
    if ps != [] {
      var init, n := ps[..|ps| - 1], |ps| - 1;
      ProjectFilters(init, usageDate);
      EmptyPositionsExact(init);
      var e0, p0 := EmptyPositions(init), Project(init, usageDate);
      var e, pr := EmptyPositions(ps), Project(ps, usageDate);
      assert e == e0 + (if IsEmptySlot(ps[n].slot) then [n] else []);
      assert pr == p0 + (if IsEmptySlot(ps[n].slot) then [SlotRecord(ps[n], usageDate)] else []);
      forall k | 0 <= k < |e| ensures pr[k] == SlotRecord(ps[e[k]], usageDate) {
        if k < |e0| {
          assert ps[e0[k]] == init[e0[k]];
        }
      }
    }
  }

  /** Visiting slot `j` of `row`, after the slots `done` and the row's first `j` slots,
      appends its record when it is empty: one step of the inner loop. */
  lemma ProjectRowStep(done: seq<Placed>, row: StudioRow, j: nat, usageDate: string)
    requires j < |row.slots|
    ensures Project(done + RowPlaced(row)[..j + 1], usageDate) ==
              Project(done + RowPlaced(row)[..j], usageDate) +
              (if IsEmptySlot(row.slots[j]) then [AvailableSlot(row.studioId, usageDate, row.slots[j].periodId)] else [])
  {
    var placed := RowPlaced(row);
    assert done + placed[..j + 1] == (done + placed[..j]) + [placed[j]];
    ProjectSnoc(done + placed[..j], placed[j], usageDate);
  }

  /** The `for`/`for`/`push` loop over an already parsed grid. */
  method CollectAvailableSlots(view: BookingCalendarView) returns (slots: seq<AvailableSlot>)
    ensures slots == AvailableSlotsOf(view)
  {
    slots := [];
    var i := 0;
    while i < |view.rows|
      invariant 0 <= i <= |view.rows|
      invariant slots == Project(Flatten(view.rows[..i]), view.usageDate)
    {
      var row := view.rows[i];
      ghost var done := Flatten(view.rows[..i]);
      RowEntryExit(done, row);
      var j := 0;
      while j < |row.slots|
        invariant 0 <= j <= |row.slots|
        invariant slots == Project(done + RowPlaced(row)[..j], view.usageDate)
      {
        var s := row.slots[j];
        ProjectRowStep(done, row, j, view.usageDate);
        var isEmpty := s.bookingId == None || s.bookingId == Some("") || s.status == StatusEmpty;
        if isEmpty {
          slots := slots + [AvailableSlot(row.studioId, view.usageDate, s.periodId)];
        }
        j := j + 1;
      }
      FlattenSnoc(view.rows, i);
      i := i + 1;
    }
    assert view.rows[..i] == view.rows;
  }

  /** Membership, both ways: a record is listed exactly when some empty slot of some row
      yields it, carrying that row's studio, the grid's date and the slot's period. */
  lemma AvailableSlotsMembership(view: BookingCalendarView, x: AvailableSlot)
    ensures x in AvailableSlotsOf(view) <==>
              exists i, j :: 0 <= i < |view.rows| && 0 <= j < |view.rows[i].slots| &&
                IsEmptySlot(view.rows[i].slots[j]) &&
                x == AvailableSlot(view.rows[i].studioId, view.usageDate, view.rows[i].slots[j].periodId)
  {
    var rows, ps := view.rows, Flatten(view.rows);
    ProjectFilters(ps, view.usageDate);
    EmptyPositionsExact(ps);
    var out, e := AvailableSlotsOf(view), EmptyPositions(ps);
    if x in out {
      var k :| 0 <= k < |out| && out[k] == x;
      FlattenIndex(rows, e[k]);
      assert e[k] in e;
    }
    if exists i, j :: 0 <= i < |rows| && 0 <= j < |rows[i].slots| && IsEmptySlot(rows[i].slots[j]) &&
         x == AvailableSlot(rows[i].studioId, view.usageDate, rows[i].slots[j].periodId) {
      var i, j :| 0 <= i < |rows| && 0 <= j < |rows[i].slots| && IsEmptySlot(rows[i].slots[j]) &&
                 x == AvailableSlot(rows[i].studioId, view.usageDate, rows[i].slots[j].periodId);
      FlattenAt(rows, i, j);
      var q := Position(rows, i, j);
      var k :| 0 <= k < |e| && e[k] == q;
      assert out[k] == x;
    }
  }

  /** Output order is grid order: for two listed slots, the one earlier in row order
      (or earlier in the same row) is listed first. */
  lemma AvailableSlotsOrder(view: BookingCalendarView, i: nat, j: nat, i2: nat, j2: nat)
    requires i < |view.rows| && j < |view.rows[i].slots| && IsEmptySlot(view.rows[i].slots[j])
    requires i2 < |view.rows| && j2 < |view.rows[i2].slots| && IsEmptySlot(view.rows[i2].slots[j2])
    requires i < i2 || (i == i2 && j < j2)
    ensures exists k, k2 :: 0 <= k < k2 < |AvailableSlotsOf(view)| &&
              AvailableSlotsOf(view)[k] == AvailableSlot(view.rows[i].studioId, view.usageDate, view.rows[i].slots[j].periodId) &&
              AvailableSlotsOf(view)[k2] == AvailableSlot(view.rows[i2].studioId, view.usageDate, view.rows[i2].slots[j2].periodId)
  {
    var rows, ps := view.rows, Flatten(view.rows);
    ProjectFilters(ps, view.usageDate);
    EmptyPositionsExact(ps);
    var e := EmptyPositions(ps);
    FlattenAt(rows, i, j);
    FlattenAt(rows, i2, j2);
    PositionOrder(rows, i, j, i2, j2);
    var q, q2 := Position(rows, i, j), Position(rows, i2, j2);
    var k :| 0 <= k < |e| && e[k] == q;
    var k2 :| 0 <= k2 < |e| && e[k2] == q2;
    assert e[k] < e[k2];
    assert AvailableSlotsOf(view)[k] == SlotRecord(ps[q], view.usageDate);
    assert AvailableSlotsOf(view)[k2] == SlotRecord(ps[q2], view.usageDate);
  }

  /** A slot with a non-empty booking identifier and any status other than the empty
      token is never listed: its position is not among the listed ones. */
  lemma OccupiedSlotNeverListed(view: BookingCalendarView, i: nat, j: nat)
    requires i < |view.rows| && j < |view.rows[i].slots|
    requires view.rows[i].slots[j].bookingId.Some? && view.rows[i].slots[j].bookingId.value != ""
    requires view.rows[i].slots[j].status != StatusEmpty
    ensures Position(view.rows, i, j) !in EmptyPositions(Flatten(view.rows))
  {
    FlattenAt(view.rows, i, j);
    EmptyPositionsExact(Flatten(view.rows));
  }

  /** No more records than slots, and none at all for a grid without rows. */
  lemma AvailableSlotsBound(view: BookingCalendarView)
    ensures |AvailableSlotsOf(view)| <= TotalSlots(view.rows)
    ensures view.rows == [] ==> AvailableSlotsOf(view) == []
  {
    ProjectFilters(Flatten(view.rows), view.usageDate);
  }
}

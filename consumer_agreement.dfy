/** How the three consumers of one grid relate: the two status normalisers agree on the
    vocabulary and part ways only in their fallback, and the display status and the
    availability judgment are separate readings of the same slot. */
module ConsumerAgreement {
  import opened CalendarTypes
  import opened ApiTransformers
  import opened Schedule
  import opened ApiSlots

  /** The display status that names the same state as a store status. */
  function UiToPeriodStatus(u: UiStatus): PeriodStatus
  {
    match u
    case Vacant => Available
    case Reserved => Booked
    case InUse => ApiTransformers.InUse
    case Cancelled => Canceled
  }

  /** The display normaliser and the store normaliser name the same state exactly on
      the backend vocabulary; on every other string they disagree. */
  lemma NormalisersAgreeOnVocabulary(s: string)
    ensures UiToPeriodStatus(MapStatusToUi(s)) == MapStatusToFrontend(s) <==> s in Vocabulary
  {
  }

  /** The one difference is the fallback: 'available' for display, "予約済" in the store. */
  lemma FallbacksDiffer(s: string)
    requires s !in Vocabulary
    ensures MapStatusToFrontend(s) == Available && MapStatusToUi(s) == Reserved
  {
  }

  /** A slot the display shows as free because of its vocabulary status is also listed
      as available. */
  lemma DisplayedFreeIsListed(slot: SlotView)
    requires slot.status in Vocabulary && MapStatusToFrontend(slot.status) == Available
    ensures IsEmptySlot(slot)
  {
  }

  /** The converse fails: without a booking identifier a slot is listed as available
      whatever its status says, while the display and the store still show it in use. */
  lemma ListedNeedNotBeFree(slot: SlotView)
    requires slot.bookingId == None && slot.status == StatusInUse
    ensures IsEmptySlot(slot)
    ensures MapStatusToFrontend(slot.status) == ApiTransformers.InUse && MapStatusToUi(slot.status) == Schedule.InUse
  {
  }

  /** The flattening of a two-row grid. */
  lemma FlattenTwoRows(rows: seq<StudioRow>)
    requires |rows| == 2
    ensures Flatten(rows) == RowPlaced(rows[0]) + RowPlaced(rows[1])
  {
    assert rows[..1][..0] == [] && rows[..2] == rows;
  }

  /** A two-studio grid: A/P1 free without a booking, A/P2 confirmed as "bk1", B/P1 in
      use as "bk2". */
  predicate ScenarioGrid(view: BookingCalendarView)
  {
    view == BookingCalendarView("2024-04-01", ["P1", "P2"], [
      StudioRow("A", "Studio A", [
        SlotView("P1", StatusEmpty, None, None, None, false, "09:00", "10:30"),
        SlotView("P2", StatusConfirmed, Some("bk1"), Some("学生レンタル"), None, false, "10:40", "12:10")]),
      StudioRow("B", "Studio B", [
        SlotView("P1", StatusInUse, Some("bk2"), Some("授業レンタル"), None, false, "09:00", "10:30")])])
  }

  lemma ScenarioFlatten(view: BookingCalendarView)
    requires ScenarioGrid(view)
    ensures Flatten(view.rows) == [Placed("A", view.rows[0].slots[0]), Placed("A", view.rows[0].slots[1]), Placed("B", view.rows[1].slots[0])]
  {
    FlattenTwoRows(view.rows);
  }

  /** After the grid is recorded, A/P1 is a free cell without a booking and A/P2 a
      reserved cell carrying "bk1". */
  lemma ScenarioCells(view: BookingCalendarView)
    requires ScenarioGrid(view)
    ensures CellKey("A", "P1") in CellsOf(view.rows) && CellsOf(view.rows)[CellKey("A", "P1")] == Cell(Vacant, None, None, None, false)
    ensures CellKey("A", "P2") in CellsOf(view.rows) && CellsOf(view.rows)[CellKey("A", "P2")].status == Reserved
    ensures CellKey("A", "P2") in CellsOf(view.rows) && CellsOf(view.rows)[CellKey("A", "P2")].bookingId == Some("bk1")
  {
    ScenarioFlatten(view);
    var ps := Flatten(view.rows);
    CellKeyInjective("A", "P1", "A", "P2");
    CellKeyInjective("A", "P1", "B", "P1");
    CellKeyInjective("A", "P2", "B", "P1");
    CellsFromLastWins(ps, 0);
    CellsFromLastWins(ps, 1);
  }

  /** Only A/P1 is listed as available. */
  lemma ScenarioAvailable(view: BookingCalendarView)
    requires ScenarioGrid(view)
    ensures AvailableSlotsOf(view) == [AvailableSlot("A", "2024-04-01", "P1")]
  {
    ScenarioFlatten(view);
    var ps := Flatten(view.rows);
    var p0, p1, p2 := ps[0], ps[1], ps[2];
    assert ps == [p0, p1] + [p2] && [p0, p1] == [p0] + [p1] && [p0] == [] + [p0];
    ProjectSnoc([], p0, view.usageDate);
    ProjectSnoc([p0], p1, view.usageDate);
    ProjectSnoc([p0, p1], p2, view.usageDate);
  }

  /** Recording a later grid without studio B leaves no cell of B behind. */
  lemma ScenarioReload(view: BookingCalendarView, next: BookingCalendarView)
    requires ScenarioGrid(view)
    requires next == BookingCalendarView("2024-04-02", view.periodOrder, [view.rows[0]])
    ensures CellKey("B", "P1") in CellsOf(view.rows)
    ensures CellKey("B", "P1") !in CellsOf(next.rows)
  {
    CellsOfKeys(view.rows, CellKey("B", "P1"));
    assert CellKey("B", "P1") == CellKey(view.rows[1].studioId, view.rows[1].slots[0].periodId);
    NoGhostCells(next.rows, "B", "P1");
  }

  /** What a caller of the store can conclude from its contracts alone: a successful
      load exposes the grid's cells, and a failing load afterwards keeps them while
      recording the message and lowering the flag. */
  method StoreClient(view: BookingCalendarView, today: string, message: string)
    requires ScenarioGrid(view)
  {
    var store := new ScheduleStore(today);
    assert store.GetCell("A", "P1") == None;
    store.Load(d => Ok(view));
    ScenarioCells(view);
    assert store.GetCell("A", "P2").Some? && store.GetCell("A", "P2").value.bookingId == Some("bk1");
    assert store.studios == ["A", "B"] && store.error == "" && !store.loading;
    store.Load(d => Err(message));
    assert store.GetCell("A", "P2").Some? && store.GetCell("A", "P2").value.bookingId == Some("bk1");
    assert store.error == message && !store.loading && store.usageDate == today;
  }
}

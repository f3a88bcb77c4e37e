/** The schedule store: the date on display, the studio and period identifiers of the
    last grid, and a flat lookup of cells keyed by `studioId + ":" + periodId`,
    rebuilt wholesale from every successfully fetched grid. */
module Schedule {
  import opened CalendarTypes

  /** "空" | "予約済" | "使用中" | "キャンセル" */
  datatype UiStatus = Vacant | Reserved | InUse | Cancelled

  /** What the store keeps per (studio, period). */
  datatype Cell = Cell(
    status: UiStatus,
    bookingId: Option<string>,
    reservationType: Option<string>,
    eventName: Option<string>,
    graceExpired: bool)

  /** The outcome of fetching the grid of one date: the parsed grid, or the message of
      the error the fetch threw. */
  datatype FetchResult = Ok(view: BookingCalendarView) | Err(message: string)

  /** The periods shown before the first load. */
  const DefaultPeriods: seq<PeriodId> := ["P1", "P2", "P3", "P4", "P5"]

  // ---------------------------------------------------------------------------
  // Status normalisation, booked-leaning

  /** A `switch` over the backend vocabulary whose default case is "予約済": an
      unknown token is treated as taken, the safe side. Only the empty token shows a
      cell as free. */
  function MapStatusToUi(status: string): (r: UiStatus)
    ensures r == Vacant <==> status == StatusEmpty
    ensures r == Reserved <==> status == StatusReserved || status == StatusConfirmed || status !in Vocabulary
    ensures r == InUse <==> status == StatusInUse
    ensures r == Cancelled <==> status == StatusCanceled
  {
    if status == StatusEmpty then Vacant
    else if status == StatusReserved || status == StatusConfirmed then Reserved
    else if status == StatusInUse then InUse
    else if status == StatusCanceled then Cancelled
    else Reserved
  }

  /** The mapping, case by case, with the fallback for every other string. */
  lemma MapStatusToUiCases(s: string)
    ensures MapStatusToUi(StatusEmpty) == Vacant
    ensures MapStatusToUi(StatusReserved) == Reserved
    ensures MapStatusToUi(StatusConfirmed) == Reserved
    ensures MapStatusToUi(StatusInUse) == InUse
    ensures MapStatusToUi(StatusCanceled) == Cancelled
    ensures s !in Vocabulary ==> MapStatusToUi(s) == Reserved
  {
  }

  // ---------------------------------------------------------------------------
  // Cell keys

  function CellKey(studioId: string, periodId: PeriodId): (key: string)
    ensures |key| == |studioId| + 1 + |periodId|
    ensures key[..|studioId|] == studioId && key[|studioId|] == ':' && key[|studioId| + 1..] == periodId
  {
    studioId + ":" + periodId
  }

  /** The key determines the pair as long as studio identifiers hold no ':'. */
  lemma CellKeyInjective(s1: string, p1: PeriodId, s2: string, p2: PeriodId)
    requires ':' !in s1 && ':' !in s2
    ensures CellKey(s1, p1) == CellKey(s2, p2) <==> s1 == s2 && p1 == p2
  {
    var k1, k2 := CellKey(s1, p1), CellKey(s2, p2);
    if s1 == s2 {
      if p1 != p2 {
        assert k1[|s1| + 1..] != k2[|s2| + 1..];
      }
    } else if |s1| == |s2| {
      assert k1[..|s1|] != k2[..|s2|];
    } else if |s1| < |s2| {
      assert k2[|s1|] == s2[|s1|] != ':';
    } else {
      assert k1[|s2|] == s1[|s2|] != ':';
    }
  }

  /** Without that proviso two different pairs can share a key. */
  lemma CellKeyCollision()
    ensures ("A:B", "C") != ("A", "B:C") && CellKey("A:B", "C") == CellKey("A", "B:C")
  {
  }

  function PlacedKey(p: Placed): string
  {
    CellKey(p.studioId, p.slot.periodId)
  }

  // ---------------------------------------------------------------------------
  // The lookup built from a grid

  /** The cell recorded for one slot. */
  function CellOf(s: SlotView): (c: Cell)
    ensures c.status == MapStatusToUi(s.status)
    ensures c.bookingId == s.bookingId && c.reservationType == s.reservationType
    ensures c.eventName == s.eventName && c.graceExpired == s.graceExpired
  {
    Cell(MapStatusToUi(s.status), s.bookingId, s.reservationType, s.eventName, s.graceExpired)
  }

  /** The lookup that recording the slots `ps` one after another into an empty
      record produces. */
  function CellsFrom(ps: seq<Placed>): map<string, Cell>
  {
    if ps == [] then map[]
    else CellsFrom(ps[..|ps| - 1])[PlacedKey(ps[|ps| - 1]) := CellOf(ps[|ps| - 1].slot)]
  }

  /** The lookup a grid with these rows produces. */
  function CellsOf(rows: seq<StudioRow>): map<string, Cell>
  {
    CellsFrom(Flatten(rows))
  }

  /** Its keys are exactly the keys of the recorded slots. */
  lemma {:induction false} CellsFromKeys(ps: seq<Placed>)
    ensures CellsFrom(ps).Keys == set p | p in ps :: PlacedKey(p)
  {
    if ps != [] {
      var init, last := ps[..|ps| - 1], ps[|ps| - 1];
      CellsFromKeys(init);
      assert ps == init + [last];
      assert (set p | p in ps :: PlacedKey(p)) == (set p | p in init :: PlacedKey(p)) + {PlacedKey(last)};
    }
  }

  /** Each key holds the cell of the last slot recorded under it. */
  lemma {:induction false} CellsFromLastWins(ps: seq<Placed>, q: nat)
    requires q < |ps|
    requires forall q2 :: q < q2 < |ps| ==> PlacedKey(ps[q2]) != PlacedKey(ps[q])
    ensures PlacedKey(ps[q]) in CellsFrom(ps)
    ensures CellsFrom(ps)[PlacedKey(ps[q])] == CellOf(ps[q].slot)
  {
    var init := ps[..|ps| - 1];
    if q < |ps| - 1 {
      assert PlacedKey(ps[|ps| - 1]) != PlacedKey(ps[q]);
      CellsFromLastWins(init, q);
    }
  }

  /** Every key of the lookup comes from some slot of some row. */
  lemma CellsOfKeyHasSlot(rows: seq<StudioRow>, key: string)
    requires key in CellsOf(rows)
    ensures exists i, j :: 0 <= i < |rows| && 0 <= j < |rows[i].slots| &&
              key == CellKey(rows[i].studioId, rows[i].slots[j].periodId)
  {
    var ps := Flatten(rows);
    CellsFromKeys(ps);
    var p :| p in ps && PlacedKey(p) == key;
    var q :| 0 <= q < |ps| && ps[q] == p;
    FlattenIndex(rows, q);
  }

  /** Every slot of every row leaves its key in the lookup. */
  lemma CellsOfSlotHasKey(rows: seq<StudioRow>, i: nat, j: nat)
    requires i < |rows| && j < |rows[i].slots|
    ensures CellKey(rows[i].studioId, rows[i].slots[j].periodId) in CellsOf(rows)
  {
    var ps := Flatten(rows);
    CellsFromKeys(ps);
    FlattenAt(rows, i, j);
    assert ps[Position(rows, i, j)] in ps;
  }

  /** After a grid is recorded, a key is present exactly when some slot of some row
      produces it. */
  lemma CellsOfKeys(rows: seq<StudioRow>, key: string)
    ensures key in CellsOf(rows) <==>
              exists i, j :: 0 <= i < |rows| && 0 <= j < |rows[i].slots| &&
                key == CellKey(rows[i].studioId, rows[i].slots[j].periodId)
  {
    if key in CellsOf(rows) {
      CellsOfKeyHasSlot(rows, key);
    }
    if exists i, j :: 0 <= i < |rows| && 0 <= j < |rows[i].slots| &&
         key == CellKey(rows[i].studioId, rows[i].slots[j].periodId) {
      var i: nat, j: nat :| i < |rows| && j < |rows[i].slots| &&
                           key == CellKey(rows[i].studioId, rows[i].slots[j].periodId);
      CellsOfSlotHasKey(rows, i, j);
    }
  }

  /** The cell under a slot's key is that slot's own cell, unless a slot later in row
      order, or later in the same row, has the same key: the later one wins. */
  lemma CellsOfLastWins(rows: seq<StudioRow>, i: nat, j: nat)
    requires i < |rows| && j < |rows[i].slots|
    requires forall i2, j2 :: 0 <= i2 < |rows| && 0 <= j2 < |rows[i2].slots| && (i < i2 || (i == i2 && j < j2)) ==>
               CellKey(rows[i2].studioId, rows[i2].slots[j2].periodId) != CellKey(rows[i].studioId, rows[i].slots[j].periodId)
    ensures CellKey(rows[i].studioId, rows[i].slots[j].periodId) in CellsOf(rows)
    ensures CellsOf(rows)[CellKey(rows[i].studioId, rows[i].slots[j].periodId)] == CellOf(rows[i].slots[j])
  {
    var ps := Flatten(rows);
    var q := Position(rows, i, j);
    FlattenAt(rows, i, j);
    forall q2 | q < q2 < |ps| ensures PlacedKey(ps[q2]) != PlacedKey(ps[q]) {
      FlattenIndex(rows, q2);
      var i2: nat, j2: nat :| i2 < |rows| && j2 < |rows[i2].slots| && q2 == Position(rows, i2, j2) &&
                             ps[q2] == Placed(rows[i2].studioId, rows[i2].slots[j2]);
      PositionOrder(rows, i, j, i2, j2);
    }
    CellsFromLastWins(ps, q);
  }

  /** Reloading leaves no ghost rows: with colon-free studio identifiers, a studio
      missing from the new grid has no cell at all. */
  lemma NoGhostCells(rows: seq<StudioRow>, studioId: string, periodId: PeriodId)
    requires ':' !in studioId
    requires forall i :: 0 <= i < |rows| ==> ':' !in rows[i].studioId && rows[i].studioId != studioId
    ensures CellKey(studioId, periodId) !in CellsOf(rows)
  {
    forall i, j | 0 <= i < |rows| && 0 <= j < |rows[i].slots|
      ensures CellKey(studioId, periodId) != CellKey(rows[i].studioId, rows[i].slots[j].periodId)
    {
      CellKeyInjective(studioId, periodId, rows[i].studioId, rows[i].slots[j].periodId);
    }
    CellsOfKeys(rows, CellKey(studioId, periodId));
  }

  /** Recording one more slot updates the lookup under that slot's key only. */
  lemma CellsFromSnoc(ps: seq<Placed>, p: Placed)
    ensures CellsFrom(ps + [p]) == CellsFrom(ps)[PlacedKey(p) := CellOf(p.slot)]
  {
    assert (ps + [p])[..|ps|] == ps;
  }

  /** Recording slot `j` of `row`, after the slots `done` and the row's first `j`
      slots, updates the lookup under that slot's key only: one step of the inner loop. */
  lemma CellsFromRowStep(done: seq<Placed>, row: StudioRow, j: nat)
    requires j < |row.slots|
    ensures CellsFrom(done + RowPlaced(row)[..j + 1]) ==
              CellsFrom(done + RowPlaced(row)[..j])[CellKey(row.studioId, row.slots[j].periodId) := CellOf(row.slots[j])]
  {
    var placed := RowPlaced(row);
    assert done + placed[..j + 1] == (done + placed[..j]) + [placed[j]];
    CellsFromSnoc(done + placed[..j], placed[j]);
  }

  /** The nested loop of `load`: record every slot of every row, in order, into a
      fresh lookup. */
  method BuildCells(rows: seq<StudioRow>) returns (m: map<string, Cell>)
    ensures m == CellsOf(rows)
  {
    m := map[];
    var i := 0;
    while i < |rows|
      invariant 0 <= i <= |rows|
      invariant m == CellsFrom(Flatten(rows[..i]))
    {
      var row := rows[i];
      ghost var done := Flatten(rows[..i]);
      RowEntryExit(done, row);
      var j := 0;
      while j < |row.slots|
        invariant 0 <= j <= |row.slots|
        invariant m == CellsFrom(done + RowPlaced(row)[..j])
      {
        var s := row.slots[j];
        CellsFromRowStep(done, row, j);
        m := m[CellKey(row.studioId, s.periodId) := CellOf(s)];
        j := j + 1;
      }
      FlattenSnoc(rows, i);
      i := i + 1;
    }
    assert rows[..i] == rows;
  }

  /** `rows.map(r => r.studioId)`. */
  function StudioIds(rows: seq<StudioRow>): (ids: seq<string>)
    ensures |ids| == |rows|
    ensures forall i :: 0 <= i < |rows| ==> ids[i] == rows[i].studioId
  {
    if rows == [] then [] else [rows[0].studioId] + StudioIds(rows[1..])
  }

  // ---------------------------------------------------------------------------
  // The store

  class ScheduleStore {
    var usageDate: string
    var studios: seq<string>
    var periods: seq<PeriodId>
    var cells: map<string, Cell>
    var loading: bool
    var error: string

    /** The initial state; `today` is the date the system clock gives. */
    constructor (today: string)
      ensures usageDate == today && studios == [] && periods == DefaultPeriods
      ensures cells == map[] && !loading && error == ""
    {
      usageDate := today;
      studios := [];
      periods := DefaultPeriods;
      cells := map[];
      loading := false;
      error := "";
    }

    /** Changes the date only; the next `Load` fetches it. */
    method SetDate(d: string)
      modifies this
      ensures usageDate == d
      ensures studios == old(studios) && periods == old(periods) && cells == old(cells)
      ensures loading == old(loading) && error == old(error)
    {
      usageDate := d;
    }

    /** The opening of `load`: raise the flag and clear the last error. */
    method BeginLoad()
      modifies this
      ensures loading && error == ""
      ensures usageDate == old(usageDate) && studios == old(studios) && periods == old(periods)
      ensures cells == old(cells)
    {
      loading := true;
      error := "";
    }

    /** The rest of `load`, once the fetch has settled: a grid replaces studios,
        periods and cells wholesale; an error is recorded and leaves them alone; the
        flag is lowered either way. */
    method FinishLoad(result: FetchResult)
      modifies this
      ensures !loading && usageDate == old(usageDate)
      ensures result.Ok? ==>
                studios == StudioIds(result.view.rows) && periods == result.view.periodOrder &&
                cells == CellsOf(result.view.rows) && error == old(error)
      ensures result.Err? ==>
                studios == old(studios) && periods == old(periods) && cells == old(cells) &&
                error == result.message
    {
      if result.Ok? {
        var view := result.view;
        studios := StudioIds(view.rows);
        periods := view.periodOrder;
        var m := BuildCells(view.rows);
        cells := m;
      } else {
        error := result.message;
      }
      loading := false;
    }

    /** `load`, with the fetch of a date's grid given as `fetch`. */
    method Load(fetch: string -> FetchResult)
      modifies this
      ensures !loading && usageDate == old(usageDate)
      ensures fetch(old(usageDate)).Ok? ==>
                var view := fetch(old(usageDate)).view;
                studios == StudioIds(view.rows) && periods == view.periodOrder &&
                cells == CellsOf(view.rows) && error == ""
      ensures fetch(old(usageDate)).Err? ==>
                studios == old(studios) && periods == old(periods) && cells == old(cells) &&
                error == fetch(old(usageDate)).message
    {
      BeginLoad();
      var result := fetch(usageDate);
      FinishLoad(result);
    }

    /** The cell under `(studioId, period)`, or `None` when there is none. */
    function GetCell(studioId: string, period: PeriodId): (r: Option<Cell>)
      reads this
      ensures CellKey(studioId, period) in cells ==> r == Some(cells[CellKey(studioId, period)])
      ensures CellKey(studioId, period) !in cells ==> r == None
    {
      var key := CellKey(studioId, period);
      if key in cells then Some(cells[key]) else None
    }
  }
}

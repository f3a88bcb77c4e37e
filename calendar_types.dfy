/** The booking-calendar grid as the backend returns it: one view per usage date,
    holding the authoritative period order and one row per studio, each row an
    ordered list of slots. */
module CalendarTypes {

  /** An optional JSON field: `None` stands for a missing key, `undefined` or `null`,
      which the emptiness test treats alike. The copies of these fields in the source keep
      `null` apart from `undefined`; the model does not. */
  datatype Option<+T> = None | Some(value: T)

  /** A period identifier such as "P1". The schema names P1..P6, but the grid's own
      `periodOrder` is authoritative, so any string the backend sends is admitted. */
  type PeriodId = string

  // The closed backend status vocabulary.
  const StatusEmpty: string := "空"
  const StatusReserved: string := "予約済み"
  const StatusConfirmed: string := "予約確定"
  const StatusInUse: string := "使用中"
  const StatusCanceled: string := "予約キャンセル"

  const Vocabulary: set<string> :=
    {StatusEmpty, StatusReserved, StatusConfirmed, StatusInUse, StatusCanceled}

  /** One cell of the grid. `status` is kept as the raw text: a token outside the
      vocabulary (or a missing one) reaches every consumer's fallback branch. */
  datatype SlotView = SlotView(
    periodId: PeriodId,
    status: string,
    bookingId: Option<string>,
    reservationType: Option<string>,
    eventName: Option<string>,
    graceExpired: bool,
    startTime: string,
    endTime: string)

  datatype StudioRow = StudioRow(studioId: string, studioName: string, slots: seq<SlotView>)

  datatype BookingCalendarView = BookingCalendarView(
    usageDate: string,
    periodOrder: seq<PeriodId>,
    rows: seq<StudioRow>)

  /** A slot together with the identifier of the row that owns it. */
  datatype Placed = Placed(studioId: string, slot: SlotView)

  /** The slots of one row, each tagged with the row's studio. */
  function RowPlaced(row: StudioRow): seq<Placed>
  {
    seq(|row.slots|, j requires 0 <= j < |row.slots| => Placed(row.studioId, row.slots[j]))
  }

  /** The number of slots over all rows. */
  function TotalSlots(rows: seq<StudioRow>): nat
  {
    if rows == [] then 0 else TotalSlots(rows[..|rows| - 1]) + |rows[|rows| - 1].slots|
  }

  /** Every slot of every row, in row order and then slot order: the order in which
      nested `for (const row of view.rows) for (const s of row.slots)` visits them. */
  function Flatten(rows: seq<StudioRow>): (ps: seq<Placed>)
    ensures |ps| == TotalSlots(rows)
  {
    if rows == [] then [] else Flatten(rows[..|rows| - 1]) + RowPlaced(rows[|rows| - 1])
  }

  /** Visiting one more row appends that row's slots. */
  lemma FlattenSnoc(rows: seq<StudioRow>, i: nat)
    requires i < |rows|
    ensures Flatten(rows[..i + 1]) == Flatten(rows[..i]) + RowPlaced(rows[i])
  {
    assert rows[..i + 1][..i] == rows[..i];
  }

  /** An inner loop over `row` starts from the slots `done` visited so far and, having
      visited every slot, ends with the row's slots appended. */
  lemma RowEntryExit(done: seq<Placed>, row: StudioRow)
    ensures done + RowPlaced(row)[..0] == done
    ensures done + RowPlaced(row)[..|row.slots|] == done + RowPlaced(row)
  {
    assert RowPlaced(row)[..0] == [];
    assert RowPlaced(row)[..|row.slots|] == RowPlaced(row);
  }

  /** The position in `Flatten(rows)` of slot `j` of row `i`. */
  function Position(rows: seq<StudioRow>, i: nat, j: nat): nat
    requires i <= |rows|
  {
    TotalSlots(rows[..i]) + j
  }

  /** Rows before row `i` hold no more slots than rows before row `k`, for `i <= k`. */
  lemma {:induction false} TotalSlotsPrefix(rows: seq<StudioRow>, i: nat, k: nat)
    requires i <= k <= |rows|
    ensures TotalSlots(rows[..i]) <= TotalSlots(rows[..k])
    ensures k == i + 1 ==> TotalSlots(rows[..k]) == TotalSlots(rows[..i]) + |rows[i].slots|
    decreases k - i
  {
    if i < k {
      assert rows[..i + 1][..i] == rows[..i];
      TotalSlotsPrefix(rows, i + 1, k);
    }
  }

  /** Slot `j` of row `i` sits at `Position(rows, i, j)` of the flattened grid. */
  lemma {:induction false} FlattenAt(rows: seq<StudioRow>, i: nat, j: nat)
    requires i < |rows| && j < |rows[i].slots|
    ensures Position(rows, i, j) < |Flatten(rows)|
    ensures Flatten(rows)[Position(rows, i, j)] == Placed(rows[i].studioId, rows[i].slots[j])
  {
    var n := |rows| - 1;
    var init := rows[..n];
    if i == n {
      assert rows[..i] == init;
    } else {
      assert init[..i] == rows[..i];
      FlattenAt(init, i, j);
    }
  }

  /** Conversely, every position of the flattened grid is slot `j` of some row `i`. */
  lemma {:induction false} FlattenIndex(rows: seq<StudioRow>, q: nat)
    requires q < |Flatten(rows)|
    ensures exists i: nat, j: nat :: i < |rows| && j < |rows[i].slots| && q == Position(rows, i, j) &&
              Flatten(rows)[q] == Placed(rows[i].studioId, rows[i].slots[j])
  {
    var n := |rows| - 1;
    var init := rows[..n];
    if q < |Flatten(init)| {
      FlattenIndex(init, q);
      var i: nat, j: nat :| i < |init| && j < |init[i].slots| && q == Position(init, i, j) &&
                           Flatten(init)[q] == Placed(init[i].studioId, init[i].slots[j]);
      assert init[..i] == rows[..i];
      assert Flatten(rows)[q] == Flatten(init)[q];
      assert q == Position(rows, i, j);
    } else {
      var j := q - |Flatten(init)|;
      assert rows[..n] == init;
      assert q == Position(rows, n, j);
    }
  }

  /** Positions respect row order: a slot of a later row comes after every slot of an
      earlier row, and within a row positions follow slot order. */
  lemma PositionOrder(rows: seq<StudioRow>, i: nat, j: nat, i2: nat, j2: nat)
    requires i < |rows| && j < |rows[i].slots| && i2 < |rows| && j2 < |rows[i2].slots|
    ensures Position(rows, i, j) < Position(rows, i2, j2) <==> (i < i2 || (i == i2 && j < j2))
  {
    if i < i2 {
      TotalSlotsPrefix(rows, i, i + 1);
      TotalSlotsPrefix(rows, i + 1, i2);
    } else if i2 < i {
      TotalSlotsPrefix(rows, i2, i2 + 1);
      TotalSlotsPrefix(rows, i2 + 1, i);
    }
  }
}

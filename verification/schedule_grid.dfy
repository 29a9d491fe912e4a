/**
 * The day x time-slot grid that the booking page (counselor schedules) and
 * the consultant page (paid appointments) both build from a list of records:
 * the distinct days as columns, the distinct slots as rows, and for each cell
 * the record(s) found at that (day, slot). The two pages differ only in how a
 * cell is resolved (every match, or the first one), which is the `Policy`
 * parameter here.
 */
module ScheduleGrid {
  import opened Common

  /** One record placed on the grid; `P` carries what the page shows about it. */
  datatype Entry<P> = Entry(dayId: int, slotId: int, slot: string, status: int, payload: P)

  /** `DAY_NAMES`: 1 is Monday (Thứ 2) ... 7 is Sunday (Chủ nhật). */
  function DayName(dayId: int): (r: Option<string>)
    ensures r.Some? <==> 1 <= dayId <= 7
  {
    if dayId == 1 then Some("Thứ 2")
    else if dayId == 2 then Some("Thứ 3")
    else if dayId == 3 then Some("Thứ 4")
    else if dayId == 4 then Some("Thứ 5")
    else if dayId == 5 then Some("Thứ 6")
    else if dayId == 6 then Some("Thứ 7")
    else if dayId == 7 then Some("Chủ nhật")
    else None
  }

  const UnknownDay: string := "Không xác định"

  /** `DAY_NAMES[dayId] || 'Không xác định'`. */
  function DayLabel(dayId: int): (r: string)
    ensures 1 <= dayId <= 7 ==> Some(r) == DayName(dayId)
    ensures !(1 <= dayId <= 7) ==> r == UnknownDay
  {
    DayName(dayId).GetOr(UnknownDay)
  }

  /** The seven names are pairwise different, and none is the unknown label. */
  lemma DayNamesDistinct(d1: int, d2: int)
    requires 1 <= d1 <= 7 && 1 <= d2 <= 7 && d1 != d2
    ensures DayLabel(d1) != DayLabel(d2) && DayLabel(d1) != UnknownDay
  {
    assert DayLabel(d1)[0] == 'T' || DayLabel(d1)[0] == 'C';
    assert |DayLabel(d1)| >= 5 && |DayLabel(d2)| >= 5;
    assert d1 != 7 ==> DayLabel(d1)[4] == ("234567"[d1 - 1]);
    assert d2 != 7 ==> DayLabel(d2)[4] == ("234567"[d2 - 1]);
  }

  predicate StrictlyAscending(s: seq<int>) {
    forall i, j :: 0 <= i < j < |s| ==> s[i] < s[j]
  }

  /** Insert `x` into an ascending duplicate-free list, unless it is already there. */
  function InsertAscending(x: int, s: seq<int>): (r: seq<int>)
    requires StrictlyAscending(s)
    ensures StrictlyAscending(r)
    ensures forall y :: y in r <==> y == x || y in s
  {
    if s == [] then [x]
    else if x < s[0] then [x] + s
    else if x == s[0] then s
    else
      var rest := InsertAscending(x, s[1..]);
      assert s == [s[0]] + s[1..];
      ConsAscending(s[0], rest);
      [s[0]] + rest
  }

  /** A head below every element of an ascending tail keeps the list ascending. */
  lemma ConsAscending(h: int, t: seq<int>)
    requires StrictlyAscending(t) && forall y :: y in t ==> h < y
    ensures StrictlyAscending([h] + t)
  {
    var r := [h] + t;
    forall i, j | 0 <= i < j < |r|
      ensures r[i] < r[j]
    {
      assert r[j] == t[j - 1];
      if i == 0 {
        assert t[j - 1] in t;
      } else {
        assert r[i] == t[i - 1];
      }
    }
  }

  /**
   * `Array.from(new Set(ids)).sort((a, b) => a - b)`: every id of the input
   * exactly once, in ascending order.
   */
  function DistinctAscending(ids: seq<int>): (r: seq<int>)
    ensures StrictlyAscending(r)
    ensures forall y :: y in r <==> y in ids
  {
    if ids == [] then []
    else
      var init := ids[..|ids| - 1];
      assert ids == init + [ids[|ids| - 1]];
      InsertAscending(ids[|ids| - 1], DistinctAscending(init))
  }

  /** An ascending list without duplicates is determined by its elements. */
  lemma {:induction false} AscendingUnique(a: seq<int>, b: seq<int>)
    requires StrictlyAscending(a) && StrictlyAscending(b)
    requires forall y :: y in a <==> y in b
    ensures a == b
  {
    assert a != [] ==> a[0] in a;
    assert b != [] ==> b[0] in b;
    if a != [] && b != [] {
      assert a[0] in b;
      assert b[0] in a;
      if a[0] < b[0] {
        assert false;
      } else if b[0] < a[0] {
        assert false;
      }
      forall y
        ensures y in a[1..] <==> y in b[1..]
      {
        if y in a[1..] {
          var k :| 1 <= k < |a| && a[k] == y;
          assert y in b && y != b[0];
        }
        if y in b[1..] {
          var k :| 1 <= k < |b| && b[k] == y;
          assert y in a && y != a[0];
        }
      }
      AscendingUnique(a[1..], b[1..]);
      assert a == [a[0]] + a[1..] && b == [b[0]] + b[1..];
    }
  }

  /** Deduplicating is independent of how often and in which order the ids occur. */
  lemma DistinctAscendingCanonical(ids1: seq<int>, ids2: seq<int>)
    requires forall y :: y in ids1 <==> y in ids2
    ensures DistinctAscending(ids1) == DistinctAscending(ids2)
  {
    AscendingUnique(DistinctAscending(ids1), DistinctAscending(ids2));
  }

  function DayIds<P>(es: seq<Entry<P>>): (r: seq<int>)
    ensures |r| == |es| && forall k :: 0 <= k < |es| ==> r[k] == es[k].dayId
  {
    seq(|es|, k requires 0 <= k < |es| => es[k].dayId)
  }

  function SlotIds<P>(es: seq<Entry<P>>): (r: seq<int>)
    ensures |r| == |es| && forall k :: 0 <= k < |es| ==> r[k] == es[k].slotId
  {
    seq(|es|, k requires 0 <= k < |es| => es[k].slotId)
  }

  /** A column header: the day id and its label. */
  datatype DayColumn = DayColumn(dayId: int, dayName: string)

  /** A row header: the slot id and its label. */
  datatype SlotRow = SlotRow(slotId: int, slot: string)

  /** `s.slotId === slotId`, the condition `find` uses for a slot label. */
  function HasSlot<P>(slotId: int): Entry<P> -> bool {
    (e: Entry<P>) => e.slotId == slotId
  }

  /**
   * A slot's label: the `slot` text of the first record carrying that slot id,
   * or '' when none does (`getSlotLabel`, and the label lookup inside `slots`).
   */
  function SlotLabel<P>(es: seq<Entry<P>>, slotId: int): (r: string)
    ensures (forall k :: 0 <= k < |es| ==> es[k].slotId != slotId) ==> r == ""
    ensures forall k :: (0 <= k < |es| && es[k].slotId == slotId
                         && forall j :: 0 <= j < k ==> es[j].slotId != slotId) ==> r == es[k].slot
  {
    match Find(es, HasSlot(slotId))
    case None => ""
    case Some(e) => e.slot
  }

  /**
   * `Array.from(new Set(es.map(s => s.dayId))).sort(...)`: every day that
   * occurs in the input, once, in ascending order (the consultant page's `days`).
   */
  function DayIdColumns<P>(es: seq<Entry<P>>): (r: seq<int>)
    ensures StrictlyAscending(r)
    ensures forall y :: y in r <==> exists k :: 0 <= k < |es| && es[k].dayId == y
  {
    var ids := DayIds(es);
    assert forall k :: 0 <= k < |es| ==> ids[k] == es[k].dayId && ids[k] in ids;
    DistinctAscending(ids)
  }

  /** Likewise every slot that occurs, once, ascending (the consultant page's `slots`). */
  function SlotIdRows<P>(es: seq<Entry<P>>): (r: seq<int>)
    ensures StrictlyAscending(r)
    ensures forall y :: y in r <==> exists k :: 0 <= k < |es| && es[k].slotId == y
  {
    var ids := SlotIds(es);
    assert forall k :: 0 <= k < |es| ==> ids[k] == es[k].slotId && ids[k] in ids;
    DistinctAscending(ids)
  }

  /** The booking page's `days`: the same columns, each labelled from `DAY_NAMES` with the unknown fallback. */
  function Days<P>(es: seq<Entry<P>>): (r: seq<DayColumn>)
    ensures |r| == |DayIdColumns(es)|
    ensures forall i :: 0 <= i < |r| ==> r[i].dayId == DayIdColumns(es)[i]
    ensures forall i :: 0 <= i < |r| ==> r[i].dayName == DayLabel(r[i].dayId)
  {
    var ids := DayIdColumns(es);
    seq(|ids|, i requires 0 <= i < |ids| => DayColumn(ids[i], DayLabel(ids[i])))
  }

  /** The booking page's `slots`: the same rows, each labelled by the first record with that slot. */
  function Slots<P>(es: seq<Entry<P>>): (r: seq<SlotRow>)
    ensures |r| == |SlotIdRows(es)|
    ensures forall i :: 0 <= i < |r| ==> r[i].slotId == SlotIdRows(es)[i]
    ensures forall i :: 0 <= i < |r| ==> r[i].slot == SlotLabel(es, r[i].slotId)
  {
    var ids := SlotIdRows(es);
    seq(|ids|, i requires 0 <= i < |ids| => SlotRow(ids[i], SlotLabel(es, ids[i])))
  }

  /** `s.dayId === dayId && s.slotId === slotId`. */
  function AtCell<P>(dayId: int, slotId: int): Entry<P> -> bool {
    (e: Entry<P>) => e.dayId == dayId && e.slotId == slotId
  }

  /** How a cell is resolved when several records share it. */
  datatype Policy = AllMatches | FirstMatch

  /**
   * The records shown for a cell: every match in input order (`getCounselors`,
   * a `filter`) or only the first match (`getAppointment`, a `find`).
   */
  function Resolve<P(!new)>(policy: Policy, es: seq<Entry<P>>, dayId: int, slotId: int): (r: seq<Entry<P>>)
    ensures forall x :: x in r ==> x in es && x.dayId == dayId && x.slotId == slotId
    ensures r == [] <==> forall k :: 0 <= k < |es| ==> !(es[k].dayId == dayId && es[k].slotId == slotId)
    ensures policy == AllMatches ==> forall x :: x in es && x.dayId == dayId && x.slotId == slotId ==> x in r
    ensures policy == FirstMatch ==> |r| <= 1
  {
    match policy
    case AllMatches =>
      var r := Filter(es, AtCell(dayId, slotId));
      assert forall k :: 0 <= k < |es| && AtCell(dayId, slotId)(es[k]) ==> es[k] in r;
      assert r != [] ==> r[0] in r;
      r
    case FirstMatch =>
      match Find(es, AtCell(dayId, slotId))
      case None => []
      case Some(e) => [e]
  }

  /** What a cell displays: a dash, or one record. */
  datatype CellView<P> = Dash | Shows(entry: P)

  /**
   * The displayed cell: a dash when nothing occupies it, otherwise the first
   * record resolved (`counselors[0]`, or the `find` result).
   */
  function Cell<P(!new)>(policy: Policy, es: seq<Entry<P>>, dayId: int, slotId: int): (r: CellView<Entry<P>>)
    ensures r.Dash? <==> forall k :: 0 <= k < |es| ==> !(es[k].dayId == dayId && es[k].slotId == slotId)
    ensures r.Shows? ==> r.entry in es && r.entry.dayId == dayId && r.entry.slotId == slotId
  {
    var matches := Resolve(policy, es, dayId, slotId);
    if matches == [] then Dash else Shows(matches[0])
  }

  /**
   * Under either policy a cell shows the first record at that (day, slot):
   * the booking page's `getCounselors(...)[0]` is the consultant page's
   * `getAppointment(...)`.
   */
  lemma PoliciesAgree<P(!new)>(es: seq<Entry<P>>, dayId: int, slotId: int)
    ensures Cell(AllMatches, es, dayId, slotId) == Cell(FirstMatch, es, dayId, slotId)
    ensures forall k :: (0 <= k < |es| && es[k].dayId == dayId && es[k].slotId == slotId
                         && forall j :: 0 <= j < k ==> !(es[j].dayId == dayId && es[j].slotId == slotId))
                        ==> Cell(FirstMatch, es, dayId, slotId) == Shows(es[k])
  {
    FilterHeadIsFind(es, AtCell(dayId, slotId));
    var p := AtCell<P>(dayId, slotId);
    match FindIndex(es, p)
    case None =>
    case Some(k) =>
      forall k' | 0 <= k' < |es| && p(es[k']) && (forall j :: 0 <= j < k' ==> !p(es[j]))
        ensures k' == k
      {
        assert !(k < k') && !(k' < k);
      }
  }

  /**
   * No record is dropped: its day is a column, its slot a row, and it is among
   * the records resolved for its own cell under the all-matches policy.
   */
  lemma NoRecordDropped<P(!new)>(es: seq<Entry<P>>, k: nat)
    requires k < |es|
    ensures es[k].dayId in DayIdColumns(es) && es[k].slotId in SlotIdRows(es)
    ensures es[k] in Resolve(AllMatches, es, es[k].dayId, es[k].slotId)
    ensures Cell(FirstMatch, es, es[k].dayId, es[k].slotId).Shows?
  {
    assert es[k] in es;
  }

  /** The whole grid: one row per slot, one cell per day in each row. */
  function Grid<P(!new)>(policy: Policy, es: seq<Entry<P>>): (g: seq<seq<CellView<Entry<P>>>>)
    ensures |g| == |SlotIdRows(es)|
    ensures forall i :: 0 <= i < |g| ==> |g[i]| == |DayIdColumns(es)|
  {
    var days := DayIdColumns(es);
    var slots := SlotIdRows(es);
    seq(|slots|, i requires 0 <= i < |slots| =>
      seq(|days|, j requires 0 <= j < |days| => Cell(policy, es, days[j], slots[i])))
  }

  /**
   * The grid is filled exactly where records are: cell (i, j) shows something
   * iff a record has the j-th day and the i-th slot, and then it shows the
   * first such record.
   */
  lemma GridOccupancy<P(!new)>(policy: Policy, es: seq<Entry<P>>, i: nat, j: nat)
    requires i < |SlotIdRows(es)| && j < |DayIdColumns(es)|
    ensures var c := Grid(policy, es)[i][j];
      && (c.Shows? <==> exists k :: 0 <= k < |es| && es[k].dayId == DayIdColumns(es)[j]
                                                 && es[k].slotId == SlotIdRows(es)[i])
      && c == Cell(FirstMatch, es, DayIdColumns(es)[j], SlotIdRows(es)[i])
  {
    PoliciesAgree(es, DayIdColumns(es)[j], SlotIdRows(es)[i]);
  }

  /** The grid of an empty list has no rows and no columns. */
  lemma EmptyInput<P(!new)>(policy: Policy)
    ensures Days<P>([]) == [] && Slots<P>([]) == [] && Grid<P>(policy, []) == []
  {
  }
}

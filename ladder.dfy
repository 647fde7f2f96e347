/** The option price ladder of the trading page: a fixed grid of option prices
    ($0.00 .. $10.00 in one-cent steps), a window of at most 31 rows around the
    selected grid index, each row's underlying trigger price, and the entry /
    take-profit / stop-loss levels derived from the selection.

    Option prices are held as integer cents (the grid is exact two-decimal text);
    the underlying price and everything derived from it are exact `real` dollars. */
module Ladder {
  import opened Base

  /** Points in the option-price grid: indices 0 .. 1000. */
  const GridSize: int := 1001
  /** Grid index of the at-the-money row ($2.50). */
  const MidIdx: int := 250
  /** How far the up / down buttons may move the offset from the middle. */
  const StepLimit: int := 250
  /** Rows shown on each side of the selected row. */
  const Radius: int := 15
  /** Largest number of rows a window can hold. */
  const MaxRows: int := 2 * Radius + 1
  /** One grid step in dollars. */
  const Cent: real := 0.01
  /** Half a grid step: the tolerance of the at-the-money test. */
  const HalfCent: real := 0.005

  /** `prices` is the grid the page builds: entry i is i cents. */
  predicate IsGrid(prices: seq<int>) {
    |prices| == GridSize && forall i :: 0 <= i < |prices| ==> prices[i] == i
  }

  /** Builds the grid one entry at a time, as the page does on load. */
  method BuildOptionPrices() returns (prices: seq<int>)
    ensures IsGrid(prices)
  {
    prices := [];
    var i := 0;
    while i <= GridSize - 1
      invariant 0 <= i <= GridSize
      invariant |prices| == i
      invariant forall k :: 0 <= k < i ==> prices[k] == k
    {
      prices := prices + [i];
      i := i + 1;
    }
  }

  /** Offsets the page can hold: the up / down buttons stop at -250, and a click
      on a displayed row can move the selection anywhere on the grid. */
  predicate ValidOffset(offset: int) {
    -StepLimit <= offset && MidIdx + offset < GridSize
  }

  function SelectedIdx(offset: int): int { MidIdx + offset }

  function WindowStart(sel: int): int { Max(0, sel - Radius) }

  function WindowEnd(sel: int): int { Min(GridSize, sel + Radius + 1) }

  /** Underlying price at which grid index `idx` triggers. */
  function Trigger(spy: real, idx: int): real {
    spy + (idx - MidIdx) as real * Cent
  }

  /** The page's at-the-money test: the row's trigger is within half a cent of
      the underlying price. */
  predicate IsMid(spy: real, idx: int) {
    AbsReal(Trigger(spy, idx) - spy) < HalfCent
  }

  datatype Style = MidHighlight | SelectedRow | Plain

  datatype Row = Row(idx: int, optionCents: int, trigger: real, style: Style)

  /** The at-the-money styling wins over the selected styling. */
  function RowStyle(spy: real, sel: int, idx: int): Style {
    if IsMid(spy, idx) then MidHighlight
    else if idx == sel then SelectedRow
    else Plain
  }

  function RowAt(prices: seq<int>, spy: real, sel: int, idx: int): Row
    requires 0 <= idx < |prices|
  {
    Row(idx, prices[idx], Trigger(spy, idx), RowStyle(spy, sel, idx))
  }

  /** The rows the ladder displays for underlying `spy` and selection `offset`. */
  function Rows(prices: seq<int>, spy: real, offset: int): seq<Row>
    requires |prices| == GridSize && ValidOffset(offset)
  {
    var sel := SelectedIdx(offset);
    var start := WindowStart(sel);
    var end := WindowEnd(sel);
    seq(end - start, i requires 0 <= i < end - start => RowAt(prices, spy, sel, start + i))
  }

  /** What the ladder panel shows: a waiting notice before any price is known,
      else the rows and the quick-trade summary of the selected row. */
  datatype LadderView =
    | Waiting
    | Shown(rows: seq<Row>, quickCents: int, quickTrigger: real, midCents: int)

  function Render(prices: seq<int>, spy: Option<real>, offset: int): LadderView
    requires |prices| == GridSize && ValidOffset(offset)
  {
    match spy
    case None => Waiting
    case Some(p) =>
      Shown(Rows(prices, p, offset), prices[SelectedIdx(offset)], Trigger(p, SelectedIdx(offset)), prices[MidIdx])
  }

  datatype Levels = Levels(entry: real, takeProfit: real, stopLoss: real)

  /** Entry, take-profit and stop-loss for the selection; nothing before a price
      is known. No ordering between the three is enforced. */
  function TradeLevels(spy: Option<real>, offset: int, tp: real, sl: real): Option<Levels> {
    match spy
    case None => None
    case Some(p) =>
      var entry := p + offset as real * Cent;
      Some(Levels(entry, entry + tp, entry - sl))
  }

  /** Whether a new underlying price redraws the ladder: always for the first
      price, otherwise only after a move of more than one cent. */
  predicate NeedsRerender(spy: real, last: Option<real>) {
    last.None? || AbsReal(spy - last.value) > Cent
  }

  // ---------------------------------------------------------------------------
  // Window

  lemma WindowBounds(offset: int)
    requires ValidOffset(offset)
    ensures var sel := SelectedIdx(offset);
      && 0 <= WindowStart(sel) <= sel < WindowEnd(sel) <= GridSize
      && WindowEnd(sel) - WindowStart(sel) <= MaxRows
      && (Radius <= sel < GridSize - Radius ==> WindowEnd(sel) - WindowStart(sel) == MaxRows)
  {
  }

  // ---------------------------------------------------------------------------
  // Rows

  lemma {:induction false} RowValues(prices: seq<int>, spy: real, offset: int, i: int)
    requires IsGrid(prices) && ValidOffset(offset)
    requires 0 <= i < |Rows(prices, spy, offset)|
    ensures var r := Rows(prices, spy, offset)[i];
      && r.idx == WindowStart(SelectedIdx(offset)) + i
      && 0 <= r.idx < GridSize
      && r.optionCents == r.idx
      && r.trigger == spy + (r.idx - MidIdx) as real * Cent
      && r.trigger - r.optionCents as real * Cent == spy - 2.5
      && r.style == RowStyle(spy, SelectedIdx(offset), r.idx)
  {
    var sel := SelectedIdx(offset);
    var idx := WindowStart(sel) + i;
    assert Rows(prices, spy, offset)[i] == RowAt(prices, spy, sel, idx);
    assert (idx - MidIdx) as real == idx as real - 250.0;
  }

  /** Neighbouring rows differ by exactly one cent in both columns. */
  lemma ConsecutiveRows(prices: seq<int>, spy: real, offset: int, i: int)
    requires IsGrid(prices) && ValidOffset(offset)
    requires 0 <= i && i + 1 < |Rows(prices, spy, offset)|
    ensures var rows := Rows(prices, spy, offset);
      && rows[i + 1].optionCents == rows[i].optionCents + 1
      && rows[i + 1].trigger == rows[i].trigger + Cent
  {
    RowValues(prices, spy, offset, i);
    RowValues(prices, spy, offset, i + 1);
  }

  /** Trigger prices strictly increase down the window. */
  lemma RowsIncreasing(prices: seq<int>, spy: real, offset: int, i: int, j: int)
    requires IsGrid(prices) && ValidOffset(offset)
    requires 0 <= i < j < |Rows(prices, spy, offset)|
    ensures var rows := Rows(prices, spy, offset);
      rows[i].optionCents < rows[j].optionCents && rows[i].trigger < rows[j].trigger
  {
    RowValues(prices, spy, offset, i);
    RowValues(prices, spy, offset, j);
  }

  /** The at-the-money test holds exactly at grid index 250, whatever the
      underlying price (in exact arithmetic). */
  lemma MidExactlyAtMidIdx(spy: real, idx: int)
    ensures IsMid(spy, idx) <==> idx == MidIdx
  {
    var d := (idx - MidIdx) as real * Cent;
    assert Trigger(spy, idx) - spy == d;
    if idx > MidIdx {
      assert d >= Cent;
    } else if idx < MidIdx {
      assert d <= -Cent;
    }
  }

  /** A row is highlighted as at-the-money exactly when it is grid index 250; at
      most one row is, and one is present exactly when the window covers 250. */
  lemma MidRow(prices: seq<int>, spy: real, offset: int)
    requires IsGrid(prices) && ValidOffset(offset)
    ensures var rows := Rows(prices, spy, offset);
      && (forall i :: 0 <= i < |rows| ==> (rows[i].style == MidHighlight <==> rows[i].idx == MidIdx))
      && (forall i, j :: 0 <= i < |rows| && 0 <= j < |rows| && rows[i].style == MidHighlight && rows[j].style == MidHighlight ==> i == j)
      && ((exists i :: 0 <= i < |rows| && rows[i].style == MidHighlight)
          <==> WindowStart(SelectedIdx(offset)) <= MidIdx < WindowEnd(SelectedIdx(offset)))
  {
    var rows := Rows(prices, spy, offset);
    var start := WindowStart(SelectedIdx(offset));
    forall i | 0 <= i < |rows|
      ensures rows[i].style == MidHighlight <==> rows[i].idx == MidIdx
      ensures rows[i].idx == start + i
    {
      RowValues(prices, spy, offset, i);
      MidExactlyAtMidIdx(spy, rows[i].idx);
    }
    if start <= MidIdx < WindowEnd(SelectedIdx(offset)) {
      assert rows[MidIdx - start].style == MidHighlight;
    }
  }

  /** The selected grid index is always displayed; its row carries the selected
      styling unless it is also the at-the-money row, and no other row does. */
  lemma SelectedRowShown(prices: seq<int>, spy: real, offset: int)
    requires IsGrid(prices) && ValidOffset(offset)
    ensures var sel := SelectedIdx(offset);
      var rows := Rows(prices, spy, offset);
      var k := sel - WindowStart(sel);
      && 0 <= k < |rows|
      && rows[k].idx == sel
      && rows[k].optionCents == sel
      && rows[k].style == (if sel == MidIdx then MidHighlight else SelectedRow)
      && (forall i :: 0 <= i < |rows| && i != k ==> rows[i].style != SelectedRow)
  {
    var sel := SelectedIdx(offset);
    var rows := Rows(prices, spy, offset);
    var start := WindowStart(sel);
    WindowBounds(offset);
    RowValues(prices, spy, offset, sel - start);
    MidExactlyAtMidIdx(spy, sel);
    forall i | 0 <= i < |rows| && i != sel - start
      ensures rows[i].style != SelectedRow
    {
      RowValues(prices, spy, offset, i);
    }
  }

  // ---------------------------------------------------------------------------
  // Trade levels

  /** The entry level is the selected row's trigger; take-profit and stop-loss
      sit exactly `tp` above and `sl` below it, whatever their signs. */
  lemma LevelsFromSelection(prices: seq<int>, spy: real, offset: int, tp: real, sl: real)
    requires IsGrid(prices) && ValidOffset(offset)
    ensures var view := Render(prices, Some(spy), offset);
      var levels := TradeLevels(Some(spy), offset, tp, sl);
      var sel := SelectedIdx(offset);
      && levels.Some? && view.Shown?
      && levels.value.entry == view.quickTrigger
      && levels.value.entry == view.rows[sel - WindowStart(sel)].trigger
      && view.quickCents == sel
      && levels.value.takeProfit - levels.value.entry == tp
      && levels.value.entry - levels.value.stopLoss == sl
  {
    var sel := SelectedIdx(offset);
    SelectedRowShown(prices, spy, offset);
    RowValues(prices, spy, offset, sel - WindowStart(sel));
    assert sel - MidIdx == offset;
  }

  /** Before any price is known the panel waits and no levels are shown. */
  lemma NoPriceWaits(prices: seq<int>, offset: int, tp: real, sl: real)
    requires |prices| == GridSize && ValidOffset(offset)
    ensures Render(prices, None, offset) == Waiting
    ensures TradeLevels(None, offset, tp, sl) == None
  {
  }

  /** underlying 149.23, two steps up, TP 0.05, SL 0.03 gives 149.25 / 149.30 / 149.22. */
  lemma LevelsExample()
    ensures TradeLevels(Some(149.23), 2, 0.05, 0.03) == Some(Levels(149.25, 149.30, 149.22))
  {
  }

  // ---------------------------------------------------------------------------
  // Re-render threshold

  /** Moves of at most one cent keep the drawn ladder; larger moves redraw it. */
  lemma RerenderThreshold(spy: real, last: real)
    ensures NeedsRerender(spy, Some(last)) <==> (spy > last + Cent || spy < last - Cent)
    ensures NeedsRerender(spy, None)
  {
  }
}

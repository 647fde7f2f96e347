/** The trading page's ladder state: the globals its script keeps (underlying
    price, previous price, selection offset, selected option price, chosen
    contract) and the handlers that change them. The drawn ladder is kept as the
    value `Ladder.Render` describes; the browser's DOM itself is not modelled. */
module LadderPage {
  import opened Base
  import opened Ladder

  /** What the page sends to the server when the quick-trade button is pressed. */
  datatype OrderRequest = OrderRequest(
    optionCents: int,
    strike: real,
    expiry: string,
    right: string,
    qty: int,
    tp: real,
    sl: real,
    triggerPrice: real)

  datatype EntryError = NoContractChosen | NoPriceYet

  datatype EntryResult = Submit(request: OrderRequest) | Refused(reason: EntryError)

  /** A strike read from the input counts as set only when it parsed to a non-zero number. */
  predicate StrikeSet(strike: Option<real>) { strike.Some? && strike.value != 0.0 }

  /** An expiry counts as set only when it is a non-empty string. */
  predicate ExpirySet(expiry: Option<string>) { expiry.Some? && expiry.value != "" }

  class Page {
    var optionPrices: seq<int>
    var spyPrice: Option<real>
    var lastSpyPrice: Option<real>
    var selectedLadderIndex: int
    /** The selected row's option price, in cents. */
    var currentOptionPrice: int
    var currentStrike: Option<real>
    var currentExpiry: Option<string>
    var currentType: string
    /** The ladder panel as last drawn. */
    var display: LadderView
    /** The underlying price the panel was last drawn with. */
    ghost var renderedAt: real

    /** The page invariant: the grid is intact, the offset is one the page can
        reach, and once a price is known the panel shows the window for the
        current offset (drawn at `renderedAt`) and the selected option price is
        that row's price. */
    ghost predicate Valid()
      reads this
    {
      && IsGrid(optionPrices)
      && ValidOffset(selectedLadderIndex)
      && (spyPrice.None? ==> display == Waiting)
      && (spyPrice.Some? ==>
            && display == Render(optionPrices, Some(renderedAt), selectedLadderIndex)
            && currentOptionPrice == optionPrices[SelectedIdx(selectedLadderIndex)])
    }

    /** Page load: build the grid, select the middle row, draw the waiting panel. */
    constructor ()
      ensures Valid()
      ensures spyPrice == None && lastSpyPrice == None
      ensures selectedLadderIndex == 0 && currentOptionPrice == 250
      ensures currentStrike == None && currentExpiry == None && currentType == "C"
      ensures display == Waiting
    {
      var grid := BuildOptionPrices();
      optionPrices := grid;
      spyPrice, lastSpyPrice := None, None;
      selectedLadderIndex := 0;
      currentOptionPrice := 250;
      currentStrike, currentExpiry, currentType := None, None, "C";
      display := Waiting;
      renderedAt := 0.0;
    }

    /** Redraws the panel for the current price and offset. */
    method RenderLadder()
      requires IsGrid(optionPrices) && ValidOffset(selectedLadderIndex)
      requires spyPrice.None? ==> display == Waiting
      modifies this
      ensures spyPrice == old(spyPrice) && lastSpyPrice == old(lastSpyPrice)
      ensures selectedLadderIndex == old(selectedLadderIndex) && optionPrices == old(optionPrices)
      ensures currentStrike == old(currentStrike) && currentExpiry == old(currentExpiry)
      ensures currentType == old(currentType)
      ensures spyPrice.None? ==> display == old(display) && currentOptionPrice == old(currentOptionPrice)
      ensures spyPrice.Some? ==> renderedAt == spyPrice.value
      ensures display == Render(optionPrices, spyPrice, selectedLadderIndex)
      ensures Valid()
    {
      if spyPrice.None? {
        return;
      }
      display := Render(optionPrices, spyPrice, selectedLadderIndex);
      renderedAt := spyPrice.value;
      currentOptionPrice := optionPrices[SelectedIdx(selectedLadderIndex)];
    }

    /** A new underlying price (read from the chart or typed in): remember the
        previous one and redraw only after a move of more than one cent. */
    method UpdatePrice(p: real)
      requires Valid()
      modifies this
      ensures Valid()
      ensures spyPrice == Some(p) && lastSpyPrice == old(spyPrice)
      ensures selectedLadderIndex == old(selectedLadderIndex)
      ensures NeedsRerender(p, old(spyPrice)) ==> renderedAt == p
      ensures !NeedsRerender(p, old(spyPrice)) ==>
                display == old(display) && renderedAt == old(renderedAt)
                && currentOptionPrice == old(currentOptionPrice)
      ensures currentStrike == old(currentStrike) && currentExpiry == old(currentExpiry)
      ensures currentType == old(currentType)
    {
      lastSpyPrice := spyPrice;
      spyPrice := Some(p);
      if NeedsRerender(p, lastSpyPrice) {
        RenderLadder();
      }
    }

    /** A click on a displayed row selects that grid index. */
    method SelectLadder(idx: int)
      requires Valid()
      requires spyPrice.Some?
      requires WindowStart(SelectedIdx(selectedLadderIndex)) <= idx < WindowEnd(SelectedIdx(selectedLadderIndex))
      modifies this
      ensures Valid()
      ensures selectedLadderIndex == idx - MidIdx
      ensures currentOptionPrice == idx
      ensures display == Render(optionPrices, spyPrice, selectedLadderIndex)
      ensures spyPrice == old(spyPrice) && lastSpyPrice == old(lastSpyPrice)
      ensures renderedAt == spyPrice.value
      ensures optionPrices == old(optionPrices)
      ensures currentStrike == old(currentStrike) && currentExpiry == old(currentExpiry)
      ensures currentType == old(currentType)
    {
      selectedLadderIndex := idx - MidIdx;
      RenderLadder();
    }

    /** One row up, stopping at +250. */
    method LadderUp()
      requires Valid()
      modifies this
      ensures Valid()
      ensures selectedLadderIndex ==
                if old(selectedLadderIndex) < StepLimit then old(selectedLadderIndex) + 1
                else old(selectedLadderIndex)
      ensures display == Render(optionPrices, spyPrice, selectedLadderIndex)
      ensures spyPrice.Some? ==> renderedAt == spyPrice.value
      ensures spyPrice == old(spyPrice) && lastSpyPrice == old(lastSpyPrice)
      ensures optionPrices == old(optionPrices)
      ensures currentStrike == old(currentStrike) && currentExpiry == old(currentExpiry)
      ensures currentType == old(currentType)
    {
      if selectedLadderIndex < StepLimit {
        selectedLadderIndex := selectedLadderIndex + 1;
      }
      RenderLadder();
    }

    /** One row down, stopping at -250. */
    method LadderDown()
      requires Valid()
      modifies this
      ensures Valid()
      ensures selectedLadderIndex ==
                if old(selectedLadderIndex) > -StepLimit then old(selectedLadderIndex) - 1
                else old(selectedLadderIndex)
      ensures display == Render(optionPrices, spyPrice, selectedLadderIndex)
      ensures spyPrice.Some? ==> renderedAt == spyPrice.value
      ensures spyPrice == old(spyPrice) && lastSpyPrice == old(lastSpyPrice)
      ensures optionPrices == old(optionPrices)
      ensures currentStrike == old(currentStrike) && currentExpiry == old(currentExpiry)
      ensures currentType == old(currentType)
    {
      if selectedLadderIndex > -StepLimit {
        selectedLadderIndex := selectedLadderIndex - 1;
      }
      RenderLadder();
    }

    /** Back to the at-the-money row. */
    method CenterLadder()
      requires Valid()
      modifies this
      ensures Valid()
      ensures selectedLadderIndex == 0
      ensures display == Render(optionPrices, spyPrice, selectedLadderIndex)
      ensures spyPrice.Some? ==> renderedAt == spyPrice.value
      ensures spyPrice == old(spyPrice) && lastSpyPrice == old(lastSpyPrice)
      ensures optionPrices == old(optionPrices)
      ensures currentStrike == old(currentStrike) && currentExpiry == old(currentExpiry)
      ensures currentType == old(currentType)
    {
      selectedLadderIndex := 0;
      RenderLadder();
    }

    /** Records the contract to trade; refused, changing nothing, unless both a
        strike and an expiry are given. */
    method SetStrike(strike: Option<real>, expiry: Option<string>, right: string) returns (accepted: bool)
      modifies this
      ensures accepted <==> StrikeSet(strike) && ExpirySet(expiry)
      ensures accepted ==> currentStrike == strike && currentExpiry == expiry && currentType == right
      ensures !accepted ==>
                currentStrike == old(currentStrike) && currentExpiry == old(currentExpiry)
                && currentType == old(currentType)
      ensures spyPrice == old(spyPrice) && lastSpyPrice == old(lastSpyPrice)
      ensures selectedLadderIndex == old(selectedLadderIndex) && optionPrices == old(optionPrices)
      ensures currentOptionPrice == old(currentOptionPrice) && display == old(display)
      ensures renderedAt == old(renderedAt)
    {
      if !StrikeSet(strike) || !ExpirySet(expiry) {
        return false;
      }
      currentStrike, currentExpiry, currentType := strike, expiry, right;
      return true;
    }

    /** The quick-trade button: refused without a chosen contract, then without a
        price; otherwise the request carries the selected row's option price and
        the entry trigger `spy + offset` cents. */
    method QuickExecute(tp: real, sl: real, qty: int) returns (r: EntryResult)
      requires Valid()
      ensures !(StrikeSet(currentStrike) && ExpirySet(currentExpiry)) ==> r == Refused(NoContractChosen)
      ensures StrikeSet(currentStrike) && ExpirySet(currentExpiry) && spyPrice.None? ==> r == Refused(NoPriceYet)
      ensures r.Submit? <==> StrikeSet(currentStrike) && ExpirySet(currentExpiry) && spyPrice.Some?
      ensures r.Submit? ==>
                && r.request.optionCents == SelectedIdx(selectedLadderIndex)
                && r.request.triggerPrice == TradeLevels(spyPrice, selectedLadderIndex, tp, sl).value.entry
                && r.request.strike == currentStrike.value && r.request.expiry == currentExpiry.value
                && r.request.right == currentType && r.request.qty == qty
                && r.request.tp == tp && r.request.sl == sl
    {
      if !StrikeSet(currentStrike) || !ExpirySet(currentExpiry) {
        return Refused(NoContractChosen);
      }
      if spyPrice.None? {
        return Refused(NoPriceYet);
      }
      var trigger := spyPrice.value + selectedLadderIndex as real * Cent;
      r := Submit(OrderRequest(currentOptionPrice, currentStrike.value, currentExpiry.value, currentType,
                               qty, tp, sl, trigger));
    }
  }

  /** Once a price is known, the panel shows the selected grid index as a row,
      the option price it sends is that row's price, and the trigger the quick-trade
      summary shows is the entry level for the price the panel was drawn at. */
  lemma DisplayedSelection(p: Page)
    requires p.Valid() && p.spyPrice.Some?
    ensures var sel := SelectedIdx(p.selectedLadderIndex);
      && p.display.Shown?
      && 0 <= sel - WindowStart(sel) < |p.display.rows|
      && p.display.rows[sel - WindowStart(sel)].idx == sel
      && p.display.rows[sel - WindowStart(sel)].optionCents == p.currentOptionPrice
      && p.display.quickTrigger == TradeLevels(Some(p.renderedAt), p.selectedLadderIndex, 0.0, 0.0).value.entry
  {
    var sel := SelectedIdx(p.selectedLadderIndex);
    LevelsFromSelection(p.optionPrices, p.renderedAt, p.selectedLadderIndex, 0.0, 0.0);
    SelectedRowShown(p.optionPrices, p.renderedAt, p.selectedLadderIndex);
    assert p.optionPrices[sel] == sel;
  }
}

/** What the order handlers do to stock, proved about the specification
    functions of `OrderController`. */
module OrderProofs {
  import opened Wrappers
  import opened Seqs
  import opened OrderLines
  import opened OrderController

  // ---------------------------------------------------------------------------
  // createOrder
  // ---------------------------------------------------------------------------

  /** A create that goes through lowers each item's stock by exactly the sum of
      the quantities its lines order, and every item it names exists. */
  lemma {:induction false} DrawSubtracts(s: Stock, lines: seq<OrderLine>)
    requires Draw(s, lines).halted.None?
    ensures Ids(lines) <= s.Keys
    ensures forall id :: id in s ==> Draw(s, lines).stock[id] == s[id] - QtyOf(lines, id)
  {
    if lines != [] {
      DrawSubtracts(s, Init(lines));
    }
  }

  /** A create that stops at line k has kept the decrements of lines 0..k-1 and
      nothing else, and line k is the one whose item is missing or short. */
  lemma {:induction false} DrawStopsAt(s: Stock, lines: seq<OrderLine>)
    requires Draw(s, lines).halted.Some?
    ensures var r := Draw(s, lines); var k := r.halted.value.at;
      k < |lines| &&
      Draw(s, lines[..k]) == Run(r.stock, None) &&
      ((r.halted.value.failure == ItemNotFound(lines[k].name) && lines[k].itemId !in r.stock) ||
       (r.halted.value.failure == InsufficientStock(lines[k].name) && lines[k].itemId in r.stock &&
        r.stock[lines[k].itemId] < lines[k].quantity))
  {
    var r := Draw(s, Init(lines));
    if r.halted.Some? {
      DrawStopsAt(s, Init(lines));
      assert Init(lines)[..r.halted.value.at] == lines[..r.halted.value.at];
    } else {
      assert lines[..|lines| - 1] == Init(lines);
    }
  }

  /** No stock goes negative through create: each draw is checked first. */
  lemma {:induction false} DrawKeepsNonNegative(s: Stock, lines: seq<OrderLine>)
    requires NonNegative(s)
    ensures NonNegative(Draw(s, lines).stock)
  {
    if lines != [] {
      DrawKeepsNonNegative(s, Init(lines));
    }
  }

  /** A single line asking for more than the stock fails and leaves that stock alone. */
  lemma InsufficientStockRejected(s: Stock, l: OrderLine)
    requires l.itemId in s && s[l.itemId] < l.quantity
    ensures CreateRun(s, Some([l])) == Run(s, Some(Halt(InsufficientStock(l.name), 0)))
  {
    assert Init([l]) == [] && Last([l]) == l;
    assert Draw(s, []) == Run(s, None);
  }

  // ---------------------------------------------------------------------------
  // deleteOrder
  // ---------------------------------------------------------------------------

  /** Delete raises each existing item's stock by the sum of its line quantities;
      lines of missing items are skipped. */
  lemma {:induction false} RestockAdds(s: Stock, lines: seq<OrderLine>)
    ensures forall id :: id in s ==> Restock(s, lines)[id] == s[id] + QtyOf(lines, id)
  {
    if lines != [] {
      RestockAdds(s, Init(lines));
    }
  }

  /** With non-negative quantities, delete keeps stock non-negative. */
  lemma RestockKeepsNonNegative(s: Stock, lines: seq<OrderLine>)
    requires NonNegative(s) && NonNegativeQuantities(lines)
    ensures NonNegative(Restock(s, lines))
  {
    RestockAdds(s, lines);
    forall id | id in s ensures Restock(s, lines)[id] >= 0 {
      NonNegativeQtyOf(lines, id);
    }
  }

  /** Round trip: deleting an order right after creating it restores every
      item's stock to what it was before the create. */
  lemma CreateThenDeleteRestores(s: Stock, lines: seq<OrderLine>)
    requires Draw(s, lines).halted.None?
    ensures Restock(Draw(s, lines).stock, lines) == s
  {
    var d := Draw(s, lines).stock;
    DrawSubtracts(s, lines);
    RestockAdds(d, lines);
  }

  // ---------------------------------------------------------------------------
  // updateOrder
  // ---------------------------------------------------------------------------

  /** With unique stored ids, `prevQuantities[id] || 0` is the stored quantity of `id`. */
  lemma {:induction false} PrevQtyIsStoredQty(lines: seq<OrderLine>, id: ItemId)
    requires UniqueIds(lines)
    ensures PrevQty(PrevQuantities(lines), id) == QtyOf(lines, id)
  {
    if lines != [] {
      PrevQtyIsStoredQty(Init(lines), id);
      if Last(lines).itemId == id {
        AbsentId(Init(lines), id);
      }
    }
  }

  /** The first loop of update lowers each item's stock by its new total
      quantity minus `prevQty` once per line that names it. */
  lemma {:induction false} AdjustSubtracts(s: Stock, prev: map<ItemId, int>, lines: seq<OrderLine>)
    requires Adjust(s, prev, lines).halted.None?
    ensures Ids(lines) <= s.Keys
    ensures forall id :: id in s ==>
      Adjust(s, prev, lines).stock[id] == s[id] - QtyOf(lines, id) + CountOf(lines, id) * PrevQty(prev, id)
  {
    if lines != [] {
      var r := Adjust(s, prev, Init(lines));
      var l := Last(lines);
      assert r.halted.None? && Adjust(s, prev, lines) == AdjustLine(r.stock, prev, l, |lines| - 1);
      AdjustSubtracts(s, prev, Init(lines));
      var t := Adjust(s, prev, lines).stock;
      forall id | id in s
        ensures t[id] == s[id] - QtyOf(lines, id) + CountOf(lines, id) * PrevQty(prev, id)
      {
        var c := CountOf(Init(lines), id);
        var p := PrevQty(prev, id);
        assert r.stock[id] == s[id] - QtyOf(Init(lines), id) + c * p;
        if l.itemId == id {
          assert (c + 1) * p == c * p + p;
        }
      }
    }
  }

  /** An update walk that stops at line k has kept the stock changes of lines
      0..k-1 and nothing else, and line k is the one whose item is missing or
      whose increase the stock cannot cover. */
  lemma {:induction false} AdjustStopsAt(s: Stock, prev: map<ItemId, int>, lines: seq<OrderLine>)
    requires Adjust(s, prev, lines).halted.Some?
    ensures var r := Adjust(s, prev, lines); var k := r.halted.value.at;
      k < |lines| &&
      Adjust(s, prev, lines[..k]) == Run(r.stock, None) &&
      ((r.halted.value.failure == ItemNotFound(lines[k].name) && lines[k].itemId !in r.stock) ||
       (r.halted.value.failure == InsufficientStock(lines[k].name) && lines[k].itemId in r.stock &&
        0 < lines[k].quantity - PrevQty(prev, lines[k].itemId) &&
        r.stock[lines[k].itemId] < lines[k].quantity - PrevQty(prev, lines[k].itemId)))
  {
    var r := Adjust(s, prev, Init(lines));
    if r.halted.Some? {
      AdjustStopsAt(s, prev, Init(lines));
      assert Init(lines)[..r.halted.value.at] == lines[..r.halted.value.at];
    } else {
      assert lines[..|lines| - 1] == Init(lines);
    }
  }

  /** A refused update keeps what the lines before the failing one did to the
      stock, and restocks none of the dropped lines: the second loop never runs. */
  lemma UpdateStopsAt(s: Stock, oldLines: seq<OrderLine>, newLines: seq<OrderLine>)
    requires Reconcile(s, oldLines, newLines).halted.Some?
    ensures Reconcile(s, oldLines, newLines) == Adjust(s, PrevQuantities(oldLines), newLines)
    ensures var r := Reconcile(s, oldLines, newLines); var k := r.halted.value.at;
      k < |newLines| &&
      Adjust(s, PrevQuantities(oldLines), newLines[..k]) == Run(r.stock, None)
  {
    AdjustStopsAt(s, PrevQuantities(oldLines), newLines);
  }

  /** The first loop of update never takes a stock below zero. */
  lemma {:induction false} AdjustKeepsNonNegative(s: Stock, prev: map<ItemId, int>, lines: seq<OrderLine>)
    requires NonNegative(s)
    ensures NonNegative(Adjust(s, prev, lines).stock)
  {
    if lines != [] {
      AdjustKeepsNonNegative(s, prev, Init(lines));
    }
  }

  /** The second loop of update restocks, in full, exactly the stored lines
      whose id no new line names. */
  lemma {:induction false} RestockDroppedAdds(s: Stock, oldLines: seq<OrderLine>, newLines: seq<OrderLine>)
    ensures forall id :: id in s ==>
      RestockDropped(s, oldLines, newLines)[id] ==
        s[id] + (if id in Ids(newLines) then 0 else QtyOf(oldLines, id))
  {
    if oldLines != [] {
      RestockDroppedAdds(s, Init(oldLines), newLines);
    }
  }

  /** Net effect of a successful update, when neither the stored nor the new
      lines repeat an item: each item's stock moves by its stored quantity minus
      its new quantity. */
  lemma UpdateNetEffect(s: Stock, oldLines: seq<OrderLine>, newLines: seq<OrderLine>)
    requires UniqueIds(oldLines) && UniqueIds(newLines)
    requires Reconcile(s, oldLines, newLines).halted.None?
    ensures forall id :: id in s ==>
      Reconcile(s, oldLines, newLines).stock[id] == s[id] - QtyOf(newLines, id) + QtyOf(oldLines, id)
  {
    var prev := PrevQuantities(oldLines);
    var a := Adjust(s, prev, newLines);
    assert a.halted.None?;
    AdjustSubtracts(s, prev, newLines);
    RestockDroppedAdds(a.stock, oldLines, newLines);
    forall id | id in s
      ensures Reconcile(s, oldLines, newLines).stock[id] == s[id] - QtyOf(newLines, id) + QtyOf(oldLines, id)
    {
      NetEffectAt(s[id], a.stock[id], RestockDropped(a.stock, oldLines, newLines)[id], oldLines, newLines, id);
    }
  }

  /** The arithmetic of `UpdateNetEffect` for one item: `adjusted` is its stock
      after the first loop, `restocked` after the second. */
  lemma NetEffectAt(before: int, adjusted: int, restocked: int,
                    oldLines: seq<OrderLine>, newLines: seq<OrderLine>, id: ItemId)
    requires UniqueIds(oldLines) && UniqueIds(newLines)
    requires adjusted == before - QtyOf(newLines, id) +
      CountOf(newLines, id) * PrevQty(PrevQuantities(oldLines), id)
    requires restocked == adjusted + (if id in Ids(newLines) then 0 else QtyOf(oldLines, id))
    ensures restocked == before - QtyOf(newLines, id) + QtyOf(oldLines, id)
  {
    UniqueCount(newLines, id);
    PrevQtyIsStoredQty(oldLines, id);
    if id !in Ids(newLines) {
      AbsentId(newLines, id);
    }
  }

  /** In a list with unique ids, the total quantity of a line's item is that line's quantity. */
  lemma {:induction false} UniqueQtyAt(lines: seq<OrderLine>, i: nat)
    requires UniqueIds(lines) && i < |lines|
    ensures QtyOf(lines, lines[i].itemId) == lines[i].quantity
  {
    if i == |lines| - 1 {
      AbsentId(Init(lines), lines[i].itemId);
    } else {
      assert Init(lines)[i] == lines[i];
      assert lines[i] in Init(lines);
      UniqueQtyAt(Init(lines), i);
    }
  }

  /** The first loop of update goes through without touching stock when every
      line's item exists and its quantity equals `prevQty`. */
  lemma {:induction false} AdjustUnchanged(s: Stock, prev: map<ItemId, int>, lines: seq<OrderLine>)
    requires forall i :: 0 <= i < |lines| ==>
      lines[i].itemId in s && PrevQty(prev, lines[i].itemId) == lines[i].quantity
    ensures Adjust(s, prev, lines) == Run(s, None)
  {
    if lines != [] {
      AdjustUnchanged(s, prev, Init(lines));
    }
  }

  /** Updating an order with its own lines (unique ids, items still present)
      goes through and leaves all stock unchanged. */
  lemma UpdateWithSameLinesKeepsStock(s: Stock, lines: seq<OrderLine>)
    requires UniqueIds(lines) && Ids(lines) <= s.Keys
    ensures Reconcile(s, lines, lines) == Run(s, None)
  {
    var prev := PrevQuantities(lines);
    forall i | 0 <= i < |lines|
      ensures lines[i].itemId in s && PrevQty(prev, lines[i].itemId) == lines[i].quantity
    {
      assert lines[i] in lines;
      PrevQtyIsStoredQty(lines, lines[i].itemId);
      UniqueQtyAt(lines, i);
    }
    AdjustUnchanged(s, prev, lines);
    RestockDroppedAdds(s, lines, lines);
    forall id | id in s ensures RestockDropped(s, lines, lines)[id] == s[id] {
      if id !in Ids(lines) {
        AbsentId(lines, id);
      }
    }
  }

  /** With a repeated item among the stored lines, resubmitting the very same
      lines does draw stock: `prevQuantities` keeps only the last repeat. */
  lemma RepeatedItemResubmitDrawsStock()
    ensures var a5 := OrderLine("A", "a", 1.0, 5, 0.0, 0.0, 5.0, 5.0);
      var a3 := OrderLine("A", "a", 1.0, 3, 0.0, 0.0, 3.0, 3.0);
      Reconcile(map["A" := 10], [a5, a3], [a5, a3]) == Run(map["A" := 8], None)
  {
    var a5 := OrderLine("A", "a", 1.0, 5, 0.0, 0.0, 5.0, 5.0);
    var a3 := OrderLine("A", "a", 1.0, 3, 0.0, 0.0, 3.0, 3.0);
    var lines := [a5, a3];
    assert Init(lines) == [a5] && Init([a5]) == [];
    assert PrevQuantities(lines) == map["A" := 3];
    assert Adjust(map["A" := 10], map["A" := 3], [a5]) == Run(map["A" := 8], None);
    assert Adjust(map["A" := 10], map["A" := 3], lines) == Run(map["A" := 8], None);
  }

  /** Lowering a line's quantity restocks exactly the difference and touches no
      other item. */
  lemma LoweringQuantityRestocksDifference(s: Stock, before: OrderLine, after: OrderLine)
    requires before.itemId == after.itemId && before.itemId in s
    requires after.quantity <= before.quantity
    ensures Reconcile(s, [before], [after]) ==
      Run(s[before.itemId := s[before.itemId] + (before.quantity - after.quantity)], None)
  {
    var id := before.itemId;
    assert Init([before]) == [] && Last([before]) == before;
    assert Init([after]) == [] && Last([after]) == after;
    assert PrevQuantities([before]) == map[id := before.quantity];
    assert Adjust(s, map[id := before.quantity], []) == Run(s, None);
    var r := Reconcile(s, [before], [after]);
    assert r.halted.None?;
    UpdateNetEffect(s, [before], [after]);
    assert QtyOf([before], id) == before.quantity && QtyOf([after], id) == after.quantity;
    forall k | k in s && k != id ensures r.stock[k] == s[k] {
      AbsentId([before], k);
      AbsentId([after], k);
    }
  }

  /** Dropping a line restocks its full quantity; the kept line's item is untouched. */
  lemma DroppingLineRestocksIt(s: Stock, kept: OrderLine, dropped: OrderLine)
    requires kept.itemId != dropped.itemId && kept.itemId in s && dropped.itemId in s
    ensures Reconcile(s, [kept, dropped], [kept]) ==
      Run(s[dropped.itemId := s[dropped.itemId] + dropped.quantity], None)
  {
    var oldLines := [kept, dropped];
    assert Init(oldLines) == [kept] && Last(oldLines) == dropped;
    assert Init([kept]) == [] && Last([kept]) == kept;
    assert Ids([kept]) == {kept.itemId};
    assert Ids(oldLines) == {kept.itemId, dropped.itemId};
    var prev := PrevQuantities(oldLines);
    assert PrevQuantities([kept]) == map[kept.itemId := kept.quantity];
    assert prev == map[kept.itemId := kept.quantity, dropped.itemId := dropped.quantity];
    assert Adjust(s, prev, []) == Run(s, None);
    var r := Reconcile(s, oldLines, [kept]);
    assert r.halted.None?;
    UpdateNetEffect(s, oldLines, [kept]);
    assert QtyOf([kept], kept.itemId) == kept.quantity && QtyOf([kept], dropped.itemId) == 0;
    assert QtyOf(oldLines, kept.itemId) == kept.quantity;
    assert QtyOf(oldLines, dropped.itemId) == dropped.quantity;
    forall k | k in s && k != kept.itemId && k != dropped.itemId ensures r.stock[k] == s[k] {
      AbsentId(oldLines, k);
      AbsentId([kept], k);
    }
  }

  /** With a repeated item the round trip does not conserve stock: from 16,
      the lines A:5 and A:3 leave 8 after create, 6 after the same-lines
      update (the update takes back only the last repeat), and 14 after delete. */
  lemma RepeatedItemRoundTripLosesStock()
    ensures var a5 := OrderLine("A", "a", 1.0, 5, 0.0, 0.0, 5.0, 5.0);
      var a3 := OrderLine("A", "a", 1.0, 3, 0.0, 0.0, 3.0, 3.0);
      var s := map["A" := 16];
      Draw(s, [a5, a3]).halted.None? &&
      Restock(Reconcile(Draw(s, [a5, a3]).stock, [a5, a3], [a5, a3]).stock, [a5, a3]) == map["A" := 14]
  {
    var a5 := OrderLine("A", "a", 1.0, 5, 0.0, 0.0, 5.0, 5.0);
    var a3 := OrderLine("A", "a", 1.0, 3, 0.0, 0.0, 3.0, 3.0);
    var lines := [a5, a3];
    assert Init(lines) == [a5] && Last(lines) == a3 && Init([a5]) == [];
    assert Draw(map["A" := 16], [a5]) == Run(map["A" := 11], None);
    assert Draw(map["A" := 16], lines) == Run(map["A" := 8], None);
    assert PrevQuantities(lines) == map["A" := 3];
    assert Adjust(map["A" := 8], map["A" := 3], [a5]) == Run(map["A" := 6], None);
    assert Adjust(map["A" := 8], map["A" := 3], lines) == Run(map["A" := 6], None);
    assert RestockDropped(map["A" := 6], [a5], lines) == map["A" := 6];
    assert RestockDropped(map["A" := 6], lines, lines) == map["A" := 6];
    assert Restock(map["A" := 6], [a5]) == map["A" := 11];
    assert Restock(map["A" := 6], lines) == map["A" := 14];
  }

  /** Conservation: when no item is repeated among the lines, create, update
      with the same lines, then delete leaves every item's stock where it
      started. RepeatedItemRoundTripLosesStock shows the repeated case. */
  lemma CreateUpdateDeleteConserves(s: Stock, lines: seq<OrderLine>)
    requires UniqueIds(lines)
    requires Draw(s, lines).halted.None?
    ensures Restock(Reconcile(Draw(s, lines).stock, lines, lines).stock, lines) == s
  {
    var d := Draw(s, lines).stock;
    DrawSubtracts(s, lines);
    UpdateWithSameLinesKeepsStock(d, lines);
    CreateThenDeleteRestores(s, lines);
  }

  // ---------------------------------------------------------------------------
  // The field replacement
  // ---------------------------------------------------------------------------

  /** A falsy field in the request keeps the stored value; a truthy one replaces
      it; the lines are always replaced. */
  lemma ReplaceKeepsFalsyFields(order: Order, req: OrderRequest, items: seq<OrderLine>)
    ensures var r := Replace(order, req, items);
      r.items == items &&
      (req.customer.None? ==> r.customer == order.customer) &&
      (req.customer.Some? ==> r.customer == req.customer) &&
      (req.delivery.None? ==> r.delivery == order.delivery) &&
      (req.delivery.Some? ==> r.delivery == req.delivery) &&
      (!Truthy(req.totalAmount) ==> r.totalAmount == order.totalAmount) &&
      (Truthy(req.totalAmount) ==> r.totalAmount == req.totalAmount) &&
      (!Truthy(req.totalGST) ==> r.totalGST == order.totalGST) &&
      (Truthy(req.totalGST) ==> r.totalGST == req.totalGST)
  {
  }
}

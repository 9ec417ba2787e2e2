/** Stock reconciliation of the order controller
    (backend/controllers/orderController.js).

    The inventory is a map from item id to stock; an id missing from the map is
    an item `Item.findById` does not find. Each handler walks the lines one at a
    time and saves every item as it goes, so a handler that stops on line k has
    already committed the changes of the lines before k: the specification
    functions return the stock reached together with where, and why, the walk
    stopped. */
module OrderController {
  import opened Wrappers
  import opened Seqs
  import opened OrderLines

  type Stock = map<ItemId, int>
  type OrderId = nat

  /** Why a handler answered with an error. */
  datatype Failure =
    | NoItems                          // 400 "No items in order"
    | ItemNotFound(name: string)       // 404 `Item ${name} not found`
    | InsufficientStock(name: string)  // 400 `Insufficient stock for ${name}`
    | OrderNotFound                    // 404 "Order not found"
    | ItemsMissing                     // 500: `for (const i of items)` over undefined

  /** The HTTP status each failure is answered with. */
  function Status(f: Failure): (code: int)
    ensures code == 404 <==> f.ItemNotFound? || f.OrderNotFound?
    ensures code == 400 <==> f.NoItems? || f.InsufficientStock?
    ensures code == 500 <==> f.ItemsMissing?
  {
    match f
    case NoItems => 400
    case ItemNotFound(_) => 404
    case InsufficientStock(_) => 400
    case OrderNotFound => 404
    case ItemsMissing => 500
  }

  /** Where a walk over the lines stopped: the failure and the index of the line. */
  datatype Halt = Halt(failure: Failure, at: nat)

  /** The stock a walk reached, and whether it stopped early. */
  datatype Run = Run(stock: Stock, halted: Option<Halt>)

  predicate NonNegative(stock: Stock)
  {
    forall id :: id in stock ==> stock[id] >= 0
  }

  // ---------------------------------------------------------------------------
  // createOrder: draw every line's quantity from stock
  // ---------------------------------------------------------------------------

  /** One pass of `createOrder`'s loop: look the item up, check, decrement. */
  function DrawLine(stock: Stock, l: OrderLine, at: nat): (r: Run)
    ensures r.stock.Keys == stock.Keys
    ensures r.halted.None? <==> l.itemId in stock && stock[l.itemId] >= l.quantity
    ensures r.halted.Some? ==> r.stock == stock && r.halted.value.at == at
    ensures r.halted.Some? ==>
      r.halted.value.failure == (if l.itemId !in stock then ItemNotFound(l.name) else InsufficientStock(l.name))
    ensures r.halted.None? ==> r.stock == stock[l.itemId := stock[l.itemId] - l.quantity]
    ensures r.halted.None? ==> r.stock[l.itemId] >= 0
  {
    if l.itemId !in stock then Run(stock, Some(Halt(ItemNotFound(l.name), at)))
    else if stock[l.itemId] < l.quantity then Run(stock, Some(Halt(InsufficientStock(l.name), at)))
    else Run(stock[l.itemId := stock[l.itemId] - l.quantity], None)
  }

  /** `createOrder`'s loop over all lines, stopping at the first failing one. */
  function Draw(stock: Stock, lines: seq<OrderLine>): (r: Run)
    ensures r.stock.Keys == stock.Keys
  {
    if lines == [] then Run(stock, None)
    else
      var r := Draw(stock, Init(lines));
      if r.halted.Some? then r else DrawLine(r.stock, Last(lines), |lines| - 1)
  }

  /** `createOrder` as a whole: the empty-list check, then the draws. */
  function CreateRun(stock: Stock, items: Option<seq<OrderLine>>): (r: Run)
    ensures items.None? || items.value == [] ==> r == Run(stock, Some(Halt(NoItems, 0)))
  {
    if items.None? || items.value == [] then Run(stock, Some(Halt(NoItems, 0)))
    else Draw(stock, items.value)
  }

  // ---------------------------------------------------------------------------
  // deleteOrder: put every line's quantity back
  // ---------------------------------------------------------------------------

  /** One pass of `deleteOrder`'s loop: a missing item is skipped silently. */
  function RestockLine(stock: Stock, l: OrderLine): Stock
  {
    if l.itemId in stock then stock[l.itemId := stock[l.itemId] + l.quantity] else stock
  }

  /** `deleteOrder`'s loop over the stored lines. */
  function Restock(stock: Stock, lines: seq<OrderLine>): (r: Stock)
    ensures r.Keys == stock.Keys
  {
    if lines == [] then stock else RestockLine(Restock(stock, Init(lines)), Last(lines))
  }

  // ---------------------------------------------------------------------------
  // updateOrder: draw or restock by the per-item difference
  // ---------------------------------------------------------------------------

  /** `prevQuantities` as the `forEach` fills it: a later line overwrites an earlier one. */
  function PrevQuantities(lines: seq<OrderLine>): (prev: map<ItemId, int>)
    ensures prev.Keys == Ids(lines)
  {
    if lines == [] then map[] else PrevQuantities(Init(lines))[Last(lines).itemId := Last(lines).quantity]
  }

  /** `prevQuantities[id] || 0`. */
  function PrevQty(prev: map<ItemId, int>, id: ItemId): int
  {
    if id in prev then prev[id] else 0
  }

  /** One pass of `updateOrder`'s first loop. Whatever the sign of
      `diff = quantity - prevQty`, a pass that goes through lowers the item's
      stock by exactly `diff`; only a positive `diff` larger than the stock stops it. */
  function AdjustLine(stock: Stock, prev: map<ItemId, int>, l: OrderLine, at: nat): (r: Run)
    ensures r.stock.Keys == stock.Keys
    ensures r.halted.None? <==>
      l.itemId in stock &&
      (l.quantity - PrevQty(prev, l.itemId) <= 0 || stock[l.itemId] >= l.quantity - PrevQty(prev, l.itemId))
    ensures r.halted.None? ==>
      r.stock == stock[l.itemId := stock[l.itemId] - (l.quantity - PrevQty(prev, l.itemId))]
    ensures r.halted.Some? ==> r.stock == stock && r.halted.value.at == at
  {
    if l.itemId !in stock then Run(stock, Some(Halt(ItemNotFound(l.name), at)))
    else
      var diff := l.quantity - PrevQty(prev, l.itemId);
      if diff > 0 then
        if stock[l.itemId] < diff then Run(stock, Some(Halt(InsufficientStock(l.name), at)))
        else Run(stock[l.itemId := stock[l.itemId] - diff], None)
      else if diff < 0 then Run(stock[l.itemId := stock[l.itemId] + Abs(diff)], None)
      else Run(stock, None)
  }

  function Abs(x: int): (r: nat)
    ensures r == x || r == -x
  {
    if x < 0 then -x else x
  }

  /** `updateOrder`'s first loop over the new lines. */
  function Adjust(stock: Stock, prev: map<ItemId, int>, lines: seq<OrderLine>): (r: Run)
    ensures r.stock.Keys == stock.Keys
  {
    if lines == [] then Run(stock, None)
    else
      var r := Adjust(stock, prev, Init(lines));
      if r.halted.Some? then r else AdjustLine(r.stock, prev, Last(lines), |lines| - 1)
  }

  /** One pass of `updateOrder`'s second loop: an old line whose id no new line
      names is restocked in full, when its item still exists. */
  function RestockIfDropped(stock: Stock, newLines: seq<OrderLine>, o: OrderLine): Stock
  {
    if o.itemId !in Ids(newLines) then RestockLine(stock, o) else stock
  }

  /** `updateOrder`'s second loop over the stored lines. */
  function RestockDropped(stock: Stock, oldLines: seq<OrderLine>, newLines: seq<OrderLine>): (r: Stock)
    ensures r.Keys == stock.Keys
  {
    if oldLines == [] then stock
    else RestockIfDropped(RestockDropped(stock, Init(oldLines), newLines), newLines, Last(oldLines))
  }

  /** Both loops of `updateOrder`; the second runs only if the first went through. */
  function Reconcile(stock: Stock, oldLines: seq<OrderLine>, newLines: seq<OrderLine>): (r: Run)
    ensures r.stock.Keys == stock.Keys
  {
    var a := Adjust(stock, PrevQuantities(oldLines), newLines);
    if a.halted.Some? then a else Run(RestockDropped(a.stock, oldLines, newLines), None)
  }

  // ---------------------------------------------------------------------------
  // The stored order and the request body
  // ---------------------------------------------------------------------------

  /** The order schema's `payment` sub-document. Its fields have defaults, so
      every stored order carries one. The schema has no date field. */
  datatype StoredPayment = StoredPayment(status: string, amountPaid: real, remainingBalance: real)

  /** The schema defaults: "paid", nothing paid, nothing remaining. */
  const DefaultPayment := StoredPayment("paid", 0.0, 0.0)

  /** What `Order.create` stores. The request's payment data is not among the
      fields it is given, so the payment record is the schema default. */
  datatype Order = Order(
    customer: Option<Customer>,
    delivery: Option<Address>,
    items: seq<OrderLine>,
    totalAmount: Option<real>,
    totalGST: Option<real>,
    payment: StoredPayment)

  /** The fields of the request body the controller reads. */
  datatype OrderRequest = OrderRequest(
    customer: Option<Customer>,
    delivery: Option<Address>,
    items: Option<seq<OrderLine>>,
    totalAmount: Option<real>,
    totalGST: Option<real>)

  /** JavaScript truthiness of an optional number: absent and 0 are falsy. */
  predicate Truthy(x: Option<real>)
  {
    x.Some? && x.value != 0.0
  }

  /** `n || o` on numbers. */
  function OrNumber(n: Option<real>, o: Option<real>): Option<real>
  {
    if Truthy(n) then n else o
  }

  /** `n || o` on objects: any object is truthy. */
  function OrObject<T>(n: Option<T>, o: Option<T>): Option<T>
  {
    if n.Some? then n else o
  }

  /** The order `createOrder` stores. */
  function NewOrder(req: OrderRequest, items: seq<OrderLine>): (r: Order)
    ensures r.payment == DefaultPayment
  {
    Order(req.customer, req.delivery, items, req.totalAmount, req.totalGST, DefaultPayment)
  }

  /** The field replacement at the end of `updateOrder`. */
  function Replace(order: Order, req: OrderRequest, items: seq<OrderLine>): (r: Order)
    ensures r.payment == order.payment
  {
    Order(
      OrObject(req.customer, order.customer),
      OrObject(req.delivery, order.delivery),
      items,
      OrNumber(req.totalAmount, order.totalAmount),
      OrNumber(req.totalGST, order.totalGST),
      order.payment)
  }

  // ---------------------------------------------------------------------------
  // Lemmas the handlers' loops rest on
  // ---------------------------------------------------------------------------

  /** Once the walk over a prefix has stopped, longer prefixes stop at the same place. */
  lemma {:induction false} DrawStopped(stock: Stock, lines: seq<OrderLine>, k: nat)
    requires k <= |lines| && Draw(stock, lines[..k]).halted.Some?
    ensures Draw(stock, lines) == Draw(stock, lines[..k])
  {
    if k < |lines| {
      assert Init(lines)[..k] == lines[..k];
      DrawStopped(stock, Init(lines), k);
    } else {
      assert lines[..k] == lines;
    }
  }

  lemma {:induction false} AdjustStopped(stock: Stock, prev: map<ItemId, int>, lines: seq<OrderLine>, k: nat)
    requires k <= |lines| && Adjust(stock, prev, lines[..k]).halted.Some?
    ensures Adjust(stock, prev, lines) == Adjust(stock, prev, lines[..k])
  {
    if k < |lines| {
      assert Init(lines)[..k] == lines[..k];
      AdjustStopped(stock, prev, Init(lines), k);
    } else {
      assert lines[..k] == lines;
    }
  }

  // ---------------------------------------------------------------------------
  // The handlers, over a mutable store
  // ---------------------------------------------------------------------------

  /** The two collections the handlers touch: item stock and orders. Order ids
      are handed out by a counter, standing in for the database's fresh ids. */
  class OrderStore {
    var stock: Stock
    var orders: map<OrderId, Order>
    var nextId: OrderId

    /** Ids are issued in order, and no handler writes a stored order's
        payment record, so it keeps the schema default. */
    ghost predicate Valid()
      reads this
    {
      forall id :: id in orders ==> id < nextId && orders[id].payment == DefaultPayment
    }

    constructor (initial: Stock)
      ensures Valid() && stock == initial && orders == map[] && nextId == 0
    {
      stock := initial;
      orders := map[];
      nextId := 0;
    }

    /** `createOrder`: the stock reached is that of `CreateRun`, kept even when
        the request fails; the order is stored only when every line went through. */
    method CreateOrder(req: OrderRequest) returns (res: Result<OrderId, Failure>)
      requires Valid()
      modifies this
      ensures Valid()
      ensures stock == CreateRun(old(stock), req.items).stock
      ensures CreateRun(old(stock), req.items).halted.Some? ==>
        res == Err(CreateRun(old(stock), req.items).halted.value.failure) &&
        orders == old(orders) && nextId == old(nextId)
      ensures CreateRun(old(stock), req.items).halted.None? ==>
        res == Ok(old(nextId)) && old(nextId) !in old(orders) &&
        orders == old(orders)[old(nextId) := NewOrder(req, req.items.value)] &&
        nextId == old(nextId) + 1
    {
      if req.items.None? || req.items.value == [] {
        return Err(NoItems);
      }
      var lines := req.items.value;
      var halted := DrawStock(lines);
      if halted.Some? {
        return Err(halted.value.failure);
      }
      orders := orders[nextId := NewOrder(req, lines)];
      res := Ok(nextId);
      nextId := nextId + 1;
    }

    /** `createOrder`'s loop: draw each line's quantity, stopping at the first
        line whose item is missing or short. */
    method DrawStock(lines: seq<OrderLine>) returns (halted: Option<Halt>)
      modifies this`stock
      ensures Draw(old(stock), lines) == Run(stock, halted)
    {
      var i := 0;
      while i < |lines|
        invariant 0 <= i <= |lines|
        invariant Draw(old(stock), lines[..i]) == Run(stock, None)
      {
        var l := lines[i];
        PrefixStep(lines, i);
        if l.itemId !in stock {
          DrawStopped(old(stock), lines, i + 1);
          return Some(Halt(ItemNotFound(l.name), i));
        }
        if stock[l.itemId] < l.quantity {
          DrawStopped(old(stock), lines, i + 1);
          return Some(Halt(InsufficientStock(l.name), i));
        }
        stock := stock[l.itemId := stock[l.itemId] - l.quantity];
        i := i + 1;
      }
      assert lines[..i] == lines;
      halted := None;
    }

    /** `deleteOrder`: restock every stored line, then remove the order. */
    method DeleteOrder(id: OrderId) returns (res: Result<OrderId, Failure>)
      requires Valid()
      modifies this`stock, this`orders
      ensures Valid()
      ensures id !in old(orders) ==> res == Err(OrderNotFound) && stock == old(stock) && orders == old(orders)
      ensures id in old(orders) ==>
        res == Ok(id) && stock == Restock(old(stock), old(orders)[id].items) &&
        orders == old(orders) - {id}
    {
      if id !in orders {
        return Err(OrderNotFound);
      }
      var lines := orders[id].items;
      var i := 0;
      while i < |lines|
        invariant 0 <= i <= |lines|
        invariant stock == Restock(old(stock), lines[..i])
        invariant orders == old(orders)
      {
        PrefixStep(lines, i);
        var l := lines[i];
        if l.itemId in stock {
          stock := stock[l.itemId := stock[l.itemId] + l.quantity];
        }
        i := i + 1;
      }
      assert lines[..i] == lines;
      orders := orders - {id};
      res := Ok(id);
    }

    /** `updateOrder`: adjust stock by the per-item difference, restock dropped
        lines, then replace the order's fields. */
    method UpdateOrder(id: OrderId, req: OrderRequest) returns (res: Result<OrderId, Failure>)
      requires Valid()
      modifies this`stock, this`orders
      ensures Valid()
      ensures id !in old(orders) ==> res == Err(OrderNotFound) && stock == old(stock) && orders == old(orders)
      ensures id in old(orders) && req.items.None? ==>
        res == Err(ItemsMissing) && stock == old(stock) && orders == old(orders)
      ensures id in old(orders) && req.items.Some? ==>
        var r := Reconcile(old(stock), old(orders)[id].items, req.items.value);
        stock == r.stock &&
        (r.halted.Some? ==> res == Err(r.halted.value.failure) && orders == old(orders)) &&
        (r.halted.None? ==>
          res == Ok(id) && orders == old(orders)[id := Replace(old(orders)[id], req, req.items.value)])
    {
      if id !in orders {
        return Err(OrderNotFound);
      }
      var order := orders[id];
      var prev := PreviousQuantities(order.items);
      if req.items.None? {
        return Err(ItemsMissing);
      }
      var lines := req.items.value;
      var halted := AdjustStock(prev, lines);
      if halted.Some? {
        return Err(halted.value.failure);
      }
      RestockDroppedLines(order.items, lines);
      orders := orders[id := Replace(order, req, lines)];
      res := Ok(id);
    }

    /** The `forEach` that fills `prevQuantities`. */
    static method PreviousQuantities(lines: seq<OrderLine>) returns (prev: map<ItemId, int>)
      ensures prev == PrevQuantities(lines)
    {
      prev := map[];
      var j := 0;
      while j < |lines|
        invariant 0 <= j <= |lines|
        invariant prev == PrevQuantities(lines[..j])
      {
        PrefixStep(lines, j);
        prev := prev[lines[j].itemId := lines[j].quantity];
        j := j + 1;
      }
      assert lines[..j] == lines;
    }

    /** `updateOrder`'s first loop, saving each item as it goes. */
    method AdjustStock(prev: map<ItemId, int>, lines: seq<OrderLine>) returns (halted: Option<Halt>)
      modifies this`stock
      ensures Adjust(old(stock), prev, lines) == Run(stock, halted)
    {
      var i := 0;
      while i < |lines|
        invariant 0 <= i <= |lines|
        invariant Adjust(old(stock), prev, lines[..i]) == Run(stock, None)
      {
        PrefixStep(lines, i);
        var l := lines[i];
        if l.itemId !in stock {
          AdjustStopped(old(stock), prev, lines, i + 1);
          return Some(Halt(ItemNotFound(l.name), i));
        }
        var prevQty := if l.itemId in prev then prev[l.itemId] else 0;
        var diff := l.quantity - prevQty;
        if diff > 0 {
          if stock[l.itemId] < diff {
            AdjustStopped(old(stock), prev, lines, i + 1);
            return Some(Halt(InsufficientStock(l.name), i));
          }
          stock := stock[l.itemId := stock[l.itemId] - diff];
        } else if diff < 0 {
          stock := stock[l.itemId := stock[l.itemId] + Abs(diff)];
        }
        i := i + 1;
      }
      assert lines[..i] == lines;
      halted := None;
    }

    /** `updateOrder`'s second loop: restock every stored line no new line names. */
    method RestockDroppedLines(oldLines: seq<OrderLine>, lines: seq<OrderLine>)
      modifies this`stock
      ensures stock == RestockDropped(old(stock), oldLines, lines)
    {
      var k := 0;
      while k < |oldLines|
        invariant 0 <= k <= |oldLines|
        invariant stock == RestockDropped(old(stock), oldLines[..k], lines)
      {
        PrefixStep(oldLines, k);
        var o := oldLines[k];
        if o.itemId !in Ids(lines) && o.itemId in stock {
          stock := stock[o.itemId := stock[o.itemId] + o.quantity];
        }
        k := k + 1;
      }
      assert oldLines[..k] == oldLines;
    }
  }
}

/** The line item of a sales order, as the order schema declares it and as the
    order form builds it: a frozen copy of an item's name, price and tax with the
    ordered quantity. Quantities are whole numbers; money is exact. */
module OrderLines {
  import opened Seqs

  /** The string form of an item's id: what the browser sends and what
      `itemId.toString()` gives on the server. */
  type ItemId = string

  datatype OrderLine = OrderLine(
    itemId: ItemId,
    name: string,
    price: real,
    quantity: int,
    gstPercent: real,
    gstAmount: real,
    subtotal: real,
    totalWithGst: real)

  /** The customer snapshot an order carries. */
  datatype Customer = Customer(
    name: string, email: string, phone: string, gstNumber: string,
    address1: string, address2: string, city: string, state: string, pincode: string)

  /** The delivery address an order carries. */
  datatype Address = Address(
    address1: string, address2: string, city: string, state: string, pincode: string)

  /** The ids the lines name. */
  function Ids(lines: seq<OrderLine>): (ids: set<ItemId>)
    ensures forall l :: l in lines ==> l.itemId in ids
  {
    if lines == [] then {} else Ids(Init(lines)) + {Last(lines).itemId}
  }

  /** Total quantity ordered of `id` over all lines that name it. */
  function QtyOf(lines: seq<OrderLine>, id: ItemId): int
  {
    if lines == [] then 0
    else QtyOf(Init(lines), id) + (if Last(lines).itemId == id then Last(lines).quantity else 0)
  }

  /** How many lines name `id`. */
  function CountOf(lines: seq<OrderLine>, id: ItemId): nat
  {
    if lines == [] then 0
    else CountOf(Init(lines), id) + (if Last(lines).itemId == id then 1 else 0)
  }

  /** No two lines name the same item. */
  predicate UniqueIds(lines: seq<OrderLine>)
  {
    lines == [] || (UniqueIds(Init(lines)) && Last(lines).itemId !in Ids(Init(lines)))
  }

  /** Every line orders a non-negative quantity. */
  predicate NonNegativeQuantities(lines: seq<OrderLine>)
  {
    forall i :: 0 <= i < |lines| ==> lines[i].quantity >= 0
  }

  /** An id that no line names contributes nothing. */
  lemma {:induction false} AbsentId(lines: seq<OrderLine>, id: ItemId)
    requires id !in Ids(lines)
    ensures QtyOf(lines, id) == 0 && CountOf(lines, id) == 0
  {
    if lines != [] {
      AbsentId(Init(lines), id);
    }
  }

  /** With unique ids, an id is named by exactly one line or by none. */
  lemma {:induction false} UniqueCount(lines: seq<OrderLine>, id: ItemId)
    requires UniqueIds(lines)
    ensures CountOf(lines, id) == if id in Ids(lines) then 1 else 0
  {
    if lines != [] {
      UniqueCount(Init(lines), id);
      if Last(lines).itemId == id {
        AbsentId(Init(lines), id);
      }
    }
  }

  /** A non-negative quantity per line gives a non-negative total per item. */
  lemma {:induction false} NonNegativeQtyOf(lines: seq<OrderLine>, id: ItemId)
    requires NonNegativeQuantities(lines)
    ensures QtyOf(lines, id) >= 0
  {
    if lines != [] {
      assert NonNegativeQuantities(Init(lines)) by {
        forall i | 0 <= i < |Init(lines)| ensures Init(lines)[i].quantity >= 0 {
          assert Init(lines)[i] == lines[i];
        }
      }
      NonNegativeQtyOf(Init(lines), id);
    }
  }
}

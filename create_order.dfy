/** The sales-order form in the browser (frontend/src/pages/CreateOrder.jsx):
    the list of lines it builds, the totals it shows, and the payload, with its
    payment record, that it sends to the order controller. */
module CreateOrderPage {
  import opened Wrappers
  import opened Seqs
  import opened OrderLines
  import OrderController

  /** An item as the product selector offers it; `gst` is absent when the item has none. */
  datatype Product = Product(id: ItemId, name: string, price: real, gst: Option<real>, stock: int)

  /** The tax rate used when a product's `gst` is falsy. */
  const DefaultGstPercent: real := 18.0

  /** `product.gst || 18`: absent and zero both fall back to the default. */
  function GstPercentOf(p: Product): (g: real)
    ensures p.gst.None? || p.gst == Some(0.0) ==> g == DefaultGstPercent
    ensures p.gst.Some? && p.gst.value != 0.0 ==> g == p.gst.value
  {
    if p.gst.Some? && p.gst.value != 0.0 then p.gst.value else DefaultGstPercent
  }

  /** The arithmetic every line the form builds satisfies. */
  predicate WellFormed(l: OrderLine)
  {
    && l.subtotal == l.price * l.quantity as real
    && l.gstAmount == l.subtotal * l.gstPercent / 100.0
    && l.totalWithGst == l.subtotal + l.gstAmount
  }

  /** The line `handleAddItem` builds from the selected product and quantity:
      its total is the price times the quantity, marked up by the tax rate. */
  function MakeLine(p: Product, quantity: int): (l: OrderLine)
    ensures l.itemId == p.id && l.name == p.name && l.price == p.price && l.quantity == quantity
    ensures l.gstPercent == GstPercentOf(p) && WellFormed(l)
    ensures l.totalWithGst == p.price * quantity as real * (1.0 + GstPercentOf(p) / 100.0)
  {
    var gstPercent := GstPercentOf(p);
    var subtotal := p.price * quantity as real;
    var gstAmount := subtotal * gstPercent / 100.0;
    OrderLine(p.id, p.name, p.price, quantity, gstPercent, gstAmount, subtotal, subtotal + gstAmount)
  }

  function LineTotal(l: OrderLine): real { l.totalWithGst }
  function LineGst(l: OrderLine): real { l.gstAmount }
  function LineSubtotal(l: OrderLine): real { l.subtotal }

  /** `totalAmount`: the sum of the lines' totals. */
  function TotalAmount(items: seq<OrderLine>): real
  {
    Sum(items, LineTotal)
  }

  /** `totalGST`: the sum of the lines' tax amounts. */
  function TotalGst(items: seq<OrderLine>): real
  {
    Sum(items, LineGst)
  }

  /** For lines the form built, the order total is the sum of the subtotals
      plus the total tax. */
  lemma {:induction false} TotalsSplit(items: seq<OrderLine>)
    requires forall l :: l in items ==> WellFormed(l)
    ensures TotalAmount(items) == Sum(items, LineSubtotal) + TotalGst(items)
  {
    if items != [] {
      assert forall l :: l in Init(items) ==> l in items;
      TotalsSplit(Init(items));
      assert WellFormed(Last(items));
    }
  }

  /** Editing the line at an index moves each total by the difference between
      the old and the new line. */
  lemma EditMovesTotals(items: seq<OrderLine>, i: nat, l: OrderLine)
    requires i < |items|
    ensures TotalAmount(WriteAt(items, i, l)) == TotalAmount(items) - items[i].totalWithGst + l.totalWithGst
    ensures TotalGst(WriteAt(items, i, l)) == TotalGst(items) - items[i].gstAmount + l.gstAmount
  {
    SumUpdate(items, i, l, LineTotal);
    SumUpdate(items, i, l, LineGst);
  }

  /** `orderItems.filter((i) => i.itemId !== id)`. */
  function Without(items: seq<OrderLine>, id: ItemId): (r: seq<OrderLine>)
    ensures forall l :: l in r <==> l in items && l.itemId != id
    ensures |r| == |items| - CountOf(items, id)
  {
    if items == [] then []
    else
      var w := Without(Init(items), id);
      assert forall l :: l in items <==> l in Init(items) || l == Last(items) by {
        assert items == Init(items) + [Last(items)];
      }
      if Last(items).itemId != id then w + [Last(items)] else w
  }

  /** Removing keeps the surviving lines in their order: it commutes with
      splitting the list anywhere. */
  lemma {:induction false} WithoutConcat(a: seq<OrderLine>, b: seq<OrderLine>, id: ItemId)
    ensures Without(a + b, id) == Without(a, id) + Without(b, id)
  {
    if b == [] {
      assert a + b == a;
    } else {
      assert Init(a + b) == a + Init(b) && Last(a + b) == Last(b);
      WithoutConcat(a, Init(b), id);
    }
  }

  /** Removing an id no line names leaves the list as it is. */
  lemma {:induction false} WithoutAbsent(items: seq<OrderLine>, id: ItemId)
    requires id !in Ids(items)
    ensures Without(items, id) == items
  {
    if items != [] {
      assert id !in Ids(Init(items)) && Last(items).itemId != id;
      WithoutAbsent(Init(items), id);
      assert Without(items, id) == Without(Init(items), id) + [Last(items)];
      assert items == Init(items) + [Last(items)];
    }
  }

  /** Removing the product just added gives back the list before the add. */
  lemma RemoveUndoesAdd(items: seq<OrderLine>, l: OrderLine)
    requires l.itemId !in Ids(items)
    ensures Without(items + [l], l.itemId) == items
  {
    WithoutConcat(items, [l], l.itemId);
    WithoutAbsent(items, l.itemId);
    assert Init([l]) == [] && Last([l]) == l;
  }

  /** An add that passes the duplicate check keeps the ids unique. */
  lemma AddKeepsIdsUnique(items: seq<OrderLine>, l: OrderLine)
    requires UniqueIds(items) && l.itemId !in Ids(items)
    ensures UniqueIds(items + [l]) && Ids(items + [l]) == Ids(items) + {l.itemId}
  {
    assert Init(items + [l]) == items && Last(items + [l]) == l;
  }

  /** `products.find((p) => p._id === id)`: the first product with that id. */
  function FindProduct(products: seq<Product>, id: ItemId): (r: Option<Product>)
    ensures r.Some? ==> r.value in products && r.value.id == id
    ensures r.None? <==> forall p :: p in products ==> p.id != id
  {
    if products == [] then None
    else if products[0].id == id then Some(products[0])
    else FindProduct(products[1..], id)
  }

  /** The quantity input's handler: a value above the selected product's stock
      is lowered to that stock; any other value is taken as typed. */
  function ClampQuantity(selected: Option<Product>, typed: int): (q: int)
    ensures selected.Some? ==> q <= selected.value.stock && (q == typed || q == selected.value.stock)
    ensures selected.None? || typed <= selected.value.stock ==> q == typed
  {
    if selected.Some? && typed > selected.value.stock then selected.value.stock else typed
  }

  // ---------------------------------------------------------------------------
  // Submission
  // ---------------------------------------------------------------------------

  /** The payment radio: "fully" or "partial". */
  datatype PaymentChoice = Fully | Partial

  datatype HistoryEntry = HistoryEntry(amount: real, date: string, paymentMethod: string, note: string)

  datatype Payment = Payment(status: string, amountPaid: real, remainingBalance: real, date: string)

  /** The body `handleSubmit` sends. */
  datatype Payload = Payload(
    customer: Customer,
    delivery: Address,
    items: seq<OrderLine>,
    totalAmount: real,
    totalGST: real,
    payment: Payment,
    paymentHistory: seq<HistoryEntry>)

  /** Why `handleSubmit` refused, in the order it checks. */
  datatype SubmitError =
    | NoLines              // "Add at least one item"
    | MissingCustomerInfo  // "Fill customer info"
    | InvalidPaidAmount    // "Enter a valid paid amount"
    | PaidExceedsTotal     // "Paid amount cannot exceed total amount"
    | MissingPaymentDate   // "Please select a payment date"

  /** The form state `handleSubmit` reads. The entered amount is absent when
      the field is empty; an empty date stands for no date chosen. `editing` is
      whether the route carries an order id. */
  datatype Checkout = Checkout(
    items: seq<OrderLine>,
    customer: Customer,
    delivery: Address,
    choice: PaymentChoice,
    amountEntered: Option<real>,
    date: string,
    editing: bool,
    existingHistory: seq<HistoryEntry>)

  /** Every check of `handleSubmit` passes. */
  predicate Accepts(c: Checkout)
  {
    && c.items != []
    && c.customer.name != "" && c.customer.email != ""
    && (c.choice.Partial? ==>
          c.amountEntered.Some? && 0.0 < c.amountEntered.value <= TotalAmount(c.items))
    && c.date != ""
  }

  /** `handleSubmit`: validate, then derive the payment record and the history. */
  function Submit(c: Checkout): (r: Result<Payload, SubmitError>)
    ensures r.Ok? <==> Accepts(c)
    ensures c.items == [] ==> r == Err(NoLines)
    ensures c.items != [] && (c.customer.name == "" || c.customer.email == "") ==> r == Err(MissingCustomerInfo)
    ensures r.Ok? ==>
      var p := r.value;
      var total := TotalAmount(c.items);
      && p.customer == c.customer && p.delivery == c.delivery && p.items == c.items
      && p.totalAmount == total && p.totalGST == TotalGst(c.items)
      && p.payment.amountPaid == (if c.choice.Fully? then total else c.amountEntered.value)
      && p.payment.remainingBalance == total - p.payment.amountPaid
      && (c.choice.Fully? ==> p.payment.status == "paid" && p.payment.remainingBalance == 0.0)
      && (c.choice.Partial? ==>
            p.payment.status == "partial" && 0.0 <= p.payment.remainingBalance < total)
      && p.payment.date == c.date
      && |p.paymentHistory| == (if c.editing then |c.existingHistory| else 0) + 1
      && p.paymentHistory[..|p.paymentHistory| - 1] == (if c.editing then c.existingHistory else [])
      && p.paymentHistory[|p.paymentHistory| - 1].amount == p.payment.amountPaid
      && p.paymentHistory[|p.paymentHistory| - 1].date == c.date
  {
    var total := TotalAmount(c.items);
    if c.items == [] then Err(NoLines)
    else if c.customer.name == "" || c.customer.email == "" then Err(MissingCustomerInfo)
    else if c.choice.Partial? && (c.amountEntered.None? || c.amountEntered.value <= 0.0) then
      Err(InvalidPaidAmount)
    else if c.choice.Partial? && c.amountEntered.value > total then Err(PaidExceedsTotal)
    else if c.date == "" then Err(MissingPaymentDate)
    else
      var paid := if c.choice.Fully? then total else c.amountEntered.value;
      var entry := HistoryEntry(paid, c.date, "online",
        if c.choice.Fully? then "Full payment" else "Partial payment");
      var history := if c.editing then c.existingHistory + [entry] else [entry];
      assert history[..|history| - 1] == (if c.editing then c.existingHistory else []);
      Ok(Payload(c.customer, c.delivery, c.items, total, TotalGst(c.items),
        Payment(if c.choice.Fully? then "paid" else "partial", paid, total - paid, c.date),
        history))
  }

  // ---------------------------------------------------------------------------
  // The component's state
  // ---------------------------------------------------------------------------

  /** What `handleAddItem` did. */
  datatype AddOutcome = NoProductSelected | AlreadyAdded | Added | Updated

  const BlankCustomer := Customer("", "", "", "", "", "", "", "", "")
  const BlankAddress := Address("", "", "", "", "")

  /** The component's state variables that its handlers update. */
  class OrderForm {
    var products: seq<Product>
    var selectedProduct: Option<Product>
    var quantity: int
    var orderItems: seq<OrderLine>
    var editIndex: Option<nat>
    var customer: Customer
    var delivery: Address
    var paymentChoice: PaymentChoice
    var amountEntered: Option<real>
    var paymentDate: string
    var editing: bool
    var existingHistory: seq<HistoryEntry>

    /** The state on first render; `editing` is whether the route has an id. */
    constructor (products: seq<Product>, editing: bool)
      ensures this.products == products && this.editing == editing
      ensures selectedProduct == None && quantity == 1 && orderItems == [] && editIndex == None
      ensures customer == BlankCustomer && delivery == BlankAddress
      ensures paymentChoice == Fully && amountEntered == Some(0.0) && paymentDate == ""
      ensures existingHistory == []
    {
      this.products := products;
      this.editing := editing;
      selectedProduct := None;
      quantity := 1;
      orderItems := [];
      editIndex := None;
      customer := BlankCustomer;
      delivery := BlankAddress;
      paymentChoice := Fully;
      amountEntered := Some(0.0);
      paymentDate := "";
      existingHistory := [];
    }

    function Snapshot(): Checkout
      reads this
    {
      Checkout(orderItems, customer, delivery, paymentChoice, amountEntered, paymentDate,
               editing, existingHistory)
    }

    /** `getOrderByID` in edit mode, given the order the server returns. Every
        stored order carries the schema's payment record, so the form reads
        it: status "paid" selects "fully" and any other status "partial", the
        amount is `amountPaid || 0`, and the date is empty because the schema
        stores none. The server keeps no payment history, so the form's copy
        of it is left as it was. */
    method LoadOrder(o: OrderController.Order)
      modifies this`orderItems, this`customer, this`delivery, this`paymentChoice,
               this`amountEntered, this`paymentDate
      ensures orderItems == o.items
      ensures customer == o.customer.GetOr(BlankCustomer) && delivery == o.delivery.GetOr(BlankAddress)
      ensures paymentChoice == (if o.payment.status == "paid" then Fully else Partial)
      ensures amountEntered == Some(o.payment.amountPaid)
      ensures o.payment == OrderController.DefaultPayment ==>
        paymentChoice == Fully && amountEntered == Some(0.0)
      ensures paymentDate == "" && !Accepts(Snapshot())
    {
      orderItems := o.items;
      customer := o.customer.GetOr(BlankCustomer);
      delivery := o.delivery.GetOr(BlankAddress);
      paymentChoice := if o.payment.status == "paid" then Fully else Partial;
      amountEntered := Some(o.payment.amountPaid);
      paymentDate := "";
    }

    /** The product selector's handler: select, and reset the quantity to 1. */
    method SelectProduct(p: Option<Product>)
      modifies this`selectedProduct, this`quantity
      ensures selectedProduct == p && quantity == 1
    {
      selectedProduct := p;
      quantity := 1;
    }

    /** The quantity input's handler. */
    method ChangeQuantity(typed: int)
      modifies this`quantity
      ensures quantity == ClampQuantity(selectedProduct, typed)
      ensures selectedProduct.Some? ==> quantity <= selectedProduct.value.stock
    {
      if selectedProduct.Some? && typed > selectedProduct.value.stock {
        quantity := selectedProduct.value.stock;
      } else {
        quantity := typed;
      }
    }

    /** `handleAddItem`: in edit mode overwrite the edited line; otherwise
        append, unless the product is already listed. */
    method AddItem() returns (outcome: AddOutcome)
      modifies this`orderItems, this`editIndex, this`selectedProduct, this`quantity
      ensures old(selectedProduct).None? ==> outcome == NoProductSelected && unchanged(this)
      ensures old(selectedProduct).Some? && old(editIndex).Some? ==>
        var l := MakeLine(old(selectedProduct).value, old(quantity));
        && outcome == Updated
        && orderItems == WriteAt(old(orderItems), old(editIndex).value, l)
        && editIndex == None && selectedProduct == None && quantity == 1
      ensures old(selectedProduct).Some? && old(editIndex).None? &&
              old(selectedProduct).value.id in Ids(old(orderItems)) ==>
        outcome == AlreadyAdded && unchanged(this)
      ensures old(selectedProduct).Some? && old(editIndex).None? &&
              old(selectedProduct).value.id !in Ids(old(orderItems)) ==>
        && outcome == Added
        && orderItems == old(orderItems) + [MakeLine(old(selectedProduct).value, old(quantity))]
        && (UniqueIds(old(orderItems)) ==> UniqueIds(orderItems))
        && editIndex == None && selectedProduct == None && quantity == 1
    {
      if selectedProduct.None? {
        return NoProductSelected;
      }
      var l := MakeLine(selectedProduct.value, quantity);
      if editIndex.Some? {
        orderItems := WriteAt(orderItems, editIndex.value, l);
        editIndex := None;
        outcome := Updated;
      } else {
        if l.itemId in Ids(orderItems) {
          return AlreadyAdded;
        }
        if UniqueIds(orderItems) {
          AddKeepsIdsUnique(orderItems, l);
        }
        orderItems := orderItems + [l];
        outcome := Added;
      }
      selectedProduct := None;
      quantity := 1;
    }

    /** `handleEditItem`: load a line back into the selector for editing. */
    method EditItem(index: nat)
      requires index < |orderItems|
      modifies this`selectedProduct, this`quantity, this`editIndex
      ensures selectedProduct == FindProduct(products, orderItems[index].itemId)
      ensures quantity == orderItems[index].quantity && editIndex == Some(index)
    {
      var item := orderItems[index];
      selectedProduct := FindProduct(products, item.itemId);
      quantity := item.quantity;
      editIndex := Some(index);
    }

    /** `handleRemoveItem`: drop every line of that item. */
    method RemoveItem(id: ItemId)
      modifies this`orderItems
      ensures orderItems == Without(old(orderItems), id)
      ensures id !in Ids(orderItems)
    {
      orderItems := Without(orderItems, id);
      if id in Ids(orderItems) {
        IdsNamedByLine(orderItems, id);
      }
    }

    /** Choosing "fully": the amount becomes the total and the date today. */
    method ChooseFullPayment(today: string)
      modifies this`paymentChoice, this`amountEntered, this`paymentDate
      ensures paymentChoice == Fully && amountEntered == Some(TotalAmount(orderItems))
      ensures paymentDate == today
    {
      paymentChoice := Fully;
      amountEntered := Some(TotalAmount(orderItems));
      paymentDate := today;
    }

    /** Choosing "partial": amount and date are cleared. */
    method ChoosePartialPayment()
      modifies this`paymentChoice, this`amountEntered, this`paymentDate
      ensures paymentChoice == Partial && amountEntered == None && paymentDate == ""
    {
      paymentChoice := Partial;
      amountEntered := None;
      paymentDate := "";
    }

    /** `handleSubmit`. `saved` is whether the server accepted the request;
        only then is the form reset. */
    method SubmitForm(saved: bool) returns (r: Result<Payload, SubmitError>)
      modifies this
      ensures r == Submit(old(Snapshot()))
      ensures products == old(products) && editing == old(editing)
      ensures r.Err? || !saved ==> unchanged(this)
      ensures r.Ok? && saved ==>
        && orderItems == [] && customer == BlankCustomer && delivery == BlankAddress
        && paymentChoice == Fully && amountEntered == Some(0.0) && paymentDate == ""
        && existingHistory == (if editing then old(existingHistory) else [])
        && selectedProduct == old(selectedProduct) && quantity == old(quantity)
        && editIndex == old(editIndex)
    {
      r := Submit(Snapshot());
      if r.Ok? && saved {
        ResetAfterSave();
      }
    }

    /** The reset after a saved submission; the history survives only when editing. */
    method ResetAfterSave()
      modifies this`orderItems, this`customer, this`delivery, this`paymentChoice,
               this`amountEntered, this`paymentDate, this`existingHistory
      ensures orderItems == [] && customer == BlankCustomer && delivery == BlankAddress
      ensures paymentChoice == Fully && amountEntered == Some(0.0) && paymentDate == ""
      ensures existingHistory == (if editing then old(existingHistory) else [])
    {
      if !editing {
        existingHistory := [];
      }
      orderItems := [];
      customer := BlankCustomer;
      delivery := BlankAddress;
      paymentChoice := Fully;
      amountEntered := Some(0.0);
      paymentDate := "";
    }
  }

  /** An id in `Ids` is named by some line. */
  lemma {:induction false} IdsNamedByLine(items: seq<OrderLine>, id: ItemId)
    requires id in Ids(items)
    ensures exists l :: l in items && l.itemId == id
  {
    if Last(items).itemId != id {
      IdsNamedByLine(Init(items), id);
      var l :| l in Init(items) && l.itemId == id;
      assert l in items;
    }
  }
}

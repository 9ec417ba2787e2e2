/** The purchase-order form in the browser (frontend/src/pages/CreatePurchase.jsx):
    free-typed supplier lines, checked field by field, kept in a list that is
    edited and pruned by position, and summed into the order's totals. */
module CreatePurchasePage {
  import opened Wrappers
  import opened Seqs
  import opened OrderLines

  /** The item form. The numeric inputs hold `Number(value)`; an input never
      typed in holds "", which every use treats like 0, so it is 0 here. */
  datatype Draft = Draft(
    name: string, hsn: string, details: string,
    quantity: real, price: real, gstPercent: real,
    description: string)

  /** The form after a reset: quantity 1, everything else empty. */
  const EmptyDraft := Draft("", "", "", 1.0, 0.0, 0.0, "")

  /** A line: the form's fields and the three amounts derived from them. */
  datatype PurchaseLine = PurchaseLine(
    name: string, hsn: string, details: string,
    quantity: real, price: real, gstPercent: real,
    description: string,
    subtotal: real, gstAmount: real, totalWithGst: real)

  /** Why `handleAddItem` refused, in the order it checks. */
  datatype DraftError =
    | MissingName      // "Enter product name"
    | InvalidQuantity  // "Enter valid quantity"
    | InvalidPrice     // "Enter valid price"

  /** The first rule the form breaks, if any. */
  function CheckDraft(d: Draft): (e: Option<DraftError>)
    ensures e.None? <==> d.name != "" && d.quantity > 0.0 && d.price > 0.0
    ensures e == Some(MissingName) <==> d.name == ""
    ensures e == Some(InvalidQuantity) <==> d.name != "" && d.quantity <= 0.0
    ensures e == Some(InvalidPrice) <==> d.name != "" && d.quantity > 0.0 && d.price <= 0.0
  {
    if d.name == "" then Some(MissingName)
    else if d.quantity <= 0.0 then Some(InvalidQuantity)
    else if d.price <= 0.0 then Some(InvalidPrice)
    else None
  }

  /** The line built from a form: `{ ...itemForm, subtotal, gstAmount, totalWithGst }`. */
  function MakeLine(d: Draft): (l: PurchaseLine)
    ensures FormOf(l) == d
    ensures l.subtotal == d.price * d.quantity
    ensures l.totalWithGst == l.subtotal + l.gstAmount
    ensures l.gstAmount == l.subtotal * d.gstPercent / 100.0
  {
    var subtotal := d.price * d.quantity;
    var gstAmount := subtotal * d.gstPercent / 100.0;
    PurchaseLine(d.name, d.hsn, d.details, d.quantity, d.price, d.gstPercent, d.description,
                 subtotal, gstAmount, subtotal + gstAmount)
  }

  /** The form `handleEditItem` loads from a line. */
  function FormOf(l: PurchaseLine): Draft
  {
    Draft(l.name, l.hsn, l.details, l.quantity, l.price, l.gstPercent, l.description)
  }

  /** A line the form accepts costs something, and its tax, at a non-negative
      rate, only adds to it. */
  lemma AcceptedLineCosts(d: Draft)
    requires CheckDraft(d).None? && d.gstPercent >= 0.0
    ensures 0.0 < MakeLine(d).subtotal <= MakeLine(d).totalWithGst
  {
    var s := d.price * d.quantity;
    assert s > 0.0;
    assert s * d.gstPercent >= 0.0;
  }

  function LineTotal(l: PurchaseLine): real { l.totalWithGst }
  function LineGst(l: PurchaseLine): real { l.gstAmount }
  function LineSubtotal(l: PurchaseLine): real { l.subtotal }

  /** `totalAmount`: the sum of the lines' totals. */
  function TotalAmount(items: seq<PurchaseLine>): real
  {
    Sum(items, LineTotal)
  }

  /** `totalGST`: the sum of the lines' tax amounts. */
  function TotalGst(items: seq<PurchaseLine>): real
  {
    Sum(items, LineGst)
  }

  /** Every line was built by `MakeLine`. */
  predicate Derived(items: seq<PurchaseLine>)
  {
    forall i :: 0 <= i < |items| ==> items[i] == MakeLine(FormOf(items[i]))
  }

  /** For lines the form built, the order total is the sum of the subtotals
      plus the total tax. */
  lemma {:induction false} TotalsSplit(items: seq<PurchaseLine>)
    requires Derived(items)
    ensures TotalAmount(items) == Sum(items, LineSubtotal) + TotalGst(items)
  {
    if items != [] {
      assert Derived(Init(items)) by {
        forall i | 0 <= i < |Init(items)|
          ensures Init(items)[i] == MakeLine(FormOf(Init(items)[i]))
        {
          assert Init(items)[i] == items[i];
        }
      }
      TotalsSplit(Init(items));
      assert Last(items) == items[|items| - 1];
    }
  }

  /** Appending a line adds its amounts to the totals. */
  lemma AppendAddsTotals(items: seq<PurchaseLine>, l: PurchaseLine)
    ensures TotalAmount(items + [l]) == TotalAmount(items) + l.totalWithGst
    ensures TotalGst(items + [l]) == TotalGst(items) + l.gstAmount
  {
    assert Init(items + [l]) == items && Last(items + [l]) == l;
  }

  /** Removing a line subtracts its amounts from the totals. */
  lemma RemoveLowersTotals(items: seq<PurchaseLine>, i: nat)
    requires i < |items|
    ensures TotalAmount(RemoveAt(items, i)) == TotalAmount(items) - items[i].totalWithGst
    ensures TotalGst(RemoveAt(items, i)) == TotalGst(items) - items[i].gstAmount
  {
    SumRemoveAt(items, i, LineTotal);
    SumRemoveAt(items, i, LineGst);
  }

  /** The supplier block has the same fields as an order's customer. */
  type Supplier = Customer

  datatype PurchasePayload = PurchasePayload(
    supplier: Supplier, items: seq<PurchaseLine>, totalAmount: real, totalGST: real)

  /** `handleSubmit`: an empty list is refused ("Add at least one product"),
      anything else is sent with its totals. */
  function Submit(supplier: Supplier, items: seq<PurchaseLine>): (r: Option<PurchasePayload>)
    ensures r.Some? <==> items != []
    ensures r.Some? ==> r.value.supplier == supplier && r.value.items == items
    ensures r.Some? ==> r.value.totalAmount == TotalAmount(items) && r.value.totalGST == TotalGst(items)
  {
    if items == [] then None
    else Some(PurchasePayload(supplier, items, TotalAmount(items), TotalGst(items)))
  }

  /** What an accepted `handleAddItem` did. */
  datatype Saved = Appended | Replaced

  /** The component's line-list state. */
  class PurchaseForm {
    var orderItems: seq<PurchaseLine>
    var editIndex: Option<nat>
    var form: Draft
    var supplier: Supplier

    constructor ()
      ensures orderItems == [] && editIndex == None && form == EmptyDraft
      ensures supplier == Customer("", "", "", "", "", "", "", "", "")
    {
      orderItems := [];
      editIndex := None;
      form := EmptyDraft;
      supplier := Customer("", "", "", "", "", "", "", "", "");
    }

    /** `getPurchaseByID`: load a stored purchase for editing. */
    method LoadPurchase(s: Supplier, items: seq<PurchaseLine>)
      modifies this`supplier, this`orderItems
      ensures supplier == s && orderItems == items
    {
      supplier := s;
      orderItems := items;
    }

    /** `handleAddItem`: a rejected form changes nothing; an accepted one
        overwrites the edited line or is appended, and the form is reset. */
    method AddItem() returns (r: Result<Saved, DraftError>)
      modifies this`orderItems, this`editIndex, this`form
      ensures CheckDraft(old(form)).Some? ==> r == Err(CheckDraft(old(form)).value) && unchanged(this)
      ensures CheckDraft(old(form)).None? ==> form == EmptyDraft && editIndex == None
      ensures CheckDraft(old(form)).None? && old(editIndex).Some? ==>
        r == Ok(Replaced) && orderItems == WriteAt(old(orderItems), old(editIndex).value, MakeLine(old(form)))
      ensures CheckDraft(old(form)).None? && old(editIndex).None? ==>
        r == Ok(Appended) && orderItems == old(orderItems) + [MakeLine(old(form))]
    {
      var e := CheckDraft(form);
      if e.Some? {
        return Err(e.value);
      }
      var l := MakeLine(form);
      if editIndex.Some? {
        orderItems := WriteAt(orderItems, editIndex.value, l);
        editIndex := None;
        r := Ok(Replaced);
      } else {
        orderItems := orderItems + [l];
        r := Ok(Appended);
      }
      form := EmptyDraft;
    }

    /** `handleEditItem`: load the line at `index` into the form. */
    method EditItem(index: nat)
      requires index < |orderItems|
      modifies this`form, this`editIndex
      ensures form == FormOf(orderItems[index]) && editIndex == Some(index)
    {
      form := FormOf(orderItems[index]);
      editIndex := Some(index);
    }

    /** `handleRemoveItem`: drop the line at `index`. */
    method RemoveItem(index: int)
      modifies this`orderItems
      ensures orderItems == RemoveAt(old(orderItems), index)
    {
      orderItems := RemoveAt(orderItems, index);
    }
  }
}

/** The inventory list page (frontend/src/pages/Items.jsx): the category
    filter, the stock badge, the item form's required-field check, the query
    it sends to the item listing, and its Prev/Next buttons. */
module ItemsPage {
  import opened Wrappers
  import opened Seqs
  import opened Text

  // ---------------------------------------------------------------------------
  // Category filter
  // ---------------------------------------------------------------------------

  /** `s.filter((x) => x !== c)`. */
  function RemoveAll(s: seq<string>, c: string): (r: seq<string>)
    ensures forall x :: x in r <==> x in s && x != c
  {
    if s == [] then []
    else
      var w := RemoveAll(Init(s), c);
      assert forall x :: x in s <==> x in Init(s) || x == Last(s) by {
        assert s == Init(s) + [Last(s)];
      }
      if Last(s) == c then w else w + [Last(s)]
  }

  /** `handleCategoryChange`: a selected category is dropped, any other is
      appended. */
  function ToggleCategory(selected: seq<string>, c: string): (r: seq<string>)
    ensures c in r <==> c !in selected
    ensures forall x :: x != c ==> (x in r <==> x in selected)
    ensures c !in selected ==> r == selected + [c]
  {
    if c in selected then RemoveAll(selected, c) else selected + [c]
  }

  /** No category is listed twice. */
  predicate NoDuplicates(s: seq<string>)
  {
    forall i, j :: 0 <= i < j < |s| ==> s[i] != s[j]
  }

  lemma {:induction false} RemoveAllKeepsNoDuplicates(s: seq<string>, c: string)
    requires NoDuplicates(s)
    ensures NoDuplicates(RemoveAll(s, c))
  {
    if s != [] {
      assert NoDuplicates(Init(s));
      RemoveAllKeepsNoDuplicates(Init(s), c);
      assert Last(s) !in Init(s);
    }
  }

  /** Filtering out a value that is not there changes nothing. */
  lemma {:induction false} RemoveAllAbsent(s: seq<string>, c: string)
    requires c !in s
    ensures RemoveAll(s, c) == s
  {
    if s != [] {
      assert c !in Init(s) by {
        assert forall x :: x in Init(s) ==> x in s;
      }
      RemoveAllAbsent(Init(s), c);
      assert s == Init(s) + [Last(s)];
    }
  }

  /** Toggling never lists a category twice. */
  lemma ToggleKeepsNoDuplicates(selected: seq<string>, c: string)
    requires NoDuplicates(selected)
    ensures NoDuplicates(ToggleCategory(selected, c))
  {
    if c in selected {
      RemoveAllKeepsNoDuplicates(selected, c);
    }
  }

  /** Toggling twice restores which categories are selected; starting from an
      unselected category it restores the list itself. A selected category
      comes back at the end of the list. */
  lemma ToggleTwice(selected: seq<string>, c: string)
    ensures forall x :: x in ToggleCategory(ToggleCategory(selected, c), c) <==> x in selected
    ensures c !in selected ==> ToggleCategory(ToggleCategory(selected, c), c) == selected
    ensures c in selected ==>
      ToggleCategory(ToggleCategory(selected, c), c) == RemoveAll(selected, c) + [c]
  {
    if c !in selected {
      assert Init(selected + [c]) == selected && Last(selected + [c]) == c;
      RemoveAllAbsent(selected, c);
    }
  }

  // ---------------------------------------------------------------------------
  // Stock badge
  // ---------------------------------------------------------------------------

  datatype Badge = OutOfStock | LowStock | Available

  /** The threshold at and below which stock counts as low. */
  const LowStockLimit := 5

  /** The badge for an item's stock. Negative stock, which the schema does not
      forbid, shows as low. */
  function StockBadge(stock: int): (b: Badge)
    ensures b == OutOfStock <==> stock == 0
    ensures b == LowStock <==> stock != 0 && stock <= LowStockLimit
    ensures b == Available <==> stock > LowStockLimit
  {
    if stock == 0 then OutOfStock else if stock <= LowStockLimit then LowStock else Available
  }

  // ---------------------------------------------------------------------------
  // Item form
  // ---------------------------------------------------------------------------

  /** A form value: text the user typed, or a number loaded from a stored item. */
  datatype Value = Typed(text: string) | Stored(number: real)

  /** JavaScript truthiness of a form value. */
  predicate Truthy(v: Value)
  {
    match v
    case Typed(t) => t != ""
    case Stored(n) => n != 0.0
  }

  /** The fields `validate` looks at. */
  datatype ItemDraft = ItemDraft(name: string, category: string, price: Value, stock: Value)

  datatype ItemField = NameField | CategoryField | PriceField | StockField

  /** `ItemForm.validate`: each missing field gets its message; the form is
      valid exactly when none was flagged. A stored number 0 counts as
      missing; the typed text "0" does not. */
  method ValidateItem(f: ItemDraft) returns (ok: bool, errors: map<ItemField, string>)
    ensures NameField in errors <==> Blank(f.name)
    ensures CategoryField in errors <==> f.category == ""
    ensures PriceField in errors <==> !Truthy(f.price)
    ensures StockField in errors <==> !Truthy(f.stock)
    ensures errors.Keys <= {NameField, CategoryField, PriceField, StockField}
    ensures ok <==> errors == map[]
  {
    errors := map[];
    TrimEmptyIffBlank(f.name);
    if Trim(f.name) == "" {
      errors := errors[NameField := "Item name is required."];
    }
    if f.category == "" {
      errors := errors[CategoryField := "Please select a category."];
    }
    if !Truthy(f.price) {
      errors := errors[PriceField := "Price is required."];
    }
    if !Truthy(f.stock) {
      errors := errors[StockField := "Stock is required."];
    }
    ok := |errors.Keys| == 0;
    if !ok {
      assert errors.Keys != {};
    }
  }

  // ---------------------------------------------------------------------------
  // The listing query
  // ---------------------------------------------------------------------------

  /** Items per page, as the page asks for them. */
  const Limit: nat := 10

  datatype Params = Params(page: nat, limit: nat, category: Option<string>, search: Option<string>)

  /** The `category` parameter: the selection joined with ",", absent when
      nothing is selected. */
  function CategoryParam(selected: seq<string>): (p: Option<string>)
    ensures p.Some? <==> selected != []
  {
    if selected == [] then None else Some(Join(selected, ','))
  }

  /** `fetchItems`: page and limit always, the category filter when a
      category is selected, and the search text when the debounced query,
      which is the typed query trimmed, is not empty. */
  method BuildParams(page: nat, selected: seq<string>, query: string) returns (p: Params)
    ensures p.page == page && p.limit == Limit
    ensures p.category == CategoryParam(selected)
    ensures p.search.Some? <==> !Blank(query)
    ensures p.search.Some? ==> p.search.value == Trim(query)
  {
    p := Params(page, Limit, None, None);
    if |selected| > 0 {
      p := p.(category := Some(Join(selected, ',')));
    }
    var debounced := Trim(query);
    TrimEmptyIffBlank(query);
    if debounced != "" {
      p := p.(search := Some(debounced));
    }
  }

  /** How the item listing reads the parameter: an absent or empty value
      means no filter, anything else is split on ",". */
  function CategoryFilter(param: Option<string>): Option<seq<string>>
  {
    if param.None? || param.value == "" then None else Some(Split(param.value, ','))
  }

  /** The listing filters by exactly the selected categories, provided none
      is empty or contains a comma, as holds for the fixed category list. */
  lemma CategoryRoundTrip(selected: seq<string>)
    requires forall i :: 0 <= i < |selected| ==> selected[i] != "" && ',' !in selected[i]
    ensures CategoryFilter(CategoryParam(selected)) == if selected == [] then None else Some(selected)
  {
    if selected != [] {
      SplitJoin(selected, ',');
    }
  }

  // ---------------------------------------------------------------------------
  // Pagination
  // ---------------------------------------------------------------------------

  /** `Math.ceil(total / limit)` in the item listing: no items give 0 pages. */
  function TotalPages(total: nat): (pages: nat)
    ensures pages * Limit >= total && (pages == 0 || (pages - 1) * Limit < total)
  {
    (total + Limit - 1) / Limit
  }

  /** Prev is disabled on the first page. */
  predicate PrevDisabled(page: int)
  {
    page == 1
  }

  /** Next, as written: disabled only when the page equals the page count. */
  predicate NextDisabled(page: int, totalPages: nat)
  {
    page == totalPages
  }

  /** A click on Next: `setPage(page + 1)`, unless the button is disabled. */
  function ClickNext(page: int, totalPages: nat): int
  {
    if NextDisabled(page, totalPages) then page else page + 1
  }

  /** The page reached after `clicks` clicks on Next. */
  function AfterClicks(page: int, totalPages: nat, clicks: nat): int
  {
    if clicks == 0 then page else ClickNext(AfterClicks(page, totalPages, clicks - 1), totalPages)
  }

  /** From any page past the last, Next stays enabled, so every click moves on
      and the walk never reaches a page where Next is disabled. */
  lemma {:induction false} NextEnabledPastLastPage(page: int, totalPages: nat, clicks: nat)
    requires page > totalPages
    ensures AfterClicks(page, totalPages, clicks) == page + clicks
    ensures !NextDisabled(AfterClicks(page, totalPages, clicks), totalPages)
  {
    if clicks > 0 {
      NextEnabledPastLastPage(page, totalPages, clicks - 1);
    }
  }

  /** An empty listing has 0 pages, so from the first page Next can be
      clicked for ever. */
  lemma EmptyListingNeverStops(clicks: nat)
    ensures TotalPages(0) == 0
    ensures AfterClicks(1, TotalPages(0), clicks) == 1 + clicks
    ensures !NextDisabled(AfterClicks(1, TotalPages(0), clicks), TotalPages(0))
  {
    NextEnabledPastLastPage(1, TotalPages(0), clicks);
  }

  /** The last page the view should show: at least the first. */
  function LastPage(totalPages: nat): (last: nat)
    ensures last >= 1 && last >= totalPages
  {
    if totalPages == 0 then 1 else totalPages
  }

  /** Next, corrected: disabled on or past the last page. */
  predicate NextDisabledCorrected(page: int, totalPages: nat)
  {
    page >= totalPages
  }

  /** With the corrected guard, Prev and Next keep the page within
      1..LastPage(totalPages). */
  lemma PagingStaysInRange(page: int, totalPages: nat)
    requires 1 <= page <= LastPage(totalPages)
    ensures !NextDisabledCorrected(page, totalPages) ==> 1 <= page + 1 <= LastPage(totalPages)
    ensures !PrevDisabled(page) ==> 1 <= page - 1 <= LastPage(totalPages)
  {
  }
}

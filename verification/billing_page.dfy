/** The point-of-sale cart (`src/pages/Billing.tsx`): adding and removing
    lines, the subtotal and discounted total, and the client search. */
module BillingPage {
  import opened Common
  import opened Types
  import BillingService

  const MAX_SEARCH_RESULTS: nat := 5

  /** The price field of the add-line form: the text typed into the number
      input, and `Number(text)`. */
  datatype PriceInput = PriceInput(text: string, value: real)

  /** The add-line form (`newItem`). */
  datatype NewItemForm = NewItemForm(description: string, quantity: real, price: PriceInput)

  /** The form as first shown and after each added line: `{ '', 1, '' }`. */
  const EMPTY_FORM: NewItemForm := NewItemForm("", 1.0, PriceInput("", 0.0))

  /** The invoice being built: its lines and the add-line form. */
  datatype Cart = Cart(items: seq<InvoiceItem>, form: NewItemForm)

  /** `handleAddItem`: nothing happens while the description or the price
      text is empty; otherwise exactly one line, built from the form, is
      appended under the fresh id, and the form is cleared. */
  function HandleAddItem(cart: Cart, freshId: Id): (r: Cart)
    ensures cart.form.description == "" || cart.form.price.text == "" ==> r == cart
    ensures cart.form.description != "" && cart.form.price.text != "" ==>
              && r.items == cart.items + [InvoiceItem(freshId, cart.form.description, cart.form.quantity,
                                                      cart.form.price.value, None)]
              && r.form == EMPTY_FORM
  {
    if cart.form.description == "" || cart.form.price.text == "" then cart
    else
      var item := InvoiceItem(freshId, cart.form.description, cart.form.quantity, cart.form.price.value, None);
      Cart(cart.items + [item], EMPTY_FORM)
  }

  /** `item => item.id !== id` */
  function NotId(id: Id): InvoiceItem -> bool {
    (item: InvoiceItem) => item.id != id
  }

  /** `removeItem`: every line with that id goes, the others stay in order. */
  function RemoveItem(items: seq<InvoiceItem>, id: Id): (r: seq<InvoiceItem>)
    ensures forall it :: it in r <==> it in items && it.id != id
    ensures IsSubsequence(r, items)
    ensures forall it: InvoiceItem :: it.id != id ==> multiset(r)[it] == multiset(items)[it]
  {
    Filter(items, NotId(id))
  }

  /** Every line has a non-negative price and quantity. */
  predicate NonNegativeLines(items: seq<InvoiceItem>) {
    forall i :: 0 <= i < |items| ==> items[i].price >= 0.0 && items[i].quantity >= 0.0
  }

  /** `items.reduce((acc, item) => acc + item.price * item.quantity, 0)`:
      0 for no lines, and never negative when no line is. */
  function Subtotal(items: seq<InvoiceItem>): (r: real)
    ensures items == [] ==> r == 0.0
    ensures NonNegativeLines(items) ==> r >= 0.0
  {
    if items == [] then 0.0
    else Subtotal(items[..|items| - 1]) + BillingService.LineTotal(items[|items| - 1])
  }

  /** `Math.max(0, subtotal - discount)`: never negative, and never above the
      subtotal when the discount is not negative. */
  function Total(items: seq<InvoiceItem>, discount: real): (t: real)
    ensures t >= 0.0
    ensures t == 0.0 || t == Subtotal(items) - discount
    ensures t >= Subtotal(items) - discount
    ensures discount >= 0.0 && Subtotal(items) >= 0.0 ==> t <= Subtotal(items)
  {
    Max0(Subtotal(items) - discount)
  }

  /** The subtotal is additive over concatenation. */
  lemma {:induction false} SubtotalAppend(xs: seq<InvoiceItem>, ys: seq<InvoiceItem>)
    ensures Subtotal(xs + ys) == Subtotal(xs) + Subtotal(ys)
    decreases |ys|
  {
    if ys == [] {
      assert xs + ys == xs;
    } else {
      var n := |ys| - 1;
      var zs := xs + ys;
      assert zs[..|zs| - 1] == xs + ys[..n];
      assert zs[|zs| - 1] == ys[n];
      SubtotalAppend(xs, ys[..n]);
      assert Subtotal(zs) == Subtotal(xs + ys[..n]) + BillingService.LineTotal(ys[n]);
    }
  }

  /** Adding a line raises the subtotal by that line's price times quantity;
      a rejected add changes nothing. */
  lemma AddItemRaisesSubtotal(cart: Cart, freshId: Id)
    ensures cart.form.description != "" && cart.form.price.text != "" ==>
              Subtotal(HandleAddItem(cart, freshId).items) ==
              Subtotal(cart.items) + cart.form.price.value * cart.form.quantity
    ensures cart.form.description == "" || cart.form.price.text == "" ==>
              Subtotal(HandleAddItem(cart, freshId).items) == Subtotal(cart.items)
  {
    if cart.form.description != "" && cart.form.price.text != "" {
      var item := InvoiceItem(freshId, cart.form.description, cart.form.quantity, cart.form.price.value, None);
      SubtotalAppend(cart.items, [item]);
      assert [item][..0] == [];
    }
  }

  /** A price typed as '0' is a real entry, not an empty one: the line is added. */
  lemma ZeroPriceAccepted(items: seq<InvoiceItem>, description: string, quantity: real, freshId: Id)
    requires description != ""
    ensures |HandleAddItem(Cart(items, NewItemForm(description, quantity, PriceInput("0", 0.0))), freshId).items|
            == |items| + 1
  {
  }

  /** Removing a line that is not in the cart changes nothing; removing the
      last line added restores the cart it was added to, when its id was
      fresh. */
  lemma {:induction false} RemoveUndoesAdd(cart: Cart, freshId: Id)
    requires forall it :: it in cart.items ==> it.id != freshId
    ensures RemoveItem(HandleAddItem(cart, freshId).items, freshId) == cart.items
  {
    var r := HandleAddItem(cart, freshId);
    RemoveAbsent(cart.items, freshId);
    if r.items != cart.items {
      var item := r.items[|r.items| - 1];
      assert r.items == cart.items + [item];
      FilterAppend(cart.items, [item], NotId(freshId));
      assert [item][1..] == [];
    }
  }

  /** Filtering out an id no line carries keeps the list as it is. */
  lemma RemoveAbsent(items: seq<InvoiceItem>, id: Id)
    requires forall it :: it in items ==> it.id != id
    ensures RemoveItem(items, id) == items
  {
    FilterKeepsAll(items, NotId(id));
  }

  // ---------------------------------------------------------------------
  // Client search
  // ---------------------------------------------------------------------

  /** A client matches the search when the lower-cased name contains the
      lower-cased term, or the phone (when present) contains the term as
      typed. */
  predicate MatchesClientSearch(term: string, c: Client) {
    Includes(Lower(c.nombre), Lower(term)) || (c.telefono != "" && Includes(c.telefono, term))
  }

  function SearchFor(term: string): Client -> bool {
    (c: Client) => MatchesClientSearch(term, c)
  }

  /** `filteredClients`: the first five matching clients, in list order. */
  function FilteredClients(clients: seq<Client>, term: string): (r: seq<Client>)
    ensures |r| <= MAX_SEARCH_RESULTS
    ensures var all := Filter(clients, SearchFor(term));
            |r| == (if |all| < MAX_SEARCH_RESULTS then |all| else MAX_SEARCH_RESULTS) && r == all[..|r|]
    ensures forall c :: c in r ==> c in clients && MatchesClientSearch(term, c)
    ensures IsSubsequence(r, clients)
    ensures |Filter(clients, SearchFor(term))| <= MAX_SEARCH_RESULTS ==> r == Filter(clients, SearchFor(term))
    ensures |r| < MAX_SEARCH_RESULTS ==> forall c :: c in clients && MatchesClientSearch(term, c) ==> c in r
  {
    var all := Filter(clients, SearchFor(term));
    var r := Take(all, MAX_SEARCH_RESULTS);
    PrefixIsSubsequence(all, |r|);
    assert r == all[..|r|];
    SubsequenceTransitive(r, all, clients);
    assert forall c :: c in r ==> c in all;
    r
  }

  /** An empty search lists the first five clients. */
  lemma EmptySearchListsFirstClients(clients: seq<Client>)
    ensures FilteredClients(clients, "") == Take(clients, MAX_SEARCH_RESULTS)
  {
    assert forall c :: SearchFor("")(c) by {
      forall c: Client ensures SearchFor("")(c) {
        IncludesEmpty(Lower(c.nombre));
      }
    }
    FilterKeepsAll(clients, SearchFor(""));
  }

  // ---------------------------------------------------------------------
  // From the cart to the stored invoice
  // ---------------------------------------------------------------------

  /** Sum of the stored line totals. */
  function SumPrecioTotal(rows: seq<BillingService.ItemRow>): real {
    if rows == [] then 0.0 else SumPrecioTotal(rows[..|rows| - 1]) + rows[|rows| - 1].precioTotal
  }

  /** Rows whose totals are, position by position, the price times quantity
      of the lines add up to the subtotal of those lines. */
  lemma {:induction false} LineTotalsAgree(rows: seq<BillingService.ItemRow>, items: seq<InvoiceItem>)
    requires |rows| == |items|
    requires forall i :: 0 <= i < |items| ==> rows[i].precioTotal == BillingService.LineTotal(items[i])
    ensures SumPrecioTotal(rows) == Subtotal(items)
    decreases |items|
  {
    if items != [] {
      var n := |items| - 1;
      LineTotalsAgree(rows[..n], items[..n]);
    }
  }

  /** The item rows written for a cart carry line totals that add up to the
      subtotal shown at checkout, whatever rates apply. */
  lemma StoredLineTotalsMatchSubtotal(facturaId: Id, dict: BillingService.RateDict, items: seq<InvoiceItem>)
    ensures SumPrecioTotal(BillingService.ItemsToInsert(facturaId, dict, items)) == Subtotal(items)
  {
    LineTotalsAgree(BillingService.ItemsToInsert(facturaId, dict, items), items);
  }
}

/** The product page: item cards built from the admin's items, the search
    box guard, and the sign-in check in front of both. */
module ProductDetails {
  import opened Common
  import opened Records

  /** One product card: its heading, the three labelled values, the
      warehouse line, and the `data-id` both of its buttons carry. */
  datatype Card = Card(
    name: string,
    description: string,
    price: string,
    quantity: string,
    warehouses: string,
    dataId: string)

  /** What `productList` shows: a one-paragraph notice or a list of cards. */
  datatype ListContent = Notice(text: string) | Cards(cards: seq<Card>)

  const LoginNotice := "\U{26A0} Please login again."
  const EmptyNotice := "No products found."
  const LoadErrorNotice := " Error loading products."
  const SearchErrorNotice := "\U{274C} Error searching products."
  const Rupee: char := '\U{20B9}'
  const ImportPage := "/html/add-import.html?itemId="
  const ExportPage := "/html/add-export.html?itemId="

  /** `w.warehouseName` as `join` prints it: null and undefined become "". */
  function NameForJoin(w: Warehouse): string
  {
    if w.warehouseName.None? then "" else w.warehouseName.value
  }

  function WarehouseNames(ws: seq<Warehouse>): seq<string>
  {
    seq(|ws|, k requires 0 <= k < |ws| => NameForJoin(ws[k]))
  }

  /** `item.warehouses?.map(w => w.warehouseName).join(", ") || "-"`. */
  function WarehousesText(ws: Option<seq<Warehouse>>): string
  {
    match ws
    case None => "-"
    case Some(list) =>
      var joined := Join(WarehouseNames(list), ", ");
      if joined == "" then "-" else joined
  }

  /** The warehouse line falls back to "-" exactly when the list is absent,
      empty, or a single warehouse whose name is absent, empty or itself
      "-"; otherwise it is the names joined by ", " in list order. */
  lemma WarehousesFallback(ws: Option<seq<Warehouse>>)
    ensures WarehousesText(ws) == "-" <==>
      (|| ws.None?
       || |ws.value| == 0
       || (|ws.value| == 1 && ws.value[0].warehouseName in {None, Some(""), Some("-")}))
    ensures WarehousesText(ws) != "-" ==> WarehousesText(ws) == Join(WarehouseNames(ws.value), ", ")
  {
  }

  function CardOf(item: Item): Card
  {
    Card(item.name, OrDash(item.description), [Rupee] + Decimal(item.price), Decimal(item.quantity),
         WarehousesText(item.warehouses), Decimal(item.id))
  }

  /** The card shows the name verbatim, the description or "-" when it is
      absent or empty, the price after a rupee sign, and the quantity and
      id as decimal numbers that read back as the item's values. */
  lemma CardFields(item: Item)
    ensures var c := CardOf(item);
      && c.name == item.name
      && (c.description == "-" <==> item.description in {None, Some(""), Some("-")})
      && (item.description.Some? && item.description.value != "" ==> c.description == item.description.value)
      && |c.price| > 1 && c.price[0] == Rupee && DecimalValue(c.price[1..]) == item.price
      && DecimalValue(c.quantity) == item.quantity
      && DecimalValue(c.dataId) == item.id
  {
    DecimalRoundTrip(item.price);
    DecimalRoundTrip(item.quantity);
    DecimalRoundTrip(item.id);
    OrDashFallback(item.description);
    assert CardOf(item).price[1..] == Decimal(item.price);
  }

  /** Where the card's "Add Import" and "Add Export" buttons navigate. */
  function ImportLink(c: Card): string
  {
    ImportPage + c.dataId
  }

  function ExportLink(c: Card): string
  {
    ExportPage + c.dataId
  }

  /** The buttons' links name the item: two cards lead to the same page
      exactly when their items have the same id. */
  lemma LinksIdentifyItem(a: Item, b: Item)
    ensures ImportLink(CardOf(a)) == ImportLink(CardOf(b)) <==> a.id == b.id
    ensures ExportLink(CardOf(a)) == ExportLink(CardOf(b)) <==> a.id == b.id
  {
    DecimalInjective(a.id, b.id);
    if ImportLink(CardOf(a)) == ImportLink(CardOf(b)) {
      assert Decimal(a.id) == ImportLink(CardOf(a))[|ImportPage|..];
      assert Decimal(b.id) == ImportLink(CardOf(b))[|ImportPage|..];
    }
    if ExportLink(CardOf(a)) == ExportLink(CardOf(b)) {
      assert Decimal(a.id) == ExportLink(CardOf(a))[|ExportPage|..];
      assert Decimal(b.id) == ExportLink(CardOf(b))[|ExportPage|..];
    }
  }

  function CardsOf(items: seq<Item>): seq<Card>
  {
    seq(|items|, k requires 0 <= k < |items| => CardOf(items[k]))
  }

  /** What `loadItems` leaves in the list: the notice for an empty list,
      otherwise one card per item in input order. */
  function ItemsView(items: seq<Item>): (r: ListContent)
    ensures r == Notice(EmptyNotice) <==> |items| == 0
    ensures |items| > 0 ==> r.Cards? && |r.cards| == |items|
    ensures |items| > 0 ==> forall k :: 0 <= k < |items| ==> DecimalValue(r.cards[k].dataId) == items[k].id
  {
    if |items| == 0 then Notice(EmptyNotice)
    else
      var cards := CardsOf(items);
      assert forall k :: 0 <= k < |items| ==> DecimalValue(cards[k].dataId) == items[k].id by {
        forall k | 0 <= k < |items| ensures DecimalValue(cards[k].dataId) == items[k].id {
          DecimalRoundTrip(items[k].id);
        }
      }
      Cards(cards)
  }

  /** `if (!res.ok) throw ...; await res.json()`: None sends the flow to its catch. */
  function OkItems(f: Fetched<seq<Item>>): (r: Option<seq<Item>>)
    ensures r.Some? <==> f.Response? && f.ok && f.body.Some?
    ensures r.Some? ==> r == f.body
  {
    match f
    case NetworkError => None
    case Response(ok, body) => if ok then body else None
  }

  /** The page after DOMContentLoaded: `productList`'s content, the
      `currentUser` variable, and whether `window.searchProducts` has been
      installed. */
  class ProductPage {
    var list: ListContent
    var currentUser: Option<User>
    var searchInstalled: bool

    constructor (initial: ListContent)
      ensures list == initial && currentUser == None && !searchInstalled
    {
      list := initial;
      currentUser := None;
      searchInstalled := false;
    }

    /** `loadItems`: the notice for an empty list; otherwise the list is
        cleared and one card appended per item. */
    method LoadItems(items: seq<Item>)
      modifies this`list
      ensures list == ItemsView(items)
    {
      if |items| == 0 {
        list := Notice(EmptyNotice);
        return;
      }
      list := Cards([]);
      for k := 0 to |items|
        invariant list.Cards? && |list.cards| == k
        invariant forall j :: 0 <= j < k ==> list.cards[j] == CardOf(items[j])
      {
        list := Cards(list.cards + [CardOf(items[k])]);
      }
      assert list.cards == CardsOf(items);
    }

    /** The DOMContentLoaded handler: without a user only the login notice
        is shown and nothing else happens; with one, the user is stored,
        the items are loaded (or the load error shown), and the search
        function is installed. */
    method OnContentLoaded(user: Option<User>, itemsRes: Fetched<seq<Item>>)
      modifies this
      ensures user.None? ==>
        list == Notice(LoginNotice) && currentUser == old(currentUser) && searchInstalled == old(searchInstalled)
      ensures user.Some? ==> currentUser == user && searchInstalled
      ensures user.Some? && OkItems(itemsRes).None? ==> list == Notice(LoadErrorNotice)
      ensures user.Some? && OkItems(itemsRes).Some? ==> list == ItemsView(OkItems(itemsRes).value)
    {
      if user.None? {
        list := Notice(LoginNotice);
        return;
      }
      currentUser := user;
      var items := OkItems(itemsRes);
      if items.None? {
        list := Notice(LoadErrorNotice);
      } else {
        LoadItems(items.value);
      }
      searchInstalled := true;
    }

    /** `searchProducts`: a query that trims to nothing returns at once and
        changes nothing; otherwise the results replace the list, or the
        search error is shown. Before the function is installed a call
        changes nothing either. */
    method SearchProducts(query: string, resultsRes: Fetched<seq<Item>>)
      modifies this`list
      ensures !searchInstalled || Trim(query) == "" ==> list == old(list)
      ensures searchInstalled && Trim(query) != "" && OkItems(resultsRes).None? ==> list == Notice(SearchErrorNotice)
      ensures searchInstalled && Trim(query) != "" && OkItems(resultsRes).Some? ==>
        list == ItemsView(OkItems(resultsRes).value)
    {
      if !searchInstalled {
        return;
      }
      var q := Trim(query);
      if q == "" {
        return;
      }
      var results := OkItems(resultsRes);
      if results.None? {
        list := Notice(SearchErrorNotice);
      } else {
        LoadItems(results.value);
      }
    }
  }
}

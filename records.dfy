/** The JSON records the pages receive from the backend, as plain values.
    A field the pages read with `?.` or `||` is an Option here. */
module Records {
  import opened Common

  datatype Warehouse = Warehouse(warehouseName: Option<string>)

  /** An inventory item as returned by `/api/items/admin/{adminId}`. */
  datatype Item = Item(
    id: int,
    name: string,
    description: Option<string>,
    price: int,
    quantity: int,
    warehouses: Option<seq<Warehouse>>)

  /** The nested `item` object of an import or export record. */
  datatype ItemRef = ItemRef(id: int, name: Option<string>)

  datatype ImportRecord = ImportRecord(
    id: int,
    item: Option<ItemRef>,
    date: string,
    documentNumber: string,
    vendorName: Option<string>,
    quantityOrdered: int,
    quantityBilled: int,
    quantityReceived: int,
    status: Option<string>)

  datatype ExportRecord = ExportRecord(
    id: int,
    item: Option<ItemRef>,
    date: string,
    documentNumber: string,
    customerName: Option<string>,
    quantityOrdered: int,
    quantityBilled: int,
    quantityShipped: int,
    status: Option<string>)

  /** The signed-in user: its id and `user_metadata.adminId`. */
  datatype User = User(id: string, adminId: Option<string>)

  /** The outcome of `fetch(...)` followed by `res.json()`: the request
      itself rejected, or a response with its `ok` flag and the parsed body
      (None when `json()` rejects). */
  datatype Fetched<T> = NetworkError | Response(ok: bool, body: Option<T>)
}

/** The import/export page: rendering the admin's import and export records
    into the two table bodies, and the load flow that feeds them. */
module ImportExport {
  import opened Common
  import opened Records

  /** A `<td>` with its text and its colspan. */
  datatype CellView = CellView(text: string, colspan: nat)

  /** A `<tr>` of a table body. */
  datatype RowView = RowView(cells: seq<CellView>)

  datatype LoadOutcome = LoginRedirect | Rendered | LoadAlert

  const ColumnCount: nat := 9
  const ImportsEmptyMessage := "No Import records found."
  const ExportsEmptyMessage := "No Export records found."

  /** The single full-width row shown for an empty list. */
  function Placeholder(message: string): RowView
  {
    RowView([CellView(message, ColumnCount)])
  }

  /** A record row: one single-column cell per text. */
  function PlainRow(texts: seq<string>): RowView
  {
    RowView(seq(|texts|, k requires 0 <= k < |texts| => CellView(texts[k], 1)))
  }

  /** `rec.item?.name || "-"`. */
  function ItemName(item: Option<ItemRef>): string
  {
    OrDash(if item.None? then None else item.value.name)
  }

  function ImportCells(imp: ImportRecord): seq<string>
  {
    [Decimal(imp.id), ItemName(imp.item), imp.date, imp.documentNumber, OrDash(imp.vendorName),
     Decimal(imp.quantityOrdered), Decimal(imp.quantityBilled), Decimal(imp.quantityReceived),
     Interpolated(imp.status)]
  }

  function ExportCells(exp: ExportRecord): seq<string>
  {
    [Decimal(exp.id), ItemName(exp.item), exp.date, exp.documentNumber, OrDash(exp.customerName),
     Decimal(exp.quantityOrdered), Decimal(exp.quantityBilled), Decimal(exp.quantityShipped),
     Interpolated(exp.status)]
  }

  /** The rows `renderImports` leaves in the imports table body. */
  function ImportsView(imports: seq<ImportRecord>): seq<RowView>
  {
    if |imports| == 0 then [Placeholder(ImportsEmptyMessage)]
    else seq(|imports|, k requires 0 <= k < |imports| => PlainRow(ImportCells(imports[k])))
  }

  function ExportsView(exports: seq<ExportRecord>): seq<RowView>
  {
    if |exports| == 0 then [Placeholder(ExportsEmptyMessage)]
    else seq(|exports|, k requires 0 <= k < |exports| => PlainRow(ExportCells(exports[k])))
  }

  /** The number of columns a row covers. */
  function Span(cells: seq<CellView>): nat
  {
    if cells == [] then 0 else cells[0].colspan + Span(cells[1..])
  }

  lemma {:induction false} PlainRowSpan(texts: seq<string>)
    ensures Span(PlainRow(texts).cells) == |texts|
    decreases |texts|
  {
    if texts != [] {
      PlainRowSpan(texts[1..]);
      assert PlainRow(texts).cells[1..] == PlainRow(texts[1..]).cells;
    }
  }

  /** An import row holds nine cells in the order id, item name, date,
      document number, vendor, ordered, billed, received, status; the
      numbers read back as the record's values, and item name and vendor
      fall back to "-" when absent or empty. */
  lemma ImportRowFields(imp: ImportRecord)
    ensures var c := ImportCells(imp);
      && |c| == ColumnCount
      && DecimalValue(c[0]) == imp.id
      && (c[1] == "-" <==> imp.item.None? || imp.item.value.name in {None, Some(""), Some("-")})
      && c[2] == imp.date && c[3] == imp.documentNumber
      && (imp.item.Some? && imp.item.value.name.Some? && imp.item.value.name.value != "" ==>
            c[1] == imp.item.value.name.value)
      && (c[4] == "-" <==> imp.vendorName in {None, Some(""), Some("-")})
      && (imp.vendorName.Some? && imp.vendorName.value != "" ==> c[4] == imp.vendorName.value)
      && DecimalValue(c[5]) == imp.quantityOrdered
      && DecimalValue(c[6]) == imp.quantityBilled
      && DecimalValue(c[7]) == imp.quantityReceived
      && (imp.status.Some? ==> c[8] == imp.status.value)
  {
    DecimalRoundTrip(imp.id);
    DecimalRoundTrip(imp.quantityOrdered);
    DecimalRoundTrip(imp.quantityBilled);
    DecimalRoundTrip(imp.quantityReceived);
    if imp.item.Some? { OrDashFallback(imp.item.value.name); }
    OrDashFallback(imp.vendorName);
  }

  /** An export row: as an import row, with the customer in place of the
      vendor and the shipped quantity in place of the received one. */
  lemma ExportRowFields(exp: ExportRecord)
    ensures var c := ExportCells(exp);
      && |c| == ColumnCount
      && DecimalValue(c[0]) == exp.id
      && (c[1] == "-" <==> exp.item.None? || exp.item.value.name in {None, Some(""), Some("-")})
      && c[2] == exp.date && c[3] == exp.documentNumber
      && (exp.item.Some? && exp.item.value.name.Some? && exp.item.value.name.value != "" ==>
            c[1] == exp.item.value.name.value)
      && (c[4] == "-" <==> exp.customerName in {None, Some(""), Some("-")})
      && (exp.customerName.Some? && exp.customerName.value != "" ==> c[4] == exp.customerName.value)
      && DecimalValue(c[5]) == exp.quantityOrdered
      && DecimalValue(c[6]) == exp.quantityBilled
      && DecimalValue(c[7]) == exp.quantityShipped
      && (exp.status.Some? ==> c[8] == exp.status.value)
  {
    DecimalRoundTrip(exp.id);
    DecimalRoundTrip(exp.quantityOrdered);
    DecimalRoundTrip(exp.quantityBilled);
    DecimalRoundTrip(exp.quantityShipped);
    if exp.item.Some? { OrDashFallback(exp.item.value.name); }
    OrDashFallback(exp.customerName);
  }

  /** The imports body: a lone placeholder exactly when the list is empty,
      otherwise one row per record in input order (row k carries record k's
      id); every row, placeholder included, spans the nine columns. */
  lemma ImportsViewShape(imports: seq<ImportRecord>)
    ensures var rows := ImportsView(imports);
      && (rows == [Placeholder(ImportsEmptyMessage)] <==> |imports| == 0)
      && (|imports| > 0 ==> |rows| == |imports|)
      && (forall k :: 0 <= k < |imports| ==> DecimalValue(rows[k].cells[0].text) == imports[k].id)
      && (forall r :: r in rows ==> Span(r.cells) == ColumnCount)
  {
    var rows := ImportsView(imports);
    assert Span(Placeholder(ImportsEmptyMessage).cells) == ColumnCount by {
      assert Placeholder(ImportsEmptyMessage).cells[1..] == [];
    }
    forall k | 0 <= k < |imports|
      ensures DecimalValue(rows[k].cells[0].text) == imports[k].id
      ensures Span(rows[k].cells) == ColumnCount
    {
      ImportRowFields(imports[k]);
      PlainRowSpan(ImportCells(imports[k]));
    }
    if |imports| > 0 {
      assert |rows[0].cells| == ColumnCount;
    }
  }

  lemma ExportsViewShape(exports: seq<ExportRecord>)
    ensures var rows := ExportsView(exports);
      && (rows == [Placeholder(ExportsEmptyMessage)] <==> |exports| == 0)
      && (|exports| > 0 ==> |rows| == |exports|)
      && (forall k :: 0 <= k < |exports| ==> DecimalValue(rows[k].cells[0].text) == exports[k].id)
      && (forall r :: r in rows ==> Span(r.cells) == ColumnCount)
  {
    var rows := ExportsView(exports);
    assert Span(Placeholder(ExportsEmptyMessage).cells) == ColumnCount by {
      assert Placeholder(ExportsEmptyMessage).cells[1..] == [];
    }
    forall k | 0 <= k < |exports|
      ensures DecimalValue(rows[k].cells[0].text) == exports[k].id
      ensures Span(rows[k].cells) == ColumnCount
    {
      ExportRowFields(exports[k]);
      PlainRowSpan(ExportCells(exports[k]));
    }
    if |exports| > 0 {
      assert |rows[0].cells| == ColumnCount;
    }
  }

  /** A `<tbody>` whose rows the render functions replace. */
  class TableBody {
    var rows: seq<RowView>

    constructor (initial: seq<RowView>)
      ensures rows == initial
    {
      rows := initial;
    }
  }

  /** `renderImports`: clears the body, then either writes the placeholder
      or appends one row per record. The old rows never survive, so
      rendering the same list again leaves the same rows. */
  method RenderImports(body: TableBody, imports: seq<ImportRecord>)
    modifies body
    ensures body.rows == ImportsView(imports)
  {
    body.rows := [];
    if |imports| == 0 {
      body.rows := [Placeholder(ImportsEmptyMessage)];
      return;
    }
    for k := 0 to |imports|
      invariant |body.rows| == k
      invariant forall j :: 0 <= j < k ==> body.rows[j] == PlainRow(ImportCells(imports[j]))
    {
      body.rows := body.rows + [PlainRow(ImportCells(imports[k]))];
    }
  }

  /** `renderExports`, as `renderImports` on the export records. */
  method RenderExports(body: TableBody, exports: seq<ExportRecord>)
    modifies body
    ensures body.rows == ExportsView(exports)
  {
    body.rows := [];
    if |exports| == 0 {
      body.rows := [Placeholder(ExportsEmptyMessage)];
      return;
    }
    for k := 0 to |exports|
      invariant |body.rows| == k
      invariant forall j :: 0 <= j < k ==> body.rows[j] == PlainRow(ExportCells(exports[j]))
    {
      body.rows := body.rows + [PlainRow(ExportCells(exports[k]))];
    }
  }

  /** `res.ok ? await res.json() : []`: a response that is not ok counts as
      no records; None when the request or `json()` rejects. */
  function RecordsOrEmpty<T>(f: Fetched<seq<T>>): (r: Option<seq<T>>)
    ensures f.Response? && !f.ok ==> r == Some([])
    ensures f.NetworkError? ==> r == None
    ensures f.Response? && f.ok ==> r == f.body
  {
    match f
    case NetworkError => None
    case Response(ok, body) => if !ok then Some([]) else body
  }

  /** `loadImportExportDetails`: no user redirects and renders nothing;
      otherwise the imports are fetched and rendered, then the exports.
      A rejected request stops the flow with an alert, leaving the table it
      was for (and any later one) as it was. */
  method LoadImportExportDetails(user: Option<User>,
                                 importRes: Fetched<seq<ImportRecord>>, exportRes: Fetched<seq<ExportRecord>>,
                                 importsTable: TableBody, exportsTable: TableBody)
    returns (outcome: LoadOutcome)
    requires importsTable != exportsTable
    modifies importsTable, exportsTable
    ensures user.None? ==> outcome == LoginRedirect && unchanged(importsTable, exportsTable)
    ensures user.Some? && RecordsOrEmpty(importRes).None? ==>
      outcome == LoadAlert && unchanged(importsTable, exportsTable)
    ensures user.Some? && RecordsOrEmpty(importRes).Some? ==>
      importsTable.rows == ImportsView(RecordsOrEmpty(importRes).value)
    ensures user.Some? && importRes.Response? && !importRes.ok ==>
      importsTable.rows == [Placeholder(ImportsEmptyMessage)]
    ensures user.Some? && RecordsOrEmpty(importRes).Some? && RecordsOrEmpty(exportRes).None? ==>
      outcome == LoadAlert && unchanged(exportsTable)
    ensures user.Some? && RecordsOrEmpty(importRes).Some? && RecordsOrEmpty(exportRes).Some? ==>
      outcome == Rendered && exportsTable.rows == ExportsView(RecordsOrEmpty(exportRes).value)
  {
    if user.None? {
      return LoginRedirect;
    }
    var imports := RecordsOrEmpty(importRes);
    if imports.None? {
      return LoadAlert;
    }
    RenderImports(importsTable, imports.value);
    var exports := RecordsOrEmpty(exportRes);
    if exports.None? {
      return LoadAlert;
    }
    RenderExports(exportsTable, exports.value);
    outcome := Rendered;
  }
}

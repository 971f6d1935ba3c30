/** The table-to-document export of the import/export page: the document
    structure handed to the word-processing library, as plain values. The
    library's serialisation and the browser download are not modelled. */
module DocExport {
  import opened Common

  /** One `<tr>` of the rendered table: the tag name of its parent element
      and the `innerText` of its `th`/`td` cells, left to right. */
  datatype SourceRow = SourceRow(parentTag: string, cells: seq<string>)

  datatype TextRun = TextRun(text: string, bold: bool, size: Option<nat>)
  datatype Paragraph = Paragraph(runs: seq<TextRun>, spacingAfter: Option<nat>)
  datatype BorderLine = BorderLine(style: string, size: nat, color: string)
  datatype CellBorders = CellBorders(top: BorderLine, bottom: BorderLine, left: BorderLine, right: BorderLine)
  datatype CellMargins = CellMargins(top: nat, bottom: nat, left: nat, right: nat)
  datatype ShadingType = Clear
  datatype Shading = Shading(kind: ShadingType, color: string, fill: string)
  datatype DocCell = DocCell(
    paragraphs: seq<Paragraph>,
    margins: Option<CellMargins>,
    borders: Option<CellBorders>,
    shading: Option<Shading>)
  datatype DocRow = DocRow(cells: seq<DocCell>)
  datatype DocTable = DocTable(rows: seq<DocRow>)
  datatype Block = ParagraphBlock(paragraph: Paragraph) | TableBlock(table: DocTable)
  datatype Section = Section(children: seq<Block>)
  datatype Document = Document(sections: seq<Section>)

  /** A document together with the file name the download link gives it. */
  datatype Download = Download(document: Document, filename: string)

  const TitleSize: nat := 36
  const TitleSpacingAfter: nat := 300
  const CellTextSize: nat := 28
  const CellPadding: nat := 200
  const HeaderFill := "DDDDDD"
  const ThinBlackLine := BorderLine("single", 1, "000000")
  const UniformPadding := CellMargins(CellPadding, CellPadding, CellPadding, CellPadding)
  const ThinBorders := CellBorders(ThinBlackLine, ThinBlackLine, ThinBlackLine, ThinBlackLine)
  const HeaderShading := Shading(Clear, "auto", HeaderFill)

  /** A cell holding one paragraph with one text run, as both builders make them. */
  predicate OneRun(c: DocCell)
  {
    |c.paragraphs| == 1 && |c.paragraphs[0].runs| == 1
  }

  function Run(c: DocCell): TextRun
    requires OneRun(c)
  {
    c.paragraphs[0].runs[0]
  }

  // ---------------------------------------------------------------------
  // downloadTableAsDocx: the styled table and the two-block document
  // ---------------------------------------------------------------------

  function TitleParagraph(title: string): Paragraph
  {
    Paragraph([TextRun(title, true, Some(TitleSize))], Some(TitleSpacingAfter))
  }

  function StyledCell(text: string, header: bool): DocCell
  {
    DocCell(
      [Paragraph([TextRun(text, header, Some(CellTextSize))], None)],
      Some(UniformPadding),
      Some(ThinBorders),
      if header then Some(HeaderShading) else None)
  }

  /** The `Array.from(rows).map((tr, rowIndex) => ...)` table: every source
      row and cell kept in order with its text; row 0 bold and shaded, every
      other row plain and unshaded; every cell size 28, padded 200 and
      bordered on all four sides. No padding or validation of the shape. */
  function ExportTable(table: seq<SourceRow>): (t: DocTable)
    ensures |t.rows| == |table|
    ensures forall i :: 0 <= i < |table| ==> |t.rows[i].cells| == |table[i].cells|
    ensures forall i, j :: 0 <= i < |table| && 0 <= j < |table[i].cells| ==>
      var c := t.rows[i].cells[j];
      && OneRun(c)
      && Run(c).text == table[i].cells[j]
      && Run(c).bold == (i == 0)
      && Run(c).size == Some(CellTextSize)
      && c.margins == Some(UniformPadding)
      && c.borders == Some(ThinBorders)
      && c.shading == (if i == 0 then Some(HeaderShading) else None)
  {
    DocTable(seq(|table|, i requires 0 <= i < |table| =>
      DocRow(seq(|table[i].cells|, j requires 0 <= j < |table[i].cells| =>
        StyledCell(table[i].cells[j], i == 0)))))
  }

  /** The document: a single section of exactly two blocks, the bold
      title paragraph (size 36, 300 after) first, then the table. */
  function BuildDocument(table: seq<SourceRow>, title: string): (d: Document)
    ensures |d.sections| == 1 && |d.sections[0].children| == 2
    ensures d.sections[0].children[0].ParagraphBlock?
    ensures d.sections[0].children[0].paragraph.runs == [TextRun(title, true, Some(TitleSize))]
    ensures d.sections[0].children[0].paragraph.spacingAfter == Some(TitleSpacingAfter)
    ensures d.sections[0].children[1] == TableBlock(ExportTable(table))
  {
    Document([Section([ParagraphBlock(TitleParagraph(title)), TableBlock(ExportTable(table))])])
  }

  /** The two download buttons of the page. */
  datatype DownloadButton = DownloadImports | DownloadExports

  /** A button's click handler: the imports button exports its table under
      "📥 Import Records" into imports.docx, the exports button under
      "📤 Export Records" into exports.docx. */
  function OnDownloadClick(button: DownloadButton, table: seq<SourceRow>): (d: Download)
    ensures button == DownloadImports ==>
      d == Download(BuildDocument(table, "\U{1F4E5} Import Records"), "imports.docx")
    ensures button == DownloadExports ==>
      d == Download(BuildDocument(table, "\U{1F4E4} Export Records"), "exports.docx")
  {
    match button
    case DownloadImports => Download(BuildDocument(table, "\U{1F4E5} Import Records"), "imports.docx")
    case DownloadExports => Download(BuildDocument(table, "\U{1F4E4} Export Records"), "exports.docx")
  }

  /** A 2-row, 3-column table titled "Import Records" gives the title block
      and a 2 x 3 table whose first row is bold and shaded and whose second
      row is plain. */
  lemma ExportScenario()
    ensures
      var d := BuildDocument([SourceRow("THEAD", ["ID", "Name", "Qty"]), SourceRow("TBODY", ["1", "Widget", "5"])],
                             "Import Records");
      var t := d.sections[0].children[1].table;
      && d.sections[0].children[0].paragraph.runs[0].text == "Import Records"
      && |t.rows| == 2 && |t.rows[0].cells| == 3 && |t.rows[1].cells| == 3
      && Run(t.rows[0].cells[1]) == TextRun("Name", true, Some(CellTextSize))
      && t.rows[0].cells[2].shading == Some(HeaderShading)
      && Run(t.rows[1].cells[1]) == TextRun("Widget", false, Some(CellTextSize))
      && t.rows[1].cells[0].shading == None
  {
  }

  // ---------------------------------------------------------------------
  // tableToDocx: the unstyled variant, bold by THEAD membership
  // ---------------------------------------------------------------------

  function PlainCell(text: string, bold: bool): DocCell
  {
    DocCell([Paragraph([TextRun(text, bold, None)], None)], None, None, None)
  }

  /** `tableToDocx`: pushes one cell per source cell into `cells`, one row per
      source row into `rows`; a cell is bold exactly when its row's parent is
      a THEAD, whatever the row's index. */
  method TableToDocx(table: seq<SourceRow>) returns (t: DocTable)
    ensures |t.rows| == |table|
    ensures forall i :: 0 <= i < |table| ==> |t.rows[i].cells| == |table[i].cells|
    ensures forall i, j :: 0 <= i < |table| && 0 <= j < |table[i].cells| ==>
      t.rows[i].cells[j] == PlainCell(table[i].cells[j], table[i].parentTag == "THEAD")
  {
    var rows: seq<DocRow> := [];
    for r := 0 to |table|
      invariant |rows| == r
      invariant forall i :: 0 <= i < r ==> |rows[i].cells| == |table[i].cells|
      invariant forall i, j :: 0 <= i < r && 0 <= j < |table[i].cells| ==>
        rows[i].cells[j] == PlainCell(table[i].cells[j], table[i].parentTag == "THEAD")
    {
      var tr := table[r];
      var cells: seq<DocCell> := [];
      for c := 0 to |tr.cells|
        invariant |cells| == c
        invariant forall j :: 0 <= j < c ==> cells[j] == PlainCell(tr.cells[j], tr.parentTag == "THEAD")
      {
        cells := cells + [PlainCell(tr.cells[c], tr.parentTag == "THEAD")];
      }
      rows := rows + [DocRow(cells)];
    }
    t := DocTable(rows);
  }

  /** On a table whose only THEAD row is its first, both exporters agree on
      every cell's text and boldness. */
  lemma ExportersAgreeOnHeader(table: seq<SourceRow>, i: nat, j: nat)
    requires forall k :: 0 <= k < |table| ==> (table[k].parentTag == "THEAD" <==> k == 0)
    requires i < |table| && j < |table[i].cells|
    ensures OneRun(PlainCell(table[i].cells[j], table[i].parentTag == "THEAD"))
    ensures Run(ExportTable(table).rows[i].cells[j]) ==
      Run(PlainCell(table[i].cells[j], table[i].parentTag == "THEAD")).(size := Some(CellTextSize))
  {
  }
}

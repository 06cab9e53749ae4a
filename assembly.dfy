/** The document the exporter assembles from one invoice, as a value: the
    header, the dates, the two party panels, the items and transactions
    tables and the notes, in that order and separated by breaks. The
    imperative builders in module Exporter are proved to produce exactly
    these blocks. */
module Assembly {

  import opened Optional
  import opened Schema
  import opened Decimal
  import opened Layout
  import opened Styles
  import Seqs

  /** What an absent optional text field shows. */
  const Placeholder := "-"
  const CurrencyPrefix := "Rp. "
  /** The bullet glyph, kept byte for byte as the exporter writes it. */
  const BulletGlyph := "â€¢"

  function Cell(text: string, style: Style, align: Alignment, padding: Margins): Block {
    Para(Paragraph(text, style, align, padding))
  }

  /** A currency amount: the prefix, then the integer as written by Rust. */
  function Money(amount: int): (s: string)
    ensures |s| > |CurrencyPrefix| && s[..|CurrencyPrefix|] == CurrencyPrefix
    ensures s[|CurrencyPrefix|..] == IntToDecimal(amount)
  {
    CurrencyPrefix + IntToDecimal(amount)
  }

  /** The document title set before rendering. */
  function Title(number: string): (t: string)
    ensures |t| == |number| + 10 && t[..10] == "Invoice - " && t[10..] == number
  {
    "Invoice - " + number
  }

  /** The output file name, derived from the invoice number alone. */
  function FileName(number: string): (f: string)
    ensures |f| == |number| + 12
    ensures f[..8] == "invoice_" && f[8..|f| - 4] == number && f[|f| - 4..] == ".pdf"
  {
    "invoice_" + number + ".pdf"
  }

  // ---- Invoice header ------------------------------------------------------

  /** The only decision of the assembler: exact, case-sensitive comparison of
      the status with "PAID". */
  function StatusStyle(status: string, reg: Registry): (style: Style)
    ensures status == "PAID" ==> style == reg.statusPaid
    ensures status != "PAID" ==> style == reg.statusUnpaid
  {
    if status == "PAID" then reg.statusPaid else reg.statusUnpaid
  }

  /** The left header cell: the "INVOICE" label over "No. " and the number. */
  function NumberStack(inv: Invoice, reg: Registry): (b: Block)
    ensures b.VStack? && |b.elements| == 2
    ensures b.elements[0].Para? && b.elements[0].p.text == "INVOICE" && b.elements[0].p.style == reg.headerTitle
    ensures b.elements[1].Para? && b.elements[1].p.text == "No. " + inv.number && b.elements[1].p.style == reg.invNumber
  {
    VStack([Cell("INVOICE", reg.headerTitle, Left, NoPadding),
            Cell("No. " + inv.number, reg.invNumber, Left, NoPadding)])
  }

  /** A single two-column row: the title and number on the left, the status
      text right-aligned on the right. */
  function HeaderTable(inv: Invoice, reg: Registry): (b: Block)
    ensures b.Table? && b.weights == [1, 1] && b.decorator == reg.frameDecorator
    ensures |b.rows| == 1 && |b.rows[0].cells| == 2
    ensures b.rows[0].cells[0] == NumberStack(inv, reg)
    ensures b.rows[0].cells[1].Para?
    ensures var s := b.rows[0].cells[1].p;
            s.text == inv.status && s.align == Right &&
            s.style == (if inv.status == "PAID" then reg.statusPaid else reg.statusUnpaid)
  {
    Table([1, 1], reg.frameDecorator,
      [Row([NumberStack(inv, reg),
            Cell(inv.status, StatusStyle(inv.status, reg), Right, NoPadding)])])
  }

  // ---- Dates ---------------------------------------------------------------

  /** Issue, due and paid date, one line each; an absent paid date reads
      "Paid Date: -". */
  function DateStack(inv: Invoice, reg: Registry): (b: Block)
    ensures b.VStack? && |b.elements| == 3
    ensures forall k :: 0 <= k < 3 ==> b.elements[k].Para? && b.elements[k].p.style == reg.textNormal
    ensures b.elements[0].p.text == "Issue Date: " + inv.issuedate
    ensures b.elements[1].p.text == "Due Date: " + inv.duedate
    ensures inv.paiddate.None? ==> b.elements[2].p.text == "Paid Date: -"
    ensures inv.paiddate.Some? ==> b.elements[2].p.text == "Paid Date: " + inv.paiddate.value
  {
    VStack([Cell("Issue Date: " + inv.issuedate, reg.textNormal, Left, NoPadding),
            Cell("Due Date: " + inv.duedate, reg.textNormal, Left, NoPadding),
            Cell("Paid Date: " + inv.paiddate.UnwrapOr(Placeholder), reg.textNormal, Left, NoPadding)])
  }

  // ---- Bill to / bill from -------------------------------------------------

  /** One party panel: label, name, address, phone, email, always all five;
      each absent field shows the placeholder, each present one its value. */
  function PartyStack(heading: string, user: InvUser, reg: Registry): (b: Block)
    ensures b.VStack? && |b.elements| == 5
    ensures forall k :: 0 <= k < 5 ==> b.elements[k].Para?
    ensures b.elements[0].p.text == heading && b.elements[0].p.style == reg.textBig
    ensures b.elements[1].p.text == user.name
    ensures b.elements[2].p.text == (if user.address.Some? then user.address.value else "-")
    ensures b.elements[3].p.text == (if user.phone.Some? then user.phone.value else "-")
    ensures b.elements[4].p.text == (if user.email.Some? then user.email.value else "-")
  {
    VStack([Cell(heading, reg.textBig, Left, Trbl(1, 0, 1, 0)),
            Cell(user.name, reg.textNormal, Left, NoPadding),
            Cell(user.address.UnwrapOr(Placeholder), reg.textNormal, Left, Trbl(1, 5, 2, 0)),
            Cell(user.phone.UnwrapOr(Placeholder), reg.textNormal, Left, Trbl(1, 0, 1, 0)),
            Cell(user.email.UnwrapOr(Placeholder), reg.textNormal, Left, NoPadding)])
  }

  /** The recipient's panel left of the issuer's, in one unframed row. */
  function BillTable(inv: Invoice, reg: Registry): (b: Block)
    ensures b.Table? && b.weights == [1, 1] && b.decorator == Frameless
    ensures b.rows == [Row([PartyStack("Bill To:", inv.invto, reg),
                            PartyStack("Bill From:", inv.invfrom, reg)])]
  {
    Table([1, 1], Frameless,
      [Row([PartyStack("Bill To:", inv.invto, reg), PartyStack("Bill From:", inv.invfrom, reg)])])
  }

  /** The heading above a section ("Items", "Transactions", "Notes"). */
  function SectionTitle(text: string, reg: Registry): (b: Block)
    ensures b.Para? && b.p.text == text && b.p.style == reg.sectionTitle && b.p.align == Left
  {
    Cell(text, reg.sectionTitle, Left, Trbl(2, 0, 2, 0))
  }

  // ---- Items table ---------------------------------------------------------

  function HeaderCell(text: string, align: Alignment, reg: Registry): Block {
    Cell(text, reg.tableHeader, align, Trbl(2, 0, 2, 0))
  }

  /** Column headings of the items table, in the table-header style. */
  function ItemsHeaderRow(reg: Registry): (r: Row)
    ensures |r.cells| == 4 && forall k :: 0 <= k < 4 ==> r.cells[k].Para? && r.cells[k].p.style == reg.tableHeader
    ensures r.cells[0].p.text == "Description" && r.cells[1].p.text == "Quantity"
    ensures r.cells[2].p.text == "Price" && r.cells[3].p.text == "Amount"
    ensures r.cells[1].p.align == Center && r.cells[2].p.align == Right && r.cells[3].p.align == Right
  {
    Row([HeaderCell("Description", Left, reg), HeaderCell("Quantity", Center, reg),
         HeaderCell("Price", Right, reg), HeaderCell("Amount", Right, reg)])
  }

  /** One item: "- " and the description, the quantity centred, then price
      and the stored amount as currency, right-aligned. */
  function ItemRow(item: InvItem, reg: Registry): (r: Row)
    ensures |r.cells| == 4 && forall k :: 0 <= k < 4 ==> r.cells[k].Para?
    ensures r.cells[0].p.text == "- " + item.description
    ensures r.cells[1].p.text == NatToDecimal(item.quantity) && r.cells[1].p.align == Center
    ensures r.cells[2].p.text == Money(item.price) && r.cells[2].p.align == Right
    ensures r.cells[3].p.text == Money(item.amount) && r.cells[3].p.align == Right
  {
    Row([Cell("- " + item.description, reg.textNormal, Left, Trbl(2, 5, 2, 0)),
         Cell(NatToDecimal(item.quantity), reg.textNormal, Center, Trbl(2, 0, 2, 0)),
         Cell(Money(item.price), reg.textNormal, Right, Trbl(2, 0, 2, 0)),
         Cell(Money(item.amount), reg.textNormal, Right, Trbl(2, 0, 2, 0))])
  }

  function ItemRows(items: seq<InvItem>, reg: Registry): (rows: seq<Row>)
    ensures |rows| == |items|
    ensures forall i :: 0 <= i < |items| ==> rows[i] == ItemRow(items[i], reg)
  {
    Seqs.Map((item: InvItem) => ItemRow(item, reg), items)
  }

  lemma ItemRowsExtend(items: seq<InvItem>, reg: Registry, i: nat)
    requires i < |items|
    ensures ItemRows(items[..i + 1], reg) == ItemRows(items[..i], reg) + [ItemRow(items[i], reg)]
  {
    Seqs.MapExtend((item: InvItem) => ItemRow(item, reg), items, i);
  }

  /** The Sub-total and Tax rows: two empty cells, a bold caption, the value. */
  function SummaryRow(caption: string, value: U64, reg: Registry): (r: Row)
    ensures |r.cells| == 4 && r.cells[2].Para? && r.cells[3].Para?
    ensures r.cells[2].p.text == caption && r.cells[3].p.text == Money(value)
  {
    Row([Cell("", reg.textNormal, Left, Trbl(2, 5, 2, 0)),
         Cell("", reg.textNormal, Center, Trbl(2, 0, 2, 0)),
         Cell(caption, Bold(reg.textNormal), Right, Trbl(2, 0, 2, 0)),
         Cell(Money(value), reg.textNormal, Right, Trbl(2, 0, 2, 0))])
  }

  /** The Total row, whose empty cells carry no style of their own. */
  function TotalRow(value: U64, reg: Registry): (r: Row)
    ensures |r.cells| == 4 && r.cells[2].Para? && r.cells[3].Para?
    ensures r.cells[2].p.text == "Total" && r.cells[3].p.text == Money(value)
  {
    Row([Cell("", Plain, Left, Trbl(2, 5, 2, 0)),
         Cell("", Plain, Left, Trbl(2, 0, 2, 0)),
         Cell("Total", reg.textBigTotal, Right, Trbl(2, 0, 2, 0)),
         Cell(Money(value), reg.textBigTotal, Right, Trbl(2, 0, 2, 0))])
  }

  /** Sub-total, Tax and Total, each read from the record as stored. */
  /** Sub-total, Tax and Total, in that order, each read from the record. */
  function ItemsFooter(inv: Invoice, reg: Registry): (f: seq<Row>)
    ensures |f| == 3 && forall k :: 0 <= k < 3 ==> |f[k].cells| == 4 && f[k].cells[2].Para? && f[k].cells[3].Para?
    ensures f[0].cells[2].p.text == "Sub-total" && f[0].cells[3].p.text == Money(inv.subtotal)
    ensures f[1].cells[2].p.text == "Tax" && f[1].cells[3].p.text == Money(inv.tax)
    ensures f[2].cells[2].p.text == "Total" && f[2].cells[3].p.text == Money(inv.total)
  {
    [SummaryRow("Sub-total", inv.subtotal, reg), SummaryRow("Tax", inv.tax, reg), TotalRow(inv.total, reg)]
  }

  /** Header, one row per item in stored order, then Sub-total, Tax and
      Total read from the record. */
  function ItemsTable(inv: Invoice, reg: Registry): (b: Block)
    ensures b.Table? && b.weights == [3, 1, 1, 1] && b.decorator == Frameless
    ensures |b.rows| == 1 + |inv.items| + 3
    ensures b.rows[0] == ItemsHeaderRow(reg)
    ensures b.rows[1..1 + |inv.items|] == ItemRows(inv.items, reg)
    ensures b.rows[1 + |inv.items|..] == ItemsFooter(inv, reg)
  {
    var body := ItemRows(inv.items, reg);
    var footer := ItemsFooter(inv, reg);
    var rows := [ItemsHeaderRow(reg)] + body + footer;
    assert rows[1..1 + |body|] == body;
    assert rows[1 + |body|..] == footer;
    Table([3, 1, 1, 1], Frameless, rows)
  }

  // ---- Transactions table --------------------------------------------------

  /** Column headings of the transactions table, in the table-header style. */
  function TrxHeaderRow(reg: Registry): (r: Row)
    ensures |r.cells| == 3 && forall k :: 0 <= k < 3 ==> r.cells[k].Para? && r.cells[k].p.style == reg.tableHeader
    ensures r.cells[0].p.text == "Date Transaction" && r.cells[1].p.text == "ID Transaction"
    ensures r.cells[2].p.text == "Amount" && r.cells[2].p.align == Right
  {
    Row([HeaderCell("Date Transaction", Left, reg), HeaderCell("ID Transaction", Left, reg),
         HeaderCell("Amount", Right, reg)])
  }

  /** One transaction: date, id, and the amount as currency, right-aligned. */
  function TrxRow(trx: TrxItem, reg: Registry): (r: Row)
    ensures |r.cells| == 3 && forall k :: 0 <= k < 3 ==> r.cells[k].Para?
    ensures r.cells[0].p.text == trx.date && r.cells[1].p.text == trx.id
    ensures r.cells[2].p.text == Money(trx.amount) && r.cells[2].p.align == Right
  {
    Row([Cell(trx.date, reg.textNormal, Left, Trbl(2, 5, 2, 0)),
         Cell(trx.id, reg.textNormal, Left, Trbl(2, 0, 2, 0)),
         Cell(Money(trx.amount), reg.textNormal, Right, Trbl(2, 0, 2, 0))])
  }

  function TrxRows(trxs: seq<TrxItem>, reg: Registry): (rows: seq<Row>)
    ensures |rows| == |trxs|
    ensures forall i :: 0 <= i < |trxs| ==> rows[i] == TrxRow(trxs[i], reg)
  {
    Seqs.Map((trx: TrxItem) => TrxRow(trx, reg), trxs)
  }

  /** Taking one more transaction appends exactly that transaction's row. */
  lemma TrxRowsExtend(trxs: seq<TrxItem>, reg: Registry, i: nat)
    requires i < |trxs|
    ensures TrxRows(trxs[..i + 1], reg) == TrxRows(trxs[..i], reg) + [TrxRow(trxs[i], reg)]
  {
    Seqs.MapExtend((trx: TrxItem) => TrxRow(trx, reg), trxs, i);
  }

  /** The closing row: its amount is the literal "Rp. 0" whatever the
      recorded balance. */
  function BalanceRow(reg: Registry): (r: Row)
    ensures |r.cells| == 3 && r.cells[2].Para? && r.cells[2].p.text == "Rp. 0"
  {
    Row([Cell("", Plain, Left, Trbl(2, 5, 2, 0)),
         Cell("Balance", reg.textBigTotal, Right, Trbl(2, 0, 2, 0)),
         Cell("Rp. 0", reg.textBigTotal, Right, Trbl(2, 0, 2, 0))])
  }

  /** Header, one row per transaction in stored order, then the Balance row. */
  function TrxTable(inv: Invoice, reg: Registry): (b: Block)
    ensures b.Table? && b.weights == [2, 2, 1] && b.decorator == Frameless
    ensures |b.rows| == 1 + |inv.transactions.items| + 1
    ensures b.rows[0] == TrxHeaderRow(reg)
    ensures b.rows[1..1 + |inv.transactions.items|] == TrxRows(inv.transactions.items, reg)
    ensures b.rows[|b.rows| - 1] == BalanceRow(reg)
  {
    var body := TrxRows(inv.transactions.items, reg);
    var rows := [TrxHeaderRow(reg)] + body + [BalanceRow(reg)];
    assert rows[1..1 + |body|] == body;
    Table([2, 2, 1], Frameless, rows)
  }

  // ---- Notes ---------------------------------------------------------------

  /** One note as a bullet point in body text. */
  function NoteBullet(note: string, reg: Registry): (b: Block)
    ensures b.Bullet? && b.item.text == note && b.item.style == reg.textNormal && b.glyph == BulletGlyph
  {
    Bullet(Paragraph(note, reg.textNormal, Left, Trbl(1, 0, 1, 0)), BulletGlyph)
  }

  function NoteBullets(notes: seq<string>, reg: Registry): (bullets: seq<Block>)
    ensures |bullets| == |notes|
    ensures forall i :: 0 <= i < |notes| ==> bullets[i] == NoteBullet(notes[i], reg)
  {
    Seqs.Map((note: string) => NoteBullet(note, reg), notes)
  }

  lemma NoteBulletsExtend(notes: seq<string>, reg: Registry, i: nat)
    requires i < |notes|
    ensures NoteBullets(notes[..i + 1], reg) == NoteBullets(notes[..i], reg) + [NoteBullet(notes[i], reg)]
  {
    Seqs.MapExtend((note: string) => NoteBullet(note, reg), notes, i);
  }

  /** The "Notes" title, then one bullet per note in stored order; absent
      notes give the title alone. */
  function NotesStack(notes: Option<seq<string>>, reg: Registry): (b: Block)
    ensures var ns := if notes.Some? then notes.value else [];
            b.VStack? && |b.elements| == 1 + |ns| &&
            b.elements[0] == SectionTitle("Notes", reg) &&
            forall i :: 0 <= i < |ns| ==> b.elements[1 + i] == NoteBullet(ns[i], reg)
  {
    var bullets := NoteBullets(notes.UnwrapOr([]), reg);
    var elements := [SectionTitle("Notes", reg)] + bullets;
    assert forall i :: 0 <= i < |bullets| ==> elements[1 + i] == bullets[i];
    VStack(elements)
  }

  // ---- The whole document --------------------------------------------------

  /** Thirteen blocks in push order: five sections each followed by a break,
      then the Transactions title and table, a break, and the notes. */
  function Sections(header: Block, dates: Block, bill: Block, itemsTitle: Block,
                    items: Block, trxsTitle: Block, trxs: Block, notes: Block): (d: seq<Block>)
    ensures |d| == 13
    ensures d[0] == header && d[2] == dates && d[4] == bill && d[6] == itemsTitle
    ensures d[7] == items && d[9] == trxsTitle && d[10] == trxs && d[12] == notes
    ensures d[1] == Break && d[3] == Break && d[5] == Break && d[8] == Break && d[11] == Break
  {
    var d := [header] + [Break] + [dates] + [Break] + [bill] + [Break] +
             [itemsTitle] + [items] + [Break] + [trxsTitle] + [trxs] + [Break] + [notes];
    assert d == [header, Break, dates, Break, bill, Break, itemsTitle, items, Break, trxsTitle, trxs, Break, notes];
    d
  }

  /** The top-level blocks in the order they are pushed into the document:
      header, dates, bill panel, the Items title and table, the Transactions
      title and table, then the notes, with a break after each of the first
      five sections. */
  function DocumentBlocks(inv: Invoice, reg: Registry): (d: seq<Block>)
    ensures |d| == 13
    ensures d[0] == HeaderTable(inv, reg) && d[2] == DateStack(inv, reg) && d[4] == BillTable(inv, reg)
    ensures d[6] == SectionTitle("Items", reg) && d[7] == ItemsTable(inv, reg)
    ensures d[9] == SectionTitle("Transactions", reg) && d[10] == TrxTable(inv, reg)
    ensures d[12] == NotesStack(inv.notes, reg)
    ensures d[1] == Break && d[3] == Break && d[5] == Break && d[8] == Break && d[11] == Break
  {
    Sections(HeaderTable(inv, reg), DateStack(inv, reg), BillTable(inv, reg),
             SectionTitle("Items", reg), ItemsTable(inv, reg),
             SectionTitle("Transactions", reg), TrxTable(inv, reg), NotesStack(inv.notes, reg))
  }

  /** What rendering is asked to do for one invoice: the title and the file
      name both carry the invoice number, and the thirteen blocks follow. */
  function RenderSpec(inv: Invoice, reg: Registry): (job: RenderJob)
    ensures job.title == "Invoice - " + inv.number
    ensures job.fileName == "invoice_" + inv.number + ".pdf"
    ensures |job.blocks| == 13 && job.blocks[0] == HeaderTable(inv, reg) && job.blocks[12] == NotesStack(inv.notes, reg)
  {
    RenderJob(Title(inv.number), DocumentBlocks(inv, reg), FileName(inv.number))
  }
}

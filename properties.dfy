/** What the assembled document promises about the invoice it shows: the
    status styling decision, that every stored figure is shown as stored and
    can be read back, that rows and tables follow and determine the stored
    entries, that the balance never reaches the page, and that every table
    is well formed. */
module Properties {

  import opened Optional
  import opened Schema
  import opened Decimal
  import opened Layout
  import opened Styles
  import opened Assembly
  import Seqs

  // ---- Currency amounts ----------------------------------------------------

  /** A currency cell can be read back: dropping the prefix leaves a decimal
      integer that parses to the amount. */
  lemma MoneyRoundTrip(amount: int)
    ensures var digits := Money(amount)[|CurrencyPrefix|..];
            |digits| >= 1 &&
            (digits[0] == '-' ==> AllDigits(digits[1..])) &&
            (digits[0] != '-' ==> AllDigits(digits)) &&
            ParseInt(digits) == amount
  {
    ParseIntToDecimal(amount);
  }

  /** Distinct amounts never show the same text. */
  lemma MoneyInjective(a: int, b: int)
    requires Money(a) == Money(b)
    ensures a == b
  {
    IntToDecimalInjective(a, b);
  }

  /** The Balance cell's literal is the currency text of zero. */
  lemma BalanceLiteralIsZero()
    ensures Money(0) == "Rp. 0"
  {
    assert IntToDecimal(0) == NatToDecimal(0) == "0";
  }

  // ---- Header --------------------------------------------------------------

  /** With the exporter's registry the status gets the paid style exactly
      when it is "PAID", compared case-sensitively; every other text,
      "Paid" and the empty text included, gets the unpaid style. */
  lemma StatusStyleExact(inv: Invoice)
    ensures var reg := NewRegistry();
            var style := HeaderTable(inv, reg).rows[0].cells[1].p.style;
            (style == reg.statusPaid <==> inv.status == "PAID") &&
            (style == reg.statusUnpaid <==> inv.status != "PAID")
  {
  }

  /** Three concrete statuses the comparison does not accept. */
  lemma StatusNearMisses(inv: Invoice)
    requires inv.status == "Paid" || inv.status == "PAID " || inv.status == ""
    ensures HeaderTable(inv, NewRegistry()).rows[0].cells[1].p.style == NewRegistry().statusUnpaid
  {
  }

  // ---- Items ---------------------------------------------------------------

  /** An item row determines the item: description, quantity, price and
      stored amount can all be recovered from the four cells. */
  lemma ItemRowInjective(a: InvItem, b: InvItem, reg: Registry)
    requires ItemRow(a, reg) == ItemRow(b, reg)
    ensures a == b
  {
    var ra, rb := ItemRow(a, reg), ItemRow(b, reg);
    assert ("- " + a.description)[2..] == a.description;
    assert ("- " + b.description)[2..] == b.description;
    NatToDecimalInjective(a.quantity, b.quantity);
    MoneyInjective(a.price, b.price);
    MoneyInjective(a.amount, b.amount);
  }

  /** The amount cell shows the stored amount, not quantity times price:
      when the two disagree, the product is not what is shown. */
  lemma StoredAmountShown(item: InvItem, reg: Registry)
    ensures ItemRow(item, reg).cells[3].p.text == Money(item.amount)
    ensures item.amount != item.quantity * item.price ==>
              ItemRow(item, reg).cells[3].p.text != Money(item.quantity * item.price)
  {
    if Money(item.amount) == Money(item.quantity * item.price) {
      MoneyInjective(item.amount, item.quantity * item.price);
    }
  }

  /** Rows follow the stored order: the rows of a concatenation are the
      rows of its parts, one after the other. */
  lemma ItemRowsAppend(a: seq<InvItem>, b: seq<InvItem>, reg: Registry)
    ensures ItemRows(a + b, reg) == ItemRows(a, reg) + ItemRows(b, reg)
  {
    Seqs.MapAppend((item: InvItem) => ItemRow(item, reg), a, b);
  }

  /** Row `1 + i` of the items table is the row of item `i`. */
  lemma ItemsTableRow(inv: Invoice, reg: Registry, i: nat)
    requires i < |inv.items|
    ensures ItemsTable(inv, reg).rows[1 + i] == ItemRow(inv.items[i], reg)
  {
    var b := ItemsTable(inv, reg);
    assert b.rows[1 + i] == b.rows[1..1 + |inv.items|][i];
  }

  /** The three closing rows read Sub-total, Tax and Total from the record,
      whatever the items. */
  lemma ItemsTableFooter(inv: Invoice, reg: Registry)
    ensures var rows := ItemsTable(inv, reg).rows;
            var n := |inv.items|;
            rows[n + 1].cells[2].p.text == "Sub-total" && rows[n + 1].cells[3].p.text == Money(inv.subtotal) &&
            rows[n + 2].cells[2].p.text == "Tax" && rows[n + 2].cells[3].p.text == Money(inv.tax) &&
            rows[n + 3].cells[2].p.text == "Total" && rows[n + 3].cells[3].p.text == Money(inv.total)
  {
    var rows := ItemsTable(inv, reg).rows;
    var n := |inv.items|;
    var footer := ItemsFooter(inv, reg);
    assert rows[n + 1..] == footer;
    assert rows[n + 1] == footer[0] && rows[n + 2] == footer[1] && rows[n + 3] == footer[2];
  }

  /** The items table determines the stored items: same table, same items
      in the same order. */
  lemma ItemsTableDeterminesItems(a: Invoice, b: Invoice, reg: Registry)
    requires ItemsTable(a, reg) == ItemsTable(b, reg)
    ensures a.items == b.items
  {
    forall i | 0 <= i < |a.items|
      ensures a.items[i] == b.items[i]
    {
      ItemsTableRow(a, reg, i);
      ItemsTableRow(b, reg, i);
      ItemRowInjective(a.items[i], b.items[i], reg);
    }
  }

  // ---- Transactions --------------------------------------------------------

  /** A transaction row determines the transaction. */
  lemma TrxRowInjective(a: TrxItem, b: TrxItem, reg: Registry)
    requires TrxRow(a, reg) == TrxRow(b, reg)
    ensures a == b
  {
    MoneyInjective(a.amount, b.amount);
  }

  /** Row `1 + i` of the transactions table is the row of transaction `i`. */
  lemma TrxTableRow(inv: Invoice, reg: Registry, i: nat)
    requires i < |inv.transactions.items|
    ensures TrxTable(inv, reg).rows[1 + i] == TrxRow(inv.transactions.items[i], reg)
  {
    var b := TrxTable(inv, reg);
    assert b.rows[1 + i] == b.rows[1..1 + |inv.transactions.items|][i];
  }

  /** The transactions table determines the stored transactions. */
  lemma TrxTableDeterminesTransactions(a: Invoice, b: Invoice, reg: Registry)
    requires TrxTable(a, reg) == TrxTable(b, reg)
    ensures a.transactions.items == b.transactions.items
  {
    forall i | 0 <= i < |a.transactions.items|
      ensures a.transactions.items[i] == b.transactions.items[i]
    {
      TrxTableRow(a, reg, i);
      TrxTableRow(b, reg, i);
      TrxRowInjective(a.transactions.items[i], b.transactions.items[i], reg);
    }
  }

  /** The recorded balance never reaches the page: the closing cell reads
      "Rp. 0" and the whole document is the same whatever the balance. */
  lemma BalanceNeverRendered(inv: Invoice, reg: Registry, balance: U64)
    ensures var rows := TrxTable(inv, reg).rows;
            rows[|rows| - 1].cells[2].p.text == Money(0)
    ensures DocumentBlocks(inv.(transactions := inv.transactions.(balance := balance)), reg)
            == DocumentBlocks(inv, reg)
  {
    BalanceLiteralIsZero();
  }

  // ---- Notes ---------------------------------------------------------------

  /** Absent notes and an empty list of notes give the same panel: the
      title alone. */
  lemma AbsentNotesAreEmpty(reg: Registry)
    ensures NotesStack(None, reg) == NotesStack(Some([]), reg) == VStack([SectionTitle("Notes", reg)])
  {
  }

  // ---- File name and title -------------------------------------------------

  /** Distinct invoice numbers write distinct files. */
  lemma FileNameInjective(a: string, b: string)
    requires FileName(a) == FileName(b)
    ensures a == b
  {
    var f := FileName(a);
    assert a == f[8..|f| - 4];
  }

  // ---- Well-formedness ------------------------------------------------------

  /** Every row has `columns` cells and every cell is well formed. */
  predicate RowsFit(rows: seq<Row>, columns: nat) {
    forall r | r in rows :: |r.cells| == columns && forall c | c in r.cells :: WellFormed(c)
  }

  /** A row of paragraph cells, one per column. */
  lemma ParagraphRowFits(r: Row, columns: nat)
    requires |r.cells| == columns && forall k :: 0 <= k < |r.cells| ==> r.cells[k].Para?
    ensures RowsFit([r], columns)
  {
  }

  lemma RowsFitAppend(a: seq<Row>, b: seq<Row>, columns: nat)
    requires RowsFit(a, columns) && RowsFit(b, columns)
    ensures RowsFit(a + b, columns)
  {
  }

  lemma HeaderTableWellFormed(inv: Invoice, reg: Registry)
    ensures WellFormed(HeaderTable(inv, reg))
  {
    var number := NumberStack(inv, reg);
    assert forall e | e in number.elements :: e.Para?;
  }

  lemma DateStackWellFormed(inv: Invoice, reg: Registry)
    ensures WellFormed(DateStack(inv, reg))
  {
    var b := DateStack(inv, reg);
    assert forall e | e in b.elements :: e.Para?;
  }

  lemma BillTableWellFormed(inv: Invoice, reg: Registry)
    ensures WellFormed(BillTable(inv, reg))
  {
    var to, from := PartyStack("Bill To:", inv.invto, reg), PartyStack("Bill From:", inv.invfrom, reg);
    assert forall e | e in to.elements :: e.Para?;
    assert forall e | e in from.elements :: e.Para?;
    assert WellFormed(to) && WellFormed(from);
  }

  lemma ItemRowsFit(items: seq<InvItem>, reg: Registry)
    ensures RowsFit(ItemRows(items, reg), 4)
  {
    var rows := ItemRows(items, reg);
    forall r | r in rows
      ensures |r.cells| == 4 && forall c | c in r.cells :: WellFormed(c)
    {
      var k :| 0 <= k < |rows| && rows[k] == r;
      ParagraphRowFits(ItemRow(items[k], reg), 4);
    }
  }

  lemma ItemsFooterFits(inv: Invoice, reg: Registry)
    ensures RowsFit(ItemsFooter(inv, reg), 4)
  {
    var footer := ItemsFooter(inv, reg);
    forall r | r in footer
      ensures |r.cells| == 4 && forall c | c in r.cells :: WellFormed(c)
    {
      assert forall c | c in r.cells :: c.Para?;
    }
  }

  /** Every row of the items table has four cells, all paragraphs. */
  lemma ItemsTableWellFormed(inv: Invoice, reg: Registry)
    ensures WellFormed(ItemsTable(inv, reg))
  {
    var header := ItemsHeaderRow(reg);
    ParagraphRowFits(header, 4);
    ItemRowsFit(inv.items, reg);
    ItemsFooterFits(inv, reg);
    RowsFitAppend([header], ItemRows(inv.items, reg), 4);
    RowsFitAppend([header] + ItemRows(inv.items, reg), ItemsFooter(inv, reg), 4);
  }

  lemma TrxRowsFit(trxs: seq<TrxItem>, reg: Registry)
    ensures RowsFit(TrxRows(trxs, reg), 3)
  {
    var rows := TrxRows(trxs, reg);
    forall r | r in rows
      ensures |r.cells| == 3 && forall c | c in r.cells :: WellFormed(c)
    {
      var k :| 0 <= k < |rows| && rows[k] == r;
      ParagraphRowFits(TrxRow(trxs[k], reg), 3);
    }
  }

  /** Every row of the transactions table has three cells, all paragraphs. */
  lemma TrxTableWellFormed(inv: Invoice, reg: Registry)
    ensures WellFormed(TrxTable(inv, reg))
  {
    var header, balance := TrxHeaderRow(reg), BalanceRow(reg);
    ParagraphRowFits(header, 3);
    ParagraphRowFits(balance, 3);
    TrxRowsFit(inv.transactions.items, reg);
    RowsFitAppend([header], TrxRows(inv.transactions.items, reg), 3);
    RowsFitAppend([header] + TrxRows(inv.transactions.items, reg), [balance], 3);
  }

  lemma NotesStackWellFormed(notes: Option<seq<string>>, reg: Registry)
    ensures WellFormed(NotesStack(notes, reg))
  {
    var b := NotesStack(notes, reg);
    forall e | e in b.elements
      ensures WellFormed(e)
    {
      var k :| 0 <= k < |b.elements| && b.elements[k] == e;
    }
  }

  /** Every table in the document has, in every row, one cell per column,
      so none of the exporter's row pushes can be refused. */
  predicate AllWellFormed(blocks: seq<Block>) {
    forall b | b in blocks :: WellFormed(b)
  }

  lemma AllWellFormedPush(blocks: seq<Block>, b: Block)
    requires AllWellFormed(blocks) && WellFormed(b)
    ensures AllWellFormed(blocks + [b])
  {
  }

  /** Breaks and section titles are well formed, so a document whose six
      sections are well formed is well formed throughout. */
  lemma {:induction false} SectionsWellFormed(header: Block, dates: Block, bill: Block, items: Block, trxs: Block,
                           notes: Block, reg: Registry)
    requires WellFormed(header) && WellFormed(dates) && WellFormed(bill)
    requires WellFormed(items) && WellFormed(trxs) && WellFormed(notes)
    ensures AllWellFormed([header] + [Break] + [dates] + [Break] + [bill] + [Break] +
                          [SectionTitle("Items", reg)] + [items] + [Break] +
                          [SectionTitle("Transactions", reg)] + [trxs] + [Break] + [notes])
  {
    var itemsTitle, trxsTitle := SectionTitle("Items", reg), SectionTitle("Transactions", reg);
    assert WellFormed(Break) && WellFormed(itemsTitle) && WellFormed(trxsTitle);
    var s := [header];
    AllWellFormedPush(s, Break);
    s := s + [Break];
    AllWellFormedPush(s, dates);
    s := s + [dates];
    AllWellFormedPush(s, Break);
    s := s + [Break];
    AllWellFormedPush(s, bill);
    s := s + [bill];
    AllWellFormedPush(s, Break);
    s := s + [Break];
    AllWellFormedPush(s, itemsTitle);
    s := s + [itemsTitle];
    AllWellFormedPush(s, items);
    s := s + [items];
    AllWellFormedPush(s, Break);
    s := s + [Break];
    AllWellFormedPush(s, trxsTitle);
    s := s + [trxsTitle];
    AllWellFormedPush(s, trxs);
    s := s + [trxs];
    AllWellFormedPush(s, Break);
    s := s + [Break];
    AllWellFormedPush(s, notes);
  }

  /** Every table in the document has, in every row, one cell per column,
      so none of the exporter's row pushes can be refused. */
  lemma DocumentWellFormed(inv: Invoice, reg: Registry)
    ensures AllWellFormed(DocumentBlocks(inv, reg))
  {
    HeaderTableWellFormed(inv, reg);
    DateStackWellFormed(inv, reg);
    BillTableWellFormed(inv, reg);
    ItemsTableWellFormed(inv, reg);
    TrxTableWellFormed(inv, reg);
    NotesStackWellFormed(inv.notes, reg);
    SectionsWellFormed(HeaderTable(inv, reg), DateStack(inv, reg), BillTable(inv, reg),
                       ItemsTable(inv, reg), TrxTable(inv, reg), NotesStack(inv.notes, reg), reg);
  }

  // ---- Top-level order -----------------------------------------------------

  /** Thirteen blocks with breaks at 1, 3, 5, 8 and 11 and a section at
      every other index have their breaks there and nowhere else. */
  lemma BreakPositions(d: seq<Block>)
    requires |d| == 13
    requires d[1] == Break && d[3] == Break && d[5] == Break && d[8] == Break && d[11] == Break
    requires !d[0].Break? && !d[2].Break? && !d[4].Break? && !d[6].Break?
    requires !d[7].Break? && !d[9].Break? && !d[10].Break? && !d[12].Break?
    ensures forall i :: 0 <= i < |d| ==> (d[i].Break? <==> i == 1 || i == 3 || i == 5 || i == 8 || i == 11)
  {
  }

  /** The five breaks are the only breaks in the document: every other
      top-level block is a section (a table, a stack or a title). */
  lemma BreaksOnlyBetweenSections(inv: Invoice, reg: Registry)
    ensures var d := DocumentBlocks(inv, reg);
            forall i :: 0 <= i < |d| ==> (d[i].Break? <==> i == 1 || i == 3 || i == 5 || i == 8 || i == 11)
  {
    var d := DocumentBlocks(inv, reg);
    var header, dates, bill := HeaderTable(inv, reg), DateStack(inv, reg), BillTable(inv, reg);
    var itemsTitle, items := SectionTitle("Items", reg), ItemsTable(inv, reg);
    var trxsTitle, trxs := SectionTitle("Transactions", reg), TrxTable(inv, reg);
    var notes := NotesStack(inv.notes, reg);
    assert d[0] == header && d[2] == dates && d[4] == bill && d[6] == itemsTitle;
    assert d[7] == items && d[9] == trxsTitle && d[10] == trxs && d[12] == notes;
    BreakPositions(d);
  }
}

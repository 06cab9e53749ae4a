/** The exporter as the program runs it: it fills layout objects step by
    step, one commented region of `export` per builder, and pushes the
    finished blocks into a document. Each builder is proved to produce the
    block that module Assembly describes, and every `push().expect(..)` of
    the program is an `assert ok` here, so no row is ever refused. */
module Exporter {

  import opened Schema
  import opened Decimal
  import opened Layout
  import opened Styles
  import opened Assembly
  import Seqs

  class InvoiceExporter {
    const invoice: Invoice
    const styles: Registry

    /** Takes ownership of the record and builds the style registry. */
    constructor (invoice: Invoice)
      ensures this.invoice == invoice && styles == NewRegistry()
    {
      this.invoice := invoice;
      styles := NewRegistry();
    }

    /** Title and number on the left, the status on the right, the status
        style chosen by exact comparison with "PAID". */
    method BuildHeader() returns (b: Block)
      ensures b == HeaderTable(invoice, styles)
      ensures WellFormedRows(b)
    {
      var number := new LinearLayout.Vertical();
      number.Push(Cell("INVOICE", styles.headerTitle, Left, NoPadding));
      number.Push(Cell("No. " + invoice.number, styles.invNumber, Left, NoPadding));

      var table := new TableLayout([1, 1]);
      table.SetCellDecorator(styles.frameDecorator);

      var statusStyle := styles.statusUnpaid;
      if invoice.status == "PAID" {
        statusStyle := styles.statusPaid;
      }

      var row := table.Row();
      assert number.elements == NumberStack(invoice, styles).elements;
      row.PushElement(number.ToBlock());
      row.PushElement(Cell(invoice.status, statusStyle, Right, NoPadding));
      assert row.cells == HeaderTable(invoice, styles).rows[0].cells;
      var ok := row.Push();
      assert ok;
      b := table.ToBlock();
    }

    /** Issue, due and paid date; the paid date falls back to "-". */
    method BuildDates() returns (b: Block)
      ensures b == DateStack(invoice, styles)
    {
      var dates := new LinearLayout.Vertical();
      dates.Push(Cell("Issue Date: " + invoice.issuedate, styles.textNormal, Left, NoPadding));
      dates.Push(Cell("Due Date: " + invoice.duedate, styles.textNormal, Left, NoPadding));
      dates.Push(Cell("Paid Date: " + invoice.paiddate.UnwrapOr("-"), styles.textNormal, Left, NoPadding));
      b := dates.ToBlock();
    }

    /** One party's panel of five lines. */
    method BuildParty(heading: string, user: InvUser) returns (b: Block)
      ensures b == PartyStack(heading, user, styles)
    {
      var panel := new LinearLayout.Vertical();
      panel.Push(Cell(heading, styles.textBig, Left, Trbl(1, 0, 1, 0)));
      panel.Push(Cell(user.name, styles.textNormal, Left, NoPadding));
      panel.Push(Cell(user.address.UnwrapOr("-"), styles.textNormal, Left, Trbl(1, 5, 2, 0)));
      panel.Push(Cell(user.phone.UnwrapOr("-"), styles.textNormal, Left, Trbl(1, 0, 1, 0)));
      panel.Push(Cell(user.email.UnwrapOr("-"), styles.textNormal, Left, NoPadding));
      b := panel.ToBlock();
    }

    /** Recipient and issuer side by side in an unframed two-column row. */
    method BuildBill() returns (b: Block)
      ensures b == BillTable(invoice, styles)
      ensures WellFormedRows(b)
    {
      var to := BuildParty("Bill To:", invoice.invto);
      var from := BuildParty("Bill From:", invoice.invfrom);
      var table := new TableLayout([1, 1]);
      table.SetCellDecorator(Frame(false, false, false));
      var row := table.Row();
      row.PushElement(to);
      row.PushElement(from);
      assert row.cells == BillTable(invoice, styles).rows[0].cells;
      var ok := row.Push();
      assert ok;
      b := table.ToBlock();
    }

    /** The column headings of the items table. */
    method AddItemsHeader(table: TableLayout)
      requires table.Valid() && table.weights == [3, 1, 1, 1]
      modifies table
      ensures table.Valid() && table.decorator == old(table.decorator)
      ensures table.rows == old(table.rows) + [ItemsHeaderRow(styles)]
    {
      var row := table.Row();
      row.PushElement(HeaderCell("Description", Left, styles));
      row.PushElement(HeaderCell("Quantity", Center, styles));
      row.PushElement(HeaderCell("Price", Right, styles));
      row.PushElement(HeaderCell("Amount", Right, styles));
      assert row.cells == ItemsHeaderRow(styles).cells;
      var ok := row.Push();
      assert ok;
    }

    /** The row of one item, its amount copied as stored. */
    method AddItemRow(table: TableLayout, item: InvItem)
      requires table.Valid() && table.weights == [3, 1, 1, 1]
      modifies table
      ensures table.Valid() && table.decorator == old(table.decorator)
      ensures table.rows == old(table.rows) + [ItemRow(item, styles)]
    {
      var row := table.Row();
      row.PushElement(Cell("- " + item.description, styles.textNormal, Left, Trbl(2, 5, 2, 0)));
      row.PushElement(Cell(NatToDecimal(item.quantity), styles.textNormal, Center, Trbl(2, 0, 2, 0)));
      row.PushElement(Cell(Money(item.price), styles.textNormal, Right, Trbl(2, 0, 2, 0)));
      row.PushElement(Cell(Money(item.amount), styles.textNormal, Right, Trbl(2, 0, 2, 0)));
      assert row.cells == ItemRow(item, styles).cells;
      var ok := row.Push();
      assert ok;
    }

    /** The Sub-total or Tax row. */
    method AddSummaryRow(table: TableLayout, caption: string, value: U64)
      requires table.Valid() && table.weights == [3, 1, 1, 1]
      modifies table
      ensures table.Valid() && table.decorator == old(table.decorator)
      ensures table.rows == old(table.rows) + [SummaryRow(caption, value, styles)]
    {
      var row := table.Row();
      row.PushElement(Cell("", styles.textNormal, Left, Trbl(2, 5, 2, 0)));
      row.PushElement(Cell("", styles.textNormal, Center, Trbl(2, 0, 2, 0)));
      row.PushElement(Cell(caption, Bold(styles.textNormal), Right, Trbl(2, 0, 2, 0)));
      row.PushElement(Cell(Money(value), styles.textNormal, Right, Trbl(2, 0, 2, 0)));
      assert row.cells == SummaryRow(caption, value, styles).cells;
      var ok := row.Push();
      assert ok;
    }

    /** The Total row. */
    method AddTotalRow(table: TableLayout)
      requires table.Valid() && table.weights == [3, 1, 1, 1]
      modifies table
      ensures table.Valid() && table.decorator == old(table.decorator)
      ensures table.rows == old(table.rows) + [TotalRow(invoice.total, styles)]
    {
      var row := table.Row();
      row.PushElement(Cell("", Plain, Left, Trbl(2, 5, 2, 0)));
      row.PushElement(Cell("", Plain, Left, Trbl(2, 0, 2, 0)));
      row.PushElement(Cell("Total", styles.textBigTotal, Right, Trbl(2, 0, 2, 0)));
      row.PushElement(Cell(Money(invoice.total), styles.textBigTotal, Right, Trbl(2, 0, 2, 0)));
      assert row.cells == TotalRow(invoice.total, styles).cells;
      var ok := row.Push();
      assert ok;
    }

    /** One row per item, in stored order. */
    method AddItemRows(table: TableLayout)
      requires table.Valid() && table.weights == [3, 1, 1, 1]
      modifies table
      ensures table.Valid() && table.decorator == old(table.decorator)
      ensures table.rows == old(table.rows) + ItemRows(invoice.items, styles)
    {
      var items := invoice.items;
      var i := 0;
      assert items[..i] == [];
      while i < |items|
        invariant 0 <= i <= |items|
        invariant table.Valid() && table.decorator == old(table.decorator)
        invariant table.rows == old(table.rows) + ItemRows(items[..i], styles)
      {
        AddItemRow(table, items[i]);
        ItemRowsExtend(items, styles, i);
        Seqs.AppendAssoc(old(table.rows), ItemRows(items[..i], styles), [ItemRow(items[i], styles)]);
        i := i + 1;
      }
      assert items[..i] == items;
    }

    /** The Sub-total, Tax and Total rows, in that order. */
    method AddItemsFooter(table: TableLayout)
      requires table.Valid() && table.weights == [3, 1, 1, 1]
      modifies table
      ensures table.Valid() && table.decorator == old(table.decorator)
      ensures table.rows == old(table.rows) + ItemsFooter(invoice, styles)
    {
      AddSummaryRow(table, "Sub-total", invoice.subtotal);
      AddSummaryRow(table, "Tax", invoice.tax);
      AddTotalRow(table);
    }

    /** The header row, the item rows, then the Sub-total, Tax and Total
        rows. */
    method BuildItemsTable() returns (b: Block)
      ensures b == ItemsTable(invoice, styles)
      ensures WellFormedRows(b)
    {
      var table := new TableLayout([3, 1, 1, 1]);
      table.SetCellDecorator(Frame(false, false, false));
      AddItemsHeader(table);
      assert table.rows == [ItemsHeaderRow(styles)];
      AddItemRows(table);
      AddItemsFooter(table);
      b := table.ToBlock();
    }

    /** The column headings of the transactions table. */
    method AddTrxHeader(table: TableLayout)
      requires table.Valid() && table.weights == [2, 2, 1]
      modifies table
      ensures table.Valid() && table.decorator == old(table.decorator)
      ensures table.rows == old(table.rows) + [TrxHeaderRow(styles)]
    {
      var row := table.Row();
      row.PushElement(HeaderCell("Date Transaction", Left, styles));
      row.PushElement(HeaderCell("ID Transaction", Left, styles));
      row.PushElement(HeaderCell("Amount", Right, styles));
      assert row.cells == TrxHeaderRow(styles).cells;
      var ok := row.Push();
      assert ok;
    }

    /** The row of one transaction. */
    method AddTrxRow(table: TableLayout, trx: TrxItem)
      requires table.Valid() && table.weights == [2, 2, 1]
      modifies table
      ensures table.Valid() && table.decorator == old(table.decorator)
      ensures table.rows == old(table.rows) + [TrxRow(trx, styles)]
    {
      var row := table.Row();
      row.PushElement(Cell(trx.date, styles.textNormal, Left, Trbl(2, 5, 2, 0)));
      row.PushElement(Cell(trx.id, styles.textNormal, Left, Trbl(2, 0, 2, 0)));
      row.PushElement(Cell(Money(trx.amount), styles.textNormal, Right, Trbl(2, 0, 2, 0)));
      assert row.cells == TrxRow(trx, styles).cells;
      var ok := row.Push();
      assert ok;
    }

    /** The Balance row, whose amount is a fixed literal. */
    method AddBalanceRow(table: TableLayout)
      requires table.Valid() && table.weights == [2, 2, 1]
      modifies table
      ensures table.Valid() && table.decorator == old(table.decorator)
      ensures table.rows == old(table.rows) + [BalanceRow(styles)]
    {
      var row := table.Row();
      row.PushElement(Cell("", Plain, Left, Trbl(2, 5, 2, 0)));
      row.PushElement(Cell("Balance", styles.textBigTotal, Right, Trbl(2, 0, 2, 0)));
      row.PushElement(Cell("Rp. 0", styles.textBigTotal, Right, Trbl(2, 0, 2, 0)));
      assert row.cells == BalanceRow(styles).cells;
      var ok := row.Push();
      assert ok;
    }

    /** One row per transaction, in stored order. */
    method AddTrxRows(table: TableLayout)
      requires table.Valid() && table.weights == [2, 2, 1]
      modifies table
      ensures table.Valid() && table.decorator == old(table.decorator)
      ensures table.rows == old(table.rows) + TrxRows(invoice.transactions.items, styles)
    {
      var trxs := invoice.transactions.items;
      var i := 0;
      assert trxs[..i] == [];
      while i < |trxs|
        invariant 0 <= i <= |trxs|
        invariant table.Valid() && table.decorator == old(table.decorator)
        invariant table.rows == old(table.rows) + TrxRows(trxs[..i], styles)
      {
        AddTrxRow(table, trxs[i]);
        TrxRowsExtend(trxs, styles, i);
        Seqs.AppendAssoc(old(table.rows), TrxRows(trxs[..i], styles), [TrxRow(trxs[i], styles)]);
        i := i + 1;
      }
      assert trxs[..i] == trxs;
    }

    /** The header row, the transaction rows, then the Balance row. */
    method BuildTrxTable() returns (b: Block)
      ensures b == TrxTable(invoice, styles)
      ensures WellFormedRows(b)
    {
      var table := new TableLayout([2, 2, 1]);
      table.SetCellDecorator(Frame(false, false, false));
      AddTrxHeader(table);
      assert table.rows == [TrxHeaderRow(styles)];
      AddTrxRows(table);
      AddBalanceRow(table);
      b := table.ToBlock();
    }

    /** The "Notes" title, then one bullet per note; absent notes are an
        empty list. */
    method BuildNotes() returns (b: Block)
      ensures b == NotesStack(invoice.notes, styles)
    {
      var notes := invoice.notes.UnwrapOr([]);
      var stack := new LinearLayout.Vertical();
      stack.Push(Cell("Notes", styles.sectionTitle, Left, Trbl(2, 0, 2, 0)));

      var i := 0;
      assert notes[..i] == [];
      while i < |notes|
        invariant 0 <= i <= |notes|
        invariant stack.elements == [SectionTitle("Notes", styles)] + NoteBullets(notes[..i], styles)
      {
        stack.Push(Bullet(Paragraph(notes[i], styles.textNormal, Left, Trbl(1, 0, 1, 0)), "â€¢"));
        NoteBulletsExtend(notes, styles, i);
        i := i + 1;
      }
      assert notes[..i] == notes;
      b := stack.ToBlock();
    }

    /** Assembles the whole document and returns what is handed to the
        renderer: the title, the thirteen top-level blocks in order and
        the output file name. */
    method Export() returns (job: RenderJob)
      ensures job == RenderSpec(invoice, styles)
    {
      var doc := new Document();
      doc.SetTitle(Title(invoice.number));

      var header := BuildHeader();
      doc.Push(header);
      assert doc.elements == [header];
      doc.Push(Break);

      var dates := BuildDates();
      doc.Push(dates);
      doc.Push(Break);

      var bill := BuildBill();
      doc.Push(bill);
      doc.Push(Break);

      doc.Push(Cell("Items", styles.sectionTitle, Left, Trbl(2, 0, 2, 0)));
      var items := BuildItemsTable();
      doc.Push(items);
      doc.Push(Break);

      doc.Push(Cell("Transactions", styles.sectionTitle, Left, Trbl(2, 0, 2, 0)));
      var trxs := BuildTrxTable();
      doc.Push(trxs);
      doc.Push(Break);

      var notes := BuildNotes();
      doc.Push(notes);

      job := doc.RenderRequest(FileName(invoice.number));
    }
  }
}

# Invoice document assembly

This project models how the invoice PDF generator turns one `Invoice` record
into the tree of layout blocks it hands to the PDF renderer. `InvoiceExporter::new`
fills a fixed registry of styles. `InvoiceExporter::export` then does the following:

- sets the document title `Invoice - <number>`;
- pushes thirteen top-level blocks in a fixed order:
  - the header panel (the `INVOICE` label, the number, and the status styled paid or unpaid);
  - the dates (issue, due and paid date);
  - the two-column Bill To / Bill From panel;
  - the Items title and the four-column items table with its Sub-total, Tax and Total rows;
  - the Transactions title and the three-column transactions table with its Balance row;
  - the Notes stack, with breaks in between;
- asks for the file `invoice_<number>.pdf`.

Modules:

- `Schema` holds the record types.
- `Styles` holds the registry.
- `Layout` models the layout library's builders:
  - `TableLayout` and `TableRow`, whose `Push` refuses a row that does not have one cell per column;
  - `LinearLayout`;
  - `Document`.
- `Assembly` gives, for each section, a function that states the block the section must become. Its contracts carry:
  - the placeholders for absent fields (`DateStack`, `PartyStack`);
  - the row counts and row order of the two tables (`ItemsTable`, `TrxTable`);
  - the fixed top-level order (`DocumentBlocks`).
- `Exporter.InvoiceExporter` is the exporter. Its methods build each section step by step, the way the source does. Each method is proved to produce that section's specification block, and `Export` is proved to produce the whole render request.
- `Properties` proves what the document promises about the record:
  - the exact-match status rule;
  - amounts shown as stored and readable back;
  - tables that determine the stored items and transactions;
  - the balance that never reaches the page;
  - one cell per column in every row of every table;
  - breaks only between sections.
- `Decimal` models Rust's `Display` of integers, together with a parser and the round trip.
- `Seqs` and `Optional` are small helpers.

The Balance row's amount cell is the literal `Rp. 0`, whatever the stored
`transactions.balance` holds. The model keeps this literal, so the stored
balance is never shown (`Properties.BalanceNeverRendered`).

## Model

| member | source | states |
|---|---|---|
| Styles.NewRegistry | src/main.rs:90-104 | The paid and unpaid status styles are distinct bold 20-point styles that differ only in colour. The headings are bold, body text is plain 9-point, and table cells use an unframed decorator. |
| Exporter.InvoiceExporter.constructor | src/main.rs:90-104 | The exporter keeps the invoice and starts with the registry `new` builds. |
| Assembly.Title | src/main.rs:116-121 | The document title is `Invoice - ` followed by the invoice number. |
| Assembly.FileName | src/main.rs:533 | The output file is `invoice_` + number + `.pdf`. |
| Assembly.Money | src/main.rs:339-345 | A currency text is the prefix `Rp. ` followed by the decimal text of the amount. |
| Assembly.StatusStyle | src/main.rs:146-149 | The status `PAID` selects the paid style. Any other status selects the unpaid style. |
| Assembly.NumberStack | src/main.rs:128-141 | Two lines: `INVOICE` in the header-title style, then `No. ` + number in the number style. |
| Assembly.HeaderTable | src/main.rs:128-159 | A `[1,1]` table with one row. Cell 1 is the number stack. Cell 2 is the status text, right-aligned, in the paid style exactly when the status equals `PAID`. |
| Exporter.InvoiceExporter.BuildHeader | src/main.rs:128-159 | Building the header step by step, with its single row push, yields `HeaderTable`. Every row of the result has one cell per column. |
| Assembly.DateStack | src/main.rs:165-198 | Three body-text lines: issue date, due date, and paid date. The paid date shows `Paid Date: -` when absent. |
| Exporter.InvoiceExporter.BuildDates | src/main.rs:165-198 | Pushing the three date lines yields `DateStack`. |
| Assembly.PartyStack | src/main.rs:204-270 | Exactly five entries: heading, name, address, phone, email. Each absent optional field shows `-`. |
| Exporter.InvoiceExporter.BuildParty | src/main.rs:204-270 | Pushing the five lines of one party yields `PartyStack`. |
| Assembly.BillTable | src/main.rs:272-282 | An unframed `[1,1]` table whose single row is the Bill To panel and then the Bill From panel. |
| Exporter.InvoiceExporter.BuildBill | src/main.rs:204-282 | Building both panels and pushing them as one row yields `BillTable`. Every row of the result has one cell per column. |
| Assembly.SectionTitle | src/main.rs:288-292 | A left-aligned paragraph with the given text in the section-title style. It is used for the Items title here, and also for Transactions (435-439) and Notes (512-516). |
| Assembly.ItemsHeaderRow | src/main.rs:298-322 | Four cells in the table-header style: `Description`, then `Quantity` centred, then `Price` and `Amount` right-aligned. |
| Assembly.ItemRow | src/main.rs:324-352 | Four cells: `- ` + description, the quantity centred, then price and stored amount as currency texts, both right-aligned. |
| Assembly.ItemRows | src/main.rs:324-352 | One row per item, in stored order. |
| Assembly.ItemRowsExtend | src/main.rs:324-352 | Taking one more item appends exactly that item's row. |
| Assembly.SummaryRow | src/main.rs:354-404 | Four cells. The caption is in cell 3 and the currency text of the given field value in cell 4. |
| Assembly.TotalRow | src/main.rs:406-427 | Four cells. `Total` is in cell 3 and the currency text of the total in cell 4. |
| Assembly.ItemsFooter | src/main.rs:354-427 | Three rows of four cells, in this order: `Sub-total`, `Tax` and `Total`. Each shows the currency text of the record's `subtotal`, `tax` or `total`. |
| Assembly.ItemsTable | src/main.rs:294-429 | An unframed `[3,1,1,1]` table with `1 + n + 3` rows: the header, the item rows in stored order, then Sub-total, Tax and Total. |
| Exporter.InvoiceExporter.AddItemsHeader | src/main.rs:298-322 | Appends exactly the items header row and keeps every row one cell per column. |
| Exporter.InvoiceExporter.AddItemRow | src/main.rs:326-350 | Appends exactly the row of the given item. |
| Exporter.InvoiceExporter.AddItemRows | src/main.rs:324-352 | The loop appends the rows of all items, in stored order. |
| Exporter.InvoiceExporter.AddSummaryRow | src/main.rs:354-404 | Appends exactly the summary row for the caption and value. |
| Exporter.InvoiceExporter.AddTotalRow | src/main.rs:406-427 | Appends exactly the Total row. |
| Exporter.InvoiceExporter.AddItemsFooter | src/main.rs:354-427 | Appends Sub-total, Tax and Total, in that order. |
| Exporter.InvoiceExporter.BuildItemsTable | src/main.rs:294-429 | Building the items table step by step yields `ItemsTable`. Every row of the result has one cell per column. |
| Assembly.TrxHeaderRow | src/main.rs:444-461 | Three cells in the table-header style: `Date Transaction`, `ID Transaction`, then `Amount` right-aligned. |
| Assembly.TrxRow | src/main.rs:463-484 | Three cells: date, id, and the currency text of the amount, which is right-aligned. |
| Assembly.TrxRows | src/main.rs:463-484 | One row per transaction, in stored order. |
| Assembly.TrxRowsExtend | src/main.rs:463-484 | Taking one more transaction appends exactly its row. |
| Assembly.BalanceRow | src/main.rs:486-503 | Three cells. The amount cell is the literal `Rp. 0`. |
| Assembly.TrxTable | src/main.rs:440-505 | An unframed `[2,2,1]` table with `1 + n + 1` rows: the header, the transaction rows in stored order, then the Balance row. |
| Exporter.InvoiceExporter.AddTrxHeader | src/main.rs:444-461 | Appends exactly the transactions header row. |
| Exporter.InvoiceExporter.AddTrxRow | src/main.rs:465-483 | Appends exactly the row of the given transaction. |
| Exporter.InvoiceExporter.AddTrxRows | src/main.rs:463-484 | The loop appends the rows of all transactions, in stored order. |
| Exporter.InvoiceExporter.AddBalanceRow | src/main.rs:486-503 | Appends exactly the Balance row. |
| Exporter.InvoiceExporter.BuildTrxTable | src/main.rs:440-505 | Building the transactions table step by step yields `TrxTable`. Every row of the result has one cell per column. |
| Assembly.NoteBullet | src/main.rs:520-526 | A bullet with the note's text in body style and the source's glyph. |
| Assembly.NoteBullets | src/main.rs:518-527 | One bullet per note, in stored order. |
| Assembly.NoteBulletsExtend | src/main.rs:518-527 | Taking one more note appends exactly its bullet. |
| Assembly.NotesStack | src/main.rs:510-529 | A stack with the `Notes` title first, then one bullet per note in stored order. Absent notes give the title alone. |
| Exporter.InvoiceExporter.BuildNotes | src/main.rs:510-529 | The loop over the notes (none when absent) yields `NotesStack`. |
| Exporter.InvoiceExporter.Export | src/main.rs:106-535 | The render request has the title `Invoice - <number>`, the thirteen blocks of `DocumentBlocks` in push order, and the file `invoice_<number>.pdf`. |
| Layout.TableRow.Push | src/main.rs:158 | A row is appended exactly when it has one cell per column. Otherwise it is refused and the table is unchanged. |
| Decimal.NatToDecimal | src/main.rs:333 | The decimal text of a natural number is a non-empty string of digits with no leading zero. |
| Decimal.IntToDecimal | src/main.rs:339-345 | The decimal text of an integer starts with `-` exactly when it is negative. Otherwise it is the natural number's text. |
| Decimal.ParseNatToDecimal | src/main.rs:333 | Parsing the decimal text of `n` gives back `n`. |
| Decimal.ParseIntToDecimal | src/main.rs:339-345 | Parsing the decimal text of an integer, sign included, gives it back. |
| Decimal.NatToDecimalInjective | src/main.rs:333 | Distinct naturals have distinct decimal texts. |
| Decimal.IntToDecimalInjective | src/main.rs:339-345 | Distinct integers have distinct decimal texts. |
| Properties.MoneyRoundTrip | src/main.rs:339-345 | Dropping the `Rp. ` prefix from a currency text leaves digits, optionally signed, that parse back to the amount. |
| Properties.MoneyInjective | src/main.rs:339-345 | Distinct amounts never show the same currency text. |
| Properties.BalanceLiteralIsZero | src/main.rs:498 | The Balance literal `Rp. 0` is the currency text of zero. |
| Properties.StatusStyleExact | src/main.rs:146-149 | With the exporter's registry, the status gets the paid style if and only if the status is exactly `PAID`, and the unpaid style otherwise. |
| Properties.StatusNearMisses | src/main.rs:146-149 | `Paid`, `PAID ` and the empty text all get the unpaid style. |
| Properties.ItemRowInjective | src/main.rs:324-352 | An item row determines its item: description, quantity, price and amount. |
| Properties.StoredAmountShown | src/main.rs:345 | The amount cell shows the stored amount. When it differs from quantity × price, the product is not what is shown. |
| Properties.ItemRowsAppend | src/main.rs:324-352 | The rows of a concatenation of item lists are the rows of each part, in order. |
| Properties.ItemsTableRow | src/main.rs:324-352 | Row `1 + i` of the items table is the row of item `i`. |
| Properties.ItemsTableFooter | src/main.rs:354-427 | Rows `n+1`, `n+2` and `n+3` read Sub-total, Tax and Total, with the record's `subtotal`, `tax` and `total` as currency texts. |
| Properties.ItemsTableDeterminesItems | src/main.rs:294-429 | Two invoices with the same items table have the same items, in the same order. |
| Properties.TrxRowInjective | src/main.rs:463-484 | A transaction row determines the transaction. |
| Properties.TrxTableRow | src/main.rs:463-484 | Row `1 + i` of the transactions table is the row of transaction `i`. |
| Properties.TrxTableDeterminesTransactions | src/main.rs:440-505 | Two invoices with the same transactions table have the same transactions, in the same order. |
| Properties.BalanceNeverRendered | src/main.rs:486-503 | The last cell of the transactions table is the currency text of zero. Changing the stored balance leaves the whole document unchanged. |
| Properties.AbsentNotesAreEmpty | src/main.rs:518 | Absent notes and an empty list of notes give the same stack: the title alone. |
| Properties.FileNameInjective | src/main.rs:533 | Distinct invoice numbers give distinct file names. |
| Properties.ParagraphRowFits | src/main.rs:143-158 | A row of plain paragraphs is well formed when its cell count matches the column count. |
| Properties.RowsFitAppend | src/main.rs:294-427 | Concatenating rows that fit a table gives rows that fit it. |
| Properties.HeaderTableWellFormed | src/main.rs:143-158 | The header table's row has one cell per column, so its push cannot fail. |
| Properties.DateStackWellFormed | src/main.rs:165-198 | The date stack is well formed. |
| Properties.BillTableWellFormed | src/main.rs:272-280 | The bill table's row has one cell per column. |
| Properties.ItemRowsFit | src/main.rs:324-352 | Every item row has four cells. |
| Properties.ItemsFooterFits | src/main.rs:354-427 | The three summary rows have four cells each. |
| Properties.ItemsTableWellFormed | src/main.rs:294-429 | Every row of the items table has one cell per column, for any invoice. |
| Properties.TrxRowsFit | src/main.rs:463-484 | Every transaction row has three cells. |
| Properties.TrxTableWellFormed | src/main.rs:440-505 | Every row of the transactions table has one cell per column, for any invoice. |
| Properties.NotesStackWellFormed | src/main.rs:510-529 | The notes stack is well formed. |
| Properties.AllWellFormedPush | src/main.rs:159-529 | Pushing a well-formed block onto well-formed blocks keeps them all well formed. |
| Properties.SectionsWellFormed | src/main.rs:159-529 | The thirteen top-level blocks are well formed when each section is. |
| Properties.DocumentWellFormed | src/main.rs:143-529 | Every table in the document, for every invoice, has one cell per column in every row. |
| Assembly.DocumentBlocks | src/main.rs:128-529 | The document has exactly thirteen blocks in this order: header, break, dates, break, bill table, break, Items title, items table, break, Transactions title, transactions table, break, notes. |
| Assembly.RenderSpec | src/main.rs:116-533 | The render request's title is `Invoice - ` + number and its file name `invoice_` + number + `.pdf`. It holds thirteen blocks, from the header table to the notes stack. |
| Properties.BreaksOnlyBetweenSections | src/main.rs:159-528 | The document's breaks are at positions 1, 3, 5, 8 and 11 and nowhere else. Every other block is a section. |

## Left out

- Loading the record from `invoice.json` (`Invoice::new`, src/main.rs:59-72). This is file I/O and JSON decoding. The model starts from an `Invoice` value.
- Fonts and the page set-up: loading the font family, `Document::new`, and the page decorator with its margins. They only affect rendering.
- Rendering and writing the PDF (`render_to_file`), the `main` driver, and its closing console message. The model ends at the render request: title, blocks and file name.
- Break heights. A `Break` is an opaque marker, because the renderer only uses the heights for spacing.
- The `src/invoice` and `src/transaction` modules. These are parallel definitions of the same records and are not part of this model.
- The layout library itself. Tables, rows, stacks and documents are modelled only as far as `export` relies on them: a row push is refused on a cell-count mismatch, and otherwise blocks are appended in order. Padding values are kept as data; nothing about their rendering is modelled.
- Font metrics, line wrapping and page breaking, which belong to rendering.
- The bullet glyph. It is kept as the opaque three-character literal the source passes, not as a decoded character.
- Layout.TableRow.Push: returns `false` where the source's `push().expect(...)` would panic. Every call site in `Exporter` has a verified `assert ok` right after the push, so no push is refused for any invoice. `Exporter.InvoiceExporter.Export` is then proved equal to `RenderSpec`, whose tables have the stated row counts.
- Integer widths (`u8`, `u64`, `i64`) are recorded as bounded subset types. No arithmetic is performed on them, so wrap-around does not arise.

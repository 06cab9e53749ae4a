/** The invoice record as it is read from `invoice.json`: the parties, the line
    items, the payment transactions and the notes. Integer widths follow the
    record's field types (u8, u64, i64). */
module Schema {

  import opened Optional

  type U8 = n: nat | n < 0x100
  type U64 = n: nat | n < 0x1_0000_0000_0000_0000
  type I64 = i: int | -0x8000_0000_0000_0000 <= i < 0x8000_0000_0000_0000

  /** A party of the invoice: only the name is required. */
  datatype InvUser = InvUser(
    name: string,
    address: Option<string>,
    phone: Option<string>,
    email: Option<string>)

  /** One payment transaction. */
  datatype TrxItem = TrxItem(id: string, date: string, amount: U64)

  /** The payment history together with the stored balance. */
  datatype Trx = Trx(balance: U64, items: seq<TrxItem>)

  /** One line item. `amount` is stored, not derived from quantity and price. */
  datatype InvItem = InvItem(description: string, quantity: U8, price: I64, amount: I64)

  datatype Invoice = Invoice(
    number: string,
    status: string,
    issuedate: string,
    duedate: string,
    paiddate: Option<string>,
    subtotal: U64,
    tax: U64,
    total: U64,
    items: seq<InvItem>,
    transactions: Trx,
    invto: InvUser,
    invfrom: InvUser,
    notes: Option<seq<string>>)
}

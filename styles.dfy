/** The style registry the exporter is constructed with: one fixed style per
    role, plus the frameless cell decorator shared by the tables. */
module Styles {

  import opened Optional
  import opened Layout

  datatype Registry = Registry(
    headerTitle: Style,
    invNumber: Style,
    statusUnpaid: Style,
    statusPaid: Style,
    tableHeader: Style,
    textNormal: Style,
    textBig: Style,
    textBigTotal: Style,
    sectionTitle: Style,
    frameDecorator: CellDecorator)

  /** The registry as `InvoiceExporter::new` fills it. The two status styles
      are bold 20-point text that differs only in colour, the headings are
      bold, body text is plain 9-point, and table cells are unframed. */
  function NewRegistry(): (r: Registry)
    ensures r.statusPaid != r.statusUnpaid
    ensures r.statusPaid == r.statusUnpaid.(color := r.statusPaid.color)
    ensures r.statusPaid.bold && r.statusPaid.fontSize == Some(20)
    ensures r.headerTitle.bold && r.tableHeader.bold && r.textBig.bold
    ensures r.textBigTotal.bold && r.sectionTitle.bold
    ensures !r.textNormal.bold && r.textNormal.fontSize == Some(9)
    ensures r.frameDecorator == Frameless
  {
    Registry(
      headerTitle := WithFontSize(Bold(Plain), 40),
      invNumber := WithFontSize(Plain, 11),
      statusUnpaid := WithFontSize(Bold(WithColor(Plain, Rgb(190, 48, 48))), 20),
      statusPaid := WithFontSize(Bold(WithColor(Plain, Rgb(62, 142, 126))), 20),
      tableHeader := WithFontSize(Bold(WithColor(Plain, Rgb(146, 154, 171))), 11),
      textNormal := WithFontSize(Plain, 9),
      textBig := WithFontSize(Bold(Plain), 11),
      textBigTotal := WithColor(WithFontSize(Bold(Plain), 11), Rgb(82, 97, 107)),
      sectionTitle := WithFontSize(Bold(Plain), 20),
      frameDecorator := Frame(false, false, false))
  }
}

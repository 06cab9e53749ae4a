/** The layout elements of the PDF library the assembler builds with, as
    values: styled paragraphs, vertical stacks, weighted tables, bullet points
    and breaks; and, as objects, the mutable builders the assembler pushes
    into (tables with their row builder, vertical layouts, the document). */
module Layout {

  import opened Optional

  datatype Alignment = Left | Center | Right

  /** Padding around an element, in the order top, right, bottom, left. */
  datatype Margins = Trbl(top: nat, right: nat, bottom: nat, left: nat)

  const NoPadding := Trbl(0, 0, 0, 0)

  datatype Color = Rgb(r: nat, g: nat, b: nat)

  /** A text style: weight, font size and colour, each left to the
      surrounding style until set. */
  datatype Style = Style(bold: bool, fontSize: Option<nat>, color: Option<Color>)

  /** A style that sets nothing (`Style::new()`). */
  const Plain := Style(false, None, None)

  function Bold(s: Style): Style { s.(bold := true) }
  function WithFontSize(s: Style, size: nat): Style { s.(fontSize := Some(size)) }
  function WithColor(s: Style, c: Color): Style { s.(color := Some(c)) }

  /** How table cells are framed: not at all, or by a frame decorator with
      its inner, outer and continuation lines switched on or off. */
  datatype CellDecorator = NoDecorator | Frame(inner: bool, outer: bool, cont: bool)

  const Frameless := Frame(false, false, false)

  /** A text run with its style, alignment (default left) and padding. */
  datatype Paragraph = Paragraph(text: string, style: Style, align: Alignment, padding: Margins)

  /** One node of the document tree. A break's height is not modelled. */
  datatype Block =
    | Para(p: Paragraph)
    | VStack(elements: seq<Block>)
    | Table(weights: seq<nat>, decorator: CellDecorator, rows: seq<Row>)
    | Bullet(item: Paragraph, glyph: string)
    | Break

  /** One table row: its cells from the first column to the last. */
  datatype Row = Row(cells: seq<Block>)

  /** Every table in the tree has, in every row, one cell per column weight. */
  predicate WellFormed(b: Block) {
    match b
    case Para(_) => true
    case Bullet(_, _) => true
    case Break => true
    case VStack(elements) => forall e | e in elements :: WellFormed(e)
    case Table(weights, _, rows) =>
      forall r | r in rows :: |r.cells| == |weights| && forall c | c in r.cells :: WellFormed(c)
  }

  /** A table under construction: fixed column weights, a decorator and the
      rows pushed so far. */
  class TableLayout {
    const weights: seq<nat>
    var decorator: CellDecorator
    var rows: seq<Row>

    /** Every pushed row has as many cells as there are columns. */
    ghost predicate Valid()
      reads this
    {
      forall r | r in rows :: |r.cells| == |weights|
    }

    constructor (weights: seq<nat>)
      ensures Valid()
      ensures this.weights == weights && decorator == NoDecorator && rows == []
    {
      this.weights := weights;
      decorator := NoDecorator;
      rows := [];
    }

    method SetCellDecorator(d: CellDecorator)
      modifies this
      ensures decorator == d && rows == old(rows)
    {
      decorator := d;
    }

    /** Starts a new, empty row of this table. */
    method Row() returns (row: TableRow)
      ensures fresh(row) && row.table == this && row.cells == []
    {
      row := new TableRow(this);
    }

    function ToBlock(): (b: Block)
      reads this
      ensures Valid() ==> WellFormedRows(b)
    {
      Table(weights, decorator, rows)
    }
  }

  /** The arity half of `WellFormed`, for a table whose cells are not
      inspected. */
  predicate WellFormedRows(b: Block) {
    b.Table? && forall r | r in b.rows :: |r.cells| == |b.weights|
  }

  /** A row being filled cell by cell before it is pushed into its table. */
  class TableRow {
    const table: TableLayout
    var cells: seq<Block>

    constructor (table: TableLayout)
      ensures this.table == table && cells == []
    {
      this.table := table;
      cells := [];
    }

    method PushElement(b: Block)
      modifies this
      ensures cells == old(cells) + [b]
    {
      cells := cells + [b];
    }

    /** Appends the row to its table; refused, leaving the table as it was,
        unless the row has exactly one cell per column. */
    method Push() returns (ok: bool)
      requires table.Valid()
      modifies table
      ensures table.Valid()
      ensures ok <==> |cells| == |table.weights|
      ensures table.rows == if ok then old(table.rows) + [Row(cells)] else old(table.rows)
      ensures table.decorator == old(table.decorator)
    {
      ok := |cells| == |table.weights|;
      if ok {
        table.rows := table.rows + [Row(cells)];
      }
    }
  }

  /** A vertical stack under construction. */
  class LinearLayout {
    var elements: seq<Block>

    constructor Vertical()
      ensures elements == []
    {
      elements := [];
    }

    method Push(b: Block)
      modifies this
      ensures elements == old(elements) + [b]
    {
      elements := elements + [b];
    }

    function ToBlock(): (b: Block)
      reads this
      ensures b.VStack? && b.elements == elements
    {
      VStack(elements)
    }
  }

  /** What is handed to the renderer: the document title, its top-level
      blocks in order and the name of the file to write. */
  datatype RenderJob = RenderJob(title: string, blocks: seq<Block>, fileName: string)

  /** The document being assembled. Its font family and page decorator only
      matter to rendering and are not modelled. */
  class Document {
    var title: string
    var elements: seq<Block>

    constructor ()
      ensures title == "" && elements == []
    {
      title := "";
      elements := [];
    }

    method SetTitle(t: string)
      modifies this
      ensures title == t && elements == old(elements)
    {
      title := t;
    }

    method Push(b: Block)
      modifies this
      ensures elements == old(elements) + [b] && title == old(title)
    {
      elements := elements + [b];
    }

    /** The request `render_to_file` passes on for the given file name. */
    function RenderRequest(fileName: string): (job: RenderJob)
      reads this
      ensures job.blocks == elements && job.title == title && job.fileName == fileName
    {
      RenderJob(title, elements, fileName)
    }
  }
}

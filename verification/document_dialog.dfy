/**
 * The "New Delivery" and "New Receipt" dialogs. Both keep a header (reference,
 * counterparty, warehouse, notes, date) and an ordered list of product lines that
 * the user edits by position; saving validates the form and, when it passes, builds
 * one header row with status "draft" and one line row per line.
 * The two dialogs differ only in the counterparty (customer or supplier) and the
 * tables written, so one model serves both, parameterised by `DocKind`.
 */
module DocumentDialog {
  import opened Wrappers
  import opened Seqs

  datatype DocKind = Delivery | Receipt

  /** The status every new document is inserted with. */
  const DraftStatus: string := "draft"

  /** One product line of the form: product id, quantity and unit price. */
  datatype Line = Line(productId: string, quantity: int, unitPrice: real)

  /** The line that "Add Product" appends: no product chosen yet, quantity 1, price 0. */
  const DefaultLine: Line := Line("", 1, 0.0)

  /** One call of `updateLine(index, field, value)`: the field, with a value of that field's type. */
  datatype LineEdit =
    | SetProduct(productId: string)
    | SetQuantity(quantity: int)
    | SetUnitPrice(unitPrice: real)

  /** `{ ...line, [field]: value }`: the named field takes the value, the other two are kept. */
  function ApplyEdit(l: Line, e: LineEdit): (r: Line)
    ensures e.SetProduct? ==> r.productId == e.productId && r.quantity == l.quantity && r.unitPrice == l.unitPrice
    ensures e.SetQuantity? ==> r.productId == l.productId && r.quantity == e.quantity && r.unitPrice == l.unitPrice
    ensures e.SetUnitPrice? ==> r.productId == l.productId && r.quantity == l.quantity && r.unitPrice == e.unitPrice
  {
    match e
    case SetProduct(id) => l.(productId := id)
    case SetQuantity(q) => l.(quantity := q)
    case SetUnitPrice(p) => l.(unitPrice := p)
  }

  /** The line list after `updateLine(index, ...)`: only position `index` changes. */
  function UpdateAt(lines: seq<Line>, index: nat, e: LineEdit): (r: seq<Line>)
    requires index < |lines|
    ensures |r| == |lines|
    ensures forall j :: 0 <= j < |lines| && j != index ==> r[j] == lines[j]
    ensures r[index] == ApplyEdit(lines[index], e)
  {
    lines[index := ApplyEdit(lines[index], e)]
  }

  /** Everything the form holds, as one value. */
  datatype FormFields = FormFields(
    kind: DocKind,
    reference: string,
    counterparty: string,
    warehouseId: string,
    notes: string,
    date: string,
    lines: seq<Line>)

  /** The form right after `resetForm`: empty header fields, today's date and no lines. */
  function BlankForm(kind: DocKind, today: string): (f: FormFields)
    ensures f.kind == kind && f.date == today && f.lines == []
    ensures f.reference == "" && f.counterparty == "" && f.warehouseId == "" && f.notes == ""
  {
    FormFields(kind, "", "", "", "", today, [])
  }

  /** The row inserted into `deliveries` or `receipts`. `notes` is null when the text is empty. */
  datatype HeaderRow = HeaderRow(
    kind: DocKind,
    reference: string,
    counterparty: string,
    warehouseId: string,
    notes: Option<string>,
    date: string,
    status: string,
    createdBy: string)

  /** The row inserted into `delivery_lines` or `receipt_lines`. */
  datatype LineRow = LineRow(documentId: string, productId: string, quantity: int, unitPrice: real)

  datatype SaveError =
    | MissingRequired    // a header field is empty or there is no line
    | IncompleteLine     // some line has no product or a quantity of 0 or less
    | NotAuthenticated   // no signed-in user

  datatype SaveResult =
    | Rejected(error: SaveError)
    | Accepted(header: HeaderRow, rows: seq<LineRow>)

  /** The header check of `handleSave`: reference, counterparty and warehouse are required, and at least one line. */
  predicate HeaderComplete(f: FormFields)
  {
    f.reference != "" && f.counterparty != "" && f.warehouseId != "" && |f.lines| > 0
  }

  /** A line is complete when it names a product and has a positive quantity. */
  predicate LineComplete(l: Line)
  {
    l.productId != "" && l.quantity > 0
  }

  /** `lines.some(l => !l.product_id || l.quantity <= 0)` */
  function AnyIncomplete(lines: seq<Line>): (r: bool)
    ensures r <==> exists i :: 0 <= i < |lines| && !LineComplete(lines[i])
    decreases |lines|
  {
    if lines == [] then false
    else !LineComplete(lines[0]) || AnyIncomplete(lines[1..])
  }

  /** `notes || null`: the empty string becomes null. */
  function NotesValue(notes: string): (r: Option<string>)
    ensures r.None? <==> notes == ""
    ensures r.Some? ==> r.value == notes
  {
    if notes == "" then None else Some(notes)
  }

  /** `lines.map(line => ({ <document>_id, product_id, quantity, unit_price }))` */
  function LineRows(documentId: string, lines: seq<Line>): (r: seq<LineRow>)
    ensures |r| == |lines|
    ensures forall i :: 0 <= i < |lines| ==>
      r[i].documentId == documentId && r[i].productId == lines[i].productId &&
      r[i].quantity == lines[i].quantity && r[i].unitPrice == lines[i].unitPrice
    decreases |lines|
  {
    if lines == [] then []
    else [LineRow(documentId, lines[0].productId, lines[0].quantity, lines[0].unitPrice)]
         + LineRows(documentId, lines[1..])
  }

  /** The form lines a list of line rows came from. */
  function LinesOf(rows: seq<LineRow>): (r: seq<Line>)
    ensures |r| == |rows|
    decreases |rows|
  {
    if rows == [] then []
    else [Line(rows[0].productId, rows[0].quantity, rows[0].unitPrice)] + LinesOf(rows[1..])
  }

  /** The line rows are the lines, one for one and in order: reading them back gives the lines. */
  lemma {:induction false} LineRowsRoundTrip(documentId: string, lines: seq<Line>)
    ensures LinesOf(LineRows(documentId, lines)) == lines
    decreases |lines|
  {
    if lines != [] {
      LineRowsRoundTrip(documentId, lines[1..]);
      var rows := LineRows(documentId, lines);
      assert rows[1..] == LineRows(documentId, lines[1..]);
    }
  }

  /**
   * `handleSave`, up to the database: the header check, then the line check, then the
   * signed-in user; when all pass, the header row (inserted with status "draft" and
   * given the id `documentId` by the database) and its line rows.
   */
  function Save(f: FormFields, user: Option<string>, documentId: string): (r: SaveResult)
    ensures r == Rejected(MissingRequired) <==> !HeaderComplete(f)
    ensures r == Rejected(IncompleteLine) <==>
      HeaderComplete(f) && exists i :: 0 <= i < |f.lines| && !LineComplete(f.lines[i])
    ensures r == Rejected(NotAuthenticated) <==>
      HeaderComplete(f) && (forall i :: 0 <= i < |f.lines| ==> LineComplete(f.lines[i])) && user.None?
    ensures r.Accepted? ==>
      && r.header.kind == f.kind
      && r.header.reference == f.reference
      && r.header.counterparty == f.counterparty
      && r.header.warehouseId == f.warehouseId
      && r.header.date == f.date
      && r.header.status == DraftStatus
      && (r.header.notes.None? <==> f.notes == "")
      && (r.header.notes.Some? ==> r.header.notes.value == f.notes)
      && r.header.createdBy == user.value
      && r.rows == LineRows(documentId, f.lines)
  {
    if !HeaderComplete(f) then Rejected(MissingRequired)
    else if AnyIncomplete(f.lines) then Rejected(IncompleteLine)
    else if user.None? then Rejected(NotAuthenticated)
    else Accepted(
      HeaderRow(f.kind, f.reference, f.counterparty, f.warehouseId, NotesValue(f.notes),
                f.date, DraftStatus, user.value),
      LineRows(documentId, f.lines))
  }

  /** An accepted save writes exactly one line row per line, in order, each tagged with the new document's id. */
  lemma AcceptedRowsMatchLines(f: FormFields, user: Option<string>, documentId: string)
    requires Save(f, user, documentId).Accepted?
    ensures var rows := Save(f, user, documentId).rows;
      |rows| == |f.lines| > 0 &&
      (forall i :: 0 <= i < |rows| ==> rows[i].documentId == documentId) &&
      LinesOf(rows) == f.lines
  {
    LineRowsRoundTrip(documentId, f.lines);
  }

  /** A freshly reset form cannot be saved. */
  lemma BlankFormRejected(kind: DocKind, today: string, user: Option<string>, documentId: string)
    ensures Save(BlankForm(kind, today), user, documentId) == Rejected(MissingRequired)
  {
  }

  /** A just-added line has no product yet, so it blocks saving until a product is chosen. */
  lemma AddedLineBlocksSave(f: FormFields, user: Option<string>, documentId: string)
    requires f.reference != "" && f.counterparty != "" && f.warehouseId != ""
    ensures Save(f.(lines := f.lines + [DefaultLine]), user, documentId) == Rejected(IncompleteLine)
  {
    var lines := f.lines + [DefaultLine];
    assert !LineComplete(lines[|lines| - 1]);
  }

  /** Removing a line keeps a list of complete lines complete (though it may empty the list). */
  lemma {:induction false} RemovePreservesCompleteLines(lines: seq<Line>, index: int)
    requires forall i :: 0 <= i < |lines| ==> LineComplete(lines[i])
    ensures forall i :: 0 <= i < |DropIndex(lines, index)| ==> LineComplete(DropIndex(lines, index)[i])
  {
    if 0 <= index < |lines| {
      DropIndexInRange(lines, index);
      var r := DropIndex(lines, index);
      forall i | 0 <= i < |r| ensures LineComplete(r[i]) {
        if i < index {
          assert r[i] == lines[i];
        } else {
          assert r[i] == lines[i + 1];
        }
      }
    } else {
      DropIndexOutOfRange(lines, index);
    }
  }

  /** Removing the line that "Add Product" just appended restores the previous list. */
  lemma AddThenRemoveLast(lines: seq<Line>)
    ensures DropIndex(lines + [DefaultLine], |lines|) == lines
  {
    DropIndexInRange(lines + [DefaultLine], |lines|);
    assert (lines + [DefaultLine])[..|lines|] == lines;
  }

  /**
   * The dialog's state. `kind` is fixed per dialog; the other fields are React state
   * that the handlers replace.
   */
  class DocumentForm {
    const kind: DocKind
    var reference: string
    var counterparty: string
    var warehouseId: string
    var notes: string
    var date: string
    var lines: seq<Line>

    function Fields(): FormFields
      reads this
    {
      FormFields(kind, reference, counterparty, warehouseId, notes, date, lines)
    }

    /** The initial `useState` values: the same as a reset form. */
    constructor (kind: DocKind, today: string)
      ensures Fields() == BlankForm(kind, today)
    {
      this.kind := kind;
      reference, counterparty, warehouseId, notes, date, lines := "", "", "", "", today, [];
    }

    /** `resetForm`, run each time the dialog opens. */
    method ResetForm(today: string)
      modifies this
      ensures Fields() == BlankForm(kind, today)
    {
      reference, counterparty, warehouseId, notes, date, lines := "", "", "", "", today, [];
    }

    /** `addLine`: appends one default line and leaves everything else as it was. */
    method AddLine()
      modifies this
      ensures lines == old(lines) + [DefaultLine]
      ensures Fields() == old(Fields()).(lines := lines)
    {
      lines := lines + [DefaultLine];
    }

    /** `removeLine(index)`: drops the line at `index`; an index out of range changes nothing. */
    method RemoveLine(index: int)
      modifies this
      ensures lines == DropIndex(old(lines), index)
      ensures 0 <= index < |old(lines)| ==> lines == old(lines)[..index] + old(lines)[index + 1..]
      ensures !(0 <= index < |old(lines)|) ==> lines == old(lines)
      ensures Fields() == old(Fields()).(lines := lines)
    {
      if 0 <= index < |lines| {
        DropIndexInRange(lines, index);
      } else {
        DropIndexOutOfRange(lines, index);
      }
      lines := DropIndex(lines, index);
    }

    /** `updateLine(index, field, value)`: sets one field of one line. */
    method UpdateLine(index: nat, e: LineEdit)
      requires index < |lines|
      modifies this
      ensures lines == UpdateAt(old(lines), index, e)
      ensures Fields() == old(Fields()).(lines := lines)
    {
      var newLines := lines;
      newLines := newLines[index := ApplyEdit(newLines[index], e)];
      lines := newLines;
    }

    /** `handleSave`, up to the database writes, on the current form. */
    method HandleSave(user: Option<string>, documentId: string) returns (r: SaveResult)
      ensures r == Save(Fields(), user, documentId)
      ensures r.Accepted? ==> r.header.status == DraftStatus && |r.rows| == |lines|
    {
      r := Save(Fields(), user, documentId);
    }
  }
}

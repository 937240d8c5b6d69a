/** The PDF invoice (lib/pdf-utils.ts, generateInvoicePDF). The jsPDF
    document is a class holding the current font style, font size, text and
    fill colours, and the log of everything drawn so far; each text is drawn
    in the style current at the time of the call. The table is drawn by the
    autotable plugin, whose end position is an input of the model. */
module Pdf {
  import opened Common
  import opened Catalog
  import opened Sales
  import opened InvoiceView

  datatype Rgb = Rgb(r: int, g: int, b: int)

  const Black := Rgb(0, 0, 0)
  const White := Rgb(255, 255, 255)
  const PaidGreen := Rgb(39, 174, 96)

  /** Every call uses the helvetica family; only the style changes. */
  datatype FontStyle = Normal | Bold

  datatype Align = Left | Right | Center

  /** What a text call prints. Amounts keep their value; toFixed(2) and
      toLocaleDateString are not modelled. */
  datatype Content =
    | Plain(s: string)
    | Dollars(amount: real)        // `$${amount.toFixed(2)}`
    | MinusDollars(amount: real)   // `-$${amount.toFixed(2)}`
    | DiscountCaption(pct: real)   // `Discount (${pct}%):`
    | LocalDate(iso: string)       // `new Date(iso).toLocaleDateString()`

  datatype DrawCmd =
    | Text(content: Content, x: real, y: real, align: Align, style: FontStyle, size: int, color: Rgb)
    | Line(x1: real, y1: real, x2: real, y2: real)
    | FilledRect(x: real, y: real, w: real, h: real, fill: Rgb)
    | Table(startY: real, head: seq<string>, body: seq<Row>, endY: real)

  /** The upper edge of what a command draws. */
  function Top(c: DrawCmd): real
  {
    match c
    case Text(_, _, y, _, _, _, _) => y
    case Line(_, y1, _, y2) => if y1 <= y2 then y1 else y2
    case FilledRect(_, y, _, _, _) => y
    case Table(startY, _, _, _) => startY
  }

  predicate IsAmount(c: Content)
  {
    c.Dollars? || c.MinusDollars?
  }

  // ------------------------------------------------------------- the document

  /** A jsPDF document. `lastTableEnd` is `lastAutoTable.finalY`. */
  class PdfDoc {
    var fontSize: int
    var style: FontStyle
    var textColor: Rgb
    var fillColor: Rgb
    var commands: seq<DrawCmd>
    var lastTableEnd: Option<real>
    var savedAs: Option<string>

    /** `new jsPDF()`: helvetica normal at size 16, black, nothing drawn. */
    constructor ()
      ensures fontSize == 16 && style == Normal && textColor == Black && fillColor == Black
      ensures commands == [] && lastTableEnd.None? && savedAs.None?
    {
      fontSize, style, textColor, fillColor := 16, Normal, Black, Black;
      commands, lastTableEnd, savedAs := [], None, None;
    }

    method SetFontSize(size: int)
      modifies this`fontSize
      ensures fontSize == size
    {
      fontSize := size;
    }

    /** `setFont("helvetica", style)` */
    method SetFont(s: FontStyle)
      modifies this`style
      ensures style == s
    {
      style := s;
    }

    method SetTextColor(c: Rgb)
      modifies this`textColor
      ensures textColor == c
    {
      textColor := c;
    }

    method SetFillColor(c: Rgb)
      modifies this`fillColor
      ensures fillColor == c
    {
      fillColor := c;
    }

    /** `text(content, x, y, { align })` in the current style, size and text colour. */
    method Text(content: Content, x: real, y: real, align: Align)
      modifies this`commands
      ensures commands == old(commands) + [DrawCmd.Text(content, x, y, align, style, fontSize, textColor)]
    {
      commands := commands + [DrawCmd.Text(content, x, y, align, style, fontSize, textColor)];
    }

    method Line(x1: real, y1: real, x2: real, y2: real)
      modifies this`commands
      ensures commands == old(commands) + [DrawCmd.Line(x1, y1, x2, y2)]
    {
      commands := commands + [DrawCmd.Line(x1, y1, x2, y2)];
    }

    /** `rect(x, y, w, h, "F")`: a rectangle filled with the current fill colour. */
    method FilledRect(x: real, y: real, w: real, h: real)
      modifies this`commands
      ensures commands == old(commands) + [DrawCmd.FilledRect(x, y, w, h, fillColor)]
    {
      commands := commands + [DrawCmd.FilledRect(x, y, w, h, fillColor)];
    }

    /** `autoTable({ head, body, startY })`; the plugin ends the table at `endY`. */
    method AutoTable(head: seq<string>, body: seq<Row>, startY: real, endY: real)
      modifies this`commands, this`lastTableEnd
      ensures commands == old(commands) + [Table(startY, head, body, endY)]
      ensures lastTableEnd == Some(endY)
    {
      commands := commands + [Table(startY, head, body, endY)];
      lastTableEnd := Some(endY);
    }

    method Save(fileName: string)
      modifies this`savedAs
      ensures savedAs == Some(fileName)
    {
      savedAs := Some(fileName);
    }
  }

  // ------------------------------------------------------------- the layout

  const CompanyLines := ["Your Company Name", "123 Business Street", "City, State 12345", "contact@yourcompany.com"]

  const ThankYou := "Thank you for your business. Please contact us if you have any questions about this invoice."

  /** Where the item table starts. */
  const TableStart := 65.0

  // Each block of the drawing below is one comment-delimited section of
  // generateInvoicePDF; every text carries the style current at its call.

  /** Lines 35-41: the title and the invoice number. */
  function TitleBlock(sale: Sale): seq<DrawCmd>
  {
    [ Text(Plain("INVOICE"), 14.0, 20.0, Left, Bold, 20, Black),
      Text(Plain(InvoiceNumber(sale.saleId)), 14.0, 26.0, Left, Normal, 10, Black) ]
  }

  /** Lines 44-50: the company block, right-aligned at x = 150. */
  function CompanyBlock(): seq<DrawCmd>
  {
    [ Text(Plain(CompanyLines[0]), 150.0, 20.0, Right, Bold, 10, Black),
      Text(Plain(CompanyLines[1]), 150.0, 25.0, Right, Normal, 10, Black),
      Text(Plain(CompanyLines[2]), 150.0, 30.0, Right, Normal, 10, Black),
      Text(Plain(CompanyLines[3]), 150.0, 35.0, Right, Normal, 10, Black) ]
  }

  /** Lines 53-58: the bill-to block. */
  function BillToBlock(sale: Sale): seq<DrawCmd>
  {
    [ Text(Plain("BILL TO"), 14.0, 45.0, Left, Bold, 10, Black),
      Text(Plain("Customer ID: " + sale.customerId), 14.0, 50.0, Left, Normal, 10, Black),
      Text(Plain("customer@example.com"), 14.0, 55.0, Left, Normal, 10, Black) ]
  }

  /** Lines 61-65: the invoice date. */
  function DateBlock(sale: Sale): seq<DrawCmd>
  {
    [ Text(Plain("INVOICE DATE"), 120.0, 45.0, Left, Bold, 10, Black),
      Text(LocalDate(sale.createdAt), 120.0, 50.0, Left, Normal, 10, Black) ]
  }

  /** Lines 67-71: the payment method. */
  function PaymentBlock(sale: Sale): seq<DrawCmd>
  {
    [ Text(Plain("PAYMENT METHOD"), 170.0, 45.0, Left, Bold, 10, Black),
      Text(Plain(sale.paymentMethod), 170.0, 50.0, Left, Normal, 10, Black) ]
  }

  /** The title, company, bill-to, date and payment blocks. All lie above the
      table, in black; the company block alone is right-aligned, at x = 150. */
  function HeaderCommands(sale: Sale): (cs: seq<DrawCmd>)
    ensures |cs| == 13
    ensures forall i :: 0 <= i < |cs| ==> cs[i].Text? && 20.0 <= cs[i].y <= 55.0 && cs[i].color == Black
    ensures forall i :: 0 <= i < |cs| ==> (cs[i].align == Right <==> 2 <= i < 6)
    ensures forall i :: 2 <= i < 6 ==> cs[i].x == 150.0 && cs[i].content == Plain(CompanyLines[i - 2])
    ensures cs[1].Text? && cs[1].content == Plain(InvoiceNumber(sale.saleId))
  {
    var cs := TitleBlock(sale) + CompanyBlock() + BillToBlock(sale) + DateBlock(sale) + PaymentBlock(sale);
    assert |cs| == 13;
    forall i | 0 <= i < |cs|
      ensures cs[i].Text? && 20.0 <= cs[i].y <= 55.0 && cs[i].color == Black
      ensures cs[i].align == Right <==> 2 <= i < 6
    {
      if i < 2 { assert cs[i] == TitleBlock(sale)[i]; }
      else if i < 6 { assert cs[i] == CompanyBlock()[i - 2]; }
      else if i < 9 { assert cs[i] == BillToBlock(sale)[i - 6]; }
      else if i < 11 { assert cs[i] == DateBlock(sale)[i - 9]; }
      else { assert cs[i] == PaymentBlock(sale)[i - 11]; }
    }
    forall i | 2 <= i < 6 ensures cs[i].x == 150.0 && cs[i].content == Plain(CompanyLines[i - 2]) {
      assert cs[i] == CompanyBlock()[i - 2];
    }
    cs
  }

  /** Offsets from `finalY` of the commands below the table, in drawing order:
      Subtotal (label, amount), Discount (label, amount), rule, Total (label,
      amount), badge, PAID, Notes heading, Notes text. */
  const FooterOffsets: seq<real> := [0.0, 0.0, 5.0, 5.0, 7.0, 12.0, 12.0, 15.0, 20.0, 30.0, 35.0]

  /** Lines 96-106: Subtotal and Discount in the normal style, the rule, and
      Total in bold. */
  function SummaryBlock(sale: Sale, finalY: real): seq<DrawCmd>
  {
    [ Text(Plain("Subtotal:"), 130.0, finalY, Left, Normal, 10, Black),
      Text(Dollars(sale.totalAmount), 170.0, finalY, Right, Normal, 10, Black),
      Text(DiscountCaption(sale.discountPercentage), 130.0, finalY + 5.0, Left, Normal, 10, Black),
      Text(MinusDollars(DiscountAmount(sale.totalAmount, sale.discountPercentage)), 170.0, finalY + 5.0, Right, Normal, 10, Black),
      Line(130.0, finalY + 7.0, 170.0, finalY + 7.0),
      Text(Plain("Total:"), 130.0, finalY + 12.0, Left, Bold, 10, Black),
      Text(Dollars(sale.finalAmount), 170.0, finalY + 12.0, Right, Bold, 10, Black) ]
  }

  /** Lines 109-116: the green badge and the white PAID on it, still in bold. */
  function StatusBlock(finalY: real): seq<DrawCmd>
  {
    [ FilledRect(130.0, finalY + 15.0, 40.0, 7.0, PaidGreen),
      Text(Plain("PAID"), 150.0, finalY + 20.0, Center, Bold, 8, White) ]
  }

  /** Lines 119-127: the notes. */
  function NotesBlock(finalY: real): seq<DrawCmd>
  {
    [ Text(Plain("Notes"), 14.0, finalY + 30.0, Left, Bold, 10, Black),
      Text(Plain(ThankYou), 14.0, finalY + 35.0, Left, Normal, 10, Black) ]
  }

  /** Summary, status badge and notes, placed relative to `finalY`. */
  function FooterCommands(sale: Sale, finalY: real): (cs: seq<DrawCmd>)
    ensures |cs| == |FooterOffsets|
    ensures forall i :: 0 <= i < |cs| ==> Top(cs[i]) == finalY + FooterOffsets[i]
    ensures forall i, j :: 0 <= i < j < |cs| ==> Top(cs[i]) <= Top(cs[j])
    ensures forall i :: 0 <= i < |cs| && cs[i].Text? && IsAmount(cs[i].content) ==>
              cs[i].x == 170.0 && cs[i].align == Right
    ensures cs[1].Text? && cs[1].content == Dollars(sale.totalAmount)
    ensures cs[3].Text? && cs[3].content == MinusDollars(DiscountAmount(sale.totalAmount, sale.discountPercentage))
    ensures cs[5].Text? && cs[5].content == Plain("Total:") && cs[5].style == Bold
    ensures cs[6].Text? && cs[6].content == Dollars(sale.finalAmount) && cs[6].style == Bold
    ensures cs[7].FilledRect? && cs[7].fill == PaidGreen
    ensures cs[8].Text? && cs[8].content == Plain("PAID") && cs[8].color == White && cs[8].size == 8
    ensures cs[8].x == 150.0 && cs[8].align == Center
    ensures cs[7].y < cs[8].y <= cs[7].y + cs[7].h
    ensures forall i :: 0 <= i < |cs| && i != 8 && cs[i].Text? ==> cs[i].color == Black
    ensures cs[9].Text? && cs[9].content == Plain("Notes") && cs[9].style == Bold
    ensures cs[10].Text? && cs[10].content == Plain(ThankYou) && cs[10].style == Normal
  {
    var summary, status, notes := SummaryBlock(sale, finalY), StatusBlock(finalY), NotesBlock(finalY);
    var cs := summary + status + notes;
    assert |cs| == 11;
    forall i | 0 <= i < |cs|
      ensures Top(cs[i]) == finalY + FooterOffsets[i]
      ensures cs[i].Text? && IsAmount(cs[i].content) ==> cs[i].x == 170.0 && cs[i].align == Right
      ensures i != 8 && cs[i].Text? ==> cs[i].color == Black
    {
      if i < 7 { assert cs[i] == summary[i]; }
      else if i < 9 { assert cs[i] == status[i - 7]; }
      else { assert cs[i] == notes[i - 9]; }
    }
    assert cs[7] == status[0] && cs[8] == status[1] && cs[9] == notes[0] && cs[10] == notes[1];
    assert forall i, j :: 0 <= i < j < |FooterOffsets| ==> FooterOffsets[i] <= FooterOffsets[j];
    cs
  }

  /** The whole drawing: header, the item table at y = 65, and the footer at
      `finalY = tableEnd + 10`, every footer command below the table's end. */
  function InvoiceCommands(sale: Sale, rows: seq<Row>, tableEnd: real): (cs: seq<DrawCmd>)
    ensures |cs| == 25 && cs[13] == Table(TableStart, TableHead, rows, tableEnd)
    ensures forall i :: 0 <= i < 13 ==> Top(cs[i]) < TableStart
    ensures forall i :: 13 < i < |cs| ==> tableEnd < Top(cs[i])
    ensures forall i, j :: 13 < i < j < |cs| ==> Top(cs[i]) <= Top(cs[j])
  {
    HeaderCommands(sale) + [Table(TableStart, TableHead, rows, tableEnd)] + FooterCommands(sale, tableEnd + 10.0)
  }

  // ------------------------------------------------------------ the drawing

  method DrawTitle(doc: PdfDoc, sale: Sale)
    requires doc.textColor == Black
    modifies doc`fontSize, doc`style, doc`commands
    ensures doc.commands == old(doc.commands) + TitleBlock(sale)
    ensures doc.fontSize == 10 && doc.style == Normal
  {
    doc.SetFontSize(20);
    doc.SetFont(Bold);
    doc.Text(Plain("INVOICE"), 14.0, 20.0, Left);
    doc.SetFontSize(10);
    doc.SetFont(Normal);
    doc.Text(Plain(InvoiceNumber(sale.saleId)), 14.0, 26.0, Left);
  }

  method DrawCompany(doc: PdfDoc)
    requires doc.textColor == Black
    modifies doc`fontSize, doc`style, doc`commands
    ensures doc.commands == old(doc.commands) + CompanyBlock()
    ensures doc.fontSize == 10 && doc.style == Normal
  {
    doc.SetFontSize(10);
    doc.SetFont(Bold);
    doc.Text(Plain(CompanyLines[0]), 150.0, 20.0, Right);
    doc.SetFont(Normal);
    doc.Text(Plain(CompanyLines[1]), 150.0, 25.0, Right);
    doc.Text(Plain(CompanyLines[2]), 150.0, 30.0, Right);
    doc.Text(Plain(CompanyLines[3]), 150.0, 35.0, Right);
  }

  method DrawBillTo(doc: PdfDoc, sale: Sale)
    requires doc.textColor == Black
    modifies doc`fontSize, doc`style, doc`commands
    ensures doc.commands == old(doc.commands) + BillToBlock(sale)
    ensures doc.fontSize == 10 && doc.style == Normal
  {
    doc.SetFontSize(10);
    doc.SetFont(Bold);
    doc.Text(Plain("BILL TO"), 14.0, 45.0, Left);
    doc.SetFont(Normal);
    doc.Text(Plain("Customer ID: " + sale.customerId), 14.0, 50.0, Left);
    doc.Text(Plain("customer@example.com"), 14.0, 55.0, Left);
  }

  /** The date and the payment method, two blocks of the same shape. */
  method DrawLabelled(doc: PdfDoc, caption: string, value: Content, x: real)
    requires doc.textColor == Black
    modifies doc`fontSize, doc`style, doc`commands
    ensures doc.commands == old(doc.commands) +
              [ Text(Plain(caption), x, 45.0, Left, Bold, 10, Black), Text(value, x, 50.0, Left, Normal, 10, Black) ]
    ensures doc.fontSize == 10 && doc.style == Normal
  {
    doc.SetFontSize(10);
    doc.SetFont(Bold);
    doc.Text(Plain(caption), x, 45.0, Left);
    doc.SetFont(Normal);
    doc.Text(value, x, 50.0, Left);
  }

  /** Lines 35-71: the header, drawn on a document whose text colour is black. */
  method DrawHeader(doc: PdfDoc, sale: Sale)
    requires doc.textColor == Black
    modifies doc`fontSize, doc`style, doc`commands
    ensures doc.commands == old(doc.commands) + HeaderCommands(sale)
    ensures doc.fontSize == 10 && doc.style == Normal
  {
    ghost var start := doc.commands;
    ghost var title, company, billTo := TitleBlock(sale), CompanyBlock(), BillToBlock(sale);
    ghost var date, payment := DateBlock(sale), PaymentBlock(sale);
    DrawTitle(doc, sale);
    DrawCompany(doc);
    AppendAssoc(start, title, company);
    DrawBillTo(doc, sale);
    AppendAssoc(start, title + company, billTo);
    DrawLabelled(doc, "INVOICE DATE", LocalDate(sale.createdAt), 120.0);
    assert doc.commands == start + (title + company + billTo) + date;
    AppendAssoc(start, title + company + billTo, date);
    DrawLabelled(doc, "PAYMENT METHOD", Plain(sale.paymentMethod), 170.0);
    assert doc.commands == start + (title + company + billTo + date) + payment;
    AppendAssoc(start, title + company + billTo + date, payment);
  }

  lemma AppendAssoc<T>(a: seq<T>, b: seq<T>, c: seq<T>)
    ensures a + b + c == a + (b + c)
  {
  }

  method DrawSummary(doc: PdfDoc, sale: Sale, finalY: real)
    requires doc.fontSize == 10 && doc.style == Normal && doc.textColor == Black
    modifies doc`style, doc`commands
    ensures doc.commands == old(doc.commands) + SummaryBlock(sale, finalY)
    ensures doc.style == Bold
  {
    doc.Text(Plain("Subtotal:"), 130.0, finalY, Left);
    doc.Text(Dollars(sale.totalAmount), 170.0, finalY, Right);
    doc.Text(DiscountCaption(sale.discountPercentage), 130.0, finalY + 5.0, Left);
    doc.Text(MinusDollars(DiscountAmount(sale.totalAmount, sale.discountPercentage)), 170.0, finalY + 5.0, Right);
    doc.Line(130.0, finalY + 7.0, 170.0, finalY + 7.0);
    doc.SetFont(Bold);
    doc.Text(Plain("Total:"), 130.0, finalY + 12.0, Left);
    doc.Text(Dollars(sale.finalAmount), 170.0, finalY + 12.0, Right);
  }

  method DrawStatus(doc: PdfDoc, finalY: real)
    requires doc.style == Bold
    modifies doc`fontSize, doc`textColor, doc`fillColor, doc`commands
    ensures doc.commands == old(doc.commands) + StatusBlock(finalY)
    ensures doc.textColor == Black
  {
    doc.SetFillColor(PaidGreen);
    doc.FilledRect(130.0, finalY + 15.0, 40.0, 7.0);
    doc.SetTextColor(White);
    doc.SetFontSize(8);
    doc.Text(Plain("PAID"), 150.0, finalY + 20.0, Center);
    doc.SetTextColor(Black);
  }

  method DrawNotes(doc: PdfDoc, finalY: real)
    requires doc.textColor == Black
    modifies doc`fontSize, doc`style, doc`commands
    ensures doc.commands == old(doc.commands) + NotesBlock(finalY)
  {
    doc.SetFontSize(10);
    doc.SetFont(Bold);
    doc.Text(Plain("Notes"), 14.0, finalY + 30.0, Left);
    doc.SetFont(Normal);
    doc.Text(Plain(ThankYou), 14.0, finalY + 35.0, Left);
  }

  /** Lines 93-127: the summary, badge and notes below the table, which
      continue in the size, style and colour the header left behind. */
  method DrawFooter(doc: PdfDoc, sale: Sale)
    requires doc.lastTableEnd.Some?
    requires doc.fontSize == 10 && doc.style == Normal && doc.textColor == Black
    modifies doc`fontSize, doc`style, doc`textColor, doc`fillColor, doc`commands
    ensures doc.commands == old(doc.commands) + FooterCommands(sale, doc.lastTableEnd.value + 10.0)
  {
    var finalY := doc.lastTableEnd.value + 10.0;
    DrawSummary(doc, sale, finalY);
    DrawStatus(doc, finalY);
    DrawNotes(doc, finalY);
  }

  /** generateInvoicePDF: a new document with the header, the item table at
      y = 65 named by `getProductName`, and the footer below where the table
      ended. The product list is accepted but never read: the drawing depends
      on the sale and the callback alone. The document is returned, not saved. */
  method GenerateInvoicePdf(sale: Sale, products: seq<Product>, getProductName: string -> string, tableEnd: real)
    returns (doc: PdfDoc)
    ensures fresh(doc)
    ensures doc.commands == InvoiceCommands(sale, Rows(sale.saleItems, getProductName), tableEnd)
    ensures doc.savedAs.None?
  {
    var rows := Rows(sale.saleItems, getProductName);
    InvoiceCommandsParts(sale, rows, tableEnd);
    doc := new PdfDoc();
    DrawHeader(doc, sale);
    doc.AutoTable(TableHead, rows, TableStart, tableEnd);
    DrawFooter(doc, sale);
  }

  /** The drawing is the header, the table and the footer, in that order. */
  lemma InvoiceCommandsParts(sale: Sale, rows: seq<Row>, tableEnd: real)
    ensures InvoiceCommands(sale, rows, tableEnd) ==
            [] + HeaderCommands(sale) + [Table(TableStart, TableHead, rows, tableEnd)] + FooterCommands(sale, tableEnd + 10.0)
  {
    assert [] + HeaderCommands(sale) == HeaderCommands(sale);
  }
}

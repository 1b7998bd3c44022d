/**
 * The "Export Excel" button (handleExportCSV in components/PIBuilder.tsx):
 * a header row, one row per invoice line, a blank line and three summary
 * rows, every row's fields joined with a bare ',' and the rows with '\n'.
 * The data-URI prefix and the download itself are not modelled; the
 * method returns the file name and the text that would be downloaded.
 */
module Csv {
  import opened Types
  import opened Format
  import opened Text
  import opened Invoice

  /** The columns before the optional Manufacturer column is spliced in. */
  const BaseHeaders: seq<string> := ["ID", "Product", "Category", "Quantity", "Unit", "Unit Price", "Total"]

  /** `s.splice(i, 0, x)`: x inserted before position i. */
  function Splice(s: seq<string>, i: nat, x: string): seq<string>
    requires i <= |s|
  {
    s[..i] + [x] + s[i..]
  }

  /** The sequence without its element at position i. */
  function RemoveAt(s: seq<string>, i: nat): seq<string>
    requires i < |s|
  {
    s[..i] + s[i + 1..]
  }

  /** The columns a CSV row can have, in the order the code lists them. */
  datatype Column =
    | IdColumn | ProductColumn | ManufacturerColumn | CategoryColumn
    | QuantityColumn | UnitColumn | UnitPriceColumn | TotalColumn

  function Title(c: Column): string {
    match c
    case IdColumn => "ID"
    case ProductColumn => "Product"
    case ManufacturerColumn => "Manufacturer"
    case CategoryColumn => "Category"
    case QuantityColumn => "Quantity"
    case UnitColumn => "Unit"
    case UnitPriceColumn => "Unit Price"
    case TotalColumn => "Total"
  }

  /** The exported columns: Manufacturer goes between Product and Category. */
  function Columns(showManufacturer: bool): seq<Column> {
    if showManufacturer then
      [IdColumn, ProductColumn, ManufacturerColumn, CategoryColumn,
       QuantityColumn, UnitColumn, UnitPriceColumn, TotalColumn]
    else
      [IdColumn, ProductColumn, CategoryColumn, QuantityColumn, UnitColumn, UnitPriceColumn, TotalColumn]
  }

  /** The header row's fields: the titles of the exported columns. */
  function Header(showManufacturer: bool): seq<string> {
    var cols := Columns(showManufacturer);
    seq(|cols|, k requires 0 <= k < |cols| => Title(cols[k]))
  }

  /** The header the export builds: the base titles, with Manufacturer spliced in at 2. */
  lemma HeaderAsBuilt()
    ensures Header(false) == BaseHeaders
    ensures Header(true) == Splice(BaseHeaders, 2, "Manufacturer")
  {
    assert Header(false) == BaseHeaders;
    assert Header(true) == ["ID", "Product", "Manufacturer", "Category", "Quantity", "Unit", "Unit Price", "Total"];
  }

  /** What a line item contributes under a given column. */
  function Cell(item: PIItem, column: Column): string {
    match column
    case IdColumn => item.product.id
    case ProductColumn => item.product.name
    case ManufacturerColumn => item.product.manufacturer
    case CategoryColumn => item.product.category
    case QuantityColumn => IntToString(item.quantity)
    case UnitColumn => item.product.unit
    case UnitPriceColumn => Fmt2(item.product.price)
    case TotalColumn => Fmt2(LineTotal(item))
  }

  /**
   * The fields of one data row, built as the export builds them: the seven
   * values, then the manufacturer spliced in at position 2 when shown.
   * Every field lands under its own column.
   */
  function RowFields(item: PIItem, showManufacturer: bool): (row: seq<string>)
    ensures |row| == |Columns(showManufacturer)|
    ensures forall k :: 0 <= k < |row| ==> row[k] == Cell(item, Columns(showManufacturer)[k])
  {
    var row := [item.product.id, item.product.name, item.product.category,
                IntToString(item.quantity), item.product.unit,
                Fmt2(item.product.price), Fmt2(LineTotal(item))];
    if showManufacturer then
      var spliced := Splice(row, 2, item.product.manufacturer);
      assert spliced == row[..2] + [item.product.manufacturer] + row[2..];
      spliced
    else row
  }

  function RowLine(item: PIItem, showManufacturer: bool): string {
    Join(RowFields(item, showManufacturer), ',')
  }

  /** A summary row's fields: five empty ones, the caption, the amount. */
  function SummaryFields(caption: string, amount: real): seq<string> {
    ["", "", "", "", "", caption, Fmt2(amount)]
  }

  function SummaryLine(caption: string, amount: real): string {
    Join(SummaryFields(caption, amount), ',')
  }

  function RowLines(items: seq<PIItem>, showManufacturer: bool): seq<string> {
    seq(|items|, j requires 0 <= j < |items| => RowLine(items[j], showManufacturer))
  }

  /** The three summary rows as the export writes them. */
  function SummaryLines(totals: Totals): seq<string> {
    [",,,,,Subtotal," + Fmt2(totals.subtotal),
     ",,,,,Tax (15%)," + Fmt2(totals.tax),
     ",,,,,Total," + Fmt2(totals.total)]
  }

  /**
   * The exported text line by line: the header, the rows (an empty line
   * when there are none, since joining no rows gives ""), a blank line and
   * the Subtotal, Tax and Total rows.
   */
  function CsvLines(items: seq<PIItem>, showManufacturer: bool): seq<string> {
    [Join(Header(showManufacturer), ',')]
    + ((if |items| == 0 then [""] else RowLines(items, showManufacturer))
       + ([""] + SummaryLines(ComputeTotals(items))))
  }

  /** The summary text as the export writes it equals the joined summary fields. */
  lemma SummaryLineText(caption: string, amount: real)
    ensures SummaryLine(caption, amount) == ",,,,," + caption + "," + Fmt2(amount)
  {
    var f := SummaryFields(caption, amount);
    assert Join(f[5..], ',') == caption + "," + Fmt2(amount);
    assert Join(f[4..], ',') == "," + caption + "," + Fmt2(amount);
    assert Join(f[3..], ',') == ",," + caption + "," + Fmt2(amount);
    assert Join(f[2..], ',') == ",,," + caption + "," + Fmt2(amount);
    assert Join(f[1..], ',') == ",,,," + caption + "," + Fmt2(amount);
  }

  lemma JoinFour(a: string, b: string, c: string, d: string, sep: char)
    ensures Join([a, b, c, d], sep) == a + [sep] + b + [sep] + c + [sep] + d
  {
    assert [a, b, c, d][1..] == [b, c, d];
    assert [b, c, d][1..] == [c, d];
    assert [c, d][1..] == [d];
    assert Join([c, d], sep) == c + [sep] + d;
    assert Join([b, c, d], sep) == b + [sep] + (c + [sep] + d);
  }

  /** The export's string template, regrouped around its line breaks. */
  lemma TemplateText(h: string, r: string, a: string, b: string, c: string)
    ensures h + "\n" + (r + "\n" + ("" + "\n" + (",,,,,Subtotal," + a) + "\n" + (",,,,,Tax (15%)," + b)
                                      + "\n" + (",,,,,Total," + c)))
            == h + "\n" + r + "\n\n,,,,,Subtotal," + a + "\n,,,,,Tax (15%)," + b + "\n,,,,,Total," + c
  {
    Regroup(h, r, "\n", "", ",,,,,Subtotal,", ",,,,,Tax (15%),", ",,,,,Total,", a, b, c);
    assert "\n\n,,,,,Subtotal," == "\n" + ("" + "\n" + ",,,,,Subtotal,");
    assert "\n,,,,,Tax (15%)," == "\n" + ",,,,,Tax (15%),";
    assert "\n,,,,,Total," == "\n" + ",,,,,Total,";
  }

  /** Concatenation regrouped: the template's pieces, whatever the strings. */
  lemma Regroup(h: string, r: string, nl: string, e: string, p1: string, p2: string, p3: string,
                a: string, b: string, c: string)
    ensures h + nl + (r + nl + (e + nl + (p1 + a) + nl + (p2 + b) + nl + (p3 + c)))
            == h + nl + r + (nl + (e + nl + p1)) + a + (nl + p2) + b + (nl + p3) + c
  {
  }

  /** Joining header, body and a four-line tail that starts with a blank line. */
  lemma LinesLayout(h: string, body: seq<string>, tail: seq<string>)
    requires |body| >= 1 && |tail| == 4 && tail[0] == ""
    ensures Join([h] + (body + tail), '\n')
            == h + "\n" + (Join(body, '\n') + "\n" + ("" + "\n" + tail[1] + "\n" + tail[2] + "\n" + tail[3]))
  {
    assert tail == [tail[0], tail[1], tail[2], tail[3]];
    JoinFour(tail[0], tail[1], tail[2], tail[3], '\n');
    JoinAppend(body, tail, '\n');
    JoinAppend([h], body + tail, '\n');
  }

  lemma CsvLinesOfRows(items: seq<PIItem>, show: bool, rows: seq<string>)
    requires |rows| == |items|
    requires forall j :: 0 <= j < |items| ==> rows[j] == RowLine(items[j], show)
    ensures CsvLines(items, show)
            == [Join(Header(show), ',')] + ((if |rows| == 0 then [""] else rows) + ([""] + SummaryLines(ComputeTotals(items))))
  {
    assert rows == RowLines(items, show);
  }

  /** The concatenation the export performs is the joined lines of CsvLines. */
  lemma ExportText(items: seq<PIItem>, show: bool, rows: seq<string>)
    requires |rows| == |items|
    requires forall j :: 0 <= j < |items| ==> rows[j] == RowLine(items[j], show)
    ensures var totals := ComputeTotals(items);
            Join(CsvLines(items, show), '\n')
            == Join(Header(show), ',') + "\n" + Join(rows, '\n')
               + "\n\n,,,,,Subtotal," + Fmt2(totals.subtotal)
               + "\n,,,,,Tax (15%)," + Fmt2(totals.tax)
               + "\n,,,,,Total," + Fmt2(totals.total)
  {
    var totals := ComputeTotals(items);
    CsvLinesOfRows(items, show, rows);
    var a, b, c := Fmt2(totals.subtotal), Fmt2(totals.tax), Fmt2(totals.total);
    var h, r := Join(Header(show), ','), Join(rows, '\n');
    JoinedLayout(h, rows, ",,,,,Subtotal," + a, ",,,,,Tax (15%)," + b, ",,,,,Total," + c);
    TemplateText(h, r, a, b, c);
  }

  /** The joined lines, for any header line, rows and three summary lines. */
  lemma JoinedLayout(h: string, rows: seq<string>, l1: string, l2: string, l3: string)
    ensures Join([h] + ((if |rows| == 0 then [""] else rows) + ([""] + [l1, l2, l3])), '\n')
            == h + "\n" + (Join(rows, '\n') + "\n" + ("" + "\n" + l1 + "\n" + l2 + "\n" + l3))
  {
    var body := if |rows| == 0 then [""] else rows;
    var tail := [""] + [l1, l2, l3];
    LinesLayout(h, body, tail);
    assert Join(body, '\n') == Join(rows, '\n');
  }

  /**
   * handleExportCSV: splice the Manufacturer heading in when shown, map the
   * items to joined rows, and append the three summary rows after a blank line.
   */
  method ExportCsv(items: seq<PIItem>, visibility: PIVisibilitySettings, customer: CustomerDetails)
    returns (fileName: string, content: string)
    ensures fileName == "PI_" + customer.piNumber + ".csv"
    ensures content == Join(CsvLines(items, visibility.showManufacturer), '\n')
  {
    var show := visibility.showManufacturer;
    var headers := BaseHeaders;
    if show {
      headers := Splice(headers, 2, "Manufacturer");
    }
    HeaderAsBuilt();

    var rows: seq<string> := [];
    for i := 0 to |items|
      invariant |rows| == i
      invariant forall j :: 0 <= j < i ==> rows[j] == RowLine(items[j], show)
    {
      rows := rows + [RowLine(items[i], show)];
    }

    var totals := ComputeTotals(items);
    content := Join(headers, ',') + "\n" + Join(rows, '\n')
      + "\n\n,,,,,Subtotal," + Fmt2(totals.subtotal)
      + "\n,,,,,Tax (15%)," + Fmt2(totals.tax)
      + "\n,,,,,Total," + Fmt2(totals.total);
    fileName := "PI_" + customer.piNumber + ".csv";
    ExportText(items, show, rows);
  }

  // ---- Properties of the exported text ----

  /** None of the item's text fields that the export writes contains c (the manufacturer only when shown). */
  predicate TextFreeOf(item: PIItem, c: char, showManufacturer: bool) {
    && c !in item.product.id
    && c !in item.product.name
    && c !in item.product.category
    && (showManufacturer ==> c !in item.product.manufacturer)
    && c !in item.product.unit
  }

  /**
   * The header has 7 columns, or 8 with Manufacturer at index 2 between
   * Product and Category; taking Manufacturer out gives the original order.
   */
  lemma HeaderColumns(show: bool)
    ensures |Header(show)| == if show then 8 else 7
    ensures Header(false) == BaseHeaders
    ensures Header(true)[1] == "Product" && Header(true)[2] == "Manufacturer" && Header(true)[3] == "Category"
    ensures RemoveAt(Header(true), 2) == Header(false)
    ensures "Manufacturer" in Header(show) <==> show
    ensures Header(show)[|Header(show)| - 1] == "Total"
  {
    assert Header(false) == BaseHeaders;
    assert Header(true) == ["ID", "Product", "Manufacturer", "Category", "Quantity", "Unit", "Unit Price", "Total"];
    assert RemoveAt(Header(true), 2) == Header(false);
  }

  /**
   * Switching the manufacturer off removes exactly field 2 from a data row,
   * the manufacturer, and leaves every other field as it was.
   */
  lemma ManufacturerField(item: PIItem)
    ensures RowFields(item, true)[2] == item.product.manufacturer
    ensures RemoveAt(RowFields(item, true), 2) == RowFields(item, false)
  {
    var on, off := RowFields(item, true), RowFields(item, false);
    forall k | 0 <= k < |off| ensures RemoveAt(on, 2)[k] == off[k] {
      if k < 2 {
        assert RemoveAt(on, 2)[k] == on[k];
      } else {
        assert RemoveAt(on, 2)[k] == on[k + 1];
      }
    }
  }

  lemma RowFieldsFreeOf(item: PIItem, show: bool, c: char)
    requires c == ',' || c == '\n'
    requires TextFreeOf(item, c, show)
    ensures forall k :: 0 <= k < |RowFields(item, show)| ==> c !in RowFields(item, show)[k]
  {
    var row := RowFields(item, show);
    forall k | 0 <= k < |row| ensures c !in row[k] {
      var col := Columns(show)[k];
      assert row[k] == Cell(item, col);
    }
  }

  /**
   * A data row whose text fields hold no comma splits back into its fields:
   * as many as the header has, each under its own column, the line total last.
   */
  lemma RowLineRoundTrip(item: PIItem, show: bool)
    requires TextFreeOf(item, ',', show)
    ensures Split(RowLine(item, show), ',') == RowFields(item, show)
    ensures |Split(RowLine(item, show), ',')| == |Header(show)|
    ensures Split(RowLine(item, show), ',')[|Header(show)| - 1] == Fmt2(LineTotal(item))
  {
    RowFieldsFreeOf(item, show, ',');
    SplitJoinRoundTrip(RowFields(item, show), ',');
  }

  /**
   * The join does no quoting: a comma in any exported text field adds a
   * field to its row. With RowLineRoundTrip, a row splits back into exactly
   * the header's width if and only if its exported text is comma-free.
   */
  lemma RowLineBreaks(item: PIItem, show: bool)
    requires !TextFreeOf(item, ',', show)
    ensures |Split(RowLine(item, show), ',')| > |Header(show)|
  {
    var row := RowFields(item, show);
    var k: nat;
    if ',' in item.product.id {
      k := 0;
    } else if ',' in item.product.name {
      k := 1;
    } else if ',' in item.product.category {
      k := if show then 3 else 2;
    } else if show && ',' in item.product.manufacturer {
      k := 2;
    } else {
      k := if show then 5 else 4;
    }
    assert row[k] == Cell(item, Columns(show)[k]);
    HeaderColumns(show);
    SplitJoinBreaks(row, ',', k);
  }

  /**
   * A summary row as written (",,,,,<caption>,<amount>") has seven fields:
   * five empty ones, the caption and the amount, whatever the flag.
   */
  lemma SummaryRowFields(caption: string, amount: real)
    requires ',' !in caption
    ensures var f := Split(",,,,," + caption + "," + Fmt2(amount), ',');
            |f| == 7 && f[0] == f[1] == f[2] == f[3] == f[4] == "" && f[5] == caption && f[6] == Fmt2(amount)
  {
    var f := SummaryFields(caption, amount);
    SummaryLineText(caption, amount);
    SplitJoinRoundTrip(f, ',');
  }

  /**
   * The summary rows as the export writes them keep seven fields when the
   * manufacturer column makes the header eight wide, so their amount then
   * sits under "Unit Price", not "Total".
   */
  lemma SummaryAlignment(items: seq<PIItem>, show: bool)
    ensures var lines := SummaryLines(ComputeTotals(items));
            |lines| == 3 && forall k :: 0 <= k < 3 ==> |Split(lines[k], ',')| == 7
    ensures |Header(show)| == 7 + (if show then 1 else 0)
    ensures Header(show)[6] == if show then "Unit Price" else "Total"
  {
    var totals := ComputeTotals(items);
    SummaryLinesSeven(totals.subtotal, totals.tax, totals.total);
    HeaderColumns(show);
  }

  /** Each of the three summary rows, whatever its amount, splits into seven fields. */
  lemma SummaryLinesSeven(subtotal: real, tax: real, total: real)
    ensures var lines := SummaryLines(Totals(subtotal, tax, total));
            |lines| == 3 && forall k :: 0 <= k < 3 ==> |Split(lines[k], ',')| == 7
  {
    SummaryRowFields("Subtotal", subtotal);
    SummaryRowFields("Tax (15%)", tax);
    SummaryRowFields("Total", total);
    SummaryCaptions();
  }

  /** The summary templates' literal prefixes: five commas, the caption, a comma. */
  lemma SummaryCaptions()
    ensures ",,,,,Subtotal," == ",,,,," + "Subtotal" + ","
    ensures ",,,,,Tax (15%)," == ",,,,," + "Tax (15%)" + ","
    ensures ",,,,,Total," == ",,,,," + "Total" + ","
  {
  }

  lemma HeaderLineFree(show: bool)
    ensures '\n' !in Join(Header(show), ',')
  {
    var h := Header(show);
    forall i | 0 <= i < |h| ensures '\n' !in h[i] {
      assert h[i] == Title(Columns(show)[i]);
    }
    JoinOmits(h, ',', '\n');
  }

  lemma RowLineFree(item: PIItem, show: bool)
    requires TextFreeOf(item, '\n', show)
    ensures '\n' !in RowLine(item, show)
  {
    RowFieldsFreeOf(item, show, '\n');
    JoinOmits(RowFields(item, show), ',', '\n');
  }

  predicate NoNewlines(lines: seq<string>) {
    forall k :: 0 <= k < |lines| ==> '\n' !in lines[k]
  }

  lemma NoNewlinesAppend(a: seq<string>, b: seq<string>)
    requires NoNewlines(a) && NoNewlines(b)
    ensures NoNewlines(a + b)
  {
    forall k | 0 <= k < |a + b| ensures '\n' !in (a + b)[k] {
      if k >= |a| {
        assert (a + b)[k] == b[k - |a|];
      }
    }
  }

  lemma BodyFree(items: seq<PIItem>, show: bool)
    requires forall i :: 0 <= i < |items| ==> TextFreeOf(items[i], '\n', show)
    ensures NoNewlines(RowLines(items, show))
  {
    forall j | 0 <= j < |items| ensures '\n' !in RowLines(items, show)[j] {
      RowLineFree(items[j], show);
    }
  }

  /** A summary row is free of newlines when its caption and amount are. */
  lemma PrefixedFree(prefix: string, amount: string)
    requires '\n' !in prefix && '\n' !in amount
    ensures '\n' !in prefix + amount
  {
  }

  lemma TailFree(totals: Totals)
    ensures NoNewlines([""] + SummaryLines(totals))
  {
    var a, b, c := Fmt2(totals.subtotal), Fmt2(totals.tax), Fmt2(totals.total);
    PrefixedFree(",,,,,Subtotal,", a);
    PrefixedFree(",,,,,Tax (15%),", b);
    PrefixedFree(",,,,,Total,", c);
    var tail := [""] + SummaryLines(totals);
    assert tail[1] == ",,,,,Subtotal," + a;
    assert tail[2] == ",,,,,Tax (15%)," + b;
    assert tail[3] == ",,,,,Total," + c;
  }

  lemma CsvLinesFree(items: seq<PIItem>, show: bool)
    requires forall i :: 0 <= i < |items| ==> TextFreeOf(items[i], '\n', show)
    ensures NoNewlines(CsvLines(items, show))
  {
    HeaderLineFree(show);
    var body := if |items| == 0 then [""] else RowLines(items, show);
    if |items| > 0 {
      BodyFree(items, show);
    }
    var tail := [""] + SummaryLines(ComputeTotals(items));
    TailFree(ComputeTotals(items));
    var h := Join(Header(show), ',');
    assert NoNewlines([h]);
    NoNewlinesAppend(body, tail);
    NoNewlinesAppend([h], body + tail);
    assert CsvLines(items, show) == [h] + (body + tail);
  }

  /**
   * The exported lines: the header, one row per item in item order (one
   * empty line when there are none), a blank line and the three summary rows.
   */
  lemma CsvLinesShape(items: seq<PIItem>, show: bool)
    ensures var lines := CsvLines(items, show);
            && |lines| == (if |items| == 0 then 1 else |items|) + 5
            && lines[0] == Join(Header(show), ',')
            && (forall j :: 0 <= j < |items| ==> lines[1 + j] == RowLine(items[j], show))
            && (|items| == 0 ==> lines[1] == "")
            && lines[|lines| - 4] == ""
            && lines[|lines| - 3..] == SummaryLines(ComputeTotals(items))
  {
    var lines := CsvLines(items, show);
    var h := Join(Header(show), ',');
    var body := if |items| == 0 then [""] else RowLines(items, show);
    var summary := SummaryLines(ComputeTotals(items));
    var tail := [""] + summary;
    assert lines == [h] + (body + tail);
    LayoutParts(h, body, tail);
    assert |lines| - 4 == 1 + |body|;
    assert lines[|lines| - 3..] == tail[1..] == summary;
  }

  /** Where the header, the body lines and the tail lines sit in [h] + (body + tail). */
  lemma LayoutParts(h: string, body: seq<string>, tail: seq<string>)
    ensures var lines := [h] + (body + tail);
            && |lines| == 1 + |body| + |tail|
            && lines[0] == h
            && (forall j :: 0 <= j < |body| ==> lines[1 + j] == body[j])
            && lines[1 + |body|..] == tail
  {
    var lines := [h] + (body + tail);
    assert lines[1 + |body|..] == tail;
  }

  /**
   * When no item's text holds a newline, the exported text splits back into
   * exactly CsvLines.
   */
  lemma ExportLines(items: seq<PIItem>, show: bool)
    requires forall i :: 0 <= i < |items| ==> TextFreeOf(items[i], '\n', show)
    ensures Split(Join(CsvLines(items, show), '\n'), '\n') == CsvLines(items, show)
  {
    CsvLinesFree(items, show);
    SplitJoinRoundTrip(CsvLines(items, show), '\n');
  }
}

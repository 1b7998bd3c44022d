# Proforma-invoice core, modelled in Dafny

The application is a building-materials marketplace. The user toggles
catalog products into a cart. The cart becomes a proforma invoice: one line
per product with a quantity and, optionally, an edited picture. The invoice
view derives line totals, a subtotal, 15% VAT and a total. It can hide
columns, and it exports the invoice as comma-separated text.

This project models that state logic:

- `types.dfy` (module `Types`): the records of `types.ts`. These are
  `Product`, `PIItem`, `CustomerDetails` and `PIVisibilitySettings`. A
  `PIItem` holds its `Product`, where the source extends it. `editedImage`
  and `notes` are `Option<string>`.
- `cart.dfy` (module `Cart`): the four cart updates of `App.tsx`, plus the
  membership test and the badge count. Each update is a function from the
  old item sequence to the new one, as the source's `setCart` updaters are.
  It is proved that every update keeps product ids pairwise distinct, and
  what each one changes and leaves alone.
- `invoice.dfy` (module `Invoice`): the amounts of `components/PIBuilder.tsx`.
  - The subtotal is the left fold `reduce`, proved equal to the sum of
    `price × quantity`.
  - Tax and total are derived from the subtotal.
  - It is proved how each cart update moves the subtotal.
  - Also here: the visibility defaults and the one-flag toggles, and the
    quantity box's `parseInt(text) || 1` adapter.
- `format.dfy` (module `Format`): how numbers become text in the export.
  - `String(n)` of an integer quantity.
  - `toFixed(2)` of an amount: JavaScript's rule is to round |x| half-up to
    hundredths and write "-" first when x < 0.
  - Both are proved to read back as the value they write.
- `text.dfy` (module `Text`): `Array.prototype.join` and `String.prototype.split`
  with a one-character separator. It proves that, for a non-empty list of
  parts, splitting a join gives the parts back exactly when no part holds
  the separator. (No parts join to "", and "" splits into one empty piece.)
- `csv.dfy` (module `Csv`): `handleExportCSV`. The method `ExportCsv` builds
  the text as the handler does:
  - it splices "Manufacturer" into the headers;
  - it accumulates one joined row per item in a loop;
  - it appends the literal summary template.

  `ExportCsv` is proved to return the lines of the specification function
  `CsvLines` joined with '\n'. The lemmas after it state the column layout,
  the row round trips and their failure on commas, the summary rows'
  seven-field shape and the resulting misalignment under an eight-column
  header, and the line structure of the whole export.
- `wrappers.dfy` (module `Wrappers`): the `Option` type.

Money is exact `real` and quantities are unbounded `int`. Quantities can be
negative: the quantity box passes negative integers through.

## Model

| member | source | states |
|---|---|---|
| Cart.Find | App.tsx:16 | finds a line exactly when the product is in the cart (`some`), and the line found is the first with that id |
| Cart.RemoveItem | App.tsx:33-35 | the result holds exactly the lines whose id differs; the id is no longer in the cart; the length never grows; removing an absent id changes nothing |
| Cart.ToggleCart | App.tsx:14-23 | membership of the product flips. A present product: the result is the removal of its lines. An absent one: exactly one line is appended after the unchanged earlier lines, with the product, quantity 1, no edited image and no notes |
| Cart.RemoveItemAppend | App.tsx:18 | filtering distributes over concatenation, so the remaining lines keep their relative order |
| Cart.RemoveItemIdempotent | App.tsx:33-35 | removing the same id twice is the same as removing it once |
| Cart.RemoveItemKeepsDistinct | App.tsx:33-35 | removal keeps ids pairwise distinct |
| Cart.RemoveItemUnique | App.tsx:33-35 | with distinct ids, removing a present product drops exactly its one line, at its position |
| Cart.ToggleTwice | App.tsx:14-23 | toggling an absent product in and out again gives back the original cart |
| Cart.ToggleKeepsDistinct | App.tsx:16-20 | every toggle keeps ids pairwise distinct |
| Cart.ToggleCount | App.tsx:14-23 | with distinct ids, the cart count (`cart.length`) goes down by one when the product was in the cart and up by one otherwise |
| Cart.UpdateQuantity | App.tsx:25-27 | same length and order; lines with the id get the new quantity; every other field and every other line is unchanged |
| Cart.UpdateQuantityAbsent | App.tsx:25-27 | updating an absent id is a no-op |
| Cart.UpdateQuantityLastWins | App.tsx:25-27 | two successive updates of the same id leave the last quantity |
| Cart.UpdateQuantityKeepsDistinct | App.tsx:25-27 | quantity updates keep ids pairwise distinct |
| Cart.UpdateItemImage | App.tsx:29-31 | same length and order; lines with the id get `Some(image)` as edited image; product, price, quantity, notes and the other lines are unchanged |
| Cart.UpdateItemImageAbsent | App.tsx:29-31 | updating the image of an absent id is a no-op |
| Cart.UpdateItemImageKeepsDistinct | App.tsx:29-31 | image updates keep ids pairwise distinct |
| Invoice.ReduceIsSum | components/PIBuilder.tsx:39 | the left-to-right `reduce` from an accumulator equals the accumulator plus the sum of the line totals |
| Invoice.ComputeTotals | components/PIBuilder.tsx:39-42 | subtotal is Σ price × quantity; tax is subtotal × 0.15; total is subtotal × 1.15; all three are 0 for an empty cart |
| Invoice.SumAppend | components/PIBuilder.tsx:39 | the subtotal of two concatenated carts is the sum of their subtotals |
| Invoice.SumSameLineTotals | components/PIBuilder.tsx:39 | carts with equal line totals at every position have equal subtotals |
| Invoice.ToggleInAddsPrice | components/PIBuilder.tsx:39 | toggling an absent product in raises the subtotal by its unit price |
| Invoice.SumAround | components/PIBuilder.tsx:39 | the subtotal splits into the lines before k, line k and the lines after k |
| Invoice.RemoveSubtractsLine | components/PIBuilder.tsx:39 | with distinct ids, removing a line lowers the subtotal by exactly that line's total |
| Invoice.SumDiffersAt | components/PIBuilder.tsx:39 | two carts whose line totals agree except at k have subtotals that differ by exactly the difference at k |
| Invoice.UpdateQuantityShiftsSubtotal | components/PIBuilder.tsx:39 | with distinct ids, changing a line's quantity moves the subtotal by (new − old) × price |
| Invoice.UpdateItemImageKeepsSubtotal | components/PIBuilder.tsx:39 | editing an image never changes the subtotal |
| Invoice.DefaultVisibility | components/PIBuilder.tsx:27-33 | every flag starts on except notes |
| Invoice.Flip | components/PIBuilder.tsx:105-117 | a toggle negates its flag and leaves every other flag as it was |
| Invoice.FlipTwice | components/PIBuilder.tsx:105-117 | pressing a toggle twice restores the settings |
| Invoice.QtyFromInput | components/PIBuilder.tsx:268 | the quantity sent is never 0; a failed parse or 0 gives 1; any other integer passes through unchanged, negatives included |
| Format.NatToString | components/PIBuilder.tsx:57 | the decimal text of a natural number is non-empty, all digits, and has no leading zero |
| Format.ParseNatToString | components/PIBuilder.tsx:57 | reading the decimal text back gives the number |
| Format.IntToString | components/PIBuilder.tsx:57 | the text of a quantity holds neither a comma nor a newline |
| Format.IntToStringValue | components/PIBuilder.tsx:57 | a negative quantity is written as "-" and its magnitude; the digits read back as the magnitude |
| Format.RoundHundredths | components/PIBuilder.tsx:59-60 | the chosen count of hundredths is the nearest one to x × 100, with halves rounded up |
| Format.FixedTwo | components/PIBuilder.tsx:59-60 | the text is digits, a point, and exactly two digits |
| Format.FixedTwoValue | components/PIBuilder.tsx:59-60 | the units and the two decimals read back as the count of hundredths |
| Format.Fmt2 | components/PIBuilder.tsx:59-60 | an amount's text holds neither a comma nor a newline, and has a point three places from its end |
| Format.Fmt2Value | components/PIBuilder.tsx:59-60 | for x ≥ 0 the text reads back as x rounded to hundredths; for x < 0 it is "-" followed by the text of −x |
| Text.Split | components/PIBuilder.tsx:63 | splitting always yields at least one piece |
| Text.SplitAround | components/PIBuilder.tsx:63 | splitting around one separator is splitting each side and concatenating the pieces |
| Text.SplitSingle | components/PIBuilder.tsx:63 | a text without the separator splits into itself; one with it splits into two or more pieces |
| Text.SplitJoin | components/PIBuilder.tsx:63 | splitting a join is splitting each part in turn |
| Text.SplitEachFree | components/PIBuilder.tsx:63 | parts free of the separator split into themselves; a part holding it yields extra pieces |
| Text.SplitJoinRoundTrip | components/PIBuilder.tsx:63 | when no part holds the separator, splitting the join gives back exactly the parts |
| Text.SplitJoinBreaks | components/PIBuilder.tsx:63 | when some part holds the separator, splitting the join gives more pieces than parts, so not the parts |
| Text.JoinAppend | components/PIBuilder.tsx:67-68 | joining two non-empty lists is joining each with the separator between them |
| Text.JoinOmits | components/PIBuilder.tsx:63 | a character absent from every part and unequal to the separator is absent from the join |
| Csv.HeaderAsBuilt | components/PIBuilder.tsx:49-50 | the header as the column layout defines it equals the base titles, with "Manufacturer" spliced in at index 2 when shown |
| Csv.HeaderColumns | components/PIBuilder.tsx:49-50 | 7 titles, or 8 with "Manufacturer" at index 2 between Product and Category; removing it gives the original order; "Manufacturer" appears iff the flag is on; "Total" is last |
| Csv.RowFields | components/PIBuilder.tsx:52-62 | a row built by splicing the manufacturer in has one field per header column, and each field is that column's cell for the item |
| Csv.ManufacturerField | components/PIBuilder.tsx:62 | with the flag on, field 2 is the manufacturer; removing it gives the row with the flag off |
| Csv.RowFieldsFreeOf | components/PIBuilder.tsx:52-62 | if the item's exported text fields hold no comma (or no newline), no row field does; the manufacturer matters only when shown |
| Csv.RowLineRoundTrip | components/PIBuilder.tsx:63 | when no exported field holds a comma (the manufacturer counts only when shown), the joined row splits back into its fields: as many as the header, with the formatted price × quantity last |
| Csv.RowLineBreaks | components/PIBuilder.tsx:53-63 | the join does no quoting: a comma in any exported text field (id, name, category, unit, or the manufacturer when shown) gives the row more fields than the header; with RowLineRoundTrip, the row splits back to the header's width if and only if its exported text is comma-free |
| Csv.SummaryLineText | components/PIBuilder.tsx:69-71 | the summary text ",,,,,caption,amount" is the seven summary fields joined with commas |
| Csv.SummaryRowFields | components/PIBuilder.tsx:69-71 | a summary row splits into exactly 7 fields: five empty ones, the caption and the amount |
| Csv.SummaryLinesSeven | components/PIBuilder.tsx:69-71 | each of the three summary rows as written, whatever its amount, splits into 7 fields |
| Csv.SummaryAlignment | components/PIBuilder.tsx:49-50 | the export's three summary rows split into 7 fields while the header has 8 with the flag on, so their amount sits under "Unit Price" with the flag on and under "Total" with it off |
| Csv.CsvLinesOfRows | components/PIBuilder.tsx:52-64 | rows accumulated one per item, in order, are the data lines of the export |
| Csv.ExportText | components/PIBuilder.tsx:66-71 | the handler's concatenation template is the export's lines joined with newlines |
| Csv.ExportCsv | components/PIBuilder.tsx:48-76 | the file is named "PI_" + PI number + ".csv"; the content is the lines of CsvLines joined with newlines |
| Csv.HeaderLineFree | components/PIBuilder.tsx:67 | the header line holds no newline |
| Csv.RowLineFree | components/PIBuilder.tsx:63 | a row holds no newline when the item's exported text fields hold none |
| Csv.BodyFree | components/PIBuilder.tsx:52-64 | the data lines hold no newline when no item's text does |
| Csv.TailFree | components/PIBuilder.tsx:69-71 | the blank line and the three summary lines hold no newline |
| Csv.CsvLinesFree | components/PIBuilder.tsx:66-71 | no export line holds a newline when no item's text does |
| Csv.CsvLinesShape | components/PIBuilder.tsx:66-71 | the export has max(items, 1) + 5 lines: the header, one row per item in item order (an empty line when there are none), a blank line, then the Subtotal, Tax (15%) and Total rows |
| Csv.ExportLines | components/PIBuilder.tsx:66-71 | when no item's exported text holds a newline, the exported text splits on newlines back into exactly those lines |

## Left out

- The `data:text/csv;charset=utf-8,` prefix, `encodeURI`, and the anchor
  that triggers the download. `ExportCsv` returns the file name and the
  text instead.
- `window.print` and all rendering (the invoice table, the catalog cards,
  the navigation bar): these are display only.
- The customer-detail edits: each replaces the whole record with a spread
  copy and has no logic.
- The AI image editor and the image-generation service. These are calls to
  an external model; the cart only receives the resulting image string,
  which `UpdateItemImage` models.
- The catalog constants and the initial customer record. The record's date
  and PI number come from the clock and a random number generator.
- IEEE-754 arithmetic. Amounts are exact reals, so rounding error in
  `price * quantity`, in the running sum and in `subtotal * 0.15` is not
  modelled.
- Format.IntToString follows `String(n)` only for |n| < 10^21. It does not
  model the exponent notation (such as "1e+21") that `String` switches to
  above that, which a quantity typed that large would reach.
- Format.Fmt2 follows `toFixed(2)` only for |x| < 10^21; it does not model
  the exponent notation `toFixed` switches to above that.
- Invoice.QtyFromInput takes parseInt's result as an `Option<int>`; parseInt's
  own reading of the box's text (leading blanks, a sign, stopping at the
  first non-digit) is not modelled.
- The `notes` field and the `showNotes` flag are modelled only as data and
  as the default `false`; nothing else reads or writes them.
- Invoice.Flip ranges over all five flags. The invoice has buttons only for
  images, manufacturer and description (components/PIBuilder.tsx:105, 111,
  117); the flip of the unit and notes flags has no button.
- Several members are plain definitions with no contract of their own; the
  members named after each carry the properties:
  - Cart.IsInCart (`some`, App.tsx:70): the contracts of Find, RemoveItem and
    ToggleCart, and the Absent lemmas.
  - Cart.CartCount (`cart.length`, App.tsx:42): the lemma ToggleCount.
  - Cart.NewItem (the appended line, App.tsx:20): the contract of ToggleCart.
  - Invoice.LineTotal (`price * quantity`, components/PIBuilder.tsx:39, 60):
    ComputeTotals, the subtotal lemmas, and RowLineRoundTrip (last field).
  - Invoice.ReduceSubtotal (the `reduce`, components/PIBuilder.tsx:39):
    ReduceIsSum and ComputeTotals.
  - Text.Join (`join`, components/PIBuilder.tsx:63, 67-68): the Split/Join
    lemmas, JoinAppend and JoinOmits.
  - Csv.Splice (`splice(2, 0, …)`, components/PIBuilder.tsx:50, 62):
    HeaderAsBuilt and RowFields.
  - Csv.Header (components/PIBuilder.tsx:49-50): HeaderAsBuilt and HeaderColumns.
  - Csv.RowLine (components/PIBuilder.tsx:52-63): RowLineRoundTrip, RowLineBreaks
    and RowLineFree.
  - Csv.RowLines (`items.map(…)`, components/PIBuilder.tsx:52-64): CsvLinesShape,
    CsvLinesOfRows and BodyFree.
  - Csv.SummaryLines (components/PIBuilder.tsx:69-71): SummaryLinesSeven,
    SummaryAlignment and TailFree.
  - Csv.CsvLines (components/PIBuilder.tsx:48-71): ExportCsv, CsvLinesShape,
    CsvLinesFree and ExportLines.

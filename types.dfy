/**
 * The records of the proforma-invoice tool (types.ts).
 * A line item extends a catalog product with its own quantity, an optional
 * edited image and optional notes; here the product's fields are kept as a
 * nested record, so "a line item's product fields" is `item.product`.
 */
module Types {
  import opened Wrappers

  /** A catalog product; `price` is an exact decimal rather than a double. */
  datatype Product = Product(
    id: string,
    name: string,
    category: string,
    manufacturer: string,
    price: real,
    unit: string,
    image: string,
    description: string,
    features: seq<string>)

  /** An invoice line: the product, how many, and the image edited for this invoice. */
  datatype PIItem = PIItem(
    product: Product,
    quantity: int,
    editedImage: Option<string>,
    notes: Option<string>)

  /** The "bill to" block and the invoice's number and dates, all free text. */
  datatype CustomerDetails = CustomerDetails(
    name: string,
    company: string,
    email: string,
    phone: string,
    address: string,
    piNumber: string,
    date: string,
    validUntil: string)

  /** Which optional columns and fields the invoice shows. */
  datatype PIVisibilitySettings = PIVisibilitySettings(
    showManufacturer: bool,
    showDescription: bool,
    showImages: bool,
    showUnit: bool,
    showNotes: bool)
}

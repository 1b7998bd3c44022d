/**
 * What the invoice view (components/PIBuilder.tsx) derives from the cart:
 * the line totals, subtotal, 15% tax and total; the column-visibility flags
 * and their toggles; and the adapter that turns the quantity box's text
 * into the quantity sent to the cart.
 */
module Invoice {
  import opened Wrappers
  import opened Types
  import Cart

  /** The VAT rate the invoice applies. */
  const TaxRate: real := 0.15

  /** `item.price * item.quantity`. */
  function LineTotal(item: PIItem): real {
    item.product.price * item.quantity as real
  }

  /** Σ price × quantity over the lines: the reference the subtotal is proved against. */
  function SumLineTotals(items: seq<PIItem>): real {
    if |items| == 0 then 0.0 else LineTotal(items[0]) + SumLineTotals(items[1..])
  }

  /** `items.reduce((sum, item) => sum + item.price * item.quantity, acc)`, left to right. */
  function ReduceSubtotal(acc: real, items: seq<PIItem>): real
    decreases |items|
  {
    if |items| == 0 then acc else ReduceSubtotal(acc + LineTotal(items[0]), items[1..])
  }

  lemma {:induction false} ReduceIsSum(acc: real, items: seq<PIItem>)
    ensures ReduceSubtotal(acc, items) == acc + SumLineTotals(items)
    decreases |items|
  {
    if |items| > 0 {
      ReduceIsSum(acc + LineTotal(items[0]), items[1..]);
    }
  }

  datatype Totals = Totals(subtotal: real, tax: real, total: real)

  /** The three amounts under the invoice table and at the end of the CSV. */
  function ComputeTotals(items: seq<PIItem>): (t: Totals)
    ensures t.subtotal == SumLineTotals(items)
    ensures t.tax == t.subtotal * 0.15
    ensures t.total == t.subtotal * 1.15
    ensures |items| == 0 ==> t == Totals(0.0, 0.0, 0.0)
  {
    var subtotal := ReduceSubtotal(0.0, items);
    var tax := subtotal * TaxRate;
    ReduceIsSum(0.0, items);
    Totals(subtotal, tax, subtotal + tax)
  }

  lemma {:induction false} SumAppend(a: seq<PIItem>, b: seq<PIItem>)
    ensures SumLineTotals(a + b) == SumLineTotals(a) + SumLineTotals(b)
  {
    if |a| == 0 {
      assert a + b == b;
    } else {
      assert (a + b)[1..] == a[1..] + b;
      SumAppend(a[1..], b);
    }
  }

  lemma {:induction false} SumSameLineTotals(a: seq<PIItem>, b: seq<PIItem>)
    requires |a| == |b|
    requires forall i :: 0 <= i < |a| ==> LineTotal(a[i]) == LineTotal(b[i])
    ensures SumLineTotals(a) == SumLineTotals(b)
  {
    if |a| > 0 {
      SumSameLineTotals(a[1..], b[1..]);
    }
  }

  // ---- How the cart updates move the subtotal ----

  /** Toggling an absent product in adds its unit price (quantity 1) to the subtotal. */
  lemma ToggleInAddsPrice(cart: seq<PIItem>, p: Product)
    requires !Cart.IsInCart(cart, p.id)
    ensures SumLineTotals(Cart.ToggleCart(cart, p)) == SumLineTotals(cart) + p.price
  {
    var r := Cart.ToggleCart(cart, p);
    assert r == cart + [r[|cart|]];
    SumAppend(cart, [r[|cart|]]);
  }

  lemma SumAround(s: seq<PIItem>, k: nat)
    requires k < |s|
    ensures SumLineTotals(s) == SumLineTotals(s[..k]) + LineTotal(s[k]) + SumLineTotals(s[k + 1..])
  {
    assert s == s[..k] + ([s[k]] + s[k + 1..]);
    SumAppend(s[..k], [s[k]] + s[k + 1..]);
    SumAppend([s[k]], s[k + 1..]);
  }

  /** With distinct ids, removing a line takes exactly its line total off the subtotal. */
  lemma RemoveSubtractsLine(cart: seq<PIItem>, id: string, k: nat)
    requires Cart.DistinctIds(cart)
    requires k < |cart| && cart[k].product.id == id
    ensures SumLineTotals(Cart.RemoveItem(cart, id)) == SumLineTotals(cart) - LineTotal(cart[k])
  {
    Cart.RemoveItemUnique(cart, id, k);
    SumAround(cart, k);
    SumAppend(cart[..k], cart[k + 1..]);
  }

  /** Two carts whose line totals differ at most at position k differ in sum by that line. */
  lemma {:induction false} SumDiffersAt(a: seq<PIItem>, b: seq<PIItem>, k: nat)
    requires |a| == |b| && k < |a|
    requires forall i :: 0 <= i < |a| && i != k ==> LineTotal(a[i]) == LineTotal(b[i])
    ensures SumLineTotals(a) - LineTotal(a[k]) == SumLineTotals(b) - LineTotal(b[k])
  {
    if k == 0 {
      SumSameLineTotals(a[1..], b[1..]);
    } else {
      SumDiffersAt(a[1..], b[1..], k - 1);
    }
  }

  /** With distinct ids, a quantity edit moves the subtotal by (new − old) × price. */
  lemma UpdateQuantityShiftsSubtotal(cart: seq<PIItem>, id: string, qty: int, k: nat)
    requires Cart.DistinctIds(cart)
    requires k < |cart| && cart[k].product.id == id
    ensures SumLineTotals(Cart.UpdateQuantity(cart, id, qty))
            == SumLineTotals(cart) + (qty - cart[k].quantity) as real * cart[k].product.price
  {
    var r := Cart.UpdateQuantity(cart, id, qty);
    forall i | 0 <= i < |r| && i != k ensures LineTotal(r[i]) == LineTotal(cart[i]) {
      assert r[i] == cart[i];
    }
    SumDiffersAt(r, cart, k);
    var price, was := cart[k].product.price, cart[k].quantity;
    assert LineTotal(r[k]) - LineTotal(cart[k]) == price * qty as real - price * was as real;
  }

  /** Replacing a line's image never changes the amounts. */
  lemma UpdateItemImageKeepsSubtotal(cart: seq<PIItem>, id: string, image: string)
    ensures SumLineTotals(Cart.UpdateItemImage(cart, id, image)) == SumLineTotals(cart)
  {
    SumSameLineTotals(Cart.UpdateItemImage(cart, id, image), cart);
  }

  // ---- Visibility settings ----

  /** The flags of PIVisibilitySettings, so that "the other flags" can be quantified over. */
  datatype Flag = ManufacturerFlag | DescriptionFlag | ImagesFlag | UnitFlag | NotesFlag

  function Shows(v: PIVisibilitySettings, f: Flag): bool {
    match f
    case ManufacturerFlag => v.showManufacturer
    case DescriptionFlag => v.showDescription
    case ImagesFlag => v.showImages
    case UnitFlag => v.showUnit
    case NotesFlag => v.showNotes
  }

  /** The settings the invoice opens with: everything shown except notes. */
  function DefaultVisibility(): (v: PIVisibilitySettings)
    ensures forall f :: Shows(v, f) <==> f != NotesFlag
  {
    PIVisibilitySettings(
      showManufacturer := true,
      showDescription := true,
      showImages := true,
      showUnit := true,
      showNotes := false)
  }

  /** `setVisibility(prev => ({...prev, showX: !prev.showX}))` for the flag f. */
  function Flip(v: PIVisibilitySettings, f: Flag): (r: PIVisibilitySettings)
    ensures Shows(r, f) == !Shows(v, f)
    ensures forall g :: g != f ==> Shows(r, g) == Shows(v, g)
  {
    match f
    case ManufacturerFlag => v.(showManufacturer := !v.showManufacturer)
    case DescriptionFlag => v.(showDescription := !v.showDescription)
    case ImagesFlag => v.(showImages := !v.showImages)
    case UnitFlag => v.(showUnit := !v.showUnit)
    case NotesFlag => v.(showNotes := !v.showNotes)
  }

  lemma FlipTwice(v: PIVisibilitySettings, f: Flag)
    ensures Flip(Flip(v, f), f) == v
  {
    match f
    case ManufacturerFlag =>
    case DescriptionFlag =>
    case ImagesFlag =>
    case UnitFlag =>
    case NotesFlag =>
  }

  // ---- Quantity input ----

  /**
   * `parseInt(text) || 1`: `parsed` is parseInt's result, None for NaN.
   * NaN and 0 become 1; any other integer, negative ones included, passes through.
   */
  function QtyFromInput(parsed: Option<int>): (q: int)
    ensures q != 0
    ensures parsed == None || parsed == Some(0) ==> q == 1
    ensures parsed.Some? && parsed.value != 0 ==> q == parsed.value
  {
    match parsed
    case None => 1
    case Some(n) => if n == 0 then 1 else n
  }
}

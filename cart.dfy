/**
 * The cart held by the application (App.tsx): the list of invoice lines and
 * the four updates the UI sends to it. Each update builds a new list from
 * the old one; none changes an item in place.
 */
module Cart {
  import opened Wrappers
  import opened Types

  /** `cart.some(c => c.id === id)`: whether a product is shown as in the cart. */
  predicate IsInCart(cart: seq<PIItem>, id: string) {
    exists i :: 0 <= i < |cart| && cart[i].product.id == id
  }

  /** No two lines of the cart are for the same product. */
  predicate DistinctIds(cart: seq<PIItem>) {
    forall i, j :: 0 <= i < j < |cart| ==> cart[i].product.id != cart[j].product.id
  }

  /** The badge count, `cart.length`. */
  function CartCount(cart: seq<PIItem>): nat {
    |cart|
  }

  /** `cart.find(item => item.id === id)`: the first line for that product. */
  function Find(cart: seq<PIItem>, id: string): (r: Option<PIItem>)
    ensures r.Some? <==> IsInCart(cart, id)
    ensures r.Some? ==> exists i :: 0 <= i < |cart| && cart[i] == r.value && cart[i].product.id == id
                                    && !IsInCart(cart[..i], id)
  {
    if |cart| == 0 then None
    else if cart[0].product.id == id then
      assert cart[..0] == [];
      Some(cart[0])
    else
      var r := Find(cart[1..], id);
      assert IsInCart(cart[1..], id) ==> IsInCart(cart, id) by {
        if IsInCart(cart[1..], id) {
          var i :| 0 <= i < |cart[1..]| && cart[1..][i].product.id == id;
          assert cart[i + 1].product.id == id;
        }
      }
      assert r.Some? ==> exists i :: 0 <= i < |cart| && cart[i] == r.value && cart[i].product.id == id
                                     && !IsInCart(cart[..i], id) by {
        if r.Some? {
          var i :| 0 <= i < |cart[1..]| && cart[1..][i] == r.value && r.value.product.id == id
                   && !IsInCart(cart[1..][..i], id);
          assert cart[..i + 1] == [cart[0]] + cart[1..][..i];
          assert cart[i + 1] == r.value;
        }
      }
      r
  }

  /** The line `{ ...product, quantity: 1 }` a toggle appends. */
  function NewItem(p: Product): PIItem {
    PIItem(p, 1, None, None)
  }

  /** `cart.filter(item => item.id !== id)` (handleRemoveItem). */
  function RemoveItem(cart: seq<PIItem>, id: string): (r: seq<PIItem>)
    ensures forall x :: x in r <==> x in cart && x.product.id != id
    ensures !IsInCart(r, id)
    ensures |r| <= |cart|
    ensures !IsInCart(cart, id) ==> r == cart
  {
    if |cart| == 0 then []
    else
      assert IsInCart(cart[1..], id) ==> IsInCart(cart, id) by {
        if IsInCart(cart[1..], id) {
          var i :| 0 <= i < |cart[1..]| && cart[1..][i].product.id == id;
          assert cart[i + 1].product.id == id;
        }
      }
      assert cart == [cart[0]] + cart[1..];
      if cart[0].product.id == id then RemoveItem(cart[1..], id)
      else [cart[0]] + RemoveItem(cart[1..], id)
  }

  /** handleToggleCart: drop the product's lines if it has one, else append a new line. */
  function ToggleCart(cart: seq<PIItem>, p: Product): (r: seq<PIItem>)
    ensures IsInCart(r, p.id) <==> !IsInCart(cart, p.id)
    ensures IsInCart(cart, p.id) ==> r == RemoveItem(cart, p.id)
    ensures !IsInCart(cart, p.id) ==>
              |r| == |cart| + 1 && r[..|cart|] == cart && r[|cart|].product == p
              && r[|cart|].quantity == 1 && r[|cart|].editedImage == None
    ensures !IsInCart(cart, p.id) ==> r == cart + [NewItem(p)]
  {
    if Find(cart, p.id).Some? then RemoveItem(cart, p.id)
    else
      var r := cart + [NewItem(p)];
      assert r[|cart|].product.id == p.id;
      r
  }

  /** handleUpdateQuantity: every line for `id` gets quantity `qty`. */
  function UpdateQuantity(cart: seq<PIItem>, id: string, qty: int): (r: seq<PIItem>)
    ensures |r| == |cart|
    ensures forall i :: 0 <= i < |r| ==>
              r[i].product == cart[i].product && r[i].editedImage == cart[i].editedImage
              && r[i].notes == cart[i].notes
    ensures forall i :: 0 <= i < |r| ==>
              r[i].quantity == if cart[i].product.id == id then qty else cart[i].quantity
  {
    if |cart| == 0 then []
    else [if cart[0].product.id == id then cart[0].(quantity := qty) else cart[0]]
         + UpdateQuantity(cart[1..], id, qty)
  }

  /** handleUpdateItemImage: every line for `id` shows `image` instead of the catalog picture. */
  function UpdateItemImage(cart: seq<PIItem>, id: string, image: string): (r: seq<PIItem>)
    ensures |r| == |cart|
    ensures forall i :: 0 <= i < |r| ==>
              r[i].product == cart[i].product && r[i].quantity == cart[i].quantity
              && r[i].notes == cart[i].notes
    ensures forall i :: 0 <= i < |r| ==>
              r[i].editedImage == if cart[i].product.id == id then Some(image) else cart[i].editedImage
  {
    if |cart| == 0 then []
    else [if cart[0].product.id == id then cart[0].(editedImage := Some(image)) else cart[0]]
         + UpdateItemImage(cart[1..], id, image)
  }

  // ---- Properties of the cart updates ----

  /** Removing keeps the order of the other lines: it distributes over concatenation. */
  lemma {:induction false} RemoveItemAppend(a: seq<PIItem>, b: seq<PIItem>, id: string)
    ensures RemoveItem(a + b, id) == RemoveItem(a, id) + RemoveItem(b, id)
  {
    if |a| == 0 {
      assert a + b == b;
    } else {
      assert (a + b)[1..] == a[1..] + b;
      RemoveItemAppend(a[1..], b, id);
    }
  }

  lemma RemoveItemIdempotent(cart: seq<PIItem>, id: string)
    ensures RemoveItem(RemoveItem(cart, id), id) == RemoveItem(cart, id)
  {
  }

  lemma {:induction false} RemoveItemKeepsDistinct(cart: seq<PIItem>, id: string)
    requires DistinctIds(cart)
    ensures DistinctIds(RemoveItem(cart, id))
  {
    if |cart| > 0 {
      RemoveItemKeepsDistinct(cart[1..], id);
      var rest := RemoveItem(cart[1..], id);
      forall j | 0 <= j < |rest|
        ensures rest[j].product.id != cart[0].product.id
      {
        assert rest[j] in cart[1..];
      }
    }
  }

  /** With distinct ids, removing a present product drops exactly its one line. */
  lemma RemoveItemUnique(cart: seq<PIItem>, id: string, k: nat)
    requires DistinctIds(cart)
    requires k < |cart| && cart[k].product.id == id
    ensures RemoveItem(cart, id) == cart[..k] + cart[k + 1..]
  {
    assert cart == cart[..k] + ([cart[k]] + cart[k + 1..]);
    RemoveItemAppend(cart[..k], [cart[k]] + cart[k + 1..], id);
    RemoveItemAppend([cart[k]], cart[k + 1..], id);
    assert !IsInCart(cart[..k], id);
    assert !IsInCart(cart[k + 1..], id);
    assert RemoveItem([cart[k]], id) == [];
  }

  /** Toggling a product in and then out again gives back the cart. */
  lemma ToggleTwice(cart: seq<PIItem>, p: Product)
    requires !IsInCart(cart, p.id)
    ensures ToggleCart(ToggleCart(cart, p), p) == cart
  {
    var once := ToggleCart(cart, p);
    assert once == cart + [NewItem(p)];
    RemoveItemAppend(cart, [NewItem(p)], p.id);
    assert RemoveItem([NewItem(p)], p.id) == [];
  }

  lemma ToggleKeepsDistinct(cart: seq<PIItem>, p: Product)
    requires DistinctIds(cart)
    ensures DistinctIds(ToggleCart(cart, p))
  {
    if IsInCart(cart, p.id) {
      RemoveItemKeepsDistinct(cart, p.id);
    } else {
      var r := ToggleCart(cart, p);
      forall i, j | 0 <= i < j < |r|
        ensures r[i].product.id != r[j].product.id
      {
        if j == |cart| {
          assert r[i] == cart[i];
        }
      }
    }
  }

  /** The cart count moves by exactly one per toggle. */
  lemma ToggleCount(cart: seq<PIItem>, p: Product)
    requires DistinctIds(cart)
    ensures CartCount(ToggleCart(cart, p)) ==
            if IsInCart(cart, p.id) then CartCount(cart) - 1 else CartCount(cart) + 1
  {
    if IsInCart(cart, p.id) {
      var k :| 0 <= k < |cart| && cart[k].product.id == p.id;
      RemoveItemUnique(cart, p.id, k);
    }
  }

  lemma UpdateQuantityAbsent(cart: seq<PIItem>, id: string, qty: int)
    requires !IsInCart(cart, id)
    ensures UpdateQuantity(cart, id, qty) == cart
  {
    var r := UpdateQuantity(cart, id, qty);
    assert forall i :: 0 <= i < |r| ==> r[i] == cart[i];
  }

  /** Two successive quantity edits of the same line leave the last value. */
  lemma UpdateQuantityLastWins(cart: seq<PIItem>, id: string, q1: int, q2: int)
    ensures UpdateQuantity(UpdateQuantity(cart, id, q1), id, q2) == UpdateQuantity(cart, id, q2)
  {
    var a := UpdateQuantity(UpdateQuantity(cart, id, q1), id, q2);
    var b := UpdateQuantity(cart, id, q2);
    assert forall i :: 0 <= i < |a| ==> a[i] == b[i];
  }

  lemma UpdateQuantityKeepsDistinct(cart: seq<PIItem>, id: string, qty: int)
    requires DistinctIds(cart)
    ensures DistinctIds(UpdateQuantity(cart, id, qty))
  {
  }

  lemma UpdateItemImageAbsent(cart: seq<PIItem>, id: string, image: string)
    requires !IsInCart(cart, id)
    ensures UpdateItemImage(cart, id, image) == cart
  {
    var r := UpdateItemImage(cart, id, image);
    assert forall i :: 0 <= i < |r| ==> r[i] == cart[i];
  }

  lemma UpdateItemImageKeepsDistinct(cart: seq<PIItem>, id: string, image: string)
    requires DistinctIds(cart)
    ensures DistinctIds(UpdateItemImage(cart, id, image))
  {
  }
}

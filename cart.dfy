/** The draft order: the new cart each of `addToCart`, `updateQuantity` and
    `removeFromCart` hands to `setCart`, as a function of the cart before. */
module CartOps {
  import opened Domain
  import opened Seqs

  /** The truth test on `cart.find(item => item.id === id)`: some line is for product `id`. */
  predicate HasLine(cart: seq<CartLine>, id: string): (b: bool)
    ensures b <==> exists l :: l in cart && l.Id() == id
  {
    exists i :: 0 <= i < |cart| && cart[i].Id() == id
  }

  ghost predicate DistinctIds(a: CartLine, b: CartLine) {
    a.Id() != b.Id()
  }

  /** No two lines of the cart are for the same product. */
  ghost predicate UniqueIds(cart: seq<CartLine>) {
    Pairwise(cart, DistinctIds)
  }

  /** Every line orders at least one unit. */
  predicate PositiveQtys(cart: seq<CartLine>) {
    forall i :: 0 <= i < |cart| ==> cart[i].qty >= 1
  }

  /** The `cart.map` of addToCart: every line for product `id` gets `delta` more units. */
  function IncreaseQty(cart: seq<CartLine>, id: string, delta: int): (r: seq<CartLine>)
    ensures |r| == |cart|
    ensures forall i :: 0 <= i < |cart| ==>
      r[i].product == cart[i].product && r[i].finalPrice == cart[i].finalPrice &&
      r[i].qty == if cart[i].Id() == id then cart[i].qty + delta else cart[i].qty
  {
    Map(cart, (l: CartLine) => if l.Id() == id then l.(qty := l.qty + delta) else l)
  }

  /** addToCart: an existing line for the product only grows by `qty` and keeps the unit
      price it was given when first added; otherwise one new line is appended at the end
      with the price computed now. */
  function AddLine(cart: seq<CartLine>, product: Product, qty: int, finalPrice: int): (r: seq<CartLine>)
    ensures HasLine(cart, product.id) ==> |r| == |cart|
    ensures HasLine(cart, product.id) ==> forall i :: 0 <= i < |cart| ==>
      r[i].product == cart[i].product && r[i].finalPrice == cart[i].finalPrice &&
      r[i].qty == if cart[i].Id() == product.id then cart[i].qty + qty else cart[i].qty
    ensures !HasLine(cart, product.id) ==> r == cart + [CartLine(product, qty, finalPrice)]
    ensures UniqueIds(cart) ==> UniqueIds(r)
    ensures PositiveQtys(cart) && qty >= 1 ==> PositiveQtys(r)
  {
    if HasLine(cart, product.id) then
      var r := IncreaseQty(cart, product.id, qty);
      assert UniqueIds(cart) ==> UniqueIds(r) by {
        if UniqueIds(cart) {
          forall i, j | 0 <= i < j < |r| ensures DistinctIds(r[i], r[j]) {
            assert DistinctIds(cart[i], cart[j]);
          }
        }
      }
      r
    else
      var r := cart + [CartLine(product, qty, finalPrice)];
      assert UniqueIds(cart) ==> UniqueIds(r) by {
        if UniqueIds(cart) {
          forall i, j | 0 <= i < j < |r| ensures DistinctIds(r[i], r[j]) {
            if j < |cart| {
              assert DistinctIds(cart[i], cart[j]);
            } else {
              assert r[i] == cart[i];
            }
          }
        }
      }
      r
  }

  /** updateQuantity: a quantity below one is ignored; otherwise every line for `id` gets
      exactly `newQty` units and nothing else about any line changes. */
  function SetQty(cart: seq<CartLine>, id: string, newQty: int): (r: seq<CartLine>)
    ensures newQty < 1 ==> r == cart
    ensures |r| == |cart|
    ensures forall i :: 0 <= i < |cart| ==>
      r[i].product == cart[i].product && r[i].finalPrice == cart[i].finalPrice &&
      r[i].qty == if cart[i].Id() == id && newQty >= 1 then newQty else cart[i].qty
    ensures UniqueIds(cart) ==> UniqueIds(r)
    ensures PositiveQtys(cart) ==> PositiveQtys(r)
  {
    if newQty < 1 then cart
    else
      var r := Map(cart, (l: CartLine) => if l.Id() == id then l.(qty := newQty) else l);
      assert UniqueIds(cart) ==> UniqueIds(r) by {
        if UniqueIds(cart) {
          forall i, j | 0 <= i < j < |r| ensures DistinctIds(r[i], r[j]) {
            assert DistinctIds(cart[i], cart[j]);
          }
        }
      }
      r
  }

  /** removeFromCart: drop every line for `id` and keep the rest in order. */
  function RemoveLine(cart: seq<CartLine>, id: string): (r: seq<CartLine>)
    ensures !HasLine(r, id)
    ensures forall i :: 0 <= i < |cart| && cart[i].Id() != id ==> cart[i] in r
    ensures forall i :: 0 <= i < |r| ==> r[i] in cart
    ensures IsSubsequence(r, cart)
    ensures !HasLine(cart, id) ==> r == cart
    ensures UniqueIds(cart) ==> UniqueIds(r)
    ensures PositiveQtys(cart) ==> PositiveQtys(r)
  {
    var keep := (l: CartLine) => l.Id() != id;
    FilterIsSubsequence(cart, keep);
    FilterAllPass(cart, keep);
    assert UniqueIds(cart) ==> UniqueIds(Filter(cart, keep)) by {
      if UniqueIds(cart) {
        FilterKeepsPairwise(cart, keep, DistinctIds);
      }
    }
    Filter(cart, keep)
  }

  /** Removal works line by line: removing from two carts put together is removing from
      each. With the contract of RemoveLine this fixes the result exactly, duplicates
      included. */
  lemma RemoveLineAppend(a: seq<CartLine>, b: seq<CartLine>, id: string)
    ensures RemoveLine(a + b, id) == RemoveLine(a, id) + RemoveLine(b, id)
  {
    FilterAppend(a, b, (l: CartLine) => l.Id() != id);
  }

  /** The unit price is a snapshot: adding the same product twice, even with a different
      price computed the second time, leaves one line with the summed quantity and the
      first price. */
  lemma PriceLockedAtFirstAdd(cart: seq<CartLine>, product: Product, q1: int, q2: int,
                              firstPrice: int, laterPrice: int)
    requires !HasLine(cart, product.id)
    ensures AddLine(AddLine(cart, product, q1, firstPrice), product, q2, laterPrice)
         == cart + [CartLine(product, q1 + q2, firstPrice)]
  {
    var once := AddLine(cart, product, q1, firstPrice);
    assert once[|cart|].Id() == product.id;
    var twice := AddLine(once, product, q2, laterPrice);
    var want := cart + [CartLine(product, q1 + q2, firstPrice)];
    forall i | 0 <= i < |want| ensures twice[i] == want[i] {
      if i < |cart| {
        assert once[i] == cart[i];
        assert cart[i].Id() != product.id;
      }
    }
  }

  /** A second removal of the same id changes nothing. */
  lemma RemoveIdempotent(cart: seq<CartLine>, id: string)
    ensures RemoveLine(RemoveLine(cart, id), id) == RemoveLine(cart, id)
  {
  }
}

/** Tiered unit pricing and the invoice breakdown of the cart screen. All amounts are whole
    rupees; the rounding is exact integer floor and ceiling. */
module Pricing {
  import opened Domain

  /** `calculatePrice`: nobody logged in, or an admin, pays the base price; a retailer pays
      the base price less their discount percentage, rounded down. */
  function UnitPrice(user: Option<User>, basePrice: int): (r: int)
    ensures user.None? || IsAdmin(user.value) ==> r == basePrice
    ensures user.Some? && !IsAdmin(user.value) ==>
      r * 100 <= basePrice * (100 - user.value.discount) < r * 100 + 100
  {
    if user.None? || IsAdmin(user.value) then basePrice
    else
      var scaled := basePrice * (100 - user.value.discount);
      scaled / 100
  }

  /** A retailer's price is never negative and never above the base price, as long as the
      base price is not negative and the discount is a percentage. */
  lemma RetailPriceBounds(u: User, basePrice: int)
    requires !IsAdmin(u) && 0 <= u.discount <= 100 && basePrice >= 0
    ensures 0 <= UnitPrice(Some(u), basePrice) <= basePrice
  {
    var d := u.discount;
    assert 0 <= basePrice * (100 - d) <= basePrice * 100 by {
      assert basePrice * (100 - d) == basePrice * 100 - basePrice * d;
      assert basePrice * d >= 0;
    }
  }

  /** `Math.ceil(x * pct / 100)` for an integer amount. */
  function CeilPercent(x: int, pct: int): (r: int)
    ensures x * pct <= r * 100 < x * pct + 100
  {
    (x * pct + 99) / 100
  }

  /** The invoice summary shown under the cart lines. */
  datatype Invoice = Invoice(subtotal: int, packing: int, taxable: int, gst: int, grandTotal: int)

  const PACKING_PERCENT := 2
  const GST_PERCENT := 18

  /** Packing and forwarding is 2% of the subtotal, GST is 18% of subtotal plus packing,
      both rounded up; the grand total adds them up. */
  function InvoiceFor(subtotal: int): (inv: Invoice)
    ensures inv.subtotal == subtotal
    ensures subtotal * PACKING_PERCENT <= inv.packing * 100 < subtotal * PACKING_PERCENT + 100
    ensures inv.taxable == inv.subtotal + inv.packing
    ensures inv.taxable * GST_PERCENT <= inv.gst * 100 < inv.taxable * GST_PERCENT + 100
    ensures inv.grandTotal == inv.taxable + inv.gst
  {
    var packing := CeilPercent(subtotal, PACKING_PERCENT);
    var taxable := subtotal + packing;
    var gst := CeilPercent(taxable, GST_PERCENT);
    Invoice(subtotal, packing, taxable, gst, taxable + gst)
  }

  /** What one line contributes to the subtotal. */
  function LineAmount(line: CartLine): int {
    line.finalPrice * line.qty
  }

  /** The `reduce` over the cart: the sum of unit price times quantity, added left to right.
      With non-negative unit prices and quantities it is not negative. */
  function Subtotal(cart: seq<CartLine>): (r: int)
    ensures (forall i :: 0 <= i < |cart| ==> cart[i].finalPrice >= 0 && cart[i].qty >= 0) ==> r >= 0
  {
    if cart == [] then 0
    else
      var init := cart[..|cart| - 1];
      assert forall i :: 0 <= i < |init| ==> init[i] == cart[i];
      Subtotal(init) + LineAmount(cart[|cart| - 1])
  }

  /** The invoice of the cart screen: the breakdown of the cart's subtotal. The grand total
      is the subtotal plus packing plus GST, and for a cart of non-negative lines no figure
      is below the one before it. */
  function CartInvoice(cart: seq<CartLine>): (inv: Invoice)
    ensures inv == InvoiceFor(Subtotal(cart))
    ensures inv.subtotal == Subtotal(cart)
    ensures inv.grandTotal == inv.subtotal + inv.packing + inv.gst
    ensures (forall i :: 0 <= i < |cart| ==> cart[i].finalPrice >= 0 && cart[i].qty >= 0) ==>
      0 <= inv.subtotal <= inv.taxable <= inv.grandTotal
  {
    var inv := InvoiceFor(Subtotal(cart));
    assert inv.subtotal >= 0 ==> inv.subtotal <= inv.taxable <= inv.grandTotal by {
      if inv.subtotal >= 0 {
        InvoiceOrdered(inv.subtotal);
      }
    }
    inv
  }

  lemma {:induction false} SubtotalAppend(a: seq<CartLine>, b: seq<CartLine>)
    ensures Subtotal(a + b) == Subtotal(a) + Subtotal(b)
  {
    if b == [] {
      assert a + b == a;
    } else {
      var b' := b[..|b| - 1];
      assert (a + b)[..|a + b| - 1] == a + b';
      assert (a + b)[|a + b| - 1] == b[|b| - 1];
      SubtotalAppend(a, b');
    }
  }

  /** Packing and GST never reduce the amount: subtotal <= taxable value <= grand total. */
  lemma InvoiceOrdered(subtotal: int)
    requires subtotal >= 0
    ensures var inv := InvoiceFor(subtotal);
      0 <= inv.subtotal <= inv.taxable <= inv.grandTotal
  {
  }

  /** An empty cart invoices to zero everywhere. */
  lemma EmptyCartInvoice()
    ensures CartInvoice([]) == Invoice(0, 0, 0, 0, 0)
  {
  }

  /** A worked example: subtotal 1000 gives 20 / 1020 / 184 / 1204. */
  lemma InvoiceOfThousand()
    ensures InvoiceFor(1000) == Invoice(1000, 20, 1020, 184, 1204)
  {
  }
}

/**
 * The cart state container of the storefront (`CartProvider`): one mutable list of
 * line items that four operations replace, with the item count and the cart total
 * derived from the current list on every read. Prices are exact reals and quantities
 * unbounded integers (JavaScript numbers in the storefront).
 */
module CartContext {

  import opened Wrappers
  import Seqs

  /** One cart line. Nothing constrains `quantity`: `updateQuantity` stores any number. */
  datatype CartItem = CartItem(
    id: string,
    title: string,
    variantId: string,
    quantity: int,
    price: real,
    image: Option<string>,
    size: Option<string>,
    color: Option<string>)

  /** The money value of one line: its price times its quantity. */
  function LineTotal(item: CartItem): real
  {
    item.price * item.quantity as real
  }

  /** The item count: the sum of the lines' quantities, summed left to right. */
  function QuantityOf(items: seq<CartItem>): int
  {
    if items == [] then 0 else QuantityOf(items[..|items| - 1]) + items[|items| - 1].quantity
  }

  /** The money total: the sum of the lines' values, summed left to right. */
  function TotalOf(items: seq<CartItem>): real
  {
    if items == [] then 0.0 else TotalOf(items[..|items| - 1]) + LineTotal(items[|items| - 1])
  }

  /** The lines with identifier `id`. */
  function Matching(items: seq<CartItem>, id: string): seq<CartItem>
  {
    Seqs.Filter(items, (item: CartItem) => item.id == id)
  }

  /** The lines with another identifier than `id`, in their order. */
  function Without(items: seq<CartItem>, id: string): seq<CartItem>
  {
    Seqs.Filter(items, (item: CartItem) => item.id != id)
  }

  /** The lines with each line of identifier `id` given quantity `quantity`. */
  function WithQuantity(items: seq<CartItem>, id: string, quantity: int): (r: seq<CartItem>)
    ensures |r| == |items|
    ensures forall i :: 0 <= i < |items| ==> r[i] == if items[i].id == id then items[i].(quantity := quantity) else items[i]
  {
    Seqs.Map(items, (item: CartItem) => if item.id == id then item.(quantity := quantity) else item)
  }

  /** Appending one line adds its quantity and its line total to the sums. */
  lemma SumsSnoc(items: seq<CartItem>, item: CartItem)
    ensures QuantityOf(items + [item]) == QuantityOf(items) + item.quantity
    ensures TotalOf(items + [item]) == TotalOf(items) + LineTotal(item)
  {
    assert (items + [item])[..|items|] == items;
  }

  /** The last line of a cart goes either to `Matching` or to `Without`. */
  lemma FilterSnoc(items: seq<CartItem>, id: string)
    requires items != []
    ensures var init, last := items[..|items| - 1], items[|items| - 1];
      && Matching(items, id) == Matching(init, id) + (if last.id == id then [last] else [])
      && Without(items, id) == Without(init, id) + (if last.id != id then [last] else [])
  {
  }

  /** The item count of a cart is the count of the lines with `id` plus that of the others. */
  lemma {:induction false} QuantitySplit(items: seq<CartItem>, id: string)
    ensures QuantityOf(items) == QuantityOf(Matching(items, id)) + QuantityOf(Without(items, id))
    ensures TotalOf(items) == TotalOf(Matching(items, id)) + TotalOf(Without(items, id))
  {
    if items != [] {
      var init, last := items[..|items| - 1], items[|items| - 1];
      QuantitySplit(init, id);
      FilterSnoc(items, id);
      if last.id == id {
        SumsSnoc(Matching(init, id), last);
        assert Without(items, id) == Without(init, id);
      } else {
        SumsSnoc(Without(init, id), last);
        assert Matching(items, id) == Matching(init, id);
      }
    }
  }

  /** One more line of quantity `q` adds `q` (kept apart so that the solver sees it alone). */
  lemma MulSucc(q: int, n: int)
    ensures forall m :: m == n + 1 ==> q * m == q * n + q
  {
  }

  /** `updateQuantity` rewrites the last line like every other one. */
  lemma WithQuantitySnoc(items: seq<CartItem>, id: string, q: int)
    requires items != []
    ensures var init, last := items[..|items| - 1], items[|items| - 1];
      WithQuantity(items, id, q) == WithQuantity(init, id, q) + [if last.id == id then last.(quantity := q) else last]
  {
  }

  /** After `updateQuantity(id, q)` each line with `id` counts `q`; the others count as before. */
  lemma {:induction false} WithQuantityCount(items: seq<CartItem>, id: string, q: int)
    ensures QuantityOf(WithQuantity(items, id, q)) == QuantityOf(Without(items, id)) + q * |Matching(items, id)|
  {
    if items != [] {
      var init, last := items[..|items| - 1], items[|items| - 1];
      WithQuantityCount(init, id, q);
      WithQuantitySnoc(items, id, q);
      FilterSnoc(items, id);
      if last.id == id {
        SumsSnoc(WithQuantity(init, id, q), last.(quantity := q));
        assert Without(items, id) == Without(init, id);
        MulSucc(q, |Matching(init, id)|);
      } else {
        SumsSnoc(WithQuantity(init, id, q), last);
        SumsSnoc(Without(init, id), last);
        assert Matching(items, id) == Matching(init, id);
      }
    }
  }

  /** `updateQuantity` leaves the lines with another identifier as they were. */
  lemma {:induction false} WithQuantityOthers(items: seq<CartItem>, id: string, q: int)
    ensures Without(WithQuantity(items, id, q), id) == Without(items, id)
  {
    if items != [] {
      var init, r := items[..|items| - 1], WithQuantity(items, id, q);
      WithQuantityOthers(init, id, q);
      WithQuantitySnoc(items, id, q);
      assert r[..|r| - 1] == WithQuantity(init, id, q);
    }
  }

  /** The lines with `id` after `updateQuantity` are the old ones with quantity `q`. */
  lemma {:induction false} WithQuantityMatching(items: seq<CartItem>, id: string, q: int)
    ensures Matching(WithQuantity(items, id, q), id) == WithQuantity(Matching(items, id), id, q)
  {
    if items != [] {
      var init, last, r := items[..|items| - 1], items[|items| - 1], WithQuantity(items, id, q);
      WithQuantityMatching(init, id, q);
      WithQuantitySnoc(items, id, q);
      assert r[..|r| - 1] == WithQuantity(init, id, q);
      FilterSnoc(items, id);
      if last.id == id {
        var m := Matching(items, id);
        WithQuantitySnoc(m, id, q);
        assert m[..|m| - 1] == Matching(init, id);
      }
    }
  }

  /** So the new total is that of the untouched lines plus that of the rewritten ones. */
  lemma WithQuantityTotal(items: seq<CartItem>, id: string, q: int)
    ensures TotalOf(WithQuantity(items, id, q)) == TotalOf(Without(items, id)) + TotalOf(WithQuantity(Matching(items, id), id, q))
  {
    WithQuantityOthers(items, id, q);
    WithQuantityMatching(items, id, q);
    QuantitySplit(WithQuantity(items, id, q), id);
  }

  /** Removing an identifier keeps each other line as often as it occurs, and no line with that identifier. */
  lemma WithoutCount(items: seq<CartItem>, id: string)
    ensures forall item :: multiset(Without(items, id))[item] == if item.id != id then multiset(items)[item] else 0
  {
    forall item
      ensures multiset(Without(items, id))[item] == if item.id != id then multiset(items)[item] else 0
    {
      Seqs.FilterCount(items, (item: CartItem) => item.id != id, item);
    }
  }

  /** Removing an identifier keeps exactly the other lines, each as often as before, in their original order. */
  lemma WithoutSpec(items: seq<CartItem>, id: string)
    ensures Seqs.IsSubsequence(Without(items, id), items)
    ensures forall item :: multiset(Without(items, id))[item] == if item.id != id then multiset(items)[item] else 0
    ensures forall item :: item in Without(items, id) <==> item in items && item.id != id
    ensures (forall i :: 0 <= i < |items| ==> items[i].id != id) ==> Without(items, id) == items
    ensures QuantityOf(Without(items, id)) == QuantityOf(items) - QuantityOf(Matching(items, id))
    ensures TotalOf(Without(items, id)) == TotalOf(items) - TotalOf(Matching(items, id))
  {
    var p := (item: CartItem) => item.id != id;
    Seqs.FilterIsSubsequence(items, p);
    WithoutCount(items, id);
    forall item | item in items && item.id != id
      ensures item in Without(items, id)
    {
      assert multiset(Without(items, id))[item] == multiset(items)[item];
    }
    if forall i :: 0 <= i < |items| ==> items[i].id != id {
      Seqs.FilterKeepsAll(items, p);
    }
    QuantitySplit(items, id);
  }

  /** The cart provider's state: the `items` cell; count and total are derived from it. */
  class CartProvider {

    var items: seq<CartItem>

    /** `cartQuantity`. */
    function CartQuantity(): int
      reads this
    {
      QuantityOf(items)
    }

    /** `cartTotal`. */
    function CartTotal(): real
      reads this
    {
      TotalOf(items)
    }

    /** A new provider holds an empty cart. */
    constructor ()
      ensures items == []
      ensures CartQuantity() == 0 && CartTotal() == 0.0
    {
      items := [];
    }

    /** `addItem`: appends the line, even when a line with the same id is present. */
    method AddItem(item: CartItem)
      modifies this
      ensures items == old(items) + [item]
      ensures CartQuantity() == old(CartQuantity()) + item.quantity
      ensures CartTotal() == old(CartTotal()) + LineTotal(item)
    {
      items := items + [item];
      assert items[..|items| - 1] == old(items);
    }

    /** `removeItem`: drops every line with `id`; an unknown id changes nothing. */
    method RemoveItem(id: string)
      modifies this
      ensures items == Without(old(items), id)
      ensures CartQuantity() == old(CartQuantity()) - QuantityOf(Matching(old(items), id))
      ensures CartTotal() == old(CartTotal()) - TotalOf(Matching(old(items), id))
      ensures (forall i :: 0 <= i < |old(items)| ==> old(items)[i].id != id) ==> items == old(items)
    {
      WithoutSpec(items, id);
      items := Without(items, id);
    }

    /** `updateQuantity`: every line with `id` gets `quantity`, whatever its value. */
    method UpdateQuantity(id: string, quantity: int)
      modifies this
      ensures items == WithQuantity(old(items), id, quantity)
      ensures CartQuantity() == old(CartQuantity()) - QuantityOf(Matching(old(items), id)) + quantity * |Matching(old(items), id)|
      ensures CartTotal() == old(CartTotal()) - TotalOf(Matching(old(items), id)) + TotalOf(WithQuantity(Matching(old(items), id), id, quantity))
    {
      WithQuantityCount(items, id, quantity);
      WithQuantityTotal(items, id, quantity);
      QuantitySplit(items, id);
      items := WithQuantity(items, id, quantity);
    }

    /** `clearCart`. */
    method ClearCart()
      modifies this
      ensures items == []
      ensures CartQuantity() == 0 && CartTotal() == 0.0
    {
      items := [];
    }
  }

  /** A fresh cart, then one line of two items at 10: count 2, total 20. */
  method AddToEmptyCart()
  {
    var cart := new CartProvider();
    cart.AddItem(CartItem("1", "Tee", "v1", 2, 10.0, None, None, None));
    assert cart.CartQuantity() == 2 && cart.CartTotal() == 20.0;
    cart.RemoveItem("2");
    assert cart.CartQuantity() == 2;
    cart.UpdateQuantity("1", 0);
    assert cart.CartQuantity() == 0 && |cart.items| == 1;
  }
}

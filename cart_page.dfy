/**
 * The cart page's own, page-local cart: a list of lines seeded with three fixed
 * items, a quantity update that refuses values below 1, removal by identifier, and
 * the order summary (subtotal, flat shipping waived above 100, 8% tax, total and the
 * amount still missing for free shipping). Amounts are exact reals.
 */
module CartPage {

  import opened Wrappers
  import Seqs

  /** One line of the page's cart. */
  datatype PageItem = PageItem(
    id: string,
    title: string,
    price: real,
    image: string,
    quantity: int,
    size: string,
    color: string)

  /** The lines the page starts with. */
  const InitialItems: seq<PageItem> := [
    PageItem("1", "Chaos Hoodie Black", 89.99, "/images/products/hoodie-black.jpg", 2, "L", "Black"),
    PageItem("2", "Red Devil Tee", 39.99, "/images/products/tee-red.jpg", 1, "M", "Red"),
    PageItem("3", "Street Chaos Joggers", 69.99, "/images/products/joggers-black.jpg", 1, "32", "Black")
  ]

  const FreeShippingThreshold: real := 100.0
  const FlatShipping: real := 9.99
  const TaxRate: real := 0.08

  /** Every line holds at least one unit. */
  predicate QuantitiesPositive(items: seq<PageItem>)
  {
    forall i :: 0 <= i < |items| ==> items[i].quantity >= 1
  }

  /** The two ways the page changes its lines. */
  datatype Action = UpdateQuantity(id: string, newQuantity: int) | RemoveItem(id: string)

  /** The lines with each line of identifier `id` given quantity `quantity`. */
  function SetQuantity(items: seq<PageItem>, id: string, quantity: int): (r: seq<PageItem>)
    ensures |r| == |items|
    ensures forall i :: 0 <= i < |items| ==> r[i] == if items[i].id == id then items[i].(quantity := quantity) else items[i]
  {
    Seqs.Map(items, (item: PageItem) => if item.id == id then item.(quantity := quantity) else item)
  }

  /** The lines with another identifier than `id`, in their order. */
  function Remove(items: seq<PageItem>, id: string): seq<PageItem>
  {
    Seqs.Filter(items, (item: PageItem) => item.id != id)
  }

  /** The lines after one action: an update below 1 is ignored. */
  function Apply(items: seq<PageItem>, action: Action): seq<PageItem>
  {
    match action
    case UpdateQuantity(id, q) => if q < 1 then items else SetQuantity(items, id, q)
    case RemoveItem(id) => Remove(items, id)
  }

  /** The lines after a sequence of actions, applied in order. */
  function Run(items: seq<PageItem>, actions: seq<Action>): seq<PageItem>
    decreases |actions|
  {
    if actions == [] then items else Run(Apply(items, actions[0]), actions[1..])
  }

  /** Removal keeps exactly the lines with another identifier, each as often as before, in order. */
  lemma RemoveSpec(items: seq<PageItem>, id: string)
    ensures Seqs.IsSubsequence(Remove(items, id), items)
    ensures forall item :: item in Remove(items, id) <==> item in items && item.id != id
    ensures forall item :: multiset(Remove(items, id))[item] == if item.id != id then multiset(items)[item] else 0
  {
    var p := (item: PageItem) => item.id != id;
    Seqs.FilterIsSubsequence(items, p);
    forall item
      ensures multiset(Remove(items, id))[item] == if item.id != id then multiset(items)[item] else 0
    {
      Seqs.FilterCount(items, p, item);
    }
  }

  /** No action makes a quantity drop below 1. */
  lemma ApplyKeepsQuantities(items: seq<PageItem>, action: Action)
    requires QuantitiesPositive(items)
    ensures QuantitiesPositive(Apply(items, action))
  {
    if action.RemoveItem? {
      var r := Remove(items, action.id);
      forall i | 0 <= i < |r|
        ensures r[i].quantity >= 1
      {
        assert r[i] in r;
        var j :| 0 <= j < |items| && items[j] == r[i];
      }
    }
  }

  /** Starting from lines that all hold at least one unit, every reachable state does too. */
  lemma {:induction false} RunKeepsQuantities(items: seq<PageItem>, actions: seq<Action>)
    requires QuantitiesPositive(items)
    ensures QuantitiesPositive(Run(items, actions))
    decreases |actions|
  {
    if actions != [] {
      ApplyKeepsQuantities(items, actions[0]);
      RunKeepsQuantities(Apply(items, actions[0]), actions[1..]);
    }
  }

  /** In particular, every state the page can reach from its initial lines. */
  lemma ReachableQuantitiesPositive(actions: seq<Action>)
    ensures QuantitiesPositive(Run(InitialItems, actions))
  {
    RunKeepsQuantities(InitialItems, actions);
  }

  /** The subtotal: the sum of each line's price times its quantity. */
  function Subtotal(items: seq<PageItem>): real
  {
    if items == [] then 0.0
    else Subtotal(items[..|items| - 1]) + items[|items| - 1].price * items[|items| - 1].quantity as real
  }

  /** Shipping is free strictly above the threshold and a flat fee otherwise. */
  function Shipping(subtotal: real): real
  {
    if subtotal > FreeShippingThreshold then 0.0 else FlatShipping
  }

  /** Tax at the fixed rate on the subtotal. */
  function Tax(subtotal: real): real
  {
    subtotal * TaxRate
  }

  /** The figures of the order summary box. */
  datatype Summary = Summary(
    subtotal: real,
    shipping: real,
    tax: real,
    total: real,
    freeShippingRemainder: Option<real>)

  /** The order summary of `items`; the remainder is shown only while shipping is charged. */
  function Summarize(items: seq<PageItem>): (s: Summary)
    ensures s.subtotal == Subtotal(items)
    ensures s.shipping == 0.0 <==> s.subtotal > FreeShippingThreshold
    ensures s.shipping != 0.0 ==> s.shipping == FlatShipping
    ensures s.tax * 25.0 == s.subtotal * 2.0
    ensures s.total == s.subtotal + s.shipping + s.tax
    ensures s.freeShippingRemainder.Some? <==> s.shipping > 0.0
    ensures s.freeShippingRemainder.Some? ==>
      s.freeShippingRemainder.value >= 0.0 && s.subtotal + s.freeShippingRemainder.value == FreeShippingThreshold
  {
    var subtotal := Subtotal(items);
    var shipping := Shipping(subtotal);
    var tax := Tax(subtotal);
    Summary(subtotal, shipping, tax, subtotal + shipping + tax,
            if shipping > 0.0 then Some(FreeShippingThreshold - subtotal) else None)
  }

  /** The free-shipping hint is shown exactly up to the threshold and names what is missing to reach it. */
  lemma FreeShippingHint(items: seq<PageItem>)
    ensures Summarize(items).freeShippingRemainder.Some? <==> Subtotal(items) <= FreeShippingThreshold
    ensures Subtotal(items) <= FreeShippingThreshold ==>
      Summarize(items).freeShippingRemainder == Some(FreeShippingThreshold - Subtotal(items))
  {
  }

  /** The initial lines come to 289.96, above the threshold, so shipping is free. */
  lemma InitialSummary()
    ensures Summarize(InitialItems) == Summary(289.96, 0.0, 23.1968, 313.1568, None)
  {
    var items := InitialItems;
    assert items[..2] == InitialItems[..2];
    assert Subtotal(items[..1]) == 179.98;
    assert Subtotal(items[..2]) == 219.97;
  }

  /** Two lines of 10 (twice) and 5 (once): 25 + 9.99 shipping + 2.00 tax = 36.99. */
  lemma SmallOrderSummary()
    ensures var items := [PageItem("a", "A", 10.0, "", 2, "", ""), PageItem("b", "B", 5.0, "", 1, "", "")];
      Summarize(items) == Summary(25.0, 9.99, 2.0, 36.99, Some(75.0))
  {
    var items := [PageItem("a", "A", 10.0, "", 2, "", ""), PageItem("b", "B", 5.0, "", 1, "", "")];
    assert items[..1][..0] == [];
    assert Subtotal(items[..1]) == 20.0;
    assert Subtotal(items) == 25.0;
  }

  /** A subtotal of exactly 100 still pays shipping, with nothing left to add. */
  lemma ThresholdSummary()
    ensures Summarize([PageItem("a", "A", 50.0, "", 2, "", "")]) == Summary(100.0, 9.99, 8.0, 117.99, Some(0.0))
  {
    var items := [PageItem("a", "A", 50.0, "", 2, "", "")];
    assert items[..0] == [];
  }

  /** The page's cart state: the `items` cell. */
  class CartPageState {

    var items: seq<PageItem>

    /** The invariant the page keeps: no line drops below one unit. */
    ghost predicate Valid()
      reads this
    {
      QuantitiesPositive(items)
    }

    /** The page starts with its three fixed lines. */
    constructor ()
      ensures Valid() && items == InitialItems
    {
      items := InitialItems;
    }

    /** `updateQuantity`: a value below 1 is refused; otherwise the lines with `id` take it. */
    method UpdateQuantity(id: string, newQuantity: int)
      requires Valid()
      modifies this
      ensures Valid()
      ensures items == Apply(old(items), Action.UpdateQuantity(id, newQuantity))
      ensures newQuantity < 1 ==> items == old(items)
      ensures newQuantity >= 1 ==> items == SetQuantity(old(items), id, newQuantity)
    {
      if newQuantity < 1 {
        return;
      }
      items := SetQuantity(items, id, newQuantity);
    }

    /** `removeItem`: drops the lines with `id`. */
    method RemoveItem(id: string)
      requires Valid()
      modifies this
      ensures Valid()
      ensures items == Apply(old(items), Action.RemoveItem(id))
      ensures items == Remove(old(items), id)
    {
      ApplyKeepsQuantities(items, Action.RemoveItem(id));
      items := Remove(items, id);
    }

    /** The order summary of the current lines. */
    function OrderSummary(): Summary
      reads this
    {
      Summarize(items)
    }
  }
}

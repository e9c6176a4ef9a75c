/** The standalone cart page: a list seeded once from the catalog on mount,
    changed by increase, decrease and remove, and summarised by a subtotal.
    There is no add operation and no drawer. */
module CartPage {
  import opened LineItems

  class Cart {
    var cartItems: seq<LineItem>

    /** Mount: the list is the catalog as loaded. */
    constructor (catalog: seq<LineItem>)
      ensures cartItems == catalog
    {
      cartItems := catalog;
    }

    /** increaseQuantity: +1 on the lines with that id; a seed whose
        quantities are at least 1 keeps that property. */
    method IncreaseQuantity(id: Id)
      modifies this
      ensures cartItems == Increase(old(cartItems), id)
      ensures AllPositive(old(cartItems)) ==> AllPositive(cartItems)
    {
      cartItems := Increase(cartItems, id);
    }

    /** decreaseQuantity: -1 on the lines with that id whose quantity is above 1. */
    method DecreaseQuantity(id: Id)
      modifies this
      ensures cartItems == Decrease(old(cartItems), id)
      ensures AllPositive(old(cartItems)) ==> AllPositive(cartItems)
    {
      cartItems := Decrease(cartItems, id);
    }

    /** removeItem: drop the lines with that id, keeping the others in order. */
    method RemoveItem(id: Id)
      modifies this
      ensures cartItems == Remove(old(cartItems), id)
      ensures AllPositive(old(cartItems)) ==> AllPositive(cartItems)
    {
      if AllPositive(cartItems) {
        RemoveKeepsPositive(cartItems, id);
      }
      cartItems := Remove(cartItems, id);
    }

    /** calculateSubtotal: the sum of price times quantity, undiscounted. */
    function CalculateSubtotal(): (t: int)
      reads this
      ensures t == Sum(cartItems)
      ensures cartItems == [] ==> t == 0
    {
      Total(cartItems)
    }
  }

  /** A line added once and increased twice has quantity 3 and contributes
      three times its price to the subtotal. */
  lemma {:induction false} IncreaseTwiceScenario(p: Product)
    requires p.price == 50
    ensures Increase(Increase([LineItem(p, 1)], p.id), p.id) == [LineItem(p, 3)]
    ensures Total([LineItem(p, 3)]) == 150
  {
    var r := Increase(Increase([LineItem(p, 1)], p.id), p.id);
    assert r[0] == LineItem(p, 3);
    assert Sum([LineItem(p, 3)]) == LineAmount(LineItem(p, 3)) + Sum([]);
  }
}

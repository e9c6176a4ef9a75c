/** The catalog page with its cart drawer: a cart that starts empty and a
    flag saying whether the drawer is shown. Each handler computes the new
    list with a pure transformation from LineItems and assigns it, as the
    page's setter calls do. */
module ProductListPage {
  import opened LineItems

  class ProductList {
    var cart: seq<LineItem>
    var isCartOpen: bool

    /** Every cart this page can reach has distinct ids and quantities of at
        least 1. */
    ghost predicate Valid()
      reads this
    {
      WellFormed(cart)
    }

    /** Mount: an empty cart and a closed drawer. */
    constructor ()
      ensures Valid()
      ensures cart == [] && !isCartOpen
    {
      cart := [];
      isCartOpen := false;
    }

    /** addToCart: bump or append the product, then open the drawer. */
    method AddToCart(product: Product)
      requires Valid()
      modifies this
      ensures Valid()
      ensures cart == Add(old(cart), product)
      ensures isCartOpen
    {
      AddKeepsWellFormed(cart, product);
      cart := Add(cart, product);
      isCartOpen := true;
    }

    /** removeFromCart: drop the lines with that id; the drawer stays as it is. */
    method RemoveFromCart(id: Id)
      requires Valid()
      modifies this
      ensures Valid()
      ensures cart == Remove(old(cart), id)
      ensures isCartOpen == old(isCartOpen)
    {
      RemoveKeepsWellFormed(cart, id);
      cart := Remove(cart, id);
    }

    method IncreaseQuantity(id: Id)
      requires Valid()
      modifies this
      ensures Valid()
      ensures cart == Increase(old(cart), id)
      ensures isCartOpen == old(isCartOpen)
    {
      IncreaseKeepsWellFormed(cart, id);
      cart := Increase(cart, id);
    }

    method DecreaseQuantity(id: Id)
      requires Valid()
      modifies this
      ensures Valid()
      ensures cart == Decrease(old(cart), id)
      ensures isCartOpen == old(isCartOpen)
    {
      DecreaseKeepsWellFormed(cart, id);
      cart := Decrease(cart, id);
    }

    /** The drawer's close button: hide the drawer, keep the cart. */
    method CloseCart()
      requires Valid()
      modifies this
      ensures Valid()
      ensures !isCartOpen
      ensures cart == old(cart)
    {
      isCartOpen := false;
    }

    /** calculateTotal: the sum of price times quantity over the cart, using
        the undiscounted price. */
    function CalculateTotal(): (t: int)
      reads this
      ensures t == Sum(cart)
    {
      Total(cart)
    }
  }

  /** The walk-through of a single product: two adds, two decreases and a
      remove, with the totals the drawer shows after each step. */
  lemma {:induction false} AddDecreaseRemoveScenario(p: Product)
    requires p.price == 100
    ensures Add([], p) == [LineItem(p, 1)] && Total(Add([], p)) == 100
    ensures Add(Add([], p), p) == [LineItem(p, 2)] && Total(Add(Add([], p), p)) == 200
    ensures Decrease([LineItem(p, 2)], p.id) == [LineItem(p, 1)] && Total([LineItem(p, 1)]) == 100
    ensures Decrease([LineItem(p, 1)], p.id) == [LineItem(p, 1)]
    ensures Remove([LineItem(p, 1)], p.id) == [] && Total([]) == 0
  {
    var one := [LineItem(p, 1)];
    AddNew([], p);
    assert Contains(one, p.id) by { assert one[0].product.id == p.id; }
    AddExisting(one, p);
    assert Add(one, p) == [LineItem(p, 2)];
    DecreaseAtOne(one, p.id);
    assert Sum(one) == LineAmount(one[0]) + Sum([]);
    assert Sum([LineItem(p, 2)]) == LineAmount(LineItem(p, 2)) + Sum([]);
  }
}

/** The cart logic shared by the two storefront pages: a cart is an ordered
    list of line items (a product's fields plus a quantity), changed by pure
    list transformations (find / map / filter / append) and summarised by a
    total computed with a left fold. Both pages build their new list with
    exactly these transformations and then overwrite their state with it. */
module LineItems {

  type Id = int

  datatype Option<T> = None | Some(value: T)

  /** A catalog record as the pages read it. Prices are whole numbers. */
  datatype Product = Product(id: Id, name: string, price: int, discount: int, image: string)

  /** `{ ...product, quantity }`: the product's fields plus a quantity. */
  datatype LineItem = LineItem(product: Product, quantity: int)

  /** The amount one line contributes to the total: `item.price * item.quantity`. */
  function LineAmount(item: LineItem): int {
    item.product.price * item.quantity
  }

  predicate Contains(cart: seq<LineItem>, id: Id) {
    exists i :: 0 <= i < |cart| && cart[i].product.id == id
  }

  /** `cart.find(item => item.id === id)`: the first item with that id, if any. */
  function Find(cart: seq<LineItem>, id: Id): (r: Option<LineItem>)
    ensures r.Some? <==> Contains(cart, id)
    ensures r.Some? ==> exists i :: 0 <= i < |cart| && cart[i] == r.value && r.value.product.id == id
                                    && forall j :: 0 <= j < i ==> cart[j].product.id != id
  {
    if cart == [] then None
    else if cart[0].product.id == id then Some(cart[0])
    else
      var r := Find(cart[1..], id);
      assert forall i :: 0 <= i < |cart| - 1 ==> cart[1..][i] == cart[i + 1];
      assert Contains(cart[1..], id) ==> Contains(cart, id);
      r
  }

  /** `cart.map(item => item.id === id ? { ...item, quantity: item.quantity + 1 } : item)` */
  function Increase(cart: seq<LineItem>, id: Id): (r: seq<LineItem>)
    ensures |r| == |cart|
    ensures forall i :: 0 <= i < |cart| ==> r[i].product == cart[i].product
    ensures forall i :: 0 <= i < |cart| && cart[i].product.id == id ==> r[i].quantity == cart[i].quantity + 1
    ensures forall i :: 0 <= i < |cart| && cart[i].product.id != id ==> r[i] == cart[i]
  {
    if cart == [] then []
    else
      var head := if cart[0].product.id == id then cart[0].(quantity := cart[0].quantity + 1) else cart[0];
      [head] + Increase(cart[1..], id)
  }

  /** `cart.map(item => item.id === id && item.quantity > 1 ? { ...item, quantity: item.quantity - 1 } : item)` */
  function Decrease(cart: seq<LineItem>, id: Id): (r: seq<LineItem>)
    ensures |r| == |cart|
    ensures forall i :: 0 <= i < |cart| ==> r[i].product == cart[i].product
    ensures forall i :: 0 <= i < |cart| && cart[i].product.id == id && cart[i].quantity > 1 ==>
                          r[i].quantity == cart[i].quantity - 1
    ensures forall i :: 0 <= i < |cart| && (cart[i].product.id != id || cart[i].quantity <= 1) ==> r[i] == cart[i]
  {
    if cart == [] then []
    else
      var head := if cart[0].product.id == id && cart[0].quantity > 1
                  then cart[0].(quantity := cart[0].quantity - 1) else cart[0];
      [head] + Decrease(cart[1..], id)
  }

  /** Number of items whose id is `id`. */
  function Count(cart: seq<LineItem>, id: Id): nat {
    if cart == [] then 0
    else (if cart[0].product.id == id then 1 else 0) + Count(cart[1..], id)
  }

  /** `cart.filter(item => item.id !== id)` */
  function Remove(cart: seq<LineItem>, id: Id): (r: seq<LineItem>)
    ensures |r| == |cart| - Count(cart, id)
    ensures forall i :: 0 <= i < |r| ==> r[i].product.id != id
    ensures forall i :: 0 <= i < |r| ==> r[i] in cart
  {
    if cart == [] then []
    else if cart[0].product.id == id then Remove(cart[1..], id)
    else
      var r := [cart[0]] + Remove(cart[1..], id);
      assert forall i :: 1 <= i < |r| ==> r[i] == Remove(cart[1..], id)[i - 1];
      r
  }

  /** addToCart's new list: bump the existing line, or append a copy of the
      product with quantity 1. */
  function Add(cart: seq<LineItem>, p: Product): (r: seq<LineItem>)
    ensures Contains(r, p.id)
    ensures |r| == if Contains(cart, p.id) then |cart| else |cart| + 1
  {
    if Find(cart, p.id).Some? then Increase(cart, p.id)
    else
      var r := cart + [LineItem(p, 1)];
      assert r[|cart|].product.id == p.id;
      r
  }

  /** `cart.reduce((total, item) => total + item.price * item.quantity, acc)`,
      the left fold exactly as the pages evaluate it. */
  function Reduce(acc: int, cart: seq<LineItem>): int
    decreases |cart|
  {
    if cart == [] then acc
    else Reduce(acc + LineAmount(cart[0]), cart[1..])
  }

  /** Reference definition of the total: the sum of price times quantity. */
  function Sum(cart: seq<LineItem>): int {
    if cart == [] then 0 else LineAmount(cart[0]) + Sum(cart[1..])
  }

  /** calculateTotal / calculateSubtotal: the fold started at 0. */
  function Total(cart: seq<LineItem>): (t: int)
    ensures t == Sum(cart)
    ensures cart == [] ==> t == 0
  {
    ReduceIsSum(0, cart);
    Reduce(0, cart)
  }

  // ---------------------------------------------------------------------
  // Invariants of a cart

  /** At most one line item per product id. */
  predicate UniqueIds(cart: seq<LineItem>) {
    forall i, j :: 0 <= i < j < |cart| ==> cart[i].product.id != cart[j].product.id
  }

  /** Every quantity is at least 1. */
  predicate AllPositive(cart: seq<LineItem>) {
    forall i :: 0 <= i < |cart| ==> cart[i].quantity >= 1
  }

  predicate WellFormed(cart: seq<LineItem>) {
    UniqueIds(cart) && AllPositive(cart)
  }

  // ---------------------------------------------------------------------
  // The total

  lemma {:induction false} ReduceIsSum(acc: int, cart: seq<LineItem>)
    ensures Reduce(acc, cart) == acc + Sum(cart)
    decreases |cart|
  {
    if cart != [] {
      ReduceIsSum(acc + LineAmount(cart[0]), cart[1..]);
    }
  }

  /** The total is additive over concatenation. */
  lemma {:induction false} SumConcat(a: seq<LineItem>, b: seq<LineItem>)
    ensures Sum(a + b) == Sum(a) + Sum(b)
    decreases |a|
  {
    if a == [] {
      assert a + b == b;
    } else {
      assert (a + b)[1..] == a[1..] + b;
      SumConcat(a[1..], b);
    }
  }

  /** Increasing the quantity of the single line with that id adds its price
      once to the total. */
  lemma {:induction false} IncreaseAddsPrice(cart: seq<LineItem>, k: nat)
    requires UniqueIds(cart) && k < |cart|
    ensures Total(Increase(cart, cart[k].product.id)) == Total(cart) + cart[k].product.price
    decreases |cart|
  {
    var id := cart[k].product.id;
    var r := Increase(cart, id);
    assert r[1..] == Increase(cart[1..], id);
    if k == 0 {
      assert !Contains(cart[1..], id);
      IncreaseAbsent(cart[1..], id);
      assert r[0].quantity == cart[0].quantity + 1;
      assert LineAmount(r[0]) == LineAmount(cart[0]) + cart[0].product.price;
    } else {
      assert cart[1..][k - 1] == cart[k];
      IncreaseAddsPrice(cart[1..], k - 1);
    }
  }

  // ---------------------------------------------------------------------
  // addToCart

  /** Adding a product already in the cart keeps the length and order, bumps
      the matching line by exactly 1 (keeping that line's own fields) and
      leaves every other line as it was. */
  lemma AddExisting(cart: seq<LineItem>, p: Product)
    requires Contains(cart, p.id)
    ensures |Add(cart, p)| == |cart|
    ensures forall i :: 0 <= i < |cart| && cart[i].product.id == p.id ==>
              Add(cart, p)[i] == cart[i].(quantity := cart[i].quantity + 1)
    ensures forall i :: 0 <= i < |cart| && cart[i].product.id != p.id ==> Add(cart, p)[i] == cart[i]
  {
  }

  /** Adding a product not yet in the cart appends one line with the product's
      fields and quantity 1 after the unchanged old cart. */
  lemma AddNew(cart: seq<LineItem>, p: Product)
    requires !Contains(cart, p.id)
    ensures Add(cart, p) == cart + [LineItem(p, 1)]
    ensures |Add(cart, p)| == |cart| + 1
  {
  }

  /** Removing a product and adding it again recreates its line with quantity
      exactly 1, whatever the quantity was before. */
  lemma RemoveThenAdd(cart: seq<LineItem>, p: Product)
    ensures Add(Remove(cart, p.id), p) == Remove(cart, p.id) + [LineItem(p, 1)]
  {
    AddNew(Remove(cart, p.id), p);
  }

  lemma AddKeepsWellFormed(cart: seq<LineItem>, p: Product)
    requires WellFormed(cart)
    ensures WellFormed(Add(cart, p))
  {
  }

  // ---------------------------------------------------------------------
  // increaseQuantity

  /** Increasing an id the cart does not hold changes nothing. */
  lemma IncreaseAbsent(cart: seq<LineItem>, id: Id)
    requires !Contains(cart, id)
    ensures Increase(cart, id) == cart
  {
  }

  lemma IncreaseKeepsWellFormed(cart: seq<LineItem>, id: Id)
    requires WellFormed(cart)
    ensures WellFormed(Increase(cart, id))
  {
  }

  // ---------------------------------------------------------------------
  // decreaseQuantity

  /** Decreasing never takes a quantity below 1: a line at quantity 1 stays
      at 1, so quantities at least 1 before are at least 1 after. */
  lemma DecreaseKeepsPositive(cart: seq<LineItem>, id: Id)
    requires AllPositive(cart)
    ensures AllPositive(Decrease(cart, id))
  {
  }

  /** When every line with that id is already at quantity 1 (or there is
      none), decreasing leaves the cart unchanged. */
  lemma DecreaseAtOne(cart: seq<LineItem>, id: Id)
    requires forall i :: 0 <= i < |cart| && cart[i].product.id == id ==> cart[i].quantity <= 1
    ensures Decrease(cart, id) == cart
  {
  }

  /** The kept lines are lines of the old list, so their quantities are too. */
  lemma RemoveKeepsPositive(cart: seq<LineItem>, id: Id)
    requires AllPositive(cart)
    ensures AllPositive(Remove(cart, id))
  {
    var r := Remove(cart, id);
    forall i | 0 <= i < |r| ensures r[i].quantity >= 1 {
      var k :| 0 <= k < |cart| && cart[k] == r[i];
    }
  }

  lemma DecreaseKeepsWellFormed(cart: seq<LineItem>, id: Id)
    requires WellFormed(cart)
    ensures WellFormed(Decrease(cart, id))
  {
  }

  /** Increasing and then decreasing the same id restores the list, provided
      the lines with that id had quantity at least 1. */
  lemma IncreaseThenDecrease(cart: seq<LineItem>, id: Id)
    requires forall i :: 0 <= i < |cart| && cart[i].product.id == id ==> cart[i].quantity >= 1
    ensures Decrease(Increase(cart, id), id) == cart
  {
  }

  // ---------------------------------------------------------------------
  // removeFromCart / removeItem

  /** A line survives removal exactly when it was in the cart with another id. */
  lemma {:induction false} RemoveMembers(cart: seq<LineItem>, id: Id, x: LineItem)
    ensures x in Remove(cart, id) <==> x in cart && x.product.id != id
    decreases |cart|
  {
    if cart != [] {
      RemoveMembers(cart[1..], id, x);
      assert x in cart <==> x == cart[0] || x in cart[1..];
    }
  }

  /** Remove distributes over concatenation: the kept lines stay in their
      relative order. */
  lemma {:induction false} RemoveConcat(a: seq<LineItem>, b: seq<LineItem>, id: Id)
    ensures Remove(a + b, id) == Remove(a, id) + Remove(b, id)
    decreases |a|
  {
    if a == [] {
      assert a + b == b;
    } else {
      var ab := a + b;
      assert ab[0] == a[0] && ab[1..] == a[1..] + b;
      RemoveConcat(a[1..], b, id);
      if a[0].product.id != id {
        var left, right := Remove(a[1..], id), Remove(b, id);
        assert Remove(ab, id) == [a[0]] + (left + right);
        assert Remove(a, id) == [a[0]] + left;
        assert [a[0]] + (left + right) == ([a[0]] + left) + right;
      }
    }
  }

  /** Removing an id the cart does not hold changes nothing. */
  lemma {:induction false} RemoveAbsent(cart: seq<LineItem>, id: Id)
    requires !Contains(cart, id)
    ensures Remove(cart, id) == cart
    decreases |cart|
  {
    if cart != [] {
      RemoveAbsent(cart[1..], id);
      assert cart[0].product.id != id;
      assert cart == [cart[0]] + cart[1..];
    }
  }

  /** Removing twice is the same as removing once. */
  lemma RemoveIdempotent(cart: seq<LineItem>, id: Id)
    ensures Remove(Remove(cart, id), id) == Remove(cart, id)
  {
    RemoveAbsent(Remove(cart, id), id);
  }

  /** A list with distinct ids does not repeat its first id in its tail. */
  lemma HeadNotInTail(cart: seq<LineItem>)
    requires UniqueIds(cart) && cart != []
    ensures UniqueIds(cart[1..])
    ensures forall y :: y in cart[1..] ==> y.product.id != cart[0].product.id
  {
    var tail := cart[1..];
    forall y | y in tail ensures y.product.id != cart[0].product.id {
      var k :| 0 <= k < |tail| && tail[k] == y;
      assert tail[k] == cart[k + 1];
    }
    forall i, j | 0 <= i < j < |tail| ensures tail[i].product.id != tail[j].product.id {
      assert tail[i] == cart[i + 1] && tail[j] == cart[j + 1];
    }
  }

  /** Prepending a line whose id is not in a list with distinct ids keeps the
      ids distinct. */
  lemma PrependKeepsUnique(x: LineItem, s: seq<LineItem>)
    requires UniqueIds(s)
    requires forall y :: y in s ==> y.product.id != x.product.id
    ensures UniqueIds([x] + s)
  {
    var r := [x] + s;
    forall i, j | 0 <= i < j < |r| ensures r[i].product.id != r[j].product.id {
      assert r[j] == s[j - 1] && s[j - 1] in s;
      if i > 0 {
        assert r[i] == s[i - 1];
      }
    }
  }

  lemma {:induction false} RemoveKeepsUnique(cart: seq<LineItem>, id: Id)
    requires UniqueIds(cart)
    ensures UniqueIds(Remove(cart, id))
    decreases |cart|
  {
    if cart != [] {
      HeadNotInTail(cart);
      RemoveKeepsUnique(cart[1..], id);
      if cart[0].product.id != id {
        PrependKeepsUnique(cart[0], Remove(cart[1..], id));
      }
    }
  }

  lemma RemoveKeepsWellFormed(cart: seq<LineItem>, id: Id)
    requires WellFormed(cart)
    ensures WellFormed(Remove(cart, id))
  {
    RemoveKeepsUnique(cart, id);
    RemoveKeepsPositive(cart, id);
  }
}

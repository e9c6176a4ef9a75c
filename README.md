# Storefront cart model

A Dafny model of the cart logic of a small client-side storefront. Two pages
hold a cart: the catalog page (`ProductList`), whose cart starts empty, is
filled by "Add to cart" and is shown in a drawer that adding opens and a close
button hides; and the standalone cart page (`Cart`), whose list is seeded once
from the catalog when it mounts. A cart is an ordered list of line items (a
product's fields plus a `quantity`). Both pages change it with the same four
list transformations: increase, decrease (never below 1), remove, and, on the
catalog page only, add. Both show a total, the sum of `price * quantity`.

Layout:

- `line_items.dfy`, module `LineItems`: the `Product` and `LineItem` records
  and the pure transformations both pages use. These are `Find`, `Increase`,
  `Decrease`, `Remove`, `Add`, and `Total`, which is the left fold the pages
  evaluate. `Sum` is a reference sum. The module also proves the lemmas about
  these functions. The two pages repeat the same code, so it is defined once
  here.
- `product_list.dfy`, module `ProductListPage`: class `ProductList` with the
  page's `cart` and `isCartOpen` state. Each handler assigns the new list, as
  the page's setter does. Its invariant is that ids are distinct and every
  quantity is at least 1. The constructor establishes it and every method
  keeps it, so it holds after any sequence of actions from the empty cart.
- `cart_page.dfy`, module `CartPage`: class `Cart` with the page's
  `cartItems` state. The constructor takes the catalog. Each method keeps
  "every quantity is at least 1" when the list already had it.

Prices and quantities are integers. The total uses the undiscounted `price`,
as both pages compute it. A discount exists only on the product display.

## Model

| member | source | states |
|---|---|---|
| LineItems.Find | src/pages/ProductList.jsx:16-17 | The lookup succeeds exactly when some line has the id, and it returns the first such line. |
| LineItems.Add | src/pages/ProductList.jsx:15-26 | After adding, the cart holds the product's id. The length is unchanged when the id was present and grows by one when it was not. |
| LineItems.AddExisting | src/pages/ProductList.jsx:16-23 | When the id is present, adding keeps the length and the order. Each line with that id gets quantity + 1 and keeps its own fields. Every other line is unchanged. |
| LineItems.AddNew | src/pages/ProductList.jsx:24-25 | When the id is absent, the result is the old cart with one line appended: the product with quantity 1. |
| LineItems.AddKeepsWellFormed | src/pages/ProductList.jsx:15-26 | Adding keeps ids distinct and quantities at least 1. |
| LineItems.RemoveThenAdd | src/pages/ProductList.jsx:15-34 | Removing a product and adding it again gives a line with quantity exactly 1 at the end, whatever the quantity was before. |
| LineItems.Increase | src/pages/ProductList.jsx:37-42 | The length is kept and every line keeps its product fields. Lines with the id gain exactly 1 in quantity. All other lines are unchanged. |
| LineItems.IncreaseAbsent | src/pages/ProductList.jsx:37-42 | Increasing an id that is not in the cart changes nothing. |
| LineItems.IncreaseKeepsWellFormed | src/pages/ProductList.jsx:37-42 | Increasing keeps ids distinct and quantities at least 1. |
| LineItems.IncreaseAddsPrice | src/pages/ProductList.jsx:37-57 | With distinct ids, increasing one line raises the total by exactly that line's price. |
| LineItems.Decrease | src/pages/ProductList.jsx:45-52 | The length is kept and every line keeps its product fields. Lines with the id and quantity above 1 lose exactly 1. All other lines, including those at quantity 1, are unchanged. |
| LineItems.DecreaseKeepsPositive | src/pages/Cart.jsx:21-26 | If every quantity was at least 1, every quantity is still at least 1 after a decrease. |
| LineItems.DecreaseAtOne | src/pages/ProductList.jsx:47-49 | If every line with the id has quantity at most 1, decreasing leaves the list unchanged. |
| LineItems.DecreaseKeepsWellFormed | src/pages/ProductList.jsx:45-52 | Decreasing keeps ids distinct and quantities at least 1. |
| LineItems.IncreaseThenDecrease | src/pages/Cart.jsx:13-26 | Increase followed by decrease on the same id restores the list, when the lines with that id had quantity at least 1. |
| LineItems.Remove | src/pages/ProductList.jsx:31-34 | No line with the id remains, every remaining line comes from the cart, and the result is shorter by exactly the number of lines with that id. |
| LineItems.RemoveMembers | src/pages/ProductList.jsx:32 | A line is in the result exactly when it was in the cart and its id differs. |
| LineItems.RemoveConcat | src/pages/Cart.jsx:29-32 | Remove distributes over concatenation, so the kept lines keep their relative order. |
| LineItems.RemoveAbsent | src/pages/Cart.jsx:29-32 | Removing an id that is not present changes nothing. |
| LineItems.RemoveIdempotent | src/pages/Cart.jsx:29-32 | Removing twice equals removing once. |
| LineItems.RemoveKeepsPositive | src/pages/Cart.jsx:29-32 | Removing keeps every quantity at least 1. |
| LineItems.RemoveKeepsUnique | src/pages/ProductList.jsx:31-34 | Removing keeps ids distinct. |
| LineItems.RemoveKeepsWellFormed | src/pages/ProductList.jsx:31-34 | Removing keeps ids distinct and quantities at least 1. |
| LineItems.Total | src/pages/ProductList.jsx:55-57 | The left fold from 0 equals the sum of price times quantity over the lines, and it is 0 for the empty cart. |
| LineItems.ReduceIsSum | src/pages/Cart.jsx:35-37 | The fold from any start value equals that value plus the sum of price times quantity. |
| LineItems.SumConcat | src/pages/ProductList.jsx:55-57 | The total is additive: Sum(a + b) == Sum(a) + Sum(b). |
| ProductListPage.ProductList.constructor | src/pages/ProductList.jsx:11-12 | The page starts with an empty cart and a closed drawer. |
| ProductListPage.ProductList.AddToCart | src/pages/ProductList.jsx:15-28 | The cart becomes Add(old cart, product) and the drawer is open, whatever it was before. The invariant is kept. |
| ProductListPage.ProductList.RemoveFromCart | src/pages/ProductList.jsx:31-34 | The cart becomes Remove(old cart, id), the drawer flag is unchanged, and the invariant is kept. |
| ProductListPage.ProductList.IncreaseQuantity | src/pages/ProductList.jsx:37-42 | The cart becomes Increase(old cart, id), the drawer flag is unchanged, and the invariant is kept. |
| ProductListPage.ProductList.DecreaseQuantity | src/pages/ProductList.jsx:45-52 | The cart becomes Decrease(old cart, id), the drawer flag is unchanged, and the invariant is kept. |
| ProductListPage.ProductList.CloseCart | src/pages/ProductList.jsx:156 | The drawer is closed and the cart is unchanged. |
| ProductListPage.ProductList.CalculateTotal | src/pages/ProductList.jsx:55-57 | The displayed total is the sum of undiscounted price times quantity over the cart. |
| ProductListPage.AddDecreaseRemoveScenario | src/pages/ProductList.jsx:15-57 | For a product priced 100: add gives quantity 1 and total 100, a second add gives 2 and 200, decrease gives 1 and 100, a second decrease does nothing, and remove empties the cart to total 0. |
| CartPage.Cart.constructor | src/pages/Cart.jsx:5-10 | After mount the list is the catalog as loaded. |
| CartPage.Cart.IncreaseQuantity | src/pages/Cart.jsx:13-18 | The list becomes Increase(old list, id), and quantities of at least 1 are preserved. |
| CartPage.Cart.DecreaseQuantity | src/pages/Cart.jsx:21-26 | The list becomes Decrease(old list, id), and quantities of at least 1 are preserved. |
| CartPage.Cart.RemoveItem | src/pages/Cart.jsx:29-32 | The list becomes Remove(old list, id), and quantities of at least 1 are preserved. |
| CartPage.Cart.CalculateSubtotal | src/pages/Cart.jsx:35-37 | The subtotal is the sum of undiscounted price times quantity, and it is 0 for an empty list. |
| CartPage.IncreaseTwiceScenario | src/pages/Cart.jsx:13-18 | For a product priced 50, a line at quantity 1 increased twice has quantity 3 and a subtotal of 150. |

## Left out

- Rendering, layout and styling: the catalog grid, category list, price range input, sort and view buttons, images and headers. They are presentation with no cart logic.
- React machinery: `useState`, `useEffect` and batched or asynchronous setters. Each setter call is a plain field assignment.
- CartPage.Cart.constructor: the first render, where the list is empty before the mount effect runs, is not modelled. The constructor yields the seeded list directly.
- The catalog and featured-products JSON files: their contents are not part of this model. The catalog is a constructor parameter of `Cart`, and `ProductList` keeps no catalog field because no cart operation reads one.
- The discounted display price `price * (1 - discount / 100)`: it is floating-point, used only for display, and never enters a total. `discount` is carried as a field only.
- The featured-products side panel, the Checkout buttons and the "Continue Shopping" link: they are read-only display, inert, or navigation.
- JavaScript number behaviour: fractional prices, NaN from a seed entry without `quantity`, and precision loss on large values. Prices and quantities are unbounded integers.
- Product fields beyond `id`, `name`, `price`, `discount` and `image`: the spread copies them too, but no operation reads them.
- The seeded cart page does not guarantee distinct ids or positive quantities, because it copies the catalog as is. So `Cart` does not claim them as an invariant. It only preserves "quantities at least 1" when the seed has it.

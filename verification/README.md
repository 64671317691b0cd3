# Marketplace cart: line items and their totals

A Dafny model of the cart of a small mobile marketplace app. The cart store
(`src/hooks/cart.tsx`) holds a list of line items, each with an id, a title,
an image url, a unit price and a quantity, and exposes three transitions:

- `addToCart(product)` increments the product when an item with its id is
  already in the cart, and otherwise appends it with quantity 1;
- `increment(id)` adds one unit to every item carrying `id`;
- `decrement(id)` takes one unit off every item carrying `id` whose quantity
  is above zero.

The floating cart widget (`src/components/FloatingCart/index.tsx`) derives
two totals from that list with `reduce` folds starting at 0: the number of
units (`totalItensInCart`, the sum of quantities) and the price total behind
`cartTotal` (the sum of price × quantity).

The model lives in two modules:

- `Cart` (`cart.dfy`): the `Product` line item (cart.tsx:11-17), the
  `NewProduct` argument of addToCart (`Omit<Product, 'quantity'>`), the
  transitions as pure functions over `seq<Product>`, the cart invariant
  `ValidCart` (unique ids, no negative quantity), and `Run`, which applies
  any sequence of calls.
- `Summary` (`summary.dfy`): `Reduce`, the left fold that `Array.reduce`
  performs, a reference `Sum`, the two totals, and lemmas on how each
  transition moves them.

Prices are `nat` integer cents, so every sum is exact. Quantities are `int`,
signed like the JavaScript numbers they stand for, so that "quantities never go
negative" is a property the transitions are proved to keep rather than a
fact of the type.

`increment` and `decrement` are element-wise `map`s (cart.tsx:73, 93), so
they change every item carrying the id, not only the first; `decrement`
leaves any item whose quantity is not above zero untouched, negative ones
included.

## Model

| member | source | states |
|---|---|---|
| `Cart.Find` | src/hooks/cart.tsx:45 | finds nothing exactly when no item carries the id; otherwise returns the first item that carries it |
| `Cart.Increment` | src/hooks/cart.tsx:70-80 | same length, order, ids, titles, image urls and prices; every item carrying the id gains exactly one unit and every other item is unchanged; an absent id leaves the list unchanged; unique ids and non-negative quantities are kept |
| `Cart.Decrement` | src/hooks/cart.tsx:90-100 | same length, order, ids, titles, image urls and prices; an item carrying the id with quantity above zero loses exactly one unit, every other item is unchanged; no quantity that was non-negative becomes negative; when no matching item has a unit to take off (absent id, or quantity 0) the list is unchanged; unique ids are kept |
| `Cart.AddToCart` | src/hooks/cart.tsx:43-60 | with the id present the result equals `Increment` on that id and the length does not grow; with it absent exactly one item is appended at the end with the given id, title, image url and price and quantity 1, and all earlier items are unchanged; the id is present afterwards; unique ids and non-negative quantities are kept |
| `Cart.Apply` | src/hooks/cart.tsx:19-24 | any one of the three calls the store exposes keeps a valid cart (unique ids, no negative quantity) valid |
| `Cart.Run` | src/hooks/cart.tsx:19-24 | any sequence of the exposed calls keeps a valid cart valid, so every cart reached from the initial empty list (cart.tsx:29) has unique ids and no negative quantity; the list never shrinks |
| `Cart.RunSnoc` | src/hooks/cart.tsx:19-24 | running a sequence of calls and then one more call is the same as applying that call to the list the sequence produced |
| `Cart.DecrementUndoesIncrement` | src/hooks/cart.tsx:70-108 | on a cart without negative quantities, decrement after increment on the same id gives back the original list |
| `Cart.IncrementUndoesDecrement` | src/hooks/cart.tsx:70-108 | when every item carrying the id has a unit to take off, increment after decrement on that id gives back the original list |
| `Cart.DecrementAtZeroIsNoOp` | src/hooks/cart.tsx:94-96 | in a cart with unique ids, decrementing an item whose quantity is 0 (or below) leaves the whole list unchanged, so no quantity goes below zero |
| `Summary.ReduceIsSum` | src/components/FloatingCart/index.tsx:24-26 | the first-to-last fold from an accumulator equals the accumulator plus the sum of the terms |
| `Summary.SumAppend` | src/components/FloatingCart/index.tsx:24-34 | the sum over a list ending in `x` is the sum over the rest plus `x`'s term |
| `Summary.SumNonNegative` | src/components/FloatingCart/index.tsx:24-34 | a sum of non-negative terms is non-negative |
| `Summary.TotalItems` | src/components/FloatingCart/index.tsx:31-35 | the item count equals the sum of quantities over all items, and is 0 for an empty cart |
| `Summary.CartTotal` | src/components/FloatingCart/index.tsx:23-26 | the price total equals the sum of price × quantity over all items, and is 0 for an empty cart |
| `Summary.TotalsNonNegative` | src/components/FloatingCart/index.tsx:24-34 | with no negative quantity, neither total is negative |
| `Summary.AddNewTotals` | src/components/FloatingCart/index.tsx:24-34 | adding a product whose id is absent raises the item count by exactly 1 and the price total by exactly its price |
| `Summary.IncrementTotals` | src/components/FloatingCart/index.tsx:24-34 | incrementing an id present in a cart with unique ids raises the item count by exactly 1 and the price total by exactly that item's price |
| `Summary.DecrementTotals` | src/components/FloatingCart/index.tsx:24-34 | decrementing an id present in a cart with unique ids on an item whose quantity is above zero lowers the item count by exactly 1 and the price total by exactly that item's price |
| `Summary.AddToCartTotals` | src/components/FloatingCart/index.tsx:24-34 | on a cart with unique ids addToCart always raises the item count by 1; the price total grows by the new product's price when its id was absent and by the price already stored when it was present, so adding again never updates a stored price |

## Left out

- Loading the cart from and saving it to device storage (cart.tsx:31-41, 62-65, 82-85, 102-105): asynchronous I/O and JSON serialisation through a foreign library. With it goes the round trip of the stored snapshot, and what each save actually writes: the callbacks serialise the `products` captured at render time. Because increment and decrement change the item objects in place (cart.tsx:75, 95) and those objects are shared with the captured list, their saves at cart.tsx:84 and 104 may already hold the new quantities; the item that addToCart appends (cart.tsx:50-59) is always missing from its save at cart.tsx:64. A cart loaded from storage is valid only if the stored snapshot was; `Run` states validity for carts that start valid.
- React state, `useCallback`, `useMemo`, the context value and the `useCart` out-of-provider error (cart.tsx:26-29, 110-126): framework plumbing. In particular, addToCart's presence test (`products.find`, cart.tsx:45) and its appending branch (cart.tsx:50-51) both read the `products` captured at render time, while increment and decrement go through the state updater; the model treats both as the current list, and does not model several calls batched into one render.
- In-place mutation of the item objects (`product.quantity++`, `product.quantity--`): modelled as producing new item values, so aliasing between old and new state is not modelled.
- JavaScript number semantics: prices are integer cents rather than floating point, and quantities are unbounded integers (the source's numbers lose precision above 2^53).
- The currency formatting of the price total (`formatValue`), navigation to the cart screen, the icon and the styled components (index.tsx:14, 28, 37-51): foreign calls and rendering.

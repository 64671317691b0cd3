/**
  The cart store of the marketplace app: its line items and the three
  transitions it exposes (addToCart, increment, decrement).

  The store keeps its list in React state and writes it to device storage
  after every change; here each transition is a pure function from the
  current list of line items to the next one.
 */
module Cart {

  /** A line item. `price` is a unit price in integer cents. `quantity` is
      kept as an `int`, like the number it models, so that "quantities never
      go negative" is something the operations preserve rather than a fact
      of the type. */
  datatype Product = Product(id: string, title: string, imageUrl: string, price: nat, quantity: int)

  /** The argument of addToCart: a product without its quantity. */
  datatype NewProduct = NewProduct(id: string, title: string, imageUrl: string, price: nat)

  datatype Option<+T> = None | Some(value: T)

  /** Some item of the list carries `id`. */
  predicate Contains(products: seq<Product>, id: string) {
    exists i :: 0 <= i < |products| && products[i].id == id
  }

  /** `i` is the position of the first item that carries `id`. */
  predicate FirstMatch(products: seq<Product>, id: string, i: int) {
    && 0 <= i < |products|
    && products[i].id == id
    && forall j :: 0 <= j < i ==> products[j].id != id
  }

  /** No two items share an id. */
  predicate UniqueIds(products: seq<Product>) {
    forall i, j :: 0 <= i < j < |products| ==> products[i].id != products[j].id
  }

  /** Every quantity is zero or more. */
  predicate NonNegativeQuantities(products: seq<Product>) {
    forall i :: 0 <= i < |products| ==> products[i].quantity >= 0
  }

  /** The invariant the store keeps: one item per id, no negative quantity. */
  predicate ValidCart(products: seq<Product>) {
    UniqueIds(products) && NonNegativeQuantities(products)
  }

  /** `p` and `q` describe the same product; only their quantities may differ. */
  predicate SameDescriptor(p: Product, q: Product) {
    p.id == q.id && p.title == q.title && p.imageUrl == q.imageUrl && p.price == q.price
  }

  /** `a` and `b` list the same products in the same order; only quantities
      may differ. */
  predicate SameExceptQuantities(a: seq<Product>, b: seq<Product>) {
    |a| == |b| && forall i :: 0 <= i < |a| ==> SameDescriptor(a[i], b[i])
  }

  /** An id is in a non-empty list when it is at the head or in the tail. */
  lemma ContainsSplit(products: seq<Product>, id: string)
    requires |products| > 0
    ensures Contains(products, id) <==> products[0].id == id || Contains(products[1..], id)
  {
  }

  /** Changing only quantities keeps ids unique. */
  lemma SameExceptQuantitiesKeepsUniqueIds(a: seq<Product>, b: seq<Product>)
    requires SameExceptQuantities(a, b)
    ensures UniqueIds(a) ==> UniqueIds(b)
  {
  }

  /** `products.find(product => product.id === id)`: the first item that
      carries `id`, or nothing. */
  function Find(products: seq<Product>, id: string): (r: Option<Product>)
    ensures r.None? <==> !Contains(products, id)
    ensures r.Some? ==> r.value.id == id
    ensures r.Some? ==> exists i :: FirstMatch(products, id, i) && products[i] == r.value
  {
    if |products| == 0 then None
    else if products[0].id == id then
      assert FirstMatch(products, id, 0);
      Some(products[0])
    else
      var r := Find(products[1..], id);
      ContainsSplit(products, id);
      if r.Some? then
        var i :| FirstMatch(products[1..], id, i) && products[1..][i] == r.value;
        assert FirstMatch(products, id, i + 1);
        r
      else
        r
  }

  /** The callback of increment's `map`: bump the item if its id matches. */
  function IncrementItem(p: Product, id: string): Product {
    if p.id == id then p.(quantity := p.quantity + 1) else p
  }

  /** increment(id): every item that carries `id` gains one unit; nothing
      else changes. */
  function Increment(products: seq<Product>, id: string): (r: seq<Product>)
    ensures SameExceptQuantities(products, r)
    ensures forall i :: 0 <= i < |r| && products[i].id == id ==> r[i].quantity == products[i].quantity + 1
    ensures forall i :: 0 <= i < |r| && products[i].id != id ==> r[i] == products[i]
    ensures !Contains(products, id) ==> r == products
    ensures UniqueIds(products) ==> UniqueIds(r)
    ensures NonNegativeQuantities(products) ==> NonNegativeQuantities(r)
  {
    var r := seq(|products|, i requires 0 <= i < |products| => IncrementItem(products[i], id));
    SameExceptQuantitiesKeepsUniqueIds(products, r);
    r
  }

  /** The callback of decrement's `map`: take a unit off the item if its id
      matches and its quantity is above zero. */
  function DecrementItem(p: Product, id: string): Product {
    if p.id == id && p.quantity > 0 then p.(quantity := p.quantity - 1) else p
  }

  /** Whether decrement(id) would change anything: some item that carries
      `id` still has a unit to take off. */
  predicate CanDecrement(products: seq<Product>, id: string) {
    exists i :: 0 <= i < |products| && products[i].id == id && products[i].quantity > 0
  }

  /** decrement(id): every item that carries `id` and has a quantity above
      zero loses one unit; nothing else changes. */
  function Decrement(products: seq<Product>, id: string): (r: seq<Product>)
    ensures SameExceptQuantities(products, r)
    ensures forall i :: 0 <= i < |r| && products[i].id == id && products[i].quantity > 0 ==>
      r[i].quantity == products[i].quantity - 1
    ensures forall i :: 0 <= i < |r| && (products[i].id != id || products[i].quantity <= 0) ==>
      r[i] == products[i]
    ensures forall i :: 0 <= i < |r| && products[i].quantity >= 0 ==> r[i].quantity >= 0
    ensures !CanDecrement(products, id) ==> r == products
    ensures UniqueIds(products) ==> UniqueIds(r)
    ensures NonNegativeQuantities(products) ==> NonNegativeQuantities(r)
  {
    var r := seq(|products|, i requires 0 <= i < |products| => DecrementItem(products[i], id));
    SameExceptQuantitiesKeepsUniqueIds(products, r);
    r
  }

  /** The line item addToCart appends for a product not yet in the cart. */
  function NewItem(p: NewProduct): Product {
    Product(p.id, p.title, p.imageUrl, p.price, 1)
  }

  /** addToCart(p): a product already in the cart is incremented; otherwise
      it is appended with quantity 1. */
  function AddToCart(products: seq<Product>, p: NewProduct): (r: seq<Product>)
    ensures Contains(products, p.id) ==> r == Increment(products, p.id) && |r| == |products|
    ensures !Contains(products, p.id) ==>
      && |r| == |products| + 1
      && r[..|products|] == products
      && r[|products|] == Product(p.id, p.title, p.imageUrl, p.price, 1)
    ensures Contains(r, p.id)
    ensures UniqueIds(products) ==> UniqueIds(r)
    ensures NonNegativeQuantities(products) ==> NonNegativeQuantities(r)
  {
    var r := if Find(products, p.id).Some? then Increment(products, p.id) else products + [NewItem(p)];
    assert Contains(r, p.id) by {
      if Contains(products, p.id) {
        var i :| 0 <= i < |products| && products[i].id == p.id;
        assert r[i].id == p.id;
      } else {
        assert r[|products|].id == p.id;
      }
    }
    r
  }

  /** A call a consumer of the store can make. */
  datatype Action =
    | AddToCartAction(item: NewProduct)
    | IncrementAction(id: string)
    | DecrementAction(id: string)

  /** The list after one call. */
  function Apply(products: seq<Product>, a: Action): (r: seq<Product>)
    ensures ValidCart(products) ==> ValidCart(r)
  {
    match a
    case AddToCartAction(p) => AddToCart(products, p)
    case IncrementAction(id) => Increment(products, id)
    case DecrementAction(id) => Decrement(products, id)
  }

  /** The list after a sequence of calls, the first applied first. Whatever
      the calls, a valid cart stays valid; in particular every cart reached
      from the empty one has unique ids and no negative quantity. */
  function Run(products: seq<Product>, actions: seq<Action>): (r: seq<Product>)
    ensures ValidCart(products) ==> ValidCart(r)
    ensures |r| >= |products|
    decreases |actions|
  {
    if |actions| == 0 then products
    else Run(Apply(products, actions[0]), actions[1..])
  }

  /** Running a sequence of calls followed by one more call is running the
      sequence and then applying that call to the result. */
  lemma {:induction false} RunSnoc(products: seq<Product>, actions: seq<Action>, a: Action)
    ensures Run(products, actions + [a]) == Apply(Run(products, actions), a)
    decreases |actions|
  {
    if |actions| == 0 {
      assert Run(products, [a]) == Run(Apply(products, a), []);
    } else {
      assert (actions + [a])[1..] == actions[1..] + [a];
      RunSnoc(Apply(products, actions[0]), actions[1..], a);
    }
  }

  /** Taking back a unit just added restores the cart. */
  lemma DecrementUndoesIncrement(products: seq<Product>, id: string)
    requires NonNegativeQuantities(products)
    ensures Decrement(Increment(products, id), id) == products
  {
  }

  /** Adding back a unit just taken off restores the cart, provided every
      item that carries `id` had a unit to take off. */
  lemma IncrementUndoesDecrement(products: seq<Product>, id: string)
    requires forall i :: 0 <= i < |products| && products[i].id == id ==> products[i].quantity > 0
    ensures Increment(Decrement(products, id), id) == products
  {
  }

  /** With unique ids, decrementing an item at quantity 0 (or below)
      changes nothing: quantities never go below zero. */
  lemma DecrementAtZeroIsNoOp(products: seq<Product>, id: string, k: nat)
    requires UniqueIds(products)
    requires k < |products| && products[k].id == id && products[k].quantity <= 0
    ensures Decrement(products, id) == products
  {
  }
}

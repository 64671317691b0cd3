/**
  The floating cart summary: the two totals it derives from the store's
  list of line items, and how each cart transition moves them.

  Both totals are `reduce` folds starting from 0. Prices are integer cents,
  so the sums are exact; turning the price total into a currency string is
  not part of this model.
 */
module Summary {
  import opened Cart

  /** `products.reduce((acc, current) => acc + term(current), acc)`: a left
      fold, visiting the items first to last. */
  function Reduce(products: seq<Product>, acc: int, term: Product -> int): int {
    if |products| == 0 then acc
    else Reduce(products[1..], acc + term(products[0]), term)
  }

  /** The sum of `term` over the items, as a reference for the fold. */
  function Sum(products: seq<Product>, term: Product -> int): int {
    if |products| == 0 then 0
    else term(products[0]) + Sum(products[1..], term)
  }

  /** What one item adds to the item count. */
  function Units(p: Product): int {
    p.quantity
  }

  /** What one item adds to the price total. */
  function LineTotal(p: Product): int {
    p.price * p.quantity
  }

  /** The fold from `acc` is `acc` plus the sum of the terms. */
  lemma {:induction false} ReduceIsSum(products: seq<Product>, acc: int, term: Product -> int)
    ensures Reduce(products, acc, term) == acc + Sum(products, term)
  {
    if |products| > 0 {
      ReduceIsSum(products[1..], acc + term(products[0]), term);
    }
  }

  /** A sum over a list ending in `x` is the sum over the rest plus `x`'s term. */
  lemma {:induction false} SumAppend(products: seq<Product>, x: Product, term: Product -> int)
    ensures Sum(products + [x], term) == Sum(products, term) + term(x)
  {
    if |products| > 0 {
      assert (products + [x])[1..] == products[1..] + [x];
      SumAppend(products[1..], x, term);
    }
  }

  /** A sum of terms that are never negative is never negative. */
  lemma {:induction false} SumNonNegative(products: seq<Product>, term: Product -> int)
    requires forall i :: 0 <= i < |products| ==> term(products[i]) >= 0
    ensures Sum(products, term) >= 0
  {
    if |products| > 0 {
      SumNonNegative(products[1..], term);
    }
  }

  /** totalItensInCart: the number of units in the cart. */
  function TotalItems(products: seq<Product>): (n: int)
    ensures n == Sum(products, Units)
    ensures |products| == 0 ==> n == 0
  {
    ReduceIsSum(products, 0, Units);
    Reduce(products, 0, Units)
  }

  /** The price total behind cartTotal, in cents, before formatting. */
  function CartTotal(products: seq<Product>): (t: int)
    ensures t == Sum(products, LineTotal)
    ensures |products| == 0 ==> t == 0
  {
    ReduceIsSum(products, 0, LineTotal);
    Reduce(products, 0, LineTotal)
  }

  /** With no negative quantity (prices are never negative), neither total
      is negative. */
  lemma TotalsNonNegative(products: seq<Product>)
    requires NonNegativeQuantities(products)
    ensures TotalItems(products) >= 0
    ensures CartTotal(products) >= 0
  {
    SumNonNegative(products, Units);
    forall i | 0 <= i < |products|
      ensures LineTotal(products[i]) >= 0
    {
      assert products[i].quantity >= 0;
    }
    SumNonNegative(products, LineTotal);
  }

  /** Adding a product that is not in the cart adds one unit and its price. */
  lemma AddNewTotals(products: seq<Product>, p: NewProduct)
    requires !Contains(products, p.id)
    ensures TotalItems(AddToCart(products, p)) == TotalItems(products) + 1
    ensures CartTotal(AddToCart(products, p)) == CartTotal(products) + p.price
  {
    var r := AddToCart(products, p);
    assert r == products + [r[|products|]];
    SumAppend(products, r[|products|], Units);
    SumAppend(products, r[|products|], LineTotal);
  }

  /** Changing an item's quantity by `d` changes its line total by `d`
      times its price. */
  lemma LineTotalShift(p: Product, q: Product, d: int)
    requires SameDescriptor(p, q) && q.quantity == p.quantity + d
    ensures LineTotal(q) == LineTotal(p) + d * p.price
  {
  }

  /** In a cart with unique ids, an item carrying `id` at the head means no
      other item carries it. */
  lemma HeadIdIsUnique(products: seq<Product>, id: string)
    requires UniqueIds(products)
    requires |products| > 0 && products[0].id == id
    ensures !Contains(products[1..], id)
  {
  }

  /** Incrementing an id that is in a cart with unique ids adds one unit and
      that item's price. */
  lemma {:induction false} IncrementTotals(products: seq<Product>, id: string, k: nat)
    requires UniqueIds(products)
    requires k < |products| && products[k].id == id
    ensures TotalItems(Increment(products, id)) == TotalItems(products) + 1
    ensures CartTotal(Increment(products, id)) == CartTotal(products) + products[k].price
  {
    var r := Increment(products, id);
    var rest := Increment(products[1..], id);
    assert r[1..] == rest;
    assert Sum(r, Units) == Units(r[0]) + Sum(rest, Units);
    assert Sum(r, LineTotal) == LineTotal(r[0]) + Sum(rest, LineTotal);
    if k == 0 {
      HeadIdIsUnique(products, id);
      assert rest == products[1..];
      LineTotalShift(products[0], r[0], 1);
    } else {
      assert products[1..][k - 1].id == id;
      IncrementTotals(products[1..], id, k - 1);
      assert r[0] == products[0];
    }
  }

  /** Decrementing an id that is in a cart with unique ids, on an item with
      a unit to take off, removes one unit and that item's price. */
  lemma {:induction false} DecrementTotals(products: seq<Product>, id: string, k: nat)
    requires UniqueIds(products)
    requires k < |products| && products[k].id == id && products[k].quantity > 0
    ensures TotalItems(Decrement(products, id)) == TotalItems(products) - 1
    ensures CartTotal(Decrement(products, id)) == CartTotal(products) - products[k].price
  {
    var r := Decrement(products, id);
    var rest := Decrement(products[1..], id);
    assert r[1..] == rest;
    assert Sum(r, Units) == Units(r[0]) + Sum(rest, Units);
    assert Sum(r, LineTotal) == LineTotal(r[0]) + Sum(rest, LineTotal);
    if k == 0 {
      HeadIdIsUnique(products, id);
      assert rest == products[1..];
      LineTotalShift(products[0], r[0], -1);
    } else {
      assert products[1..][k - 1].id == id;
      DecrementTotals(products[1..], id, k - 1);
      assert r[0] == products[0];
    }
  }

  /** addToCart on a cart with unique ids always adds exactly one unit. The
      price total grows by the new product's price when it was absent, and
      by the price already in the cart when it was present: adding again
      never updates a stored price. */
  lemma AddToCartTotals(products: seq<Product>, p: NewProduct)
    requires UniqueIds(products)
    ensures TotalItems(AddToCart(products, p)) == TotalItems(products) + 1
    ensures !Contains(products, p.id) ==>
      CartTotal(AddToCart(products, p)) == CartTotal(products) + p.price
    ensures forall k :: 0 <= k < |products| && products[k].id == p.id ==>
      CartTotal(AddToCart(products, p)) == CartTotal(products) + products[k].price
  {
    if Contains(products, p.id) {
      forall k | 0 <= k < |products| && products[k].id == p.id
        ensures TotalItems(AddToCart(products, p)) == TotalItems(products) + 1
        ensures CartTotal(AddToCart(products, p)) == CartTotal(products) + products[k].price
      {
        IncrementTotals(products, p.id, k);
      }
    } else {
      AddNewTotals(products, p);
    }
  }
}

/**
 * Rows of the store that the pricing engine reads: products, cart lines (a
 * product joined with its category title) and campaigns whose rule fields
 * are all optional. Prices are exact reals.
 */
module Models {
  import opened Wrappers

  /** Rust's `i32`, the width of the campaigns table's integer columns. */
  newtype I32 = x: int | -0x8000_0000 <= x < 0x8000_0000

  /** A row of the products table. */
  datatype Product = Product(
    id: int,
    title: string,
    categoryId: int,
    author: string,
    listPrice: real,
    stockQuantity: int)

  /** A product together with the title of its category. */
  datatype CartLine = CartLine(product: Product, categoryTitle: string)

  /** A row of the campaigns table; every rule field may be absent. */
  datatype Campaign = Campaign(
    id: int,
    description: string,
    minPurchasePrice: Option<real>,
    minPurchaseQuantity: Option<I32>,
    discountQuantity: Option<I32>,
    discountPercent: Option<I32>,
    ruleAuthor: Option<string>,
    ruleCategory: Option<string>)

  /** Sum of the list prices of the lines. */
  function SumPrices(lines: seq<CartLine>): real
  {
    if lines == [] then 0.0 else lines[0].product.listPrice + SumPrices(lines[1..])
  }

  predicate NonNegativePrices(lines: seq<CartLine>)
  {
    forall i :: 0 <= i < |lines| ==> lines[i].product.listPrice >= 0.0
  }

  /** The lines that satisfy `p`, in their original order. */
  function Filter(lines: seq<CartLine>, p: CartLine -> bool): (r: seq<CartLine>)
    ensures |r| <= |lines|
    ensures forall l :: l in r <==> l in lines && p(l)
    ensures multiset(r) <= multiset(lines)
  {
    if lines == [] then []
    else
      assert lines == [lines[0]] + lines[1..];
      (if p(lines[0]) then [lines[0]] else []) + Filter(lines[1..], p)
  }

  lemma {:induction false} SumAppend(a: seq<CartLine>, b: seq<CartLine>)
    ensures SumPrices(a + b) == SumPrices(a) + SumPrices(b)
  {
    if a == [] {
      assert a + b == b;
    } else {
      assert (a + b)[0] == a[0];
      assert (a + b)[1..] == a[1..] + b;
      SumAppend(a[1..], b);
    }
  }

  lemma {:induction false} SumNonNegative(lines: seq<CartLine>)
    requires NonNegativePrices(lines)
    ensures SumPrices(lines) >= 0.0
  {
    if lines != [] {
      SumNonNegative(lines[1..]);
    }
  }

  /** Two predicates that agree on every line select the same lines. */
  lemma {:induction false} FilterExtensional(lines: seq<CartLine>, p: CartLine -> bool, q: CartLine -> bool)
    requires forall l :: p(l) == q(l)
    ensures Filter(lines, p) == Filter(lines, q)
  {
    if lines != [] {
      FilterExtensional(lines[1..], p, q);
    }
  }

  /** A predicate that holds of every line selects all of them. */
  lemma {:induction false} FilterAll(lines: seq<CartLine>, p: CartLine -> bool)
    requires forall l :: l in lines ==> p(l)
    ensures Filter(lines, p) == lines
  {
    if lines != [] {
      FilterAll(lines[1..], p);
      assert lines == [lines[0]] + lines[1..];
    }
  }
}

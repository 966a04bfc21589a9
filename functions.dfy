/**
 * Campaign eligibility and the discount a campaign grants on a cart.
 *
 * `RuleHolds` is the rule disjunction exactly as the source writes it, nine
 * clauses over the campaign's optional fields. `EligibleSpec` is the same
 * rule stated once, in terms of the scope predicate the discount calculator
 * uses; `RuleHoldsIff` proves the two agree.
 */
module Functions {
  import opened Wrappers
  import opened Models

  // ---------------------------------------------------------------------
  // Eligibility
  // ---------------------------------------------------------------------

  predicate HasDiscount(c: Campaign)
  {
    c.discountPercent.Some? || c.discountQuantity.Some?
  }

  /** Cart lines whose product has author `a` and whose category title is `cat`. */
  function CountAuthorAndCategory(cart: seq<CartLine>, a: string, cat: string): nat
  {
    |Filter(cart, (l: CartLine) => l.product.author == a && l.categoryTitle == cat)|
  }

  function CountCategory(cart: seq<CartLine>, cat: string): nat
  {
    |Filter(cart, (l: CartLine) => l.categoryTitle == cat)|
  }

  function CountAuthor(cart: seq<CartLine>, a: string): nat
  {
    |Filter(cart, (l: CartLine) => l.product.author == a)|
  }

  /** The rule disjunction of the eligibility filter, clause by clause. */
  predicate RuleHolds(c: Campaign, cart: seq<CartLine>)
  {
    // author and category, by quantity, discount_quantity set
    || (c.ruleAuthor.Some? && c.ruleCategory.Some? && c.minPurchaseQuantity.Some?
        && c.discountQuantity.Some?
        && CountAuthorAndCategory(cart, c.ruleAuthor.value, c.ruleCategory.value) >= c.minPurchaseQuantity.value as int)
    // author and category, by quantity, discount_percent set
    || (c.ruleAuthor.Some? && c.ruleCategory.Some? && c.minPurchaseQuantity.Some?
        && c.discountPercent.Some?
        && CountAuthorAndCategory(cart, c.ruleAuthor.value, c.ruleCategory.value) >= c.minPurchaseQuantity.value as int)
    // category only, discount_quantity set
    || (c.ruleCategory.Some? && c.ruleAuthor.None? && c.minPurchaseQuantity.Some?
        && c.discountQuantity.Some?
        && CountCategory(cart, c.ruleCategory.value) >= c.minPurchaseQuantity.value as int)
    // author only, discount_quantity set
    || (c.ruleAuthor.Some? && c.ruleCategory.None? && c.minPurchaseQuantity.Some?
        && c.discountQuantity.Some?
        && CountAuthor(cart, c.ruleAuthor.value) >= c.minPurchaseQuantity.value as int)
    // category only, discount_percent set
    || (c.ruleCategory.Some? && c.ruleAuthor.None? && c.minPurchaseQuantity.Some?
        && c.discountPercent.Some?
        && CountCategory(cart, c.ruleCategory.value) >= c.minPurchaseQuantity.value as int)
    // author only, discount_percent set
    || (c.ruleAuthor.Some? && c.ruleCategory.None? && c.minPurchaseQuantity.Some?
        && c.discountPercent.Some?
        && CountAuthor(cart, c.ruleAuthor.value) >= c.minPurchaseQuantity.value as int)
    // unscoped, discount_quantity set
    || (c.minPurchaseQuantity.Some? && c.discountQuantity.Some?
        && c.ruleCategory.None? && c.ruleAuthor.None?
        && |cart| >= c.minPurchaseQuantity.value as int)
    // unscoped, discount_percent set
    || (c.minPurchaseQuantity.Some? && c.discountPercent.Some?
        && c.ruleCategory.None? && c.ruleAuthor.None?
        && |cart| >= c.minPurchaseQuantity.value as int)
    // minimum purchase price, whatever the scope
    || (c.minPurchasePrice.Some? && SumPrices(cart) >= c.minPurchasePrice.value)
  }

  /** A line is in a campaign's scope when it matches every scope field that is set. */
  predicate InScope(c: Campaign, l: CartLine)
  {
    && (c.ruleAuthor.None? || c.ruleAuthor == Some(l.product.author))
    && (c.ruleCategory.None? || c.ruleCategory == Some(l.categoryTitle))
  }

  /** The cart lines in a campaign's scope, in cart order. */
  function ScopedLines(c: Campaign, cart: seq<CartLine>): seq<CartLine>
  {
    Filter(cart, (l: CartLine) => InScope(c, l))
  }

  /**
   * The rule stated once: enough lines in scope for a campaign that has a
   * minimum quantity and a discount mode, or a cart worth at least the
   * minimum purchase price.
   */
  predicate EligibleSpec(c: Campaign, cart: seq<CartLine>)
  {
    || (c.minPurchaseQuantity.Some? && HasDiscount(c)
        && |ScopedLines(c, cart)| >= c.minPurchaseQuantity.value as int)
    || (c.minPurchasePrice.Some? && SumPrices(cart) >= c.minPurchasePrice.value)
  }

  /** The nine clauses say exactly what the structured rule says. */
  lemma RuleHoldsIff(c: Campaign, cart: seq<CartLine>)
    ensures RuleHolds(c, cart) <==> EligibleSpec(c, cart)
  {
    var inScope := (l: CartLine) => InScope(c, l);
    match (c.ruleAuthor, c.ruleCategory)
    case (Some(a), Some(cat)) =>
      FilterExtensional(cart, inScope, (l: CartLine) => l.product.author == a && l.categoryTitle == cat);
      assert CountAuthorAndCategory(cart, a, cat) == |ScopedLines(c, cart)|;
    case (None, Some(cat)) =>
      FilterExtensional(cart, inScope, (l: CartLine) => l.categoryTitle == cat);
      assert CountCategory(cart, cat) == |ScopedLines(c, cart)|;
    case (Some(a), None) =>
      FilterExtensional(cart, inScope, (l: CartLine) => l.product.author == a);
      assert CountAuthor(cart, a) == |ScopedLines(c, cart)|;
    case (None, None) =>
      FilterAll(cart, inScope);
      assert |cart| == |ScopedLines(c, cart)|;
  }

  /** Whether the filter keeps a campaign: the rule holds and a discount mode is set. */
  predicate Kept(c: Campaign, cart: seq<CartLine>)
  {
    RuleHolds(c, cart) && (c.discountPercent.Some? || c.discountQuantity.Some?)
  }

  /**
   * A campaign is kept exactly when it has a discount mode and either enough
   * lines in scope or a cart at the minimum purchase price. A campaign with
   * no discount mode is dropped even when its price rule matches.
   */
  lemma KeptIff(c: Campaign, cart: seq<CartLine>)
    ensures Kept(c, cart) <==>
      && HasDiscount(c)
      && (|| (c.minPurchaseQuantity.Some? && |ScopedLines(c, cart)| >= c.minPurchaseQuantity.value as int)
          || (c.minPurchasePrice.Some? && SumPrices(cart) >= c.minPurchasePrice.value))
  {
    RuleHoldsIff(c, cart);
  }

  /** The kept campaigns of a list, in list order (one append per kept campaign). */
  function KeptCampaigns(campaigns: seq<Campaign>, cart: seq<CartLine>): seq<Campaign>
  {
    if campaigns == [] then []
    else
      var last := campaigns[|campaigns| - 1];
      KeptCampaigns(campaigns[..|campaigns| - 1], cart) + (if Kept(last, cart) then [last] else [])
  }

  /** `sub` is `s` with some elements removed and the rest left in order. */
  predicate SubsequenceOf<T(==)>(sub: seq<T>, s: seq<T>)
    decreases |s|
  {
    if s == [] then sub == []
    else
      || (sub != [] && sub[|sub| - 1] == s[|s| - 1] && SubsequenceOf(sub[..|sub| - 1], s[..|s| - 1]))
      || SubsequenceOf(sub, s[..|s| - 1])
  }

  /** The kept campaigns are an in-order sub-list of the input, unchanged. */
  lemma {:induction false} KeptCampaignsSubsequence(campaigns: seq<Campaign>, cart: seq<CartLine>)
    ensures SubsequenceOf(KeptCampaigns(campaigns, cart), campaigns)
  {
    if campaigns != [] {
      var init := campaigns[..|campaigns| - 1];
      KeptCampaignsSubsequence(init, cart);
      var k := KeptCampaigns(campaigns, cart);
      if Kept(campaigns[|campaigns| - 1], cart) {
        assert k[..|k| - 1] == KeptCampaigns(init, cart);
        assert k[|k| - 1] == campaigns[|campaigns| - 1];
      } else {
        assert k == KeptCampaigns(init, cart);
      }
    }
  }

  /** A campaign is in the result exactly when it is in the input and kept. */
  lemma {:induction false} KeptCampaignsMembers(campaigns: seq<Campaign>, cart: seq<CartLine>)
    ensures forall c :: c in KeptCampaigns(campaigns, cart) <==> c in campaigns && Kept(c, cart)
  {
    if campaigns != [] {
      var init := campaigns[..|campaigns| - 1];
      KeptCampaignsMembers(init, cart);
      assert campaigns == init + [campaigns[|campaigns| - 1]];
    }
  }

  /** The eligibility filter: one pass over the campaigns, appending each kept one. */
  method AvailableCampaigns(campaigns: seq<Campaign>, cart: seq<CartLine>) returns (available: seq<Campaign>)
    ensures available == KeptCampaigns(campaigns, cart)
    ensures forall c :: c in available ==> c in campaigns && HasDiscount(c) && EligibleSpec(c, cart)
  {
    available := [];
    var i := 0;
    while i < |campaigns|
      invariant 0 <= i <= |campaigns|
      invariant available == KeptCampaigns(campaigns[..i], cart)
    {
      var c := campaigns[i];
      assert campaigns[..i + 1][..i] == campaigns[..i];
      if RuleHolds(c, cart) {
        if c.discountPercent.Some? {
          available := available + [c];
        } else if c.discountQuantity.Some? {
          available := available + [c];
        }
      }
      i := i + 1;
    }
    assert campaigns[..i] == campaigns;
    KeptCampaignsMembers(campaigns, cart);
    forall c | c in available
      ensures EligibleSpec(c, cart)
    {
      RuleHoldsIff(c, cart);
    }
  }

  // ---------------------------------------------------------------------
  // Discount calculator
  // ---------------------------------------------------------------------

  predicate SortedByPrice(lines: seq<CartLine>)
  {
    forall i, j :: 0 <= i < j < |lines| ==> lines[i].product.listPrice <= lines[j].product.listPrice
  }

  /** Inserts `l` before the first line that costs at least as much. */
  function InsertByPrice(l: CartLine, sorted: seq<CartLine>): (r: seq<CartLine>)
    ensures |r| == |sorted| + 1
    ensures multiset(r) == multiset(sorted) + multiset{l}
  {
    if sorted == [] || l.product.listPrice <= sorted[0].product.listPrice then [l] + sorted
    else
      assert sorted == [sorted[0]] + sorted[1..];
      [sorted[0]] + InsertByPrice(l, sorted[1..])
  }

  lemma {:induction false} InsertByPriceSorted(l: CartLine, sorted: seq<CartLine>)
    requires SortedByPrice(sorted)
    ensures SortedByPrice(InsertByPrice(l, sorted))
  {
    if sorted != [] && l.product.listPrice > sorted[0].product.listPrice {
      var rest := InsertByPrice(l, sorted[1..]);
      InsertByPriceSorted(l, sorted[1..]);
      forall x | x in rest ensures sorted[0].product.listPrice <= x.product.listPrice {
        assert x in multiset(rest);
        if x != l {
          var k :| 0 <= k < |sorted[1..]| && sorted[1..][k] == x;
          assert sorted[k + 1] == x;
        }
      }
      PrependSorted(sorted[0], rest);
    }
  }

  lemma PrependSorted(x: CartLine, rest: seq<CartLine>)
    requires SortedByPrice(rest)
    requires forall y :: y in rest ==> x.product.listPrice <= y.product.listPrice
    ensures SortedByPrice([x] + rest)
  {
    var r := [x] + rest;
    forall i, j | 0 <= i < j < |r| ensures r[i].product.listPrice <= r[j].product.listPrice {
      assert r[j] == rest[j - 1] && rest[j - 1] in rest;
      if i > 0 {
        assert r[i] == rest[i - 1];
      }
    }
  }

  /** A stable sort of the lines by ascending list price. */
  function SortByPrice(lines: seq<CartLine>): (r: seq<CartLine>)
    ensures |r| == |lines|
    ensures multiset(r) == multiset(lines)
    ensures SortedByPrice(r)
  {
    if lines == [] then []
    else
      assert lines == [lines[0]] + lines[1..];
      InsertByPriceSorted(lines[0], SortByPrice(lines[1..]));
      InsertByPrice(lines[0], SortByPrice(lines[1..]))
  }

  /** Rust's `i32 as usize` on a 64-bit target: a negative value wraps around. */
  function AsUsize(q: I32): nat
  {
    if q >= 0 then q as int else q as int + 0x1_0000_0000_0000_0000
  }

  /** The `k` cheapest lines: the lines sorted by price, truncated to `k`. */
  function TakeCheapest(lines: seq<CartLine>, k: nat): seq<CartLine>
  {
    var sorted := SortByPrice(lines);
    if k < |sorted| then sorted[..k] else sorted
  }

  /** The price a campaign would charge for a cart whose pre-discount total is `total`. */
  function DiscountedTotal(c: Campaign, cart: seq<CartLine>, total: real): real
  {
    if c.discountPercent.Some? then
      total - (total * c.discountPercent.value as real) / 100.0
    else if c.discountQuantity.Some? then
      total - SumPrices(TakeCheapest(ScopedLines(c, cart), AsUsize(c.discountQuantity.value)))
    else
      0.0
  }

  /**
   * Percent mode takes precedence: with `discount_percent = p` the price is
   * `total * (1 - p/100)` whatever the cart and the quantity field hold.
   * With neither mode set the price is 0.
   */
  lemma DiscountModes(c: Campaign, cart: seq<CartLine>, total: real)
    ensures c.discountPercent.Some? ==>
      forall cart', q ::
        DiscountedTotal(c.(discountQuantity := q), cart', total)
          == total * (1.0 - c.discountPercent.value as real / 100.0)
    ensures !HasDiscount(c) ==> DiscountedTotal(c, cart, total) == 0.0
  {
  }

  /**
   * `TakeCheapest(lines, k)` removes exactly the `min(k, n)` cheapest of the
   * `n` lines: the taken lines are drawn from `lines`, there are `min(k, n)`
   * of them, and none costs more than a line left behind.
   */
  lemma TakeCheapestAreCheapest(lines: seq<CartLine>, k: nat)
    ensures var taken := TakeCheapest(lines, k);
      && multiset(taken) <= multiset(lines)
      && |taken| == (if k < |lines| then k else |lines|)
      && forall x, y :: x in taken && y in multiset(lines) - multiset(taken) ==>
           x.product.listPrice <= y.product.listPrice
  {
    var sorted := SortByPrice(lines);
    var m := if k < |sorted| then k else |sorted|;
    var taken := sorted[..m];
    var rest := sorted[m..];
    assert TakeCheapest(lines, k) == taken;
    assert sorted == taken + rest;
    assert multiset(lines) == multiset(taken) + multiset(rest);
    assert multiset(lines) - multiset(taken) == multiset(rest);
    forall x: CartLine, y: CartLine | x in taken && y in multiset(rest)
      ensures x.product.listPrice <= y.product.listPrice
    {
      SortedSplit(sorted, m, x, y);
    }
  }

  lemma SortedSplit(sorted: seq<CartLine>, m: nat, x: CartLine, y: CartLine)
    requires SortedByPrice(sorted) && m <= |sorted|
    requires x in sorted[..m] && y in sorted[m..]
    ensures x.product.listPrice <= y.product.listPrice
  {
    var i :| 0 <= i < m && sorted[..m][i] == x;
    var j :| 0 <= j < |sorted| - m && sorted[m..][j] == y;
    assert sorted[i] == x && sorted[m + j] == y;
  }

  lemma {:induction false} SumInsert(l: CartLine, sorted: seq<CartLine>)
    ensures SumPrices(InsertByPrice(l, sorted)) == l.product.listPrice + SumPrices(sorted)
  {
    if sorted != [] && l.product.listPrice > sorted[0].product.listPrice {
      SumInsert(l, sorted[1..]);
    }
  }

  lemma {:induction false} SumSort(lines: seq<CartLine>)
    ensures SumPrices(SortByPrice(lines)) == SumPrices(lines)
  {
    if lines != [] {
      SumSort(lines[1..]);
      SumInsert(lines[0], SortByPrice(lines[1..]));
    }
  }

  lemma NonNegativeSubmultiset(a: seq<CartLine>, b: seq<CartLine>)
    requires multiset(a) <= multiset(b) && NonNegativePrices(b)
    ensures NonNegativePrices(a)
  {
    forall i | 0 <= i < |a| ensures a[i].product.listPrice >= 0.0 {
      assert a[i] in multiset(b);
    }
  }

  /**
   * With non-negative prices, the taken lines cost between nothing and all
   * the lines; when at least one line is taken they cost at least the
   * cheapest line.
   */
  lemma TakeCheapestSumBounds(lines: seq<CartLine>, k: nat)
    requires NonNegativePrices(lines)
    ensures 0.0 <= SumPrices(TakeCheapest(lines, k)) <= SumPrices(lines)
    ensures lines != [] && k > 0 ==>
      exists l :: l in lines && SumPrices(TakeCheapest(lines, k)) >= l.product.listPrice
        && forall l' :: l' in lines ==> l.product.listPrice <= l'.product.listPrice
  {
    var sorted := SortByPrice(lines);
    var m := if k < |sorted| then k else |sorted|;
    TakeCheapestIsPrefix(lines, k);
    NonNegativeSubmultiset(sorted, lines);
    SumSort(lines);
    PrefixSumBounds(sorted, m);
    if lines != [] && k > 0 {
      CheapestIsFirst(lines);
    }
  }

  lemma TakeCheapestIsPrefix(lines: seq<CartLine>, k: nat)
    ensures var sorted := SortByPrice(lines);
      TakeCheapest(lines, k) == sorted[..if k < |sorted| then k else |sorted|]
  {
  }

  lemma CheapestIsFirst(lines: seq<CartLine>)
    requires lines != []
    ensures SortByPrice(lines)[0] in lines
    ensures forall l' :: l' in lines ==> SortByPrice(lines)[0].product.listPrice <= l'.product.listPrice
  {
    var sorted := SortByPrice(lines);
    assert sorted[0] in multiset(lines);
    forall l' | l' in lines ensures sorted[0].product.listPrice <= l'.product.listPrice {
      assert l' in multiset(sorted);
    }
  }

  lemma {:induction false} PrefixSumBounds(s: seq<CartLine>, m: nat)
    requires m <= |s| && NonNegativePrices(s)
    ensures 0.0 <= SumPrices(s[..m]) <= SumPrices(s)
    ensures m > 0 ==> SumPrices(s[..m]) >= s[0].product.listPrice
  {
    assert s == s[..m] + s[m..];
    SumAppend(s[..m], s[m..]);
    SumNonNegative(s[..m]);
    SumNonNegative(s[m..]);
    if m > 0 {
      assert s[..m][1..] == s[1..m];
      SumNonNegative(s[1..m]);
    }
  }

  /**
   * In quantity mode with non-negative prices, the price lies between the
   * total minus every line in scope and the total; when `discount_quantity`
   * is non-zero and a line is in scope it is at most the total minus the
   * cheapest line in scope.
   */
  lemma QuantityModeBounds(c: Campaign, cart: seq<CartLine>, total: real)
    requires c.discountPercent.None? && c.discountQuantity.Some?
    requires NonNegativePrices(cart)
    ensures total - SumPrices(ScopedLines(c, cart)) <= DiscountedTotal(c, cart, total) <= total
    ensures ScopedLines(c, cart) != [] && c.discountQuantity.value != 0 ==>
      exists l :: l in ScopedLines(c, cart) && DiscountedTotal(c, cart, total) <= total - l.product.listPrice
        && forall l' :: l' in ScopedLines(c, cart) ==> l.product.listPrice <= l'.product.listPrice
  {
    var scoped := ScopedLines(c, cart);
    NonNegativeSubmultiset(scoped, cart);
    TakeCheapestSumBounds(scoped, AsUsize(c.discountQuantity.value));
  }
}

/**
 * Placing an order: the stock decrement, the cart, the pre-discount total
 * with its shipping charge, one discounted price per available campaign,
 * the choice of the cheapest one and the rows written for the new order.
 */
module Orders {
  import opened Wrappers
  import opened Models
  import opened Functions

  const ShippingCost: real := 35.0
  const FreeShippingThreshold: real := 150.0

  // ---------------------------------------------------------------------
  // Pricing
  // ---------------------------------------------------------------------

  /** Sum of the cart's list prices, plus shipping when that sum is below the threshold. */
  function PreDiscountTotal(cart: seq<CartLine>): real
  {
    var sum := SumPrices(cart);
    if sum < FreeShippingThreshold then sum + ShippingCost else sum
  }

  /** Shipping is charged exactly when the lines cost less than 150.0. */
  lemma ShippingRule(cart: seq<CartLine>)
    ensures PreDiscountTotal(cart) == SumPrices(cart) + 35.0 <==> SumPrices(cart) < 150.0
    ensures PreDiscountTotal(cart) == SumPrices(cart) <==> SumPrices(cart) >= 150.0
  {
  }

  /** Rust's `f64::round`: the nearest integer, halves rounded away from zero. */
  function RoundHalfAwayFromZero(x: real): (n: int)
    ensures x - 0.5 <= n as real <= x + 0.5
    ensures n as real == x + 0.5 ==> x >= 0.0
    ensures n as real == x - 0.5 ==> x <= 0.0
  {
    if x >= 0.0 then (x + 0.5).Floor else -((-x + 0.5).Floor)
  }

  /** `(x * 1000.0).round() / 1000.0`: `x` rounded to three decimals. */
  function Round3(x: real): (r: real)
    ensures x - 0.0005 <= r <= x + 0.0005
  {
    RoundHalfAwayFromZero(x * 1000.0) as real / 1000.0
  }

  /** A half at the fourth decimal goes up for positive prices; below it, down. */
  lemma RoundingExamples()
    ensures Round3(100.0005) == 100.001
    ensures Round3(99.9994) == 99.999
  {
    assert RoundHalfAwayFromZero(100000.5) == 100001;
    assert RoundHalfAwayFromZero(99999.4) == 99999;
  }

  /** One candidate price, tagged with the campaign that produced it. */
  datatype DiscountedPrice = DiscountedPrice(campaignId: Option<int>, discountedPrice: real)

  /** The candidate prices of the available campaigns, in their order. */
  function PriceEntries(available: seq<Campaign>, cart: seq<CartLine>, total: real): seq<DiscountedPrice>
  {
    seq(|available|, i requires 0 <= i < |available| =>
      DiscountedPrice(Some(available[i].id), DiscountedTotal(available[i], cart, total)))
  }

  /** Computes one discounted price per available campaign, in order. */
  method DiscountedPrices(available: seq<Campaign>, cart: seq<CartLine>, total: real)
    returns (entries: seq<DiscountedPrice>)
    ensures |entries| == |available|
    ensures forall i :: 0 <= i < |available| ==>
      entries[i].campaignId == Some(available[i].id)
      && entries[i].discountedPrice == DiscountedTotal(available[i], cart, total)
    ensures entries == PriceEntries(available, cart, total)
  {
    entries := [];
    var i := 0;
    while i < |available|
      invariant 0 <= i <= |available|
      invariant |entries| == i
      invariant forall j :: 0 <= j < i ==>
        entries[j] == DiscountedPrice(Some(available[j].id), DiscountedTotal(available[j], cart, total))
    {
      var campaign := available[i];
      var price := DiscountedTotal(campaign, cart, total);
      entries := entries + [DiscountedPrice(Some(campaign.id), price)];
      i := i + 1;
    }
  }

  /** `min_by` over the prices: the index of the first entry with the least price. */
  function MinByPrice(entries: seq<DiscountedPrice>): (i: nat)
    requires |entries| > 0
    ensures i < |entries|
    ensures forall j :: 0 <= j < |entries| ==> entries[i].discountedPrice <= entries[j].discountedPrice
    ensures forall j :: 0 <= j < i ==> entries[j].discountedPrice > entries[i].discountedPrice
  {
    if |entries| == 1 then 0
    else
      var m := MinByPrice(entries[..|entries| - 1]);
      if entries[m].discountedPrice > entries[|entries| - 1].discountedPrice then |entries| - 1 else m
  }

  /** The price charged and the campaign recorded on the order. */
  datatype Selection = Selection(price: real, campaignId: Option<int>)

  /**
   * The cheapest candidate, the earliest one on a tie; with no candidate,
   * the pre-discount total and no campaign.
   */
  function SelectBest(entries: seq<DiscountedPrice>, total: real): (s: Selection)
    ensures entries == [] ==> s == Selection(total, None)
    ensures entries != [] ==>
      exists i :: 0 <= i < |entries|
        && s == Selection(entries[i].discountedPrice, entries[i].campaignId)
        && forall j :: 0 <= j < i ==> entries[j].discountedPrice > s.price
    ensures forall j :: 0 <= j < |entries| ==> s.price <= entries[j].discountedPrice
  {
    if entries == [] then Selection(total, None)
    else
      var i := MinByPrice(entries);
      Selection(entries[i].discountedPrice, entries[i].campaignId)
  }

  /**
   * A chosen campaign is one of the available ones, it carries a discount
   * mode (so the 0.0 of the calculator's last branch never competes) and the
   * price charged is what that campaign computes.
   */
  lemma ChosenCampaignIsAvailable(campaigns: seq<Campaign>, cart: seq<CartLine>, total: real)
    ensures var available := KeptCampaigns(campaigns, cart);
      var s := SelectBest(PriceEntries(available, cart, total), total);
      s.campaignId.Some? ==>
        exists c :: c in campaigns && c.id == s.campaignId.value && HasDiscount(c)
          && EligibleSpec(c, cart) && s.price == DiscountedTotal(c, cart, total)
  {
    var available := KeptCampaigns(campaigns, cart);
    var entries := PriceEntries(available, cart, total);
    var s := SelectBest(entries, total);
    if s.campaignId.Some? {
      var i :| 0 <= i < |entries| && s == Selection(entries[i].discountedPrice, entries[i].campaignId);
      var c := available[i];
      KeptCampaignsMembers(campaigns, cart);
      assert c in available;
      RuleHoldsIff(c, cart);
    }
  }

  /**
   * The price charged never exceeds the pre-discount total when list prices
   * are non-negative and no available campaign has a negative percentage.
   */
  lemma SelectionNeverExceedsTotal(campaigns: seq<Campaign>, cart: seq<CartLine>)
    requires NonNegativePrices(cart)
    requires forall c :: c in campaigns && c.discountPercent.Some? ==> c.discountPercent.value >= 0
    ensures var total := PreDiscountTotal(cart);
      SelectBest(PriceEntries(KeptCampaigns(campaigns, cart), cart, total), total).price <= total
  {
    var total := PreDiscountTotal(cart);
    var available := KeptCampaigns(campaigns, cart);
    var entries := PriceEntries(available, cart, total);
    SumNonNegative(cart);
    assert total >= 0.0;
    KeptCampaignsMembers(campaigns, cart);
    if entries != [] {
      var c := available[0];
      assert c in available;
      DiscountBelowTotal(c, cart, total);
      assert entries[0].discountedPrice <= total;
    }
  }

  /**
   * Without the sign assumption the bound fails: a kept campaign with a
   * `discount_percent` of -10 charges 220.00 for a 200.00 cart.
   */
  lemma NegativePercentOvercharges()
    ensures var cart := [CartLine(Product(1, "Book", 7, "Author", 200.0, 5), "Books")];
      var campaign := Campaign(1, "Surcharge", None, Some(1), None, Some(-10), None, None);
      var total := PreDiscountTotal(cart);
      && total == 200.0
      && KeptCampaigns([campaign], cart) == [campaign]
      && SelectBest(PriceEntries([campaign], cart, total), total) == Selection(220.0, Some(1))
      && SelectBest(PriceEntries([campaign], cart, total), total).price > total
  {
    var cart := [CartLine(Product(1, "Book", 7, "Author", 200.0, 5), "Books")];
    var campaign := Campaign(1, "Surcharge", None, Some(1), None, Some(-10), None, None);
    assert SumPrices(cart) == 200.0;
    assert RuleHolds(campaign, cart);
  }

  lemma DiscountBelowTotal(c: Campaign, cart: seq<CartLine>, total: real)
    requires NonNegativePrices(cart) && total >= 0.0
    requires c.discountPercent.Some? ==> c.discountPercent.value >= 0
    ensures DiscountedTotal(c, cart, total) <= total
  {
    if c.discountPercent.Some? {
      var p := c.discountPercent.value as real;
      assert total * p >= 0.0;
    } else if c.discountQuantity.Some? {
      QuantityModeBounds(c, cart, total);
    }
  }

  /**
   * The pricing steps of the workflow: the pre-discount total, the
   * available campaigns, their prices and the cheapest one.
   */
  method PriceCart(campaigns: seq<Campaign>, cart: seq<CartLine>) returns (total: real, best: Selection)
    ensures total == PreDiscountTotal(cart)
    ensures best == SelectBest(PriceEntries(KeptCampaigns(campaigns, cart), cart, total), total)
  {
    total := SumPrices(cart);
    if total < FreeShippingThreshold {
      total := total + ShippingCost;
    }
    var available := AvailableCampaigns(campaigns, cart);
    var entries := DiscountedPrices(available, cart, total);
    best := SelectBest(entries, total);
  }

  // ---------------------------------------------------------------------
  // Stock and cart
  // ---------------------------------------------------------------------

  predicate UniqueIds(rows: seq<Product>)
  {
    forall i, j :: 0 <= i < j < |rows| ==> rows[i].id != rows[j].id
  }

  /** The bulk update: every row whose id is requested loses one unit of stock. */
  function Decremented(rows: seq<Product>, ids: seq<int>): (r: seq<Product>)
    ensures |r| == |rows|
    ensures forall i :: 0 <= i < |rows| ==> r[i].(stockQuantity := 0) == rows[i].(stockQuantity := 0)
  {
    seq(|rows|, i requires 0 <= i < |rows| =>
      if rows[i].id in ids then rows[i].(stockQuantity := rows[i].stockQuantity - 1) else rows[i])
  }

  /** The stock of the first row with the given id. */
  function StockOf(rows: seq<Product>, id: int): Option<int>
  {
    if rows == [] then None
    else if rows[0].id == id then Some(rows[0].stockQuantity)
    else StockOf(rows[1..], id)
  }

  /**
   * A requested product loses exactly one unit however often its id is
   * repeated, with no lower bound; every other product keeps its stock.
   */
  lemma {:induction false} DecrementedStock(rows: seq<Product>, ids: seq<int>, id: int)
    ensures StockOf(Decremented(rows, ids), id) ==
      match StockOf(rows, id)
      case None => None
      case Some(s) => Some(if id in ids then s - 1 else s)
  {
    if rows != [] {
      assert Decremented(rows, ids)[1..] == Decremented(rows[1..], ids);
      DecrementedStock(rows[1..], ids, id);
    }
  }

  /** The update depends on the set of requested ids only. */
  lemma DecrementedBySet(rows: seq<Product>, ids: seq<int>, ids': seq<int>)
    requires forall x :: x in ids <==> x in ids'
    ensures Decremented(rows, ids) == Decremented(rows, ids')
  {
  }

  /** The requested products that have a category, each joined with its category title. */
  function ResolveCart(rows: seq<Product>, categories: map<int, string>, ids: seq<int>): (cart: seq<CartLine>)
    ensures |cart| <= |rows|
    ensures forall l :: l in cart <==>
      l.product in rows && l.product.id in ids && l.product.categoryId in categories
      && l.categoryTitle == categories[l.product.categoryId]
  {
    if rows == [] then []
    else
      var p := rows[0];
      assert rows == [p] + rows[1..];
      (if p.id in ids && p.categoryId in categories then [CartLine(p, categories[p.categoryId])] else [])
        + ResolveCart(rows[1..], categories, ids)
  }

  /** The cart depends on the set of requested ids only. */
  lemma {:induction false} ResolveCartBySet(rows: seq<Product>, categories: map<int, string>, ids: seq<int>, ids': seq<int>)
    requires forall x :: x in ids <==> x in ids'
    ensures ResolveCart(rows, categories, ids) == ResolveCart(rows, categories, ids')
  {
    if rows != [] {
      ResolveCartBySet(rows[1..], categories, ids, ids');
    }
  }

  predicate DistinctProducts(cart: seq<CartLine>)
  {
    forall i, j :: 0 <= i < j < |cart| ==> cart[i].product.id != cart[j].product.id
  }

  /** Each product occurs once in the cart, however often its id was requested. */
  lemma {:induction false} CartLinesDistinct(rows: seq<Product>, categories: map<int, string>, ids: seq<int>)
    requires UniqueIds(rows)
    ensures DistinctProducts(ResolveCart(rows, categories, ids))
  {
    if rows != [] {
      var p := rows[0];
      var tail := ResolveCart(rows[1..], categories, ids);
      CartLinesDistinct(rows[1..], categories, ids);
      if p.id in ids && p.categoryId in categories {
        TailIdsDiffer(rows, categories, ids);
        PrependDistinct(CartLine(p, categories[p.categoryId]), tail);
      } else {
        assert ResolveCart(rows, categories, ids) == tail;
      }
    }
  }

  lemma PrependDistinct(l: CartLine, tail: seq<CartLine>)
    requires DistinctProducts(tail)
    requires forall t :: t in tail ==> t.product.id != l.product.id
    ensures DistinctProducts([l] + tail)
  {
    var cart := [l] + tail;
    forall i, j | 0 <= i < j < |cart| ensures cart[i].product.id != cart[j].product.id {
      assert cart[j] == tail[j - 1] && tail[j - 1] in tail;
      if i > 0 {
        assert cart[i] == tail[i - 1];
      }
    }
  }

  lemma TailIdsDiffer(rows: seq<Product>, categories: map<int, string>, ids: seq<int>)
    requires UniqueIds(rows) && rows != []
    ensures forall l :: l in ResolveCart(rows[1..], categories, ids) ==> l.product.id != rows[0].id
  {
    forall l | l in ResolveCart(rows[1..], categories, ids) ensures l.product.id != rows[0].id {
      var k :| 0 <= k < |rows[1..]| && rows[1..][k] == l.product;
      assert rows[k + 1] == l.product;
    }
  }

  // ---------------------------------------------------------------------
  // The store and the order workflow
  // ---------------------------------------------------------------------

  datatype Order = Order(
    id: int,
    priceWithoutDiscount: real,
    discountedPrice: real,
    campaignId: Option<int>,
    userId: int)

  /** A row of the order-to-product association table. */
  datatype OrderLine = OrderLine(orderId: int, productId: int)

  /** What the workflow returns: the order, its user, its campaign and its products. */
  datatype OrderView = OrderView(
    order: Order,
    username: string,
    campaignDescription: Option<string>,
    products: seq<CartLine>)

  /**
   * Why placing an order failed: the user does not exist, or the database
   * rejected the association row for the given product id.
   */
  datatype OrderError = UserNotFound | OrderLineRejected(productId: int)

  /** One association row per id, in request order. */
  function LinesFor(orderId: int, ids: seq<int>): (r: seq<OrderLine>)
    ensures |r| == |ids|
    ensures forall k :: 0 <= k < |ids| ==> r[k].orderId == orderId && r[k].productId == ids[k]
  {
    seq(|ids|, k requires 0 <= k < |ids| => OrderLine(orderId, ids[k]))
  }

  /** The ids the association table's product foreign key accepts. */
  function ProductIds(rows: seq<Product>): set<int>
  {
    set p | p in rows :: p.id
  }

  /**
   * Whether the database rejects the row for `ids[k]` of a fresh order once
   * the rows for `ids[..k]` are written: the key `(order_id, product_id)`
   * repeats an earlier row, or the product id names no product.
   */
  predicate Rejected(ids: seq<int>, known: set<int>, k: int)
    requires 0 <= k < |ids|
  {
    ids[k] !in known || ids[k] in ids[..k]
  }

  /** The index of the first rejected row at or after `from`, or `|ids|` when none is. */
  function FirstRejected(ids: seq<int>, known: set<int>, from: nat): (n: nat)
    requires from <= |ids|
    ensures from <= n <= |ids|
    ensures forall k :: from <= k < n ==> !Rejected(ids, known, k)
    ensures n < |ids| ==> Rejected(ids, known, n)
    decreases |ids| - from
  {
    if from == |ids| || Rejected(ids, known, from) then from
    else FirstRejected(ids, known, from + 1)
  }

  /** A row that is rejected after only accepted rows is the first rejected one. */
  lemma FirstRejectedAt(ids: seq<int>, known: set<int>, i: nat)
    requires i <= |ids|
    requires forall k :: 0 <= k < i ==> !Rejected(ids, known, k)
    requires i < |ids| ==> Rejected(ids, known, i)
    ensures FirstRejected(ids, known, 0) == i
  {
  }

  /** Every row is written iff every id names a product and no id repeats. */
  lemma AllLinesAccepted(ids: seq<int>, known: set<int>)
    ensures FirstRejected(ids, known, 0) == |ids| <==>
      (forall k :: 0 <= k < |ids| ==> ids[k] in known)
      && (forall j, k :: 0 <= j < k < |ids| ==> ids[j] != ids[k])
  {
    var n := FirstRejected(ids, known, 0);
    if n == |ids| {
      forall k | 0 <= k < |ids| ensures ids[k] in known {
        assert !Rejected(ids, known, k);
      }
      forall j, k | 0 <= j < k < |ids| ensures ids[j] != ids[k] {
        assert !Rejected(ids, known, k);
        assert ids[j] == ids[..k][j];
      }
    } else {
      assert Rejected(ids, known, n);
      if ids[n] in known {
        var j :| 0 <= j < n && ids[..n][j] == ids[n];
        assert ids[j] == ids[n];
      }
    }
  }

  /** The description of the campaign with the given id, as the outer join finds it. */
  function CampaignDescription(campaigns: seq<Campaign>, id: Option<int>): Option<string>
  {
    if id.None? || campaigns == [] then None
    else if campaigns[0].id == id.value then Some(campaigns[0].description)
    else CampaignDescription(campaigns[1..], id)
  }

  /** The tables the workflow reads and writes. */
  class Store {
    var users: map<int, string>
    var products: seq<Product>
    var categories: map<int, string>
    var campaigns: seq<Campaign>
    var orders: seq<Order>
    var orderLines: seq<OrderLine>
    var nextOrderId: int

    ghost predicate Valid()
      reads this
    {
      && UniqueIds(products)
      && (forall o :: o in orders ==> o.id < nextOrderId)
      && (forall l :: l in orderLines ==> l.orderId < nextOrderId)
    }

    constructor (users: map<int, string>, products: seq<Product>, categories: map<int, string>,
                 campaigns: seq<Campaign>)
      requires UniqueIds(products)
      ensures Valid()
      ensures this.users == users && this.products == products && this.categories == categories
      ensures this.campaigns == campaigns && orders == [] && orderLines == []
    {
      this.users := users;
      this.products := products;
      this.categories := categories;
      this.campaigns := campaigns;
      orders := [];
      orderLines := [];
      nextOrderId := 1;
    }

    /**
     * Places an order for `userId`: decrements the stock of the requested
     * products, prices the cart, records the order with the cheapest
     * campaign and writes one association row per requested id. A row the
     * database rejects ends the workflow with an error; nothing written
     * before it is undone.
     */
    method InsertNewOrder(userId: int, productIds: seq<int>) returns (r: Result<OrderView, OrderError>)
      requires Valid()
      modifies this
      ensures Valid()
      ensures users == old(users) && categories == old(categories) && campaigns == old(campaigns)
      ensures userId !in users ==>
        && r == Err(UserNotFound)
        && products == old(products) && orders == old(orders)
        && orderLines == old(orderLines) && nextOrderId == old(nextOrderId)
      ensures userId in users ==>
        && products == Decremented(old(products), productIds)
        && nextOrderId > old(nextOrderId)
        && var cart := ResolveCart(products, categories, productIds);
           var total := PreDiscountTotal(cart);
           var best := SelectBest(PriceEntries(KeptCampaigns(campaigns, cart), cart, total), total);
           var order := Order(old(nextOrderId), Round3(total), Round3(best.price), best.campaignId, userId);
           var written := FirstRejected(productIds, ProductIds(products), 0);
           && orders == old(orders) + [order]
           && orderLines == old(orderLines) + LinesFor(order.id, productIds[..written])
           && (if written == |productIds|
               then r == Ok(OrderView(order, users[userId], CampaignDescription(campaigns, best.campaignId), cart))
               else r == Err(OrderLineRejected(productIds[written])))
    {
      if userId !in users {
        return Err(UserNotFound);
      }
      products := Decremented(products, productIds);
      var cart := ResolveCart(products, categories, productIds);
      var total, best := PriceCart(campaigns, cart);

      var order := Order(nextOrderId, Round3(total), Round3(best.price), best.campaignId, userId);
      orders := orders + [order];
      nextOrderId := nextOrderId + 1;
      var view := OrderView(order, users[userId], CampaignDescription(campaigns, best.campaignId), cart);

      assert forall l :: l in orderLines ==> l.orderId < order.id;
      var written := InsertOrderLines(order.id, productIds);
      assert forall l :: l in LinesFor(order.id, productIds[..written]) ==> l.orderId == order.id;
      if written < |productIds| {
        return Err(OrderLineRejected(productIds[written]));
      }
      r := Ok(view);
    }

    /**
     * Inserts one association row per requested id, one at a time, for an
     * order that has no rows yet. It stops at the first row the database
     * rejects and returns how many rows were written.
     */
    method InsertOrderLines(orderId: int, productIds: seq<int>) returns (written: nat)
      requires forall l :: l in orderLines ==> l.orderId != orderId
      modifies this`orderLines
      ensures written == FirstRejected(productIds, ProductIds(products), 0)
      ensures orderLines == old(orderLines) + LinesFor(orderId, productIds[..written])
    {
      var known := ProductIds(products);
      var i := 0;
      while i < |productIds|
        invariant 0 <= i <= |productIds|
        invariant orderLines == old(orderLines) + LinesFor(orderId, productIds[..i])
        invariant forall k :: 0 <= k < i ==> !Rejected(productIds, known, k)
      {
        var row := OrderLine(orderId, productIds[i]);
        if row in orderLines || productIds[i] !in known {
          LineConflict(old(orderLines), orderId, productIds, i);
          FirstRejectedAt(productIds, known, i);
          return i;
        }
        LineConflict(old(orderLines), orderId, productIds, i);
        assert LinesFor(orderId, productIds[..i + 1]) == LinesFor(orderId, productIds[..i]) + [row];
        orderLines := orderLines + [row];
        i := i + 1;
      }
      assert productIds[..i] == productIds;
      FirstRejectedAt(productIds, known, i);
      return i;
    }
  }

  /** For an order with no earlier rows, a row's key repeats iff its id was requested earlier. */
  lemma LineConflict(existing: seq<OrderLine>, orderId: int, ids: seq<int>, i: nat)
    requires forall l :: l in existing ==> l.orderId != orderId
    requires i < |ids|
    ensures OrderLine(orderId, ids[i]) in existing + LinesFor(orderId, ids[..i]) <==> ids[i] in ids[..i]
  {
    var lines := LinesFor(orderId, ids[..i]);
    if ids[i] in ids[..i] {
      var k :| 0 <= k < i && ids[..i][k] == ids[i];
      assert lines[k] == OrderLine(orderId, ids[i]);
    }
    if OrderLine(orderId, ids[i]) in existing + lines {
      var k :| 0 <= k < |lines| && lines[k] == OrderLine(orderId, ids[i]);
      assert ids[..i][k] == ids[i];
    }
  }

  /**
   * The worked example of the pricing rules: a 10% campaign on the "Books"
   * category with a minimum of two lines, and three books at 10.00. The
   * lines cost 30.00, so 35.00 shipping is added (65.00), and the campaign
   * brings the price to 58.50.
   */
  lemma BooksScenario()
    ensures var book := Product(1, "Book", 7, "Author", 10.0, 5);
      var cart := [CartLine(book, "Books"), CartLine(book.(id := 2), "Books"), CartLine(book.(id := 3), "Books")];
      var campaign := Campaign(9, "Books 10%", None, Some(2), None, Some(10), None, Some("Books"));
      var total := PreDiscountTotal(cart);
      && total == 65.0
      && KeptCampaigns([campaign], cart) == [campaign]
      && SelectBest(PriceEntries([campaign], cart, total), total) == Selection(58.5, Some(9))
  {
    var book := Product(1, "Book", 7, "Author", 10.0, 5);
    var cart := [CartLine(book, "Books"), CartLine(book.(id := 2), "Books"), CartLine(book.(id := 3), "Books")];
    var campaign := Campaign(9, "Books 10%", None, Some(2), None, Some(10), None, Some("Books"));
    assert SumPrices(cart[2..]) == 10.0;
    assert SumPrices(cart[1..]) == 20.0 by { assert cart[1..][1..] == cart[2..]; }
    assert SumPrices(cart) == 30.0;
    FilterAll(cart, (l: CartLine) => l.categoryTitle == "Books");
    assert CountCategory(cart, "Books") == 3;
    assert RuleHolds(campaign, cart);
  }
}

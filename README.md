# Order pricing engine of rust-order-api, modelled in Dafny

This project models how the order API prices an order and commits it.
When a user places an order for a list of product ids, the service does four things:

1. It decrements the stock of every requested product.
2. It resolves the cart: the requested products, each joined with its category title.
3. It computes the pre-discount total, adding a flat 35.0 shipping charge below 150.0.
4. It keeps the campaigns whose rules the cart satisfies, computes each one's discounted price and charges the cheapest.

The order row is then written, followed by one order-to-product row per requested id. The rows are written one at a time, and the first row the database rejects ends the request with an error. Nothing written before it is undone.

Files:

- `wrappers.dfy`: `Option` and `Result`.
- `models.dfy` (module `Models`): the product, cart-line and campaign rows. Every campaign rule field is optional, as in `src/schema.rs`. The module also holds sums and filters over cart lines.
- `functions.dfy` (module `Functions`): the eligibility filter and the discount calculator of `src/controllers/functions.rs`.
- `orders.dfy` (module `Orders`): the pricing, the selection and the `Store` class, whose `InsertNewOrder` models `insert_new_order` of `src/controllers/orders.rs`.

Modelling choices:

- Prices are exact `real`s. The integer rule fields are a 32-bit `I32` newtype.
- `RuleHolds` writes the eligibility condition as the source does: nine clauses.
- `EligibleSpec` states the same rule once, using the scope test that the discount calculator uses: a line is in scope when it matches every scope field that is set. `RuleHoldsIff` proves the two agree.
- The quantity mode sorts the lines in scope by price with a stable insertion sort. It then keeps the first `k` lines.
- `k` is `discount_quantity as usize`. A negative `discount_quantity` therefore wraps around to a huge `k` (see `AsUsize`), and every line in scope is subtracted.
- A missing user makes the source panic before anything is written. The model returns `Err(UserNotFound)` and leaves the store unchanged.
- The cart is passed by value. Neither function can therefore change the cart lines, which the source borrows mutably but does not modify.

In four places the code does less than an order service usually promises, and the model follows the code:

- The code decrements stock without a lower bound (`DecrementedStock`) and has no `InsufficientStock` error.
- The code issues one order-to-product insert per requested id, duplicates included. It does not write one row per cart line. A repeated id breaks the table's key, so its insert fails (`Rejected`).
- The code has no campaign cache and sends no order-created notification.
- The code can charge more than the pre-discount total. This happens when an available campaign has a negative `discount_percent`, because the total itself is not one of the candidates. `NegativePercentOvercharges` shows such a case, and `SelectionNeverExceedsTotal` therefore assumes non-negative percentages and prices.

## Model

| member | source | states |
|---|---|---|
| Functions.RuleHoldsIff | src/controllers/functions.rs:10-93 | The nine-clause rule holds iff one of two things is true. Either `min_purchase_quantity` and a discount mode are set and at least that many lines match every set scope field, where an absent scope matches all lines. Or `min_purchase_price` is set and the list prices sum to at least it, whatever the scope and quantity fields say. |
| Functions.KeptIff | src/controllers/functions.rs:95-119 | A campaign is kept iff it has `discount_percent` or `discount_quantity` and the structured rule holds. A campaign with neither discount field is dropped even when its rule matches. |
| Functions.AvailableCampaigns | src/controllers/functions.rs:4-122 | The loop's result is the in-order filter of the input by the keep rule. Every returned campaign is an input campaign that has a discount mode and satisfies the structured rule. |
| Functions.KeptCampaignsSubsequence | src/controllers/functions.rs:8-121 | The kept campaigns form an in-order sub-list of the input, each identical to its input row. |
| Functions.KeptCampaignsMembers | src/controllers/functions.rs:95-121 | A campaign is in the result iff it is in the input and the keep rule holds for it. |
| Functions.SortByPrice | src/controllers/functions.rs:143-148 | The sorted lines are a permutation of the input, in ascending list price. |
| Functions.TakeCheapestAreCheapest | src/controllers/functions.rs:143-149 | Truncating the sorted lines to `k` takes `min(k, n)` of the `n` lines. The taken lines are drawn from the input, and none costs more than a line left behind. |
| Functions.TakeCheapestSumBounds | src/controllers/functions.rs:149-155 | With non-negative prices, the taken lines cost between 0 and the sum of all the lines. When `k > 0` and there is a line, they cost at least the cheapest line. |
| Functions.DiscountModes | src/controllers/functions.rs:129-160 | With `discount_percent = p`, the price is `total * (1 - p/100)` for every cart and every `discount_quantity`. With neither discount field set, it is 0.0. |
| Functions.QuantityModeBounds | src/controllers/functions.rs:132-157 | In quantity mode with non-negative prices, the price lies between the total minus all the lines in scope and the total. When `discount_quantity` is non-zero and a line is in scope, the price is at most the total minus the cheapest line in scope. |
| Orders.ShippingRule | src/controllers/orders.rs:249-256 | The pre-discount total is the sum plus 35.0 exactly when the sum is below 150.0, and the bare sum otherwise. |
| Orders.RoundHalfAwayFromZero | src/controllers/orders.rs:287-288 | The result is within 0.5 of its argument, and a half is rounded away from zero. |
| Orders.Round3 | src/controllers/orders.rs:287-288 | The stored price is within 0.0005 of the computed price. |
| Orders.RoundingExamples | src/controllers/orders.rs:287-288 | 100.0005 is stored as 100.001, and 99.9994 as 99.999. |
| Orders.DiscountedPrices | src/controllers/orders.rs:266-275 | There is exactly one entry per available campaign, in the same order. Each entry is tagged `Some(campaign.id)` and holds that campaign's discounted price. |
| Orders.MinByPrice | src/controllers/orders.rs:277-279 | `min_by` picks an entry whose price is at most every entry's price. Every earlier entry is strictly dearer, so ties go to the first minimum. |
| Orders.SelectBest | src/controllers/orders.rs:277-284 | With no entries, the order gets the pre-discount total and no campaign. Otherwise it gets the price and id of one entry: the first whose price is at most every entry's price. |
| Orders.ChosenCampaignIsAvailable | src/controllers/orders.rs:258-284 | A chosen campaign id belongs to an input campaign with a discount mode whose rule holds, and the price charged is that campaign's discounted price. So the calculator's 0.0 branch never competes. |
| Orders.PriceCart | src/controllers/orders.rs:248-284 | The workflow's pricing steps yield the pre-discount total and the selection among the kept campaigns' prices. |
| Orders.NegativePercentOvercharges | src/controllers/orders.rs:277-284 | A kept campaign with a `discount_percent` of -10 on a 200.00 cart is selected at 220.00, above the pre-discount total. |
| Orders.SelectionNeverExceedsTotal | src/controllers/orders.rs:249-284 | With non-negative list prices and no negative percentage, the price charged is at most the pre-discount total. |
| Orders.DecrementedStock | src/controllers/orders.rs:231-235 | Every product whose id is requested loses exactly one unit, however often the id repeats and with no lower bound. Every other product keeps its stock. |
| Orders.DecrementedBySet | src/controllers/orders.rs:231-235 | The stock update depends only on the set of requested ids. |
| Orders.ResolveCart | src/controllers/orders.rs:237-242 | A line is in the cart iff its product is a stored product with a requested id and an existing category, joined with that category's title. |
| Orders.CartLinesDistinct | src/controllers/orders.rs:237-242 | No product occurs twice in the cart, even when its id is requested twice. |
| Orders.ResolveCartBySet | src/controllers/orders.rs:237-242 | The cart depends only on the set of requested ids. |
| Orders.FirstRejected | src/controllers/orders.rs:345-349 | The index of the first row the database rejects, or the number of ids when it rejects none. Every earlier row is accepted. A row is rejected when its id repeats an earlier id, which breaks the key `(order_id, product_id)`, or when no product has its id. |
| Orders.AllLinesAccepted | src/controllers/orders.rs:345-349 | Every row is written iff every requested id names a product and no id is requested twice. |
| Orders.Store.InsertOrderLines | src/controllers/orders.rs:345-349 | For an order with no rows yet, the rows are inserted in request order up to the first rejected one. The number written is the index `FirstRejected` gives, and exactly those rows are appended. Each row references the new order. |
| Orders.Store.InsertNewOrder | src/controllers/orders.rs:212-351 | For an unknown user, it returns an error and changes nothing. Otherwise: (1) stock is decremented for the requested ids. (2) The cart is resolved from the updated products. (3) One order is appended with a fresh id, the user id, the selected campaign id, and the rounded pre-discount total and selected price. (4) The order lines up to the first rejected one are appended. (5) If none is rejected, the returned view holds the order, the username, the campaign description and the cart. Otherwise the result is an error naming the rejected product id, and the stock, the order and the earlier rows stay written. Users, categories and campaigns are unchanged. |
| Orders.BooksScenario | src/controllers/orders.rs:249-284 | A 10% campaign on "Books" with a minimum of two lines is applied to three 10.00 books. The pre-discount total is 65.00 with shipping, the campaign is kept, and the order is charged 58.50 under that campaign. |

## Left out

- HTTP handlers, routing and JSON serialisation are left out. They are the `#[get]`/`#[post]`/`#[delete]` handlers and the `json!` building in `src/controllers/orders.rs`. The order view is returned as a value.
- The read-side queries `get_all_orders` and `get_order_by_id` are left out. So are `delete_order_by_id` and the CRUD controllers for campaigns, products and users. All of them are thin wrappers over Diesel queries.
- Server start-up, connection pools, the Redis pool and the job-queue worker in `src/main.rs` are left out. Nothing in the order code reads Redis or enqueues a job. The seed binary is left out because it only does file I/O.
- Floating point is not modelled. Prices are exact reals, so the order in which `f64` sums are added does not matter, and the `partial_cmp().unwrap()` panics on NaN cannot arise. `Round3` rounds the exact real. Both rounding examples give the same result in `f64` (100.0005 to 100.001, 99.9994 to 99.999). Other values may round differently, because the `f64` product by 1000 is not exact.
- The `count() as i32` casts in the eligibility rule are compared without 32-bit truncation. Counts reaching 2^31 are not modelled.
- `AsUsize` assumes a 64-bit `usize`.
- Database failures other than a rejected order-to-product row are not modelled. These are the `.expect` panics, connection errors and a failure of the order insert or the view query. The source runs no transaction, so such a failure leaves earlier writes in place.
- Concurrency between order placements is not modelled.
- Orders.Store.InsertOrderLines: the constraints on the order-to-product table are taken from `src/schema.rs`, which Diesel generates from the live database. The key `(order_id, product_id)` is at `src/schema.rs:34` and the product foreign key at `src/schema.rs:61`. The migrations are not part of this model. Any other constraint they declare is not modelled.
- Orders.Store.InsertNewOrder: `orders.campaign_id` is a non-nullable column (`src/schema.rs:28`) with a foreign key to the campaigns table (`src/schema.rs:58`). `NewOrder` holds it as `Option<i32>` (`src/insertables.rs:38`), and Diesel writes `DEFAULT` for `None`. An order with no campaign (`src/controllers/orders.rs:283`) is therefore stored only if the column has a usable default. The migrations are not part of this model, so the model stores such an order with no campaign.
- Orders.SelectBest, Orders.Store.InsertNewOrder: the campaigns query (`src/controllers/orders.rs:244-247`) has no `ORDER BY`, so the database chooses the order of the campaigns. That order decides which of several equally cheap campaigns `min_by` picks (`src/controllers/orders.rs:277-279`), and so the campaign id recorded on the order. The model uses the order of `Store.campaigns`.
- The database returns cart rows in an unspecified order. The model uses the order of the products table. The cart order sets the order of the products list in the returned view (`src/controllers/orders.rs:331`). It could also decide the quantity mode's tie-breaking between equally priced lines, but the sum does not depend on it.
- Orders.SelectionNeverExceedsTotal: this assumes non-negative list prices and percentages, because the code charges more than the pre-discount total when the only available campaign has a negative `discount_percent`.
- Orders.Round3: this bounds the rounding of the exact real. It does not model the `f64` representation of the product by 1000.

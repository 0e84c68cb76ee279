# WooCommerce Cross-Site Rewards — a Dafny model of the reward-issuance protocol

The plugin links two WooCommerce stores. A purchase on the Sender store earns a
single-use coupon on the Receiver store. This project models the plugin class
`WC_Cross_Site_Rewards` with its WordPress and WooCommerce surroundings replaced
by plain state:

- **Settings** (`Config`): the `mode`, `secret_key` and `remote_url` accessors and
  their defaults. The remote URL loses every trailing `/` and `\`, as
  `untrailingslashit` does.
- **Receiver** (`Receiver`): the `X-XSR-Secret` permission check and
  `api_generate_coupon`. Coupon generation validates `reward_product_id` with
  PHP's `intval` (only 0 is rejected). It fills in a blank coupon setter by setter
  and saves it to a coupon table, modelled as a sequence. It answers with the code
  and a claim URL. The random password is an input. The claim URL is an abstract
  "cart URL with these query arguments" value.
- **Sender** (`Store`, `Remote`, `Issuance`, `CatalogCache`, `Presenter`, `Sender`):
  - Order items, product meta and item meta are maps and sequences.
  - Item meta is multi-valued, as WooCommerce stores it: adding meta appends a
    row, and a single read returns the first row, or `""` when there is none.
  - The network is an oracle: it maps the call number and the request to a
    transport error or a decoded JSON body. Every call is appended to a call log.
  - The `SenderSite` class runs the source's loops and state updates: `process_order_rewards`,
    `request_remote_coupon`, `ajax_refresh_remote_products` and the
    reward-collecting loop of `render_reward_box`. Each is proved equal to a
    specification function.
  - The lemmas about those functions state the issuance guarantees: unmapped items
    are untouched, an item that already has a code costs no call, records are never
    partial, an item has at most one record, and a re-run after a fully successful
    run is a no-op.

The duplicate guard tests the stored code for PHP truthiness. The write only needs
`code` to be set. So a peer that answers with a code such as `"0"` gets that code
recorded, the guard then does not see it, and the next completion event appends a
second record (`Issuance.FalsyCodeIsIssuedTwice`). The Receiver's own codes always
start with `XSR-`. For that reason "at most one record per item" is proved for
peers whose codes read as true (`Issuance.TruthyCodes`).

Behaviour of the code worth knowing:

- Only a product id that reads as 0 is rejected. Negative ids, and ids of products
  that do not exist, get a coupon.
- The reward message is hard-coded markup, not a template with placeholders.
- Item meta is appended with `wc_add_order_item_meta`, never set with an
  overwrite check.
- The coupon description records the reward product's id, not the order's.
- The product-list refresh never looks at the HTTP status. A peer that refuses
  the secret answers 401 with the body
  `{"code":"rest_forbidden","message":…,"data":{"status":401}}`. That body is a
  non-empty keyed array, so it is cached as the product list and sent back as a
  success (`CatalogCache.RefusalIsCached`). A `rest_no_route` body from a peer
  that is not in receiver mode is cached the same way.

## Model

| member | source | states |
|---|---|---|
| `Config.GetMode` | wc-cross-site-rewards.php:54-56 | the mode is the stored value, or `"disabled"` when none is stored |
| `Config.GetSecret` | wc-cross-site-rewards.php:58-60 | the secret is the stored value, or `""` when none is stored |
| `Config.GetRemoteUrl` | wc-cross-site-rewards.php:62-64 | the remote URL is `""` when unset; otherwise it is the stored URL with only trailing `/` and `\` removed, and it does not end in either |
| `Config.GetRemoteUrlIdempotent` | wc-cross-site-rewards.php:62-64 | saving the normalised URL back and reading it again gives the same URL |
| `Php.Untrailingslashit` | wc-cross-site-rewards.php:63 | the result is the longest prefix of the input that does not end in `/` or `\`; everything removed is slashes |
| `Php.StringIntVal` | wc-cross-site-rewards.php:162 | `intval` on a string: a string of decimal digits reads as its value, and `-` followed by digits as the negated value |
| `Php.IntVal` | wc-cross-site-rewards.php:162 | `intval` on a decoded value: every value PHP reads as false gives 0, and a JSON integer gives itself |
| `Php.IntValOfIntToString` | wc-cross-site-rewards.php:162 | `intval` reads back every integer that PHP printed as a string |
| `Receiver.PermissionCheck` | wc-cross-site-rewards.php:137-140 | a request is let through iff its `X-XSR-Secret` header is present and strictly equal to the configured secret |
| `Receiver.UnsetSecretAdmitsOnlyEmptyHeader` | wc-cross-site-rewards.php:137-140 | with no secret saved, exactly a request with an empty header passes |
| `Receiver.RequestedProductId` | wc-cross-site-rewards.php:161-162 | a missing (or null) `reward_product_id` reads as 0, a present one as its `intval`; a non-zero id was present and reads as true |
| `Receiver.CouponCodeShape` | wc-cross-site-rewards.php:169 | every code is `XSR-` followed by 8 upper-case letters or digits, 12 characters in all |
| `Receiver.ClaimUrl` | wc-cross-site-rewards.php:183-188 | the claim URL is the cart URL with exactly two query arguments: `add-to-cart`, which reads back as the product id, and `coupon_code`, which is the code |
| `Receiver.GenerateOutcome` | wc-cross-site-rewards.php:160-194 | `no_product` with status 400 iff the id is missing or reads as 0; otherwise one coupon with code `XSR-`+upper-cased password, `percent`, amount 100, individual use, product ids `[id]`, usage limit 1, and a reply carrying that code and its claim URL |
| `Receiver.NegativeIdIsAccepted` | wc-cross-site-rewards.php:162-166 | only 0 is rejected: a negative id generates a coupon |
| `Receiver.MissingOrZeroIdIsRejected` | wc-cross-site-rewards.php:162-166 | a missing id and a string with no leading digits both give `no_product` |
| `Receiver.StringIdIsParsed` | wc-cross-site-rewards.php:162 | the id the Sender posts as the string "42" restricts the coupon to product 42 |
| `Receiver.GenerateEndpoint` | wc-cross-site-rewards.php:130-140 | a request whose secret does not match gets `rest_forbidden` and no coupon; a request whose secret matches gets exactly `api_generate_coupon`'s outcome; a coupon is made only for a matching secret, for the requested id |
| `Receiver.ReceiverSite.GenerateCoupon` | wc-cross-site-rewards.php:160-194 | on error the coupon table is unchanged; on success exactly the specified coupon is appended and its code and claim URL are returned |
| `Receiver.ReceiverSite.HandleGenerate` | wc-cross-site-rewards.php:130-140 | the permission check runs before generation; a rejected request leaves the coupon table unchanged |
| `Remote.GenerateCall` | wc-cross-site-rewards.php:318-328 | the coupon request is a POST to the remote URL plus `/wp-json/wc-xsr/v1/generate`, carrying the configured secret, the remote reward id and the order id, with a 15-second timeout |
| `Remote.ProductsCall` | wc-cross-site-rewards.php:271-274 | the product-list request is a GET to the remote URL plus `/wp-json/wc-xsr/v1/products`, carrying the configured secret, with a 10-second timeout |
| `Issuance.AfterRequest` | wc-cross-site-rewards.php:314-340 | exactly one generate call is logged; a complete response appends the code row and then the URL row to that item; any other response leaves the meta unchanged; no other item's meta changes |
| `Issuance.ItemStep` | wc-cross-site-rewards.php:299-310 | one loop pass keeps the call log and adds at most one call |
| `Issuance.ProcessItems` | wc-cross-site-rewards.php:298-311 | a run keeps the earlier call log and adds at most one call per item |
| `Issuance.ItemStepOutcome` | wc-cross-site-rewards.php:298-340 | an unmapped or already rewarded item costs no call and changes nothing; any other item costs exactly one generate call; a complete response appends both of its rows to that item; in every other case the meta is unchanged; other items' meta is unchanged |
| `Issuance.CallsOnlyForMappedItems` | wc-cross-site-rewards.php:298-311 | the call log only grows, by at most one call per item, and every new call requests the remote reward of a mapped item of the order |
| `Issuance.UnmappedItemsUntouched` | wc-cross-site-rewards.php:299-302 | an item none of whose lines is mapped (no mapping, `""` or `"0"`) keeps its meta exactly |
| `Issuance.UnmappedOrderIsNoOp` | wc-cross-site-rewards.php:299-302 | an order with no mapped product makes no call and changes nothing |
| `Issuance.RewardedItemUntouched` | wc-cross-site-rewards.php:303-306 | an item that already carries a reward code keeps its rows exactly through a run, whatever its sibling items do (the retry case) |
| `Issuance.AlreadyRewardedIsNoOp` | wc-cross-site-rewards.php:303-306 | when every mapped item already carries a reward code, processing makes no call and changes nothing |
| `Issuance.ItemStepKeepsRecordsWellFormed` | wc-cross-site-rewards.php:303-309 | one item's processing keeps every item at no more than one reward record |
| `Issuance.ProcessKeepsRecordsWellFormed` | wc-cross-site-rewards.php:298-311 | at most one record per item: a whole run keeps every item at no more than one code row and one claim-URL row, with a code the guard sees |
| `Issuance.ItemStepKeepsRewardCode` | wc-cross-site-rewards.php:304 | a stored reward code stays visible to the guard whatever later items do |
| `Issuance.ProcessRewardsEveryMappedItem` | wc-cross-site-rewards.php:298-338 | against a peer that always issues, every mapped item carries a reward code after one run |
| `Issuance.ReprocessingIsNoOp` | wc-cross-site-rewards.php:295-312 | after one run against a peer that always issues, running again makes no call and changes nothing |
| `Issuance.FalsyCodeIsIssuedTwice` | wc-cross-site-rewards.php:304-337 | a response whose code is `"0"` is recorded but not seen by the guard, so a second run calls again and adds a second code row |
| `CatalogCache.RefreshOutcome` | wc-cross-site-rewards.php:262-291 | a call is made only when URL and secret are set; the cache becomes the decoded body iff no transport error occurred and that body is a non-empty array, whatever it holds; every error path leaves the cache unchanged |
| `CatalogCache.FailedRefreshKeepsCache` | wc-cross-site-rewards.php:276-278 | a transport error leaves a cached list in place and answers with an error |
| `CatalogCache.RefusalIsCached` | wc-cross-site-rewards.php:276-288 | a `rest_forbidden` refusal body is cached as the product list and answered as a success |
| `Presenter.CollectRewards` | wc-cross-site-rewards.php:358-369 | at most one reward per item, and every collected reward has a code and a URL that read as true |
| `Presenter.CollectRewardsAppend` | wc-cross-site-rewards.php:358-369 | rewards come out in item order: collecting over two runs of items concatenates their rewards |
| `Presenter.CollectRewardsMembers` | wc-cross-site-rewards.php:358-369 | a reward is collected iff some item has both a code and a URL that read as true, and it carries that item's name, code and URL |
| `Presenter.NoRewardsIffNoneCarried` | wc-cross-site-rewards.php:361-371 | nothing is collected iff no item has both a code and a URL |
| `Presenter.RewardBoxOf` | wc-cross-site-rewards.php:353-371 | nothing is rendered iff no item carries a reward; otherwise the box holds the collected, non-empty list |
| `Sender.SenderSite.ProcessOrderRewards` | wc-cross-site-rewards.php:295-312 | the loop leaves item meta and call log exactly as `Issuance.ProcessItems` over the order's items gives them; nothing else changes |
| `Sender.SenderSite.RequestRemoteCoupon` | wc-cross-site-rewards.php:314-340 | the method's new item meta and call log are `Issuance.AfterRequest`'s: one logged call, and both rows written only for a complete response |
| `Sender.SenderSite.RefreshRemoteProducts` | wc-cross-site-rewards.php:262-291 | reply, cache and call log are those `CatalogCache.RefreshOutcome` gives |
| `Sender.SenderSite.RenderRewardBox` | wc-cross-site-rewards.php:353-371 | the loop's result is the reward box of the order's items |
| `Scenarios.MixedOrderIssuesOneReward` | wc-cross-site-rewards.php:295-371 | an order with one item mapped to "42" and one unmapped item makes exactly one call (for "42"), writes one record on the mapped item, and shows exactly one reward |

## Left out

- Admin settings pages, form fields, the product meta field markup and its jQuery (wc-cross-site-rewards.php:70-117, 202-254): presentation only.
- `save_product_meta_field` (256-260): product meta is an input of the model, never written by it.
- Hook registration in the constructor (19-48): WordPress wiring. The mode appears only through `GetMode`.
- `api_get_products` (142-158): the product-listing endpoint is outside the modelled core. The Sender side sees its answer only as an oracle response.
- The HTTP transport, JSON encoding and decoding, and timeouts: the oracle returns the decoded body, and the timeouts appear only as the numbers recorded in each call.
- `add_query_arg`: the claim URL is an abstract base URL plus a map of query arguments. Its string form and URL-encoding are not modelled.
- `wp_generate_password` randomness: the password is a parameter. `IsPassword` states what the generator guarantees.
- `wc_get_cart_url` versus the `site_url('/cart/')` fallback: the cart URL is a parameter.
- `WC_Coupon::save` failures, coupon deletion and the usage counter: the coupon table only grows by the saved coupon.
- `Php.IntVal`: does not model exponent notation (`"1e3"`), floating-point JSON numbers, or saturation at PHP's 64-bit integer range. JSON integers are unbounded.
- `Receiver.Forbidden`: WordPress answers 401 to anonymous callers and 403 to logged-in ones. Only the anonymous case is modelled.
- Header lookup details (case-insensitive names, repeated headers joined by commas): the header is given as present with a value, or absent.
- `wc_get_order` failing on an unknown order id: the order is given as a value.
- The transient's one-hour expiry: the cache holds a value or nothing, with no clock.
- Concurrent completion events for the same order: the read-then-write guard at 304-309 is modelled for sequential runs only.
- The markup, QR-service URL, `urlencode` and escaping in `render_reward_box` (373-398), and the thank-you and e-mail hooks that call it (343-351): only the collected reward list and the "render nothing" decision are modelled.

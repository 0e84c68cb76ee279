/**
 * The Sender site: the plugin object in sender mode together with the store
 * state it reads and writes. Its methods are the loops and updates of the
 * source, each proved equal to the function that specifies it.
 */
module Sender {
  import opened Php
  import opened Config
  import opened Store
  import opened Remote
  import opened Issuance
  import opened CatalogCache
  import opened Presenter

  class SenderSite {
    const settings: Settings
    var productMeta: ProductMeta
    var itemMeta: ItemMeta
    var calls: seq<RemoteCall>
    var productCache: Option<Json>

    constructor (settings: Settings, productMeta: ProductMeta, itemMeta: ItemMeta)
      ensures this.settings == settings && this.productMeta == productMeta && this.itemMeta == itemMeta
      ensures calls == [] && productCache == None
    {
      this.settings := settings;
      this.productMeta := productMeta;
      this.itemMeta := itemMeta;
      this.calls := [];
      this.productCache := None;
    }

    /** The part of the site an order-completion run changes. */
    function State(): IssueState
      reads this
    {
      IssueState(itemMeta, calls)
    }

    function ContextFor(remote: Oracle): Context
      reads this
    {
      Context(settings, productMeta, remote)
    }

    /**
     * `process_order_rewards`: for each item, look up the product's remote reward;
     * skip unmapped items and items whose reward code is already stored; otherwise
     * request a coupon for the item.
     */
    method ProcessOrderRewards(order: Order, remote: Oracle)
      modifies this`itemMeta, this`calls
      ensures State() == ProcessItems(old(State()), ContextFor(remote), order.id, order.items)
    {
      for i := 0 to |order.items|
        invariant State() == ProcessItems(old(State()), ContextFor(remote), order.id, order.items[..i])
      {
        assert order.items[..i + 1][..i] == order.items[..i];
        var item := order.items[i];
        var remoteRewardId := RemoteRewardId(productMeta, item.productId);
        if TruthyString(remoteRewardId) {
          if Truthy(GetItemMeta(itemMeta, item.id, CodeKey)) {
            continue;
          }
          RequestRemoteCoupon(order.id, item.id, remoteRewardId, remote);
        }
      }
      assert order.items[..|order.items|] == order.items;
    }

    /**
     * `request_remote_coupon`: one POST to the peer, logged; both item meta rows
     * are added only when the decoded body has `code` and `claim_url` set.
     */
    method RequestRemoteCoupon(orderId: int, itemId: ItemId, remoteId: string, remote: Oracle)
      modifies this`itemMeta, this`calls
      ensures State() == AfterRequest(old(State()), ContextFor(remote), orderId, itemId, remoteId)
    {
      var url := GetRemoteUrl(settings);
      var secret := GetSecret(settings);
      var call := PostGenerate(url + GeneratePath, secret, remoteId, orderId, GenerateTimeout);
      var response := remote(|calls|, call);
      calls := calls + [call];

      if response.Received? {
        var data := response.body;
        var code := Field(data, "code");
        var claimUrl := Field(data, "claim_url");
        if code.Some? && claimUrl.Some? {
          itemMeta := AddItemMeta(itemMeta, itemId, CodeKey, code.value);
          itemMeta := AddItemMeta(itemMeta, itemId, ClaimUrlKey, claimUrl.value);
        }
      }
    }

    /** `ajax_refresh_remote_products`: each error path returns before the cache is written. */
    method RefreshRemoteProducts(remote: Oracle) returns (reply: AjaxReply)
      modifies this`productCache, this`calls
      ensures Refresh(reply, productCache, calls) == RefreshOutcome(settings, old(productCache), old(calls), remote)
    {
      var url := GetRemoteUrl(settings);
      var secret := GetSecret(settings);
      if !TruthyString(url) || !TruthyString(secret) {
        return JsonError(MissingSettings);
      }

      var call := GetProducts(url + ProductsPath, secret, ProductsTimeout);
      var response := remote(|calls|, call);
      calls := calls + [call];
      if response.TransportError? {
        return JsonError(response.message);
      }

      var data := response.body;
      if !Truthy(data) || !IsArray(data) {
        return JsonError(InvalidReply);
      }

      productCache := Some(data);
      reply := JsonSuccess(data);
    }

    /**
     * The reward-collecting part of `render_reward_box`: walk the order's items,
     * keep those whose code and claim URL both read as true, and show nothing
     * when none does.
     */
    method RenderRewardBox(order: Order) returns (box: RewardBox)
      ensures box == RewardBoxOf(order.items, itemMeta)
    {
      var hasReward := false;
      var rewards := [];
      for i := 0 to |order.items|
        invariant rewards == CollectRewards(order.items[..i], itemMeta)
        invariant hasReward <==> rewards != []
      {
        assert order.items[..i + 1][..i] == order.items[..i];
        var item := order.items[i];
        var code := GetItemMeta(itemMeta, item.id, CodeKey);
        var url := GetItemMeta(itemMeta, item.id, ClaimUrlKey);
        if Truthy(code) && Truthy(url) {
          rewards := rewards + [Reward(item.name, code, url)];
          hasReward := true;
        }
      }
      assert order.items[..|order.items|] == order.items;

      if !hasReward {
        return NoBox;
      }
      box := Box(rewards);
    }
  }
}

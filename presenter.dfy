/**
 * The part of `render_reward_box` that decides what is shown: the rewards of an
 * order, one per item that carries both a reward code and a claim URL. The
 * markup, QR image URL and escaping around them are presentation only.
 */
module Presenter {
  import opened Php
  import opened Store

  /** One reward to display: the item's name and the stored code and claim URL. */
  datatype Reward = Reward(product: string, code: Json, url: Json)

  /** The box: nothing at all, or the collected rewards. */
  datatype RewardBox = NoBox | Box(rewards: seq<Reward>)

  /** `if ( $code && $url )` on the item's first rows under the two keys. */
  predicate HasReward(meta: ItemMeta, item: OrderItem)
  {
    Truthy(GetItemMeta(meta, item.id, CodeKey)) && Truthy(GetItemMeta(meta, item.id, ClaimUrlKey))
  }

  function RewardOf(meta: ItemMeta, item: OrderItem): Reward
  {
    Reward(item.name, GetItemMeta(meta, item.id, CodeKey), GetItemMeta(meta, item.id, ClaimUrlKey))
  }

  /** The rewards of `items`, in item order: what the loop appends to `$rewards`. */
  function CollectRewards(items: seq<OrderItem>, meta: ItemMeta): (rewards: seq<Reward>)
    ensures |rewards| <= |items|
    ensures forall k :: 0 <= k < |rewards| ==> Truthy(rewards[k].code) && Truthy(rewards[k].url)
    decreases |items|
  {
    if items == [] then []
    else
      var last := items[|items| - 1];
      CollectRewards(items[..|items| - 1], meta) + (if HasReward(meta, last) then [RewardOf(meta, last)] else [])
  }

  /** Collecting over two runs of items gives the first run's rewards, then the second's. */
  lemma {:induction false} CollectRewardsAppend(a: seq<OrderItem>, b: seq<OrderItem>, meta: ItemMeta)
    ensures CollectRewards(a + b, meta) == CollectRewards(a, meta) + CollectRewards(b, meta)
    decreases |b|
  {
    if b == [] {
      assert a + b == a;
    } else {
      var last := b[|b| - 1];
      assert (a + b)[..|a + b| - 1] == a + b[..|b| - 1];
      CollectRewardsAppend(a, b[..|b| - 1], meta);
    }
  }

  /** A reward is collected exactly when some item carries both a code and a URL and gives that reward. */
  lemma {:induction false} CollectRewardsMembers(items: seq<OrderItem>, meta: ItemMeta, r: Reward)
    ensures r in CollectRewards(items, meta) <==>
      exists j :: 0 <= j < |items| && HasReward(meta, items[j]) && r == RewardOf(meta, items[j])
    decreases |items|
  {
    if items != [] {
      var prefix := items[..|items| - 1];
      var last := items[|items| - 1];
      CollectRewardsMembers(prefix, meta, r);
      if r in CollectRewards(prefix, meta) {
        var j :| 0 <= j < |prefix| && HasReward(meta, prefix[j]) && r == RewardOf(meta, prefix[j]);
        assert items[j] == prefix[j];
      }
      if exists j :: 0 <= j < |items| && HasReward(meta, items[j]) && r == RewardOf(meta, items[j]) {
        var j :| 0 <= j < |items| && HasReward(meta, items[j]) && r == RewardOf(meta, items[j]);
        if j < |prefix| {
          assert prefix[j] == items[j];
        }
      }
    }
  }

  /** Nothing is collected exactly when no item carries both a code and a URL. */
  lemma {:induction false} NoRewardsIffNoneCarried(items: seq<OrderItem>, meta: ItemMeta)
    ensures CollectRewards(items, meta) == [] <==> forall j :: 0 <= j < |items| ==> !HasReward(meta, items[j])
    decreases |items|
  {
    if items != [] {
      var prefix := items[..|items| - 1];
      NoRewardsIffNoneCarried(prefix, meta);
      if forall j :: 0 <= j < |items| ==> !HasReward(meta, items[j]) {
        assert forall j :: 0 <= j < |prefix| ==> prefix[j] == items[j];
      }
    }
  }

  /** The box `render_reward_box` emits: nothing when no item carries a reward. */
  function RewardBoxOf(items: seq<OrderItem>, meta: ItemMeta): (box: RewardBox)
    ensures box.NoBox? <==> forall j :: 0 <= j < |items| ==> !HasReward(meta, items[j])
    ensures box.Box? ==> box.rewards == CollectRewards(items, meta) && |box.rewards| > 0
  {
    var rewards := CollectRewards(items, meta);
    NoRewardsIffNoneCarried(items, meta);
    if |rewards| == 0 then NoBox else Box(rewards)
  }
}

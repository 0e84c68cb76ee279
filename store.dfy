/**
 * The WooCommerce state the Sender reads and writes: order items, the
 * per-product `_xsr_remote_reward_id` meta and the per-item meta table.
 * Item meta is multi-valued, as WooCommerce keeps it: `wc_add_order_item_meta`
 * appends an entry, and a read with `$single = true` returns the first entry
 * under the key, or the empty string when there is none.
 */
module Store {
  import opened Php

  type ItemId = int

  datatype OrderItem = OrderItem(id: ItemId, productId: int, name: string)

  datatype Order = Order(id: int, items: seq<OrderItem>)

  datatype MetaEntry = MetaEntry(key: string, value: Json)

  /** Item meta rows by order item; an item without rows may be absent from the map. */
  type ItemMeta = map<ItemId, seq<MetaEntry>>

  /** The `_xsr_remote_reward_id` post meta by product, as `sanitize_text_field` saved it. */
  type ProductMeta = map<int, string>

  const CodeKey := "_xsr_reward_code"
  const ClaimUrlKey := "_xsr_claim_url"

  /** `get_post_meta($product_id, '_xsr_remote_reward_id', true)`: "" when never saved. */
  function RemoteRewardId(productMeta: ProductMeta, productId: int): string
  {
    if productId in productMeta then productMeta[productId] else ""
  }

  function EntriesOf(meta: ItemMeta, id: ItemId): seq<MetaEntry>
  {
    if id in meta then meta[id] else []
  }

  /** How many rows of `entries` are stored under `key`. */
  function CountKey(entries: seq<MetaEntry>, key: string): nat
  {
    if entries == [] then 0
    else (if entries[0].key == key then 1 else 0) + CountKey(entries[1..], key)
  }

  /** The value of the first row under `key`, or "" when there is none. */
  function FirstValue(entries: seq<MetaEntry>, key: string): Json
  {
    if entries == [] then JString("")
    else if entries[0].key == key then entries[0].value
    else FirstValue(entries[1..], key)
  }

  /** `wc_get_order_item_meta($item_id, $key, true)`, and `$item->get_meta($key)`. */
  function GetItemMeta(meta: ItemMeta, id: ItemId, key: string): Json
  {
    FirstValue(EntriesOf(meta, id), key)
  }

  /** `wc_add_order_item_meta($item_id, $key, $value)`: appends one row to that item only. */
  function AddItemMeta(meta: ItemMeta, id: ItemId, key: string, value: Json): (r: ItemMeta)
    ensures EntriesOf(r, id) == EntriesOf(meta, id) + [MetaEntry(key, value)]
    ensures forall other :: other != id ==> EntriesOf(r, other) == EntriesOf(meta, other)
  {
    meta[id := EntriesOf(meta, id) + [MetaEntry(key, value)]]
  }

  /** A row under `key` is what a read finds, wherever later rows are appended. */
  lemma {:induction false} FirstValueAppend(a: seq<MetaEntry>, b: seq<MetaEntry>, key: string)
    ensures FirstValue(a + b, key) == if CountKey(a, key) > 0 then FirstValue(a, key) else FirstValue(b, key)
  {
    if a != [] {
      assert (a + b)[1..] == a[1..] + b;
      FirstValueAppend(a[1..], b, key);
    } else {
      assert a + b == b;
    }
  }

  lemma {:induction false} CountKeyAppend(a: seq<MetaEntry>, b: seq<MetaEntry>, key: string)
    ensures CountKey(a + b, key) == CountKey(a, key) + CountKey(b, key)
  {
    if a != [] {
      assert (a + b)[1..] == a[1..] + b;
      CountKeyAppend(a[1..], b, key);
    } else {
      assert a + b == b;
    }
  }

  /** A read that finds a true value found a row: with no row under the key it reads "". */
  lemma {:induction false} TruthyReadHasRow(entries: seq<MetaEntry>, key: string)
    requires Truthy(FirstValue(entries, key))
    ensures CountKey(entries, key) > 0
  {
    if entries != [] && entries[0].key != key {
      TruthyReadHasRow(entries[1..], key);
    }
  }
}

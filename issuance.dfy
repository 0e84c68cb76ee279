/**
 * What `process_order_rewards` and `request_remote_coupon` do to the Sender's
 * state, as functions: the item meta table and the log of remote calls,
 * threaded through the order's items one at a time. The Sender's methods are
 * proved equal to these functions; the lemmas state what the functions promise.
 */
module Issuance {
  import opened Php
  import opened Config
  import opened Store
  import opened Remote

  /** What an order-completion run reads and does not change: settings, product meta, the peer. */
  datatype Context = Context(settings: Settings, productMeta: ProductMeta, remote: Oracle)

  /** What an order-completion run changes: item meta and the call log. */
  datatype IssueState = IssueState(meta: ItemMeta, calls: seq<RemoteCall>)

  /** The item's product has a remote reward: `if ( $remote_reward_id )` on the stored string. */
  predicate Mapped(ctx: Context, item: OrderItem)
  {
    TruthyString(RemoteRewardId(ctx.productMeta, item.productId))
  }

  /** The duplicate guard: the first `_xsr_reward_code` row of the item reads as true. */
  predicate HasRewardCode(meta: ItemMeta, id: ItemId)
  {
    Truthy(GetItemMeta(meta, id, CodeKey))
  }

  /** A response from which a reward is recorded: no transport error, both `code` and `claim_url` set. */
  predicate Complete(response: Response)
  {
    response.Received? && Field(response.body, "code").Some? && Field(response.body, "claim_url").Some?
  }

  /** `request_remote_coupon`: one call, logged; both rows appended only for a complete response. */
  function AfterRequest(st: IssueState, ctx: Context, orderId: int, itemId: ItemId, remoteId: string): (after: IssueState)
    ensures after.calls == st.calls + [GenerateCall(ctx.settings, remoteId, orderId)]
    ensures var response := ctx.remote(|st.calls|, GenerateCall(ctx.settings, remoteId, orderId));
      && (Complete(response) ==> EntriesOf(after.meta, itemId) == EntriesOf(st.meta, itemId) + RecordRows(response))
      && (!Complete(response) ==> after.meta == st.meta)
    ensures forall other :: other != itemId ==> EntriesOf(after.meta, other) == EntriesOf(st.meta, other)
  {
    var call := GenerateCall(ctx.settings, remoteId, orderId);
    var response := ctx.remote(|st.calls|, call);
    var calls := st.calls + [call];
    if Complete(response) then
      var code := Field(response.body, "code").value;
      var claimUrl := Field(response.body, "claim_url").value;
      IssueState(AddItemMeta(AddItemMeta(st.meta, itemId, CodeKey, code), itemId, ClaimUrlKey, claimUrl), calls)
    else
      IssueState(st.meta, calls)
  }

  /** One pass of the loop in `process_order_rewards`. */
  function ItemStep(st: IssueState, ctx: Context, orderId: int, item: OrderItem): (after: IssueState)
    ensures |st.calls| <= |after.calls| <= |st.calls| + 1 && after.calls[..|st.calls|] == st.calls
  {
    if !Mapped(ctx, item) then st
    else if HasRewardCode(st.meta, item.id) then st
    else AfterRequest(st, ctx, orderId, item.id, RemoteRewardId(ctx.productMeta, item.productId))
  }

  /** The state after the loop has visited `items`, in order. */
  function ProcessItems(st: IssueState, ctx: Context, orderId: int, items: seq<OrderItem>): (after: IssueState)
    ensures |st.calls| <= |after.calls| <= |st.calls| + |items| && after.calls[..|st.calls|] == st.calls
    decreases |items|
  {
    if items == [] then st
    else ItemStep(ProcessItems(st, ctx, orderId, items[..|items| - 1]), ctx, orderId, items[|items| - 1])
  }

  // ---------------------------------------------------------------------------
  // One item
  // ---------------------------------------------------------------------------

  /**
   * One item's outcome: an unmapped or already rewarded item costs no call and
   * changes nothing; any other item costs exactly one call, and gains both rows
   * of a complete response, the code first, or nothing when the response is
   * not complete; no other item's meta changes.
   */
  lemma ItemStepOutcome(st: IssueState, ctx: Context, orderId: int, item: OrderItem)
    ensures var after := ItemStep(st, ctx, orderId, item);
      var call := GenerateCall(ctx.settings, RemoteRewardId(ctx.productMeta, item.productId), orderId);
      var response := ctx.remote(|st.calls|, call);
      && (!Mapped(ctx, item) || HasRewardCode(st.meta, item.id) ==> after == st)
      && (Mapped(ctx, item) && !HasRewardCode(st.meta, item.id) ==> after.calls == st.calls + [call])
      && (Mapped(ctx, item) && !HasRewardCode(st.meta, item.id) && Complete(response) ==>
            EntriesOf(after.meta, item.id) == EntriesOf(st.meta, item.id) + RecordRows(response))
      && (!(Mapped(ctx, item) && !HasRewardCode(st.meta, item.id) && Complete(response)) ==> after.meta == st.meta)
      && (forall other :: other != item.id ==> EntriesOf(after.meta, other) == EntriesOf(st.meta, other))
  {
  }

  // ---------------------------------------------------------------------------
  // A whole order
  // ---------------------------------------------------------------------------

  /** `call` is the generate request for the remote reward of some mapped item of `items`. */
  ghost predicate CallForMappedItem(ctx: Context, orderId: int, items: seq<OrderItem>, call: RemoteCall)
  {
    exists j :: 0 <= j < |items| && Mapped(ctx, items[j]) &&
      call == GenerateCall(ctx.settings, RemoteRewardId(ctx.productMeta, items[j].productId), orderId)
  }

  /**
   * The call log only grows, by at most one call per item, and every call added
   * is a generate request for the remote reward of some mapped item of the order.
   */
  lemma {:induction false} CallsOnlyForMappedItems(st: IssueState, ctx: Context, orderId: int, items: seq<OrderItem>)
    ensures var after := ProcessItems(st, ctx, orderId, items);
      && |st.calls| <= |after.calls| <= |st.calls| + |items|
      && after.calls[..|st.calls|] == st.calls
      && forall k :: |st.calls| <= k < |after.calls| ==> CallForMappedItem(ctx, orderId, items, after.calls[k])
  {
    if items != [] {
      var prefix := items[..|items| - 1];
      var last := items[|items| - 1];
      var mid := ProcessItems(st, ctx, orderId, prefix);
      var after := ItemStep(mid, ctx, orderId, last);
      CallsOnlyForMappedItems(st, ctx, orderId, prefix);
      ItemStepOutcome(mid, ctx, orderId, last);
      forall k | |st.calls| <= k < |after.calls|
        ensures CallForMappedItem(ctx, orderId, items, after.calls[k])
      {
        if k < |mid.calls| {
          assert after.calls[k] == mid.calls[k];
          assert CallForMappedItem(ctx, orderId, prefix, mid.calls[k]);
          var j :| 0 <= j < |prefix| && Mapped(ctx, prefix[j])
            && mid.calls[k] == GenerateCall(ctx.settings, RemoteRewardId(ctx.productMeta, prefix[j].productId), orderId);
          assert items[j] == prefix[j];
        } else {
          assert items[|items| - 1] == last;
          assert after.calls[k] == GenerateCall(ctx.settings, RemoteRewardId(ctx.productMeta, last.productId), orderId);
        }
      }
      assert after == ProcessItems(st, ctx, orderId, items);
      assert |st.calls| <= |after.calls| <= |st.calls| + |items|;
      assert after.calls[..|st.calls|] == st.calls;
    }
  }

  /** An item id none of whose order lines is mapped keeps its meta exactly as it was. */
  lemma {:induction false} UnmappedItemsUntouched(st: IssueState, ctx: Context, orderId: int, items: seq<OrderItem>, id: ItemId)
    requires forall j :: 0 <= j < |items| && items[j].id == id ==> !Mapped(ctx, items[j])
    ensures EntriesOf(ProcessItems(st, ctx, orderId, items).meta, id) == EntriesOf(st.meta, id)
  {
    if items != [] {
      var prefix := items[..|items| - 1];
      UnmappedItemsUntouched(st, ctx, orderId, prefix, id);
      ItemStepOutcome(ProcessItems(st, ctx, orderId, prefix), ctx, orderId, items[|items| - 1]);
    }
  }

  /** An order none of whose products is mapped makes no call and changes nothing. */
  lemma {:induction false} UnmappedOrderIsNoOp(st: IssueState, ctx: Context, orderId: int, items: seq<OrderItem>)
    requires forall j :: 0 <= j < |items| ==> !Mapped(ctx, items[j])
    ensures ProcessItems(st, ctx, orderId, items) == st
  {
    if items != [] {
      UnmappedOrderIsNoOp(st, ctx, orderId, items[..|items| - 1]);
    }
  }

  /**
   * Idempotence under re-delivery: when every mapped item already carries a
   * reward code, processing the order makes no call and changes nothing.
   */
  lemma {:induction false} AlreadyRewardedIsNoOp(st: IssueState, ctx: Context, orderId: int, items: seq<OrderItem>)
    requires forall j :: 0 <= j < |items| && Mapped(ctx, items[j]) ==> HasRewardCode(st.meta, items[j].id)
    ensures ProcessItems(st, ctx, orderId, items) == st
  {
    if items != [] {
      AlreadyRewardedIsNoOp(st, ctx, orderId, items[..|items| - 1]);
    }
  }

  /**
   * The duplicate guard across runs: an item that already carries a reward code
   * keeps its rows exactly, whatever its sibling items do in this run.
   */
  lemma {:induction false} RewardedItemUntouched(st: IssueState, ctx: Context, orderId: int, items: seq<OrderItem>, id: ItemId)
    requires HasRewardCode(st.meta, id)
    ensures EntriesOf(ProcessItems(st, ctx, orderId, items).meta, id) == EntriesOf(st.meta, id)
    ensures HasRewardCode(ProcessItems(st, ctx, orderId, items).meta, id)
  {
    if items != [] {
      var prefix := items[..|items| - 1];
      RewardedItemUntouched(st, ctx, orderId, prefix, id);
      ItemStepOutcome(ProcessItems(st, ctx, orderId, prefix), ctx, orderId, items[|items| - 1]);
    }
  }

  // ---------------------------------------------------------------------------
  // At most one record per item
  // ---------------------------------------------------------------------------

  /**
   * An item's rows hold at most one reward record: at most one code row, as
   * many claim-URL rows as code rows, and a code row the guard sees as true.
   */
  predicate AtMostOneRecord(entries: seq<MetaEntry>)
  {
    && CountKey(entries, CodeKey) <= 1
    && CountKey(entries, ClaimUrlKey) == CountKey(entries, CodeKey)
    && (CountKey(entries, CodeKey) == 1 ==> Truthy(FirstValue(entries, CodeKey)))
  }

  predicate RecordsWellFormed(meta: ItemMeta)
  {
    forall id :: id in meta ==> AtMostOneRecord(meta[id])
  }

  /** The peer never sends a code that reads as false (the Receiver's codes start with `XSR-`). */
  ghost predicate TruthyCodes(remote: Oracle)
  {
    forall n, call :: Complete(remote(n, call)) ==> Truthy(Field(remote(n, call).body, "code").value)
  }

  /** The peer always issues: every response is complete with a code that reads as true. */
  ghost predicate AlwaysIssues(remote: Oracle)
  {
    forall n, call :: Complete(remote(n, call)) && Truthy(Field(remote(n, call).body, "code").value)
  }

  /** Under well-formed records, an item the guard does not see as rewarded has no code row at all. */
  lemma UnrewardedHasNoCodeRow(meta: ItemMeta, id: ItemId)
    requires RecordsWellFormed(meta) && !HasRewardCode(meta, id)
    ensures CountKey(EntriesOf(meta, id), CodeKey) == 0 && CountKey(EntriesOf(meta, id), ClaimUrlKey) == 0
  {
    if id in meta {
      assert AtMostOneRecord(meta[id]);
    }
  }

  /** The rows a complete response adds to an item: the code first, then the claim URL. */
  function RecordRows(response: Response): seq<MetaEntry>
    requires Complete(response)
  {
    [MetaEntry(CodeKey, Field(response.body, "code").value),
     MetaEntry(ClaimUrlKey, Field(response.body, "claim_url").value)]
  }

  lemma RecordRowsCount(response: Response)
    requires Complete(response)
    ensures CountKey(RecordRows(response), CodeKey) == 1 && CountKey(RecordRows(response), ClaimUrlKey) == 1
  {
    var rows := RecordRows(response);
    assert CodeKey != ClaimUrlKey;
    var tail := rows[1..];
    assert tail == [rows[1]] && tail[1..] == [];
    assert CountKey(tail, CodeKey) == 0;
    assert CountKey(tail, ClaimUrlKey) == 1;
  }

  lemma ItemStepKeepsRecordsWellFormed(st: IssueState, ctx: Context, orderId: int, item: OrderItem)
    requires RecordsWellFormed(st.meta) && TruthyCodes(ctx.remote)
    ensures RecordsWellFormed(ItemStep(st, ctx, orderId, item).meta)
  {
    var after := ItemStep(st, ctx, orderId, item);
    if Mapped(ctx, item) && !HasRewardCode(st.meta, item.id) {
      var call := GenerateCall(ctx.settings, RemoteRewardId(ctx.productMeta, item.productId), orderId);
      var response := ctx.remote(|st.calls|, call);
      if Complete(response) {
        var before := EntriesOf(st.meta, item.id);
        var added := RecordRows(response);
        assert EntriesOf(after.meta, item.id) == before + added;
        RecordRowsCount(response);
        UnrewardedHasNoCodeRow(st.meta, item.id);
        CountKeyAppend(before, added, CodeKey);
        CountKeyAppend(before, added, ClaimUrlKey);
        FirstValueAppend(before, added, CodeKey);
        assert AtMostOneRecord(after.meta[item.id]);
      }
    }
  }

  /**
   * At most one record per item: with a peer whose codes read as true, a run
   * keeps every item at no more than one code row and one claim-URL row.
   */
  lemma {:induction false} ProcessKeepsRecordsWellFormed(st: IssueState, ctx: Context, orderId: int, items: seq<OrderItem>)
    requires RecordsWellFormed(st.meta) && TruthyCodes(ctx.remote)
    ensures RecordsWellFormed(ProcessItems(st, ctx, orderId, items).meta)
  {
    if items != [] {
      var prefix := items[..|items| - 1];
      ProcessKeepsRecordsWellFormed(st, ctx, orderId, prefix);
      ItemStepKeepsRecordsWellFormed(ProcessItems(st, ctx, orderId, prefix), ctx, orderId, items[|items| - 1]);
    }
  }

  /** A reward code, once recorded, is what the guard keeps reading, whatever later items do. */
  lemma ItemStepKeepsRewardCode(st: IssueState, ctx: Context, orderId: int, item: OrderItem, id: ItemId)
    requires HasRewardCode(st.meta, id)
    ensures HasRewardCode(ItemStep(st, ctx, orderId, item).meta, id)
  {
    ItemStepOutcome(st, ctx, orderId, item);
  }

  /** With a peer that always issues, every mapped item carries a reward code after one run. */
  lemma {:induction false} ProcessRewardsEveryMappedItem(st: IssueState, ctx: Context, orderId: int, items: seq<OrderItem>)
    requires RecordsWellFormed(st.meta) && AlwaysIssues(ctx.remote)
    ensures forall j :: 0 <= j < |items| && Mapped(ctx, items[j]) ==>
      HasRewardCode(ProcessItems(st, ctx, orderId, items).meta, items[j].id)
  {
    if items != [] {
      var prefix := items[..|items| - 1];
      var last := items[|items| - 1];
      var mid := ProcessItems(st, ctx, orderId, prefix);
      var after := ItemStep(mid, ctx, orderId, last);
      ProcessRewardsEveryMappedItem(st, ctx, orderId, prefix);
      assert TruthyCodes(ctx.remote);
      ProcessKeepsRecordsWellFormed(st, ctx, orderId, prefix);
      forall j | 0 <= j < |items| && Mapped(ctx, items[j])
        ensures HasRewardCode(after.meta, items[j].id)
      {
        if j < |prefix| {
          assert items[j] == prefix[j];
          ItemStepKeepsRewardCode(mid, ctx, orderId, last, items[j].id);
        } else {
          LastItemRewarded(mid, ctx, orderId, last);
        }
      }
    }
  }

  lemma LastItemRewarded(st: IssueState, ctx: Context, orderId: int, item: OrderItem)
    requires RecordsWellFormed(st.meta) && AlwaysIssues(ctx.remote) && Mapped(ctx, item)
    ensures HasRewardCode(ItemStep(st, ctx, orderId, item).meta, item.id)
  {
    if !HasRewardCode(st.meta, item.id) {
      var after := ItemStep(st, ctx, orderId, item);
      var before := EntriesOf(st.meta, item.id);
      var call := GenerateCall(ctx.settings, RemoteRewardId(ctx.productMeta, item.productId), orderId);
      var response := ctx.remote(|st.calls|, call);
      assert Complete(response) && Truthy(Field(response.body, "code").value);
      var added := RecordRows(response);
      assert EntriesOf(after.meta, item.id) == before + added;
      UnrewardedHasNoCodeRow(st.meta, item.id);
      FirstValueAppend(before, added, CodeKey);
    }
  }

  /**
   * Re-running order processing after a run against a peer that always issues
   * makes no further call and changes nothing.
   */
  lemma ReprocessingIsNoOp(st: IssueState, ctx: Context, orderId: int, items: seq<OrderItem>)
    requires RecordsWellFormed(st.meta) && AlwaysIssues(ctx.remote)
    ensures var once := ProcessItems(st, ctx, orderId, items);
      ProcessItems(once, ctx, orderId, items) == once
  {
    ProcessRewardsEveryMappedItem(st, ctx, orderId, items);
    AlreadyRewardedIsNoOp(ProcessItems(st, ctx, orderId, items), ctx, orderId, items);
  }

  /**
   * The guard reads the stored code for its truth value while the write only
   * asks that `code` be set: a code "0" is recorded, then not seen, so the next
   * completion event calls again and appends a second record to the same item.
   */
  lemma FalsyCodeIsIssuedTwice(settings: Settings, orderId: int)
    ensures var ctx := Context(settings, map[7 := "42"],
                               (n: nat, call: RemoteCall) => Received(JObject(map["code" := JString("0"), "claim_url" := JString("u")])));
      var items := [OrderItem(1, 7, "Widget")];
      var once := ProcessItems(IssueState(map[], []), ctx, orderId, items);
      var twice := ProcessItems(once, ctx, orderId, items);
      |twice.calls| == 2 && CountKey(EntriesOf(twice.meta, 1), CodeKey) == 2
  {
    var ctx := Context(settings, map[7 := "42"],
                       (n: nat, call: RemoteCall) => Received(JObject(map["code" := JString("0"), "claim_url" := JString("u")])));
    var items := [OrderItem(1, 7, "Widget")];
    var st := IssueState(map[], []);
    assert items[..0] == [];
    var once := ProcessItems(st, ctx, orderId, items);
    assert once == ItemStep(st, ctx, orderId, items[0]);
    var row := [MetaEntry(CodeKey, JString("0")), MetaEntry(ClaimUrlKey, JString("u"))];
    assert "code" != "claim_url";
    assert EntriesOf(once.meta, 1) == row;
    assert !HasRewardCode(once.meta, 1);
    var twice := ProcessItems(once, ctx, orderId, items);
    assert twice == ItemStep(once, ctx, orderId, items[0]);
    assert EntriesOf(twice.meta, 1) == row + row;
    assert CodeKey != ClaimUrlKey;
    CountKeyAppend(row, row, CodeKey);
  }
}

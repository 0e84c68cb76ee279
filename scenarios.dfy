/**
 * A whole issuance round on one order, from the completion event to what the
 * thank-you page and the customer e-mail show.
 */
module Scenarios {
  import opened Php
  import opened Config
  import opened Store
  import opened Remote
  import opened Issuance
  import opened Presenter

  const IssuedCode := "XSR-ABCD1234"
  const IssuedUrl := "https://receiver.example/cart/?add-to-cart=42&coupon_code=XSR-ABCD1234"

  function IssuingPeer(): Oracle
  {
    (n: nat, call: RemoteCall) => Received(JObject(map["code" := JString(IssuedCode), "claim_url" := JString(IssuedUrl)]))
  }

  /**
   * An order with one item whose product maps to remote product "42" and one
   * unmapped item: exactly one generate call, for "42"; exactly one reward
   * record, on the mapped item; exactly one reward shown.
   */
  lemma MixedOrderIssuesOneReward(settings: Settings, orderId: int)
    ensures var ctx := Context(settings, map[7 := "42"], IssuingPeer());
      var items := [OrderItem(1, 7, "Widget"), OrderItem(2, 8, "Gadget")];
      var after := ProcessItems(IssueState(map[], []), ctx, orderId, items);
      && after.calls == [GenerateCall(settings, "42", orderId)]
      && EntriesOf(after.meta, 1) == [MetaEntry(CodeKey, JString(IssuedCode)), MetaEntry(ClaimUrlKey, JString(IssuedUrl))]
      && EntriesOf(after.meta, 2) == []
      && RewardBoxOf(items, after.meta) == Box([Reward("Widget", JString(IssuedCode), JString(IssuedUrl))])
  {
    var ctx := Context(settings, map[7 := "42"], IssuingPeer());
    var items := [OrderItem(1, 7, "Widget"), OrderItem(2, 8, "Gadget")];
    var st := IssueState(map[], []);
    assert items[..1] == [items[0]] && items[..1][..0] == [];
    var first := ItemStep(st, ctx, orderId, items[0]);
    assert ProcessItems(st, ctx, orderId, items[..1]) == first;
    assert Mapped(ctx, items[0]) && !HasRewardCode(st.meta, 1);
    assert first == AfterRequest(st, ctx, orderId, 1, "42");

    var call := GenerateCall(settings, "42", orderId);
    var response := ctx.remote(0, call);
    assert "code" != "claim_url";
    assert Complete(response);
    var rows := RecordRows(response);
    assert rows == [MetaEntry(CodeKey, JString(IssuedCode)), MetaEntry(ClaimUrlKey, JString(IssuedUrl))];
    assert EntriesOf(first.meta, 1) == rows;
    assert EntriesOf(first.meta, 2) == [];
    assert first.calls == [call];

    assert !Mapped(ctx, items[1]);
    var after := ProcessItems(st, ctx, orderId, items);
    assert after == first;

    assert CodeKey != ClaimUrlKey;
    assert GetItemMeta(after.meta, 1, CodeKey) == JString(IssuedCode);
    assert rows[1..] == [rows[1]];
    assert FirstValue(rows[1..], ClaimUrlKey) == JString(IssuedUrl);
    assert GetItemMeta(after.meta, 1, ClaimUrlKey) == JString(IssuedUrl);
    assert HasReward(after.meta, items[0]);
    assert !HasReward(after.meta, items[1]);
    assert CollectRewards(items[..1], after.meta) == [RewardOf(after.meta, items[0])];
  }
}

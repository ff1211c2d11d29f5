/**
 * Complete dialogs through the wizard: open a catalog, press a gift's button, enter a positive
 * quantity, enter a channel username, confirm. Either every purchase call succeeds, or the k-th
 * one is the first to fail.
 */
module Scenarios {
  import opened Wrappers
  import opened PyStr
  import opened Catalog
  import opened Input
  import opened Purchase
  import opened Wizard

  /** Opens a catalog and presses the button of its `i`-th gift, whose id has no `_`. */
  method OpenAndSelect(catalog: seq<Gift>, i: nat) returns (session: CatalogSession)
    requires i < |catalog| && '_' !in catalog[i].id
    requires forall j :: 0 <= j < i ==> catalog[j].id != catalog[i].id
    ensures fresh(session) && session.Valid()
    ensures session.state == Some(WaitingQuantity)
    ensures session.data.selectedGift == Stored(Some(catalog[i]))
  {
    session := new CatalogSession();
    var shown := session.OpenCatalog(catalog);
    var button := shown.keyboard[i][0];
    SelectButtonFindsGift(catalog, i);
    var asked := session.SelectGift(button.callback);
    assert asked == AskQuantity(Display(catalog[i]), catalog[i].price);
  }

  /** Enters a positive quantity, written in decimal. */
  method EnterQty(session: CatalogSession, qty: nat)
    requires session.Valid() && session.state == Some(WaitingQuantity) && qty > 0
    modifies session
    ensures session.Valid() && session.state == Some(WaitingRecipient)
    ensures session.data == old(session.data).(selectedQty := Stored(qty))
  {
    QuantityOfShow(qty);
    CancelIsNoInput(Show(qty));
    var next := session.OnMessage(Some(Show(qty)));
    assert next == AskRecipient;
  }

  /** Enters a channel username. */
  method EnterChannel(session: CatalogSession, name: string) returns (summary: Reply)
    requires session.Valid() && session.state == Some(WaitingRecipient)
    requires name == [] || !IsSpace(name[|name| - 1])
    modifies session
    ensures session.Valid() && session.state == Some(WaitingConfirm)
    ensures session.data.selectedGift == old(session.data.selectedGift)
    ensures session.data.selectedQty == old(session.data.selectedQty)
    ensures var gift := old(session.data.selectedGift).value.value;
            var qty := old(session.data.selectedQty).value;
            summary == Summary(Display(gift), qty, gift.price, gift.price * qty, None, Some("@" + name))
  {
    var handle := "@" + name;
    RecipientOfChannel(name);
    CancelIsNoInput(handle);
    summary := session.OnMessage(Some(handle));
  }

  /** Runs a dialog up to the confirmation: gift `i` of `catalog`, quantity `qty`, channel `@name`. */
  method DialogToConfirmation(catalog: seq<Gift>, i: nat, qty: nat, name: string) returns (session: CatalogSession)
    requires i < |catalog| && '_' !in catalog[i].id
    requires forall j :: 0 <= j < i ==> catalog[j].id != catalog[i].id
    requires qty > 0
    requires name == [] || !IsSpace(name[|name| - 1])
    ensures fresh(session) && session.Valid()
    ensures session.state == Some(WaitingConfirm)
    ensures session.data.selectedGift == Stored(Some(catalog[i]))
    ensures session.data.selectedQty == Stored(qty)
  {
    session := OpenAndSelect(catalog, i);
    EnterQty(session, qty);
    var summary := EnterChannel(session, name);
  }

  /** Every purchase call succeeds: `qty` units bought, each call followed by a pause, the completed report, the session cleared. */
  method AllPurchasesSucceed(catalog: seq<Gift>, i: nat, qty: nat, name: string) returns (reply: Reply)
    requires i < |catalog| && '_' !in catalog[i].id
    requires forall j :: 0 <= j < i ==> catalog[j].id != catalog[i].id
    requires qty > 0
    requires name == [] || !IsSpace(name[|name| - 1])
    ensures reply == Purchased(Display(catalog[i]), Completed(qty, qty), qty, SuccessRun(qty))
  {
    var session := DialogToConfirmation(catalog, i, qty, name);
    var buy := (k: nat) => true;
    StreakIs(buy, qty, qty);
    reply := session.Confirm(buy);
    assert session.IsClear();
  }

  /** Call `k` is the first to fail: `k - 1` units bought, `k` calls made, the stopped report, the session cleared. */
  method PurchaseFailsAt(catalog: seq<Gift>, i: nat, qty: nat, name: string, k: nat) returns (reply: Reply)
    requires i < |catalog| && '_' !in catalog[i].id
    requires forall j :: 0 <= j < i ==> catalog[j].id != catalog[i].id
    requires 1 <= k <= qty
    requires name == [] || !IsSpace(name[|name| - 1])
    ensures reply == Purchased(Display(catalog[i]), Stopped(k - 1, qty), k, SuccessRun(k - 1) + [Attempt(false)])
  {
    var session := DialogToConfirmation(catalog, i, qty, name);
    var buy := (j: nat) => j < k - 1;
    StoppedAtFirstFailure(buy, qty, k);
    reply := session.Confirm(buy);
    assert session.IsClear();
  }
}

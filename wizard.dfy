/**
 * The purchase wizard: one user's dialog state (the FSM state and the data dict kept for the user)
 * and one method per handler, each reading and updating that state the way the handler does.
 * What a handler shows the user is returned as a `Reply`; the calls into the catalog provider
 * and the purchase executor are parameters.
 */
module Wizard {
  import opened Wrappers
  import opened PyStr
  import opened Catalog
  import opened Input
  import opened Purchase

  /** CatalogFSM's states. `WaitingGift` is declared but no handler ever enters it. */
  datatype WizardState = WaitingGift | WaitingQuantity | WaitingRecipient | WaitingConfirm

  /**
   * The data dict, one field per key the wizard uses. `selectedGift` holds `None` for a falsy
   * stored value, which the confirm handler tests for.
   */
  datatype WizardData = WizardData(
    giftsCatalog: Entry<seq<Gift>>,
    selectedGift: Entry<Option<Gift>>,
    selectedQty: Entry<int>,
    targetUserId: Entry<Option<int>>,
    targetChatId: Entry<Option<string>>)

  /** The data dict after `state.clear()`. */
  const NoData: WizardData := WizardData(Absent, Absent, Absent, Absent, Absent)

  /** An exception a handler ends with instead of replying. */
  datatype Raise = KeyError(key: string) | AttributeError

  /** What a handler shows the user, or how it fails. */
  datatype Reply =
    | CatalogShown(unlimited: nat, limited: nat, keyboard: seq<seq<Button>>)
    | CatalogClosed
    | CatalogOutdated
    | AskQuantity(display: GiftDisplay, price: int)
    | NotPositiveInteger
    | AskRecipient
    | BadRecipient
    | Summary(display: GiftDisplay, qty: int, price: int, total: int, userId: Option<int>, chatId: Option<string>)
    | InvalidRequest
    | Purchased(display: GiftDisplay, report: Report, calls: nat, trace: seq<Event>)
    | ActionCanceled
    | Raised(error: Raise)
    | NotHandled

  /**
   * What the handlers keep true of the session: no falsy gift is ever stored, a stored quantity is
   * positive, the two recipient keys are written together and exactly one of them names a target,
   * and each waiting state has the keys its earlier steps wrote.
   */
  ghost predicate Consistent(state: Option<WizardState>, data: WizardData) {
    && data.selectedGift != Stored(None)
    && (data.selectedQty.Stored? ==> data.selectedQty.value > 0)
    && (data.targetUserId.Stored? <==> data.targetChatId.Stored?)
    && (data.targetUserId.Stored? ==> data.targetUserId.value.Some? != data.targetChatId.value.Some?)
    && (data.targetUserId.Stored? && data.targetUserId.value.Some? ==> data.targetUserId.value.value >= 0)
    && (data.targetChatId.Stored? && data.targetChatId.value.Some? ==> StartsWith(data.targetChatId.value.value, "@"))
    && state != Some(WaitingGift)
    && (state == Some(WaitingQuantity) ==> data.selectedGift.Stored?)
    && (state == Some(WaitingRecipient) ==> data.selectedGift.Stored? && data.selectedQty.Stored?)
    && (state == Some(WaitingConfirm) ==>
          data.selectedGift.Stored? && data.selectedQty.Stored? && data.targetUserId.Stored?)
  }

  /** One user's wizard session: the FSM state and the data dict. */
  class CatalogSession {
    var state: Option<WizardState>
    var data: WizardData

    ghost predicate Valid()
      reads this
    {
      Consistent(state, data)
    }

    predicate IsClear()
      reads this
    {
      state == None && data == NoData
    }

    /** `data.get("gifts_catalog", [])` */
    function CachedGifts(): seq<Gift>
      reads this
    {
      if data.giftsCatalog.Stored? then data.giftsCatalog.value else []
    }

    /** A user's session before any handler ran. */
    constructor ()
      ensures IsClear() && Valid()
    {
      state := None;
      data := NoData;
    }

    /** `state.clear()` */
    method Clear()
      modifies this
      ensures IsClear() && Valid()
    {
      state := None;
      data := NoData;
    }

    /**
     * catalog: caches the fetched catalog and shows the unlimited and limited counts with the
     * selection keyboard. The FSM state and every other key are left as they were.
     */
    method OpenCatalog(fetched: seq<Gift>) returns (reply: Reply)
      modifies this
      ensures data == old(data).(giftsCatalog := Stored(fetched)) && state == old(state)
      ensures reply.CatalogShown?
      ensures reply.unlimited == |Unlimited(fetched)| && reply.limited == |Limited(fetched)|
      ensures reply.unlimited + reply.limited == |fetched|
      ensures IsCatalogKeyboard(fetched, reply.keyboard)
      ensures old(Valid()) ==> Valid()
    {
      data := data.(giftsCatalog := Stored(fetched));
      var limited := Limited(fetched);
      var unlimited := Unlimited(fetched);
      var keyboard := CatalogKeyboard(fetched);
      PartitionCounts(fetched);
      reply := CatalogShown(|unlimited|, |limited|, keyboard);
    }

    /** start_callback ("return to menu"): clears the session, from any state, and closes the catalog. */
    method ReturnToMenu() returns (reply: Reply)
      modifies this
      ensures IsClear() && Valid()
      ensures reply == CatalogClosed
    {
      Clear();
      reply := CatalogClosed;
    }

    /**
     * on_gift_selected: with no cached catalog (absent or empty) it only reports the catalog as
     * outdated; otherwise it looks the gift up by the last `_`-separated part of the callback data,
     * fails on an unknown id (the lookup yields None, which is then dereferenced), and on a known
     * one stores it and waits for the quantity.
     */
    method SelectGift(callbackData: string) returns (reply: Reply)
      modifies this
      ensures old(CachedGifts()) == [] ==> reply == CatalogOutdated && unchanged(this)
      ensures old(CachedGifts()) != [] && FindGift(old(CachedGifts()), SelectedId(callbackData)).None? ==>
        reply == Raised(AttributeError) && unchanged(this)
      ensures old(CachedGifts()) != [] && FindGift(old(CachedGifts()), SelectedId(callbackData)).Some? ==>
        var gift := FindGift(old(CachedGifts()), SelectedId(callbackData)).value;
        && gift.id == SelectedId(callbackData)
        && data == old(data).(selectedGift := Stored(Some(gift)))
        && state == Some(WaitingQuantity)
        && reply == AskQuantity(Display(gift), gift.price)
      ensures old(Valid()) ==> Valid()
    {
      var giftId := LastSegment(callbackData, '_');
      var gifts := CachedGifts();
      if gifts == [] {
        reply := CatalogOutdated;
        return;
      }
      var found := FindGift(gifts, giftId);
      if found.None? {
        reply := Raised(AttributeError);
        return;
      }
      var gift := found.value;
      data := data.(selectedGift := Stored(Some(gift)));
      reply := AskQuantity(Display(gift), gift.price);
      state := Some(WaitingQuantity);
    }

    /** try_cancel: on `/cancel` clears the session and reports true; otherwise changes nothing. */
    method TryCancel(text: Option<string>) returns (cancelled: bool)
      modifies this
      ensures cancelled == IsCancelCommand(text)
      ensures cancelled ==> IsClear()
      ensures !cancelled ==> unchanged(this)
    {
      if text.Some? && |text.value| > 0 && Lower(Strip(text.value)) == CancelKeyword {
        Clear();
        return true;
      }
      return false;
    }

    /** What the quantity step does with `text`, as a relation between the session before and after. */
    twostate predicate QuantityStep(text: Option<string>, reply: Reply)
      reads this
    {
      && (IsCancelCommand(text) ==> reply == ActionCanceled && IsClear())
      && (!IsCancelCommand(text) && ParseQuantity(text).None? ==>
            reply == NotPositiveInteger && state == old(state) && data == old(data))
      && (!IsCancelCommand(text) && ParseQuantity(text).Some? ==>
            && data == old(data).(selectedQty := Stored(ParseQuantity(text).value))
            && state == Some(WaitingRecipient)
            && reply == AskRecipient)
    }

    /**
     * on_quantity_entered: after the cancel guard, a text that is not a positive integer is
     * answered with a re-prompt and changes nothing; a positive one is stored and the recipient
     * is asked for.
     */
    method EnterQuantity(text: Option<string>) returns (reply: Reply)
      requires state == Some(WaitingQuantity)
      modifies this
      ensures QuantityStep(text, reply)
      ensures old(Valid()) ==> Valid()
    {
      var cancelled := TryCancel(text);
      if cancelled {
        reply := ActionCanceled;
        return;
      }
      var qty := ParseQuantity(text);
      if qty.None? {
        reply := NotPositiveInteger;
        return;
      }
      data := data.(selectedQty := Stored(qty.value));
      reply := AskRecipient;
      state := Some(WaitingRecipient);
    }

    /** What the recipient step does with `text`, as a relation between the session before and after. */
    twostate predicate RecipientStep(text: Option<string>, reply: Reply)
      reads this
    {
      && (IsCancelCommand(text) ==> reply == ActionCanceled && IsClear())
      && (!IsCancelCommand(text) && text.None? ==>
            reply == Raised(AttributeError) && state == old(state) && data == old(data))
      && (!IsCancelCommand(text) && text.Some? && ClassifyRecipient(text.value).Rejected? ==>
            reply == BadRecipient && state == old(state) && data == old(data))
      && (!IsCancelCommand(text) && text.Some? && !ClassifyRecipient(text.value).Rejected? ==>
            var recipient := ClassifyRecipient(text.value);
            && data == old(data).(targetUserId := Stored(TargetUserId(recipient)),
                                  targetChatId := Stored(TargetChatId(recipient)))
            && (TargetUserId(recipient).Some? != TargetChatId(recipient).Some?)
            && (if old(data).selectedGift.Stored? && old(data).selectedGift.value.Some? && old(data).selectedQty.Stored?
                then
                  var gift := old(data).selectedGift.value.value;
                  var qty := old(data).selectedQty.value;
                  && reply == Summary(Display(gift), qty, gift.price, gift.price * qty,
                                      TargetUserId(recipient), TargetChatId(recipient))
                  && state == Some(WaitingConfirm)
                else
                  && state == old(state)
                  && reply == (if old(data).selectedGift.Absent? then Raised(KeyError("selected_gift"))
                               else if old(data).selectedQty.Absent? then Raised(KeyError("selected_qty"))
                               else Raised(AttributeError))))
    }

    /**
     * on_recipient_entered: after the cancel guard, a message without text fails on `strip`, a
     * rejected recipient is answered with a re-prompt and changes nothing, and an accepted one is
     * stored in the two target keys. Then the stored gift and quantity are read (failing when a
     * key is missing or the gift is falsy), the summary with `total = price * qty` is shown and
     * the confirmation is awaited.
     */
    method EnterRecipient(text: Option<string>) returns (reply: Reply)
      requires state == Some(WaitingRecipient)
      modifies this
      ensures RecipientStep(text, reply)
      ensures old(Valid()) && !IsCancelCommand(text) && text.Some? && !ClassifyRecipient(text.value).Rejected? ==>
        reply.Summary?
      ensures old(Valid()) ==> Valid()
    {
      var cancelled := TryCancel(text);
      if cancelled {
        reply := ActionCanceled;
        return;
      }
      if text.None? {
        reply := Raised(AttributeError);
        return;
      }
      var recipient := ClassifyRecipient(text.value);
      if recipient.Rejected? {
        reply := BadRecipient;
        return;
      }
      ExactlyOneTarget(recipient);
      data := data.(targetUserId := Stored(TargetUserId(recipient)),
                    targetChatId := Stored(TargetChatId(recipient)));
      if data.selectedGift.Absent? {
        reply := Raised(KeyError("selected_gift"));
        return;
      }
      if data.selectedQty.Absent? {
        reply := Raised(KeyError("selected_qty"));
        return;
      }
      if data.selectedGift.value.None? {
        reply := Raised(AttributeError);
        return;
      }
      var gift := data.selectedGift.value.value;
      var qty := data.selectedQty.value;
      var total := gift.price * qty;
      reply := Summary(Display(gift), qty, gift.price, total, TargetUserId(recipient), TargetChatId(recipient));
      state := Some(WaitingConfirm);
    }

    /**
     * confirm_purchase: a missing gift key fails, a falsy gift is answered as an invalid request
     * and changes nothing, a missing quantity key fails; otherwise the purchase loop runs, its
     * report is shown and the session is cleared, whatever the loop bought.
     */
    method Confirm(buy: nat -> bool) returns (reply: Reply)
      modifies this
      ensures old(data).selectedGift.Absent? ==> reply == Raised(KeyError("selected_gift")) && unchanged(this)
      ensures old(data).selectedGift == Stored(None) ==> reply == InvalidRequest && unchanged(this)
      ensures old(data).selectedGift.Stored? && old(data).selectedGift.value.Some? && old(data).selectedQty.Absent? ==>
        reply == Raised(KeyError("selected_qty")) && unchanged(this)
      ensures old(data).selectedGift.Stored? && old(data).selectedGift.value.Some? && old(data).selectedQty.Stored? ==>
        var qty := old(data).selectedQty.value;
        var bought := Streak(buy, qty);
        && reply == Purchased(Display(old(data).selectedGift.value.value), ReportFor(bought, qty),
                              if bought < qty then bought + 1 else bought, LoopTrace(bought, bought < qty))
        && (qty >= 0 ==> (reply.report.Completed? <==> forall j :: 0 <= j < qty ==> buy(j)))
        && IsClear()
      ensures old(Valid()) && old(state) == Some(WaitingConfirm) ==> reply.Purchased?
      ensures old(Valid()) ==> Valid()
    {
      if data.selectedGift.Absent? {
        reply := Raised(KeyError("selected_gift"));
        return;
      }
      var gift := data.selectedGift.value;
      if gift.None? {
        reply := InvalidRequest;
        return;
      }
      if data.selectedQty.Absent? {
        reply := Raised(KeyError("selected_qty"));
        return;
      }
      var qty := data.selectedQty.value;
      var bought, calls, trace := PurchaseLoop(qty, buy);
      if qty >= 0 {
        CompletedIffAllSucceed(buy, qty);
      }
      reply := Purchased(Display(gift.value), ReportFor(bought, qty), calls, trace);
      Clear();
    }

    /** cancel_callback: clears the session from any state and reports the cancellation. */
    method CancelPurchase() returns (reply: Reply)
      modifies this
      ensures IsClear() && Valid()
      ensures reply == ActionCanceled
    {
      Clear();
      reply := ActionCanceled;
    }

    /**
     * A text message, routed by the FSM state the way the router filters do: to the quantity step,
     * to the recipient step, or to no handler of the wizard. `/cancel` in either free-text state
     * ends the dialog.
     */
    method OnMessage(text: Option<string>) returns (reply: Reply)
      modifies this
      ensures old(state) != Some(WaitingQuantity) && old(state) != Some(WaitingRecipient) ==>
        reply == NotHandled && unchanged(this)
      ensures old(state) == Some(WaitingQuantity) ==> QuantityStep(text, reply)
      ensures old(state) == Some(WaitingRecipient) ==> RecipientStep(text, reply)
      ensures (old(state) == Some(WaitingQuantity) || old(state) == Some(WaitingRecipient)) && IsCancelCommand(text) ==>
        reply == ActionCanceled && IsClear()
      ensures old(Valid()) ==> Valid()
    {
      if state == Some(WaitingQuantity) {
        reply := EnterQuantity(text);
      } else if state == Some(WaitingRecipient) {
        reply := EnterRecipient(text);
      } else {
        reply := NotHandled;
      }
    }
  }
}

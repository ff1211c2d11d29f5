/**
 * The gift catalog as the wizard sees it: the entries returned by the catalog provider, the
 * selection keyboard built from them, the limited/unlimited split shown with it, and the lookup
 * of a pressed button's gift.
 */
module Catalog {
  import opened Wrappers
  import opened PyStr

  /**
   * One catalog entry. `id` is held as its string form `str(gift['id'])`, which is what both the
   * button's callback data and the lookup use. `supply == None` marks an unlimited gift; `left`
   * is only read when `supply` is set.
   */
  datatype Gift = Gift(id: string, emoji: string, price: int, supply: Option<int>, left: int)

  /** How a gift is named on screen: its emoji when unlimited, "left of supply" otherwise. */
  datatype GiftDisplay = Emoji(emoji: string) | Remaining(left: int, supply: int)

  /** Button text, kept abstract: the gift's display with its price, or the return-to-menu label. */
  datatype Label = GiftLabel(display: GiftDisplay, price: int) | ReturnToMenuLabel

  datatype Button = Button(text: Label, callback: string)

  const GiftCallbackPrefix: string := "catalog_gift_"
  const MainMenuCallback: string := "catalog_main_menu"

  /**
   * How a gift is shown on its button, in the selection prompt, the summary and the report:
   * its emoji when it has no supply, otherwise how many are left of the supply.
   */
  function Display(g: Gift): GiftDisplay {
    if g.supply.None? then Emoji(g.emoji) else Remaining(g.left, g.supply.value)
  }

  /** The callback data carried by a gift's button: `catalog_gift_<id>`. */
  function GiftCallback(g: Gift): string {
    GiftCallbackPrefix + g.id
  }

  /** A well-formed selection keyboard: one row per gift in catalog order, then one return-to-menu row. */
  ghost predicate IsCatalogKeyboard(gifts: seq<Gift>, keyboard: seq<seq<Button>>) {
    && |keyboard| == |gifts| + 1
    && (forall i :: 0 <= i < |gifts| ==>
          keyboard[i] == [Button(GiftLabel(Display(gifts[i]), gifts[i].price), GiftCallback(gifts[i]))])
    && keyboard[|gifts|] == [Button(ReturnToMenuLabel, MainMenuCallback)]
  }

  /** gifts_catalog_keyboard: one button row per gift, appended in order, then the menu row. */
  method CatalogKeyboard(gifts: seq<Gift>) returns (keyboard: seq<seq<Button>>)
    ensures IsCatalogKeyboard(gifts, keyboard)
  {
    keyboard := [];
    for i := 0 to |gifts|
      invariant |keyboard| == i
      invariant forall j :: 0 <= j < i ==>
        keyboard[j] == [Button(GiftLabel(Display(gifts[j]), gifts[j].price), GiftCallback(gifts[j]))]
    {
      var gift := gifts[i];
      var btn;
      if gift.supply == None {
        btn := Button(GiftLabel(Emoji(gift.emoji), gift.price), GiftCallbackPrefix + gift.id);
      } else {
        btn := Button(GiftLabel(Remaining(gift.left, gift.supply.value), gift.price), GiftCallbackPrefix + gift.id);
      }
      keyboard := keyboard + [[btn]];
    }
    keyboard := keyboard + [[Button(ReturnToMenuLabel, MainMenuCallback)]];
  }

  /** Every button of a catalog keyboard is routed either to gift selection or to the menu, never both. */
  lemma KeyboardRouting(gifts: seq<Gift>, keyboard: seq<seq<Button>>, i: nat)
    requires IsCatalogKeyboard(gifts, keyboard) && i < |keyboard|
    ensures StartsWith(keyboard[i][0].callback, GiftCallbackPrefix) <==> i < |gifts|
    ensures keyboard[i][0].callback == MainMenuCallback <==> i == |gifts|
  {
    if i < |gifts| {
      assert keyboard[i][0].callback[..|GiftCallbackPrefix|] == GiftCallbackPrefix;
      assert keyboard[i][0].callback[8] == 'g' != MainMenuCallback[8];
    } else {
      assert MainMenuCallback[..|GiftCallbackPrefix|][8] != GiftCallbackPrefix[8];
    }
  }

  // ---------------------------------------------------------------------------
  // The counts shown above the keyboard

  /** `[g for g in gifts if g['supply'] != None]` */
  function Limited(gifts: seq<Gift>): (r: seq<Gift>)
    ensures forall g :: g in r <==> g in gifts && g.supply.Some?
    ensures forall g :: multiset(r)[g] == if g.supply.Some? then multiset(gifts)[g] else 0
  {
    if gifts == [] then []
    else
      assert gifts == [gifts[0]] + gifts[1..];
      (if gifts[0].supply.Some? then [gifts[0]] else []) + Limited(gifts[1..])
  }

  /** `[g for g in gifts if g['supply'] == None]` */
  function Unlimited(gifts: seq<Gift>): (r: seq<Gift>)
    ensures forall g :: g in r <==> g in gifts && g.supply.None?
    ensures forall g :: multiset(r)[g] == if g.supply.None? then multiset(gifts)[g] else 0
  {
    if gifts == [] then []
    else
      assert gifts == [gifts[0]] + gifts[1..];
      (if gifts[0].supply.None? then [gifts[0]] else []) + Unlimited(gifts[1..])
  }

  /** Every gift is counted exactly once: the two counts add up to the catalog's length. */
  lemma {:induction false} PartitionCounts(gifts: seq<Gift>)
    ensures |Limited(gifts)| + |Unlimited(gifts)| == |gifts|
  {
    if gifts != [] {
      PartitionCounts(gifts[1..]);
    }
  }

  // ---------------------------------------------------------------------------
  // Looking up the selected gift

  /** Position of the first gift whose id is `id`, or `|gifts|` when there is none. */
  function FirstIndexOf(gifts: seq<Gift>, id: string): (k: nat)
    ensures k <= |gifts|
    ensures forall j :: 0 <= j < k ==> gifts[j].id != id
    ensures k < |gifts| ==> gifts[k].id == id
  {
    if gifts == [] then 0
    else if gifts[0].id == id then 0
    else 1 + FirstIndexOf(gifts[1..], id)
  }

  /** `next((g for g in gifts if str(g['id']) == id), None)` */
  function FindGift(gifts: seq<Gift>, id: string): (r: Option<Gift>)
    ensures r.None? <==> forall g :: g in gifts ==> g.id != id
    ensures r.Some? ==> r.value == gifts[FirstIndexOf(gifts, id)] && r.value.id == id
  {
    var k := FirstIndexOf(gifts, id);
    if k < |gifts| then Some(gifts[k]) else None
  }

  /** The gift id that on_gift_selected reads from callback data: the text after its last `_`. */
  function SelectedId(data: string): (id: string)
    ensures '_' !in id
  {
    LastSegment(data, '_')
  }

  /**
   * Pressing the button of a gift whose id has no `_` selects a gift with that id (the first one in
   * catalog order, so the gift itself when ids are distinct).
   */
  lemma SelectButtonFindsGift(gifts: seq<Gift>, i: nat)
    requires i < |gifts| && '_' !in gifts[i].id
    ensures SelectedId(GiftCallback(gifts[i])) == gifts[i].id
    ensures FindGift(gifts, SelectedId(GiftCallback(gifts[i]))) == Some(gifts[FirstIndexOf(gifts, gifts[i].id)])
    ensures FirstIndexOf(gifts, gifts[i].id) <= i
  {
    assert GiftCallback(gifts[i]) == "catalog_gift" + ['_'] + gifts[i].id;
    LastSegmentAfter("catalog_gift", '_', gifts[i].id);
    assert gifts[i] in gifts;
  }
}

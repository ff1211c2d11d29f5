# Catalog purchase wizard — a Dafny model

This project models the purchase wizard of a Telegram gift shop bot (`handlers/handlers_catalog.py`).
A user opens the gift catalog and presses a gift's button. They then type a quantity and a
recipient (a numeric user id or an `@channel` username) and confirm. The bot then calls the
purchase service once per unit. It stops at the first failed call, pauses after every successful
one, and reports whether everything was bought. Every handler reads and updates the user's dialog
session: an FSM state (`waiting_quantity`, `waiting_recipient`, `waiting_confirm` or none) and a
data dict (`gifts_catalog`, `selected_gift`, `selected_qty`, `target_user_id`, `target_chat_id`).
`/cancel` typed at either free-text step ends the dialog.

Modules, one per concern of the handler file:

- `Wrappers` (wrappers.dfy): `Option`, and `Entry` for a dict key that is absent or stored.
- `PyStr` (pystr.dfy): the Python built-ins the handlers use, on ASCII: `strip`, `lower`,
  `isdigit`, `int()`, `str()`, `in` on strings, `split("_")[-1]`.
- `Catalog` (catalog.dfy): gifts, the selection keyboard, the limited/unlimited counts, the
  lookup of a pressed gift.
- `Input` (input.dfy): the `/cancel` guard, the quantity parse, the recipient classification.
- `Purchase` (purchase.dfy): the purchase loop over an oracle `buy(k)` (the answer of the k-th
  call), its event trace, and the report chosen afterwards.
- `SafeEdit` (safeedit.dfy): the error classification of `safe_edit_text`.
- `Wizard` (wizard.dfy): the class `CatalogSession` (one user's FSM state and data dict), with one
  method per handler and the invariant `Valid()` that every handler preserves.
- `Scenarios` (scenarios.dfy): complete dialogs, from opening the catalog to the purchase report.

What the handlers show the user is modelled as a `Reply` value. Exceptions the handlers let
escape are modelled as `Raised(KeyError(key))` or `Raised(AttributeError)`. Examples: pressing a
button whose gift id is not in the cached catalog; confirming when `selected_gift` was never
stored; a message without text at the recipient step.

The code is modelled as written. Where it differs from the wizard's intended design, the model
follows the code:

- A pause follows every successful purchase call, including the last one (line 252). It is not
  only a pause between calls.
- An absent or empty cached catalog at gift selection only reports the catalog as outdated. It
  does not clear the session (lines 115-118).
- A gift id that is not in the cached catalog is not reported as stale. The lookup yields
  `None`, and line 121 then dereferences it (`Raised(AttributeError)`).
- At confirmation, a missing `selected_gift` key raises (line 223). A falsy stored gift only
  replies and returns, without clearing the session (lines 224-227).
- Opening the catalog sets no FSM state and keeps the other keys (line 75).

## Model

| member | source | states |
|---|---|---|
| `PyStr.StripCut` | handlers/handlers_catalog.py:287 | `strip()` returns exactly the slice between the leading and the trailing whitespace |
| `PyStr.ParseShow` | handlers/handlers_catalog.py:144 | `int(str(n)) == n` for every integer |
| `PyStr.ContainsAt` | handlers/handlers_catalog.py:303 | `sub in s` holds exactly when `sub` occurs at some position of `s` |
| `PyStr.LastSegment` | handlers/handlers_catalog.py:112 | `s.split("_")[-1]` is the longest `_`-free suffix of `s`: it has no `_`, and anything before it ends in `_` |
| `PyStr.LastSegmentAfter` | handlers/handlers_catalog.py:112 | what follows the last `_` is the last segment, whatever precedes it |
| `Catalog.CatalogKeyboard` | handlers/handlers_catalog.py:30-57 | n+1 rows: row i is the single button of gift i (its display, its price, callback `catalog_gift_<id>`), in catalog order, then one `catalog_main_menu` row |
| `Catalog.KeyboardRouting` | handlers/handlers_catalog.py:36-55 | a keyboard button's callback starts with `catalog_gift_` exactly for the gift rows, and equals `catalog_main_menu` exactly for the last row |
| `Catalog.Limited` | handlers/handlers_catalog.py:77 | a gift is in the limited list exactly when it is in the catalog and has a supply, and it occurs there as often as in the catalog, so the "unique gifts" count is the number of catalog entries with a supply |
| `Catalog.Unlimited` | handlers/handlers_catalog.py:78 | a gift is in the unlimited list exactly when it is in the catalog and has no supply, and it occurs there as often as in the catalog, so the "regular gifts" count is the number of catalog entries without one |
| `Catalog.PartitionCounts` | handlers/handlers_catalog.py:77-82 | the limited count plus the unlimited count is the catalog's length |
| `Catalog.FindGift` | handlers/handlers_catalog.py:119 | `None` exactly when no gift has the id; otherwise the first gift in catalog order with that id |
| `Catalog.SelectedId` | handlers/handlers_catalog.py:112 | the id read from callback data never contains `_` |
| `Catalog.SelectButtonFindsGift` | handlers/handlers_catalog.py:112-119 | pressing the button of a gift whose id has no `_` reads back that id, and the lookup finds the first gift with it, at or before the pressed one |
| `Input.CancelCommandIff` | handlers/handlers_catalog.py:287 | the guard fires exactly when the text is present and its stripped, lower-cased form is `/cancel` |
| `Input.CancelPadded` | handlers/handlers_catalog.py:287 | any capitalisation of `/cancel` surrounded by whitespace cancels |
| `Input.CancelIsNoInput` | handlers/handlers_catalog.py:140-149 | a text the guard takes as `/cancel` is neither a valid quantity nor an accepted recipient |
| `Input.ParseQuantity` | handlers/handlers_catalog.py:143-149 | an accepted quantity is strictly positive; a missing text is never accepted |
| `Input.QuantityAccepted` | handlers/handlers_catalog.py:144-146 | a text is accepted exactly when it parses as an integer greater than 0, and the quantity is that integer |
| `Input.QuantityOfShow` | handlers/handlers_catalog.py:143-149 | a decimal number n is accepted as quantity n exactly when n > 0 |
| `Input.QuantityNumberSamples` | handlers/handlers_catalog.py:143-149 | `3` is accepted as 3; `0` and `-1` are rejected |
| `Input.QuantityTextSamples` | handlers/handlers_catalog.py:143-149 | `abc` and a message without text are rejected |
| `Input.ClassifyRecipient` | handlers/handlers_catalog.py:171-182 | a channel username starts with `@`; a user id is not negative |
| `Input.ClassifyRecipientCases` | handlers/handlers_catalog.py:171-182 | on the stripped text: a channel exactly when it starts with `@` (the whole stripped text is kept), a user exactly when it is all digits, rejected exactly when neither |
| `Input.ClassifyTight` | handlers/handlers_catalog.py:171-182 | a text without surrounding whitespace is classified by its own first character and digits |
| `Input.RecipientOfShow` | handlers/handlers_catalog.py:175-177 | a non-negative number written in decimal (such as `12345`) is the user with that id |
| `Input.RecipientOfDigits` | handlers/handlers_catalog.py:175-177 | any string of digits, leading zeros included, is the user whose id is its value |
| `Input.RecipientOfChannel` | handlers/handlers_catalog.py:172-174 | `@name` is the channel `@name`, for any name without trailing whitespace, including the empty one (a bare `@`) |
| `Input.RecipientRejected` | handlers/handlers_catalog.py:178-182 | a stripped text starting with neither `@` nor a digit is rejected |
| `Input.RejectedSamples` | handlers/handlers_catalog.py:178-182 | `abc` and the empty text are rejected |
| `Input.ExactlyOneTarget` | handlers/handlers_catalog.py:184-187 | an accepted recipient fills exactly one of `target_user_id` and `target_chat_id` |
| `Purchase.Streak` | handlers/handlers_catalog.py:236-252 | the number of leading successful calls, capped at `qty`: all calls before it succeed, and the call at it fails unless it reaches `qty` |
| `Purchase.StreakIs` | handlers/handlers_catalog.py:237-249 | the streak is determined by the answers: k successes followed by a failure (or reaching `qty`) give k |
| `Purchase.PurchaseLoop` | handlers/handlers_catalog.py:236-252 | `bought` is the streak and never exceeds `qty`; `qty` calls when all succeed, `bought + 1` when one fails; the events are `bought` pairs (successful call, pause), then the failed call if there was one |
| `Purchase.SuccessRunAt` | handlers/handlers_catalog.py:251-252 | in a run of successes, calls sit at even positions and pauses at odd ones |
| `Purchase.TraceCounts` | handlers/handlers_catalog.py:237-252 | the loop's events contain `bought` calls (plus one if it stopped) and exactly `bought` pauses |
| `Purchase.PauseAfterEverySuccess` | handlers/handlers_catalog.py:251-252 | every successful call, the last one included, is followed at once by a pause |
| `Purchase.NothingAfterFailure` | handlers/handlers_catalog.py:248-249 | a failed call is the loop's last event: no call and no pause follow it |
| `Purchase.CompletedIffAllSucceed` | handlers/handlers_catalog.py:254-264 | the completed report is chosen exactly when all `qty` calls succeed; otherwise the stopped one |
| `Purchase.StoppedAtFirstFailure` | handlers/handlers_catalog.py:248-264 | when call k is the first to fail (1 ≤ k ≤ qty), k−1 units are bought and the stopped report says so |
| `SafeEdit.SafeEditText` | handlers/handlers_catalog.py:295-307 | returns true exactly when the edit succeeds; returns false exactly for a bad request whose description has `message can't be edited` or `message to edit not found` at some position; propagates every other error |
| `SafeEdit.PrefixedDescription` | handlers/handlers_catalog.py:303 | the server's text with any prefix in front is still recognised as a stale message |
| `Wizard.CatalogSession.OpenCatalog` | handlers/handlers_catalog.py:60-86 | stores the fetched catalog and changes no other key and not the state; shows the unlimited and limited counts (summing to the catalog's length) and the catalog keyboard |
| `Wizard.CatalogSession.ReturnToMenu` | handlers/handlers_catalog.py:89-104 | clears the session from any state and closes the catalog |
| `Wizard.CatalogSession.SelectGift` | handlers/handlers_catalog.py:107-131 | with no cached catalog: replies "outdated" and changes nothing; with an unknown id: raises and changes nothing; otherwise stores the first gift whose id is the callback's last segment and moves to `waiting_quantity` |
| `Wizard.CatalogSession.TryCancel` | handlers/handlers_catalog.py:282-292 | returns true and clears the session exactly on `/cancel`; otherwise returns false and changes nothing |
| `Wizard.CatalogSession.EnterQuantity` | handlers/handlers_catalog.py:134-160 | `/cancel` clears the session; an invalid quantity re-prompts with no write and no state change; a valid q > 0 is stored as `selected_qty` and the state becomes `waiting_recipient` |
| `Wizard.CatalogSession.EnterRecipient` | handlers/handlers_catalog.py:163-214 | `/cancel` clears the session; a rejected text re-prompts with no write; an accepted one writes exactly one non-None target; with gift and quantity stored, the summary has `total == price * qty` and the state becomes `waiting_confirm`; otherwise it raises, in the order of the reads: `KeyError` on `selected_gift`, then `KeyError` on `selected_qty`, then `AttributeError` on a falsy gift, with the state unchanged. In a valid session an accepted recipient never raises |
| `Wizard.CatalogSession.Confirm` | handlers/handlers_catalog.py:217-268 | a missing gift or quantity key raises and changes nothing; a falsy gift replies "invalid" and changes nothing; otherwise the loop's report (completed exactly when all `qty` calls succeed) is shown and the session cleared. From `waiting_confirm` in a valid session it always purchases |
| `Wizard.CatalogSession.CancelPurchase` | handlers/handlers_catalog.py:271-279 | clears the session from any state and reports the cancellation |
| `Wizard.CatalogSession.OnMessage` | handlers/handlers_catalog.py:134-168 | a text message goes to the quantity step in `waiting_quantity`, to the recipient step in `waiting_recipient`, and is not handled otherwise (nothing changes); `/cancel` in either step clears the session |
| `Scenarios.AllPurchasesSucceed` | handlers/handlers_catalog.py:107-268 | select a gift, enter q > 0, enter `@name`, confirm, every call succeeds: q units bought with q calls and q pauses, the completed report |
| `Scenarios.PurchaseFailsAt` | handlers/handlers_catalog.py:107-268 | the same dialog where call k is the first to fail: k calls, k−1 units bought and paused after, the stopped report |

`Catalog.Display` is the display rule itself, not a proved property. A gift with no supply is shown by its emoji; any other gift shows how many are left of its supply (lines 37-46, 121, 195, 234). `Catalog.CatalogKeyboard` is proved to produce that display from the keyboard's own `supply == None` branch.

Each handler method also ensures `old(Valid()) ==> Valid()`. `Valid()` says:

- no falsy gift is ever stored;
- a stored quantity is positive;
- the two target keys are written together, and exactly one of them names a target;
- each waiting state has the keys its earlier steps wrote.

## Left out

- Routing: aiogram's router, decorators, `wizard_router` and `register_catalog_handlers` (lines 18, 310-314) are left out. `OnMessage` models only the state filters of the two message handlers. Each callback handler is called directly, since it has no state filter.
- Message I/O: sending, editing and answering messages, and the callback answers, are not modelled. A handler's `Reply` records which message it chooses.
- Message text: the texts themselves, with emoji, HTML and the `:,` thousands separators, are not modelled. Labels are abstract (`Label`, `GiftDisplay`).
- Transport failures are not modelled: every send and edit is assumed to succeed. A failing unguarded `edit_text` at line 124 would leave `selected_gift` stored without the state change. The model does not capture that.
- The `asyncio.sleep(0.3)` pause is recorded as a `Pause` event, without timing.
- `buy_gift` is the oracle `buy(k)`. Its arguments are the same on every call of one loop (bot, purchaser id, gift id, targets, price), so they are not passed.
- `get_filtered_gifts` is replaced by the `fetched` parameter of `OpenCatalog`. Its filter arguments are not modelled: price 0 to 1,000,000, supply 0 to 100,000,000, unlimited gifts included.
- `refresh_balance` and `update_menu` have no visible code and are not modelled. `update_menu` follows the return-to-menu, cancel, `/cancel` and confirm paths.
- `get_target_display_local` has no visible code. The summary carries the two target ids instead of the recipient's display text.
- One `CatalogSession` object stands for one user's FSM context. The framework keys contexts by chat and user, and the dispatch of events to them is not modelled.
- Python's Unicode string behaviour is not modelled. `PyStr` strips only ASCII whitespace, lower-cases only `A`–`Z`, and treats only `0`–`9` as digits. `int()` ignoring underscores between digits is not modelled either.
- Gift ids are held as their string form `str(id)`. The keyboard-to-selection round trip is proved only for ids without `_`, because an id with `_` is cut at its last `_` on the way back.
- `CatalogFSM.waiting_gift` is declared (line 24) but no handler enters it. The model keeps the state and `Valid()` excludes it.

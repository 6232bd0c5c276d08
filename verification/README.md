# Sandwich kiosk order core, in Dafny

This project models the deterministic core of a voice-driven sandwich
ordering kiosk and proves properties of that model.

- **The order reducer** (`app/lib/orderLogic.ts`). It applies one action
  command to a session: a cart, an optional item being composed, and a
  status. It returns the next session and a message. `processCommands`
  folds it over a batch in order. The menu templates and option lists come
  from `app/constants.ts`. The shapes come from `app/types.ts`.
- **The batch guard** (`app/lib/agents/orderAgent.ts`). This is the step
  between the language model's proposal and the reducer. The JSON payload
  is brought to a list of commands. Then every command that does not fit
  the session as it was before the batch is dropped.
- **The receipt normaliser** (`frontend/mapping/receiptMapper.ts`). Loosely
  shaped backend receipts are mapped to one front-end schema.
- **The kiosk page helpers** (`frontend/app/page.tsx`). These cover:
  - list deduplication and a cart line's ingredient operations;
  - pick toggling;
  - the slot-filling rules of the "set ingredients" intent;
  - the back-navigation table;
  - the review screen's cart buttons.

The source mutates objects in place. Here every operation is a pure
function from values to values. Absent or `undefined` fields are `Option`s.
JavaScript truthiness, `??`, `||` on numbers, `Array.isArray`,
`findIndex`'s `-1` and insertion-ordered `Set`s are written out explicitly.

Modules, in dependency order:

| file | module | contents |
|---|---|---|
| seqs.dfy | `Seqs` | `Option`, duplicate-freedom, `Without`/`Keep`/`Dedup`, `Join`, decimal rendering |
| ordered_lists.dfy | `OrderedLists` | `addUniqueItems`, `removeItems` and their laws |
| types.dfy | `Types` | steps, statuses, items, sessions, commands, action names |
| catalog.dfy | `Catalog` | the option lists, the ten menu templates and lookup |
| order_logic.dfy | `OrderLogic` | the reducer and the batch fold |
| order_laws.dfy | `OrderLaws` | the session invariant, and "a refusal changes nothing" |
| order_specs.dfy | `OrderSpecs` | per-action specifications, batch laws, worked sessions |
| batch_guard.dfy | `BatchGuard` | payload normalisation and the pre-state filter |
| receipt_mapper.dfy | `ReceiptMapper` | item and receipt normalisation |
| kiosk.dfy | `Kiosk` | the page helpers |

In these places the reducer's behaviour is modelled as written:

- `remove_from_cart` with an index out of range, and a recognised action
  whose guarding parameter is missing or falsy, do not produce a dedicated
  refusal. They fall through the reducer's chain of `if`s to the final
  "Unknown action: …" answer. The state is untouched in every case.
- The reducer does not enforce the status lifecycle:
  - `start_item` sets `building` from any status;
  - `complete_order` and `cancel_order` apply in any status;
  - `confirm_order` only requires a non-empty cart.
- `set_step` is handled by the reducer, but it is not in the `ACTIONS`
  list. `help` is in the list, but the reducer treats it as unknown
  (`Catalog.ActionsVersusReducer`).

## Model

All `orderLogic.ts` rows refer to `app/lib/orderLogic.ts`.

| member | source | states |
|---|---|---|
| Types.ParseAction | app/lib/orderLogic.ts:41-193 | every action string selects exactly one branch of the reducer; a name outside the known set selects the final unknown-action branch |
| Types.KnownKindRoundTrip | app/lib/orderLogic.ts:45-191 | each of the reducer's action names is recognised as its own branch |
| Types.StepRoundTrip | app/types.ts:1 | the six step names and the step values correspond one to one |
| Types.StatusRoundTrip | app/types.ts:2 | the five status names and the status values correspond one to one |
| Catalog.IsValidOption | app/lib/orderLogic.ts:24-26 | a value is valid exactly when some entry of the option list equals it |
| Catalog.FindMenu | app/lib/orderLogic.ts:53 | the template found is a catalog template with that name; none is found only when no template has the name |
| Catalog.MenuNamesDistinct | app/constants.ts:34-115 | no two menu templates share a name |
| Catalog.FindMenuExact | app/constants.ts:34-115 | looking up a template's own name finds exactly that template |
| Catalog.OptionListsDistinct | app/constants.ts:21-32 | the bread, cheese, vegetable and sauce lists have no repeats |
| Catalog.TemplatesValid | app/constants.ts:34-115 | every template's default bread, cheese, vegetables and sauces are catalog options, without repeats |
| Catalog.HamTemplate | app/constants.ts:91-98 | the "햄" template has the listed defaults |
| Catalog.ActionsVersusReducer | app/constants.ts:1-19 | `help` is advertised but unknown to the reducer; `set_step` is handled but not advertised; every other reducer action is advertised |
| OrderedLists.AddUniqueItems | app/lib/orderLogic.ts:28-32 | the old list stays a prefix; the result holds exactly the old and new elements; no repeats are introduced |
| OrderedLists.AddUniqueIsAppendDedup | app/lib/orderLogic.ts:28-32 | adding appends the not-yet-present elements, first occurrences only, in input order |
| OrderedLists.AddPresentIsNoop | app/lib/orderLogic.ts:28-32 | adding elements that are all present changes nothing |
| OrderedLists.AddUniqueIdempotent | app/lib/orderLogic.ts:28-32 | adding the same elements twice is adding them once |
| OrderedLists.AddUniqueConcat | app/lib/orderLogic.ts:28-32 | adding `a + b` is adding `a` and then `b` |
| OrderedLists.FromEmptyIsDedup | frontend/app/page.tsx:48 | inserting into an empty list keeps the first occurrence of each element, in order |
| OrderedLists.RemoveItems | app/lib/orderLogic.ts:34-39 | the result is never longer than the old list, holds only elements of the old list and keeps every element not asked for; removing absent elements changes nothing |
| OrderedLists.RemoveItemsCount | app/lib/orderLogic.ts:34-39 | on any list, repeats included, the result as a multiset is the old list minus the names asked for: one occurrence goes per name, while one remains |
| Seqs.IndexOf | app/lib/orderLogic.ts:36 | the position of the first occurrence of a name, or -1 exactly when it is absent |
| Seqs.RemoveFirstSplice | app/lib/orderLogic.ts:36-37 | deleting a present name splices out the element at its `indexOf` position, keeping everything before and after it in order |
| Seqs.RemoveFirstCount | app/lib/orderLogic.ts:36-37 | deleting a name takes away exactly one occurrence of it, if it has one |
| OrderedLists.RemoveItemsOnSetIsWithout | app/lib/orderLogic.ts:34-39 | on a list without repeats, removing is filtering out every element asked for |
| OrderLogic.CreateInitialState | app/lib/orderLogic.ts:4-10 | a session starts with an empty cart, no current item and status init, and satisfies the session invariant |
| OrderLogic.CreateEmptyItem | app/lib/orderLogic.ts:12-22 | a fresh item has nothing chosen, quantity one, step bread, and is valid |
| OrderLogic.AddVegetablesTo | app/lib/orderLogic.ts:82-87 | only the vegetable list changes, and the old list stays a prefix of the new one |
| OrderLogic.RemoveVegetablesFrom | app/lib/orderLogic.ts:89-93 | only the vegetable list changes, and it never grows |
| OrderLogic.AddSaucesTo | app/lib/orderLogic.ts:95-100 | only the sauce list changes, and the old list stays a prefix of the new one |
| OrderLogic.RemoveSaucesFrom | app/lib/orderLogic.ts:102-106 | only the sauce list changes, and it never grows |
| OrderLogic.ModifyMenu | app/lib/orderLogic.ts:134-143 | quantity and step are kept; a known menu name becomes the entry's menu; any other value leaves the entry unchanged |
| OrderLogic.ModifyBreadCheese | app/lib/orderLogic.ts:144-145 | only bread and cheese can change; each becomes the command's value exactly when that value is non-empty and a catalog option, and is kept otherwise |
| OrderLogic.ModifyToppings | app/lib/orderLogic.ts:146-159 | only the two topping lists can change; on duplicate-free lists each becomes the old list with the new catalog-valid names appended once each, in order, and then every name to remove filtered out |
| OrderLogic.ListEdit | app/lib/orderLogic.ts:146-159 | an optional add then an optional remove on a duplicate-free list is an append of the new valid names followed by a filter, an absent field acting as an empty list |
| OrderLogic.ModifyItem | app/lib/orderLogic.ts:134-160 | the step is kept; a positive quantity is set and otherwise the quantity is kept; a known menu is set and otherwise kept; a non-empty catalog bread (cheese) is set, otherwise the new menu's default or, with no known menu, the old value |
| OrderLogic.ProcessAction | app/lib/orderLogic.ts:41-194 | only add/modify/remove actions touch the cart; only start/confirm/complete/cancel touch the status; `modify_cart_item`, `remove_from_cart`, `view_cart`, `confirm_order`, `complete_order`, `cancel_order` and unknown actions never touch the current item |
| OrderLogic.CommandList | app/lib/orderLogic.ts:197 | a single command becomes a batch of one; an array is used as it is |
| OrderLogic.Fold | app/lib/orderLogic.ts:198 | one message per command, whatever the step function |
| OrderLogic.ApplyAll | app/lib/orderLogic.ts:198 | one message per command |
| OrderLogic.ProcessCommands | app/lib/orderLogic.ts:196-199 | one message per command of the batch |
| OrderLaws.ApplyTemplateValid | app/lib/orderLogic.ts:51-62 | applying a catalog template gives a valid item with a menu |
| OrderLaws.ToppingEditsKeepValid | app/lib/orderLogic.ts:82-106 | each of the four topping edits keeps an item valid |
| OrderLaws.ModifyToppingsKeepsValid | app/lib/orderLogic.ts:146-159 | the topping stages of a cart edit keep the entry valid |
| OrderLaws.ModifyItemKeepsValid | app/lib/orderLogic.ts:134-160 | editing a valid cart entry leaves it valid and with a menu |
| OrderLaws.ModifyItemToppings | app/lib/orderLogic.ts:134-159 | on a valid entry each topping list, starting from the entry's list or the named menu's default, gets the new catalog-valid names appended once each and then every name to remove filtered out |
| OrderLaws.StartItemKeepsWellFormed | app/lib/orderLogic.ts:45-49 | starting an item keeps the session invariant |
| OrderLaws.CurrentEditKeepsWellFormed | app/lib/orderLogic.ts:64-121 | replacing the current item by a valid item keeps the session invariant |
| OrderLaws.AppendKeepsWellFormed | app/lib/orderLogic.ts:123-128 | committing a current item that has a menu keeps the session invariant |
| OrderLaws.ReplaceEntryKeepsWellFormed | app/lib/orderLogic.ts:130-162 | replacing a cart entry by a valid item with a menu keeps the session invariant |
| OrderLaws.DeleteEntryKeepsWellFormed | app/lib/orderLogic.ts:164-169 | splicing out a cart entry keeps the session invariant |
| OrderLaws.ProcessActionPreservesWellFormed | app/lib/orderLogic.ts:41-194 | every command keeps the invariant: only catalog options without repeats, a positive quantity, and no menu-less item in the cart |
| OrderLaws.ApplyAllPreservesWellFormed | app/lib/orderLogic.ts:196-199 | a whole batch keeps the session invariant |
| OrderLaws.UnknownIsRejection | app/lib/orderLogic.ts:193 | the unknown-action answer is recognised as a refusal |
| OrderLaws.RefusalLeavesStateUnchanged | app/lib/orderLogic.ts:41-194 | whenever the answer is a refusal, the returned state is the given state |
| OrderSpecs.StartItemInstallsFreshItem | app/lib/orderLogic.ts:45-49 | `start_item` always installs a fresh empty item and sets building, keeping the cart |
| OrderSpecs.SelectMenuAppliesTemplate | app/lib/orderLogic.ts:51-62 | a known menu copies the template's name and defaults into the item, keeps quantity and step, and touches neither cart nor status |
| OrderSpecs.SelectMenuRefusals | app/lib/orderLogic.ts:51-54 | no name: unknown action; no item: "No current item."; unknown name: "Invalid menu."; the state is unchanged in each case |
| OrderSpecs.SelectBreadSpec | app/lib/orderLogic.ts:64-71 | the bread changes, and nothing else, exactly when the value is a bread option; otherwise the matching refusal with the state unchanged |
| OrderSpecs.SelectCheeseSpec | app/lib/orderLogic.ts:73-80 | the same rule over the cheese options |
| OrderSpecs.SetQuantitySpec | app/lib/orderLogic.ts:108-115 | a positive quantity replaces only the quantity; a negative one is refused; zero or none is an unknown action |
| OrderSpecs.NoCurrentItemRefusals | app/lib/orderLogic.ts:82-124 | with no item being composed, `add_vegetables`, `remove_vegetables`, `add_sauce`, `remove_sauce` and `set_step` carrying their argument answer "No current item." and keep the state |
| OrderSpecs.AddVegetablesSpec | app/lib/orderLogic.ts:82-87 | the old list is kept and the new catalog-valid names are appended once each, in order; nothing else changes |
| OrderSpecs.AddSauceSpec | app/lib/orderLogic.ts:95-100 | the same over the sauce options |
| OrderSpecs.AddToppingsTwice | app/lib/orderLogic.ts:82-100 | adding the same toppings twice gives the same state as adding them once |
| OrderSpecs.RemoveVegetablesSpec | app/lib/orderLogic.ts:89-93 | on a valid item (every reachable session's), the item's vegetables become its list with every named vegetable filtered out |
| OrderSpecs.RemoveSauceSpec | app/lib/orderLogic.ts:102-106 | on a valid item (every reachable session's), the item's sauces become its list with every named sauce filtered out |
| OrderSpecs.RemoveAbsentIsNoop | app/lib/orderLogic.ts:89-106 | removing names the item does not hold leaves the state unchanged |
| OrderSpecs.AddToCartSpec | app/lib/orderLogic.ts:123-128 | an item with a menu is appended exactly and cleared; otherwise "No complete item." with the state unchanged |
| OrderSpecs.ModifyCartItemSpec | app/lib/orderLogic.ts:130-162 | only the targeted entry can change; an out-of-range target is refused; a missing target is an unknown action |
| OrderSpecs.ModifyToMenuResetsDefaults | app/lib/orderLogic.ts:134-143 | naming only a known menu resets the entry to the template defaults and keeps its quantity and step |
| OrderSpecs.ModifiedEntry | app/lib/orderLogic.ts:130-162 | an in-range edit replaces the targeted entry by its edited form |
| OrderSpecs.ModifyItemToMenu | app/lib/orderLogic.ts:134-160 | an edit that carries only a known menu is exactly the template's application |
| OrderSpecs.MenuStage | app/lib/orderLogic.ts:134-143 | a known menu name makes the menu stage exactly the template's application |
| OrderSpecs.UntouchedStages | app/lib/orderLogic.ts:144-159 | with no bread, cheese or topping fields, those stages change nothing |
| OrderSpecs.RemoveFromCartSpec | app/lib/orderLogic.ts:164-169 | an in-range target deletes exactly that entry and keeps the rest in order; any other target is an unknown action |
| OrderSpecs.ConfirmOrderSpec | app/lib/orderLogic.ts:175-181 | confirm moves to ready exactly on a non-empty cart; an empty cart is refused with the state unchanged; the items are not touched |
| OrderSpecs.CloseOrderSpec | app/lib/orderLogic.ts:183-191 | complete and cancel set their status in any state and touch nothing else |
| OrderSpecs.CompleteOrderSets | app/lib/orderLogic.ts:183-186 | `complete_order` gives the old state with status `completed`, whatever that state was |
| OrderSpecs.CancelOrderSets | app/lib/orderLogic.ts:188-191 | `cancel_order` gives the old state with status `cancelled`, whatever that state was |
| OrderSpecs.ViewCartInert | app/lib/orderLogic.ts:171-173 | `view_cart` leaves the state unchanged |
| OrderSpecs.UnknownNamesInert | app/lib/orderLogic.ts:193 | every name outside the reducer's vocabulary leaves the state unchanged and is echoed back |
| OrderSpecs.HelpIsUnknown | app/lib/orderLogic.ts:193 | `help` is answered as an unknown action |
| OrderSpecs.FoldAppend | app/lib/orderLogic.ts:198 | for any step function, folding over `a + b` is folding over `a` and then over `b` from its result, with the messages concatenated |
| OrderSpecs.ApplyAllAppend | app/lib/orderLogic.ts:196-199 | running `a + b` is running `a` and then `b` on its result, with the messages concatenated |
| OrderSpecs.ApplyAllMessageAt | app/lib/orderLogic.ts:196-199 | the i-th message answers the i-th command in the state the first i commands left |
| OrderSpecs.ProcessCommandsSingle | app/lib/orderLogic.ts:196-199 | a lone command behaves as a batch of one |
| OrderSpecs.ApplyAllPair | app/lib/orderLogic.ts:198 | a two-command batch applies the second command to the first one's result |
| OrderSpecs.SessionSelectHam | app/lib/orderLogic.ts:45-62 | start then select "햄" gives the template's item as the current item |
| OrderSpecs.SessionSwapVegetable | app/lib/orderLogic.ts:82-93 | removing "토마토" then adding "올리브" keeps the rest in order and appends the new name |
| OrderSpecs.RemoveTomato | app/lib/orderLogic.ts:89-93 | removing one vegetable from the "햄" item keeps the others in order |
| OrderSpecs.AddOlive | app/lib/orderLogic.ts:82-87 | adding a new vegetable appends it |
| OrderSpecs.SessionCommitHam | app/lib/orderLogic.ts:123-128 | committing the "햄" item moves it to the cart |
| OrderSpecs.SessionModifyEmptyCart | app/lib/orderLogic.ts:130-132 | editing entry 0 of an empty cart is refused with the state unchanged |
| OrderSpecs.SessionConfirmTwice | app/lib/orderLogic.ts:175-181 | confirm on one item gives ready; after removing the item, confirm is refused and ready is kept |
| BatchGuard.NormalizePayload | app/lib/agents/orderAgent.ts:169-183 | an array is used as it is; a non-empty object becomes a batch of one; anything else gives no commands |
| BatchGuard.NormalizeMatchesCommandList | app/lib/agents/orderAgent.ts:169-183 | the normalised payload is the reducer's own batch (`Array.isArray(commands) ? commands : [commands]`, app/lib/orderLogic.ts:197) of the array or the lone object, and the empty batch otherwise |
| BatchGuard.FindIndex | app/lib/agents/orderAgent.ts:203 | the first index holding the action, or -1 exactly when none does |
| BatchGuard.KeptIndices | app/lib/agents/orderAgent.ts:192-223 | increasing indices; an index is kept exactly when none of the three rules drops it |
| BatchGuard.Guard | app/lib/agents/orderAgent.ts:225-228 | the kept commands in their original order, never more than the input |
| BatchGuard.NoItemDropsItemEdits | app/lib/agents/orderAgent.ts:193-199 | with no current item, every item edit is dropped |
| BatchGuard.StartItemRule | app/lib/agents/orderAgent.ts:201-208 | with a current item, `start_item` is kept exactly when an earlier `add_to_cart` is in the batch |
| BatchGuard.ModifyTargetRule | app/lib/agents/orderAgent.ts:210-220 | `modify_cart_item` is kept exactly when its target indexes the pre-batch cart |
| BatchGuard.OthersKept | app/lib/agents/orderAgent.ts:192-223 | actions no rule names are always kept |
| BatchGuard.GuardReadsLittle | app/lib/agents/orderAgent.ts:189-190 | the filter depends on the pre-batch state only through "has an item" and the cart's length |
| BatchGuard.NotCumulative | app/lib/agents/orderAgent.ts:187-229 | the checks ignore the batch's own effects: with no item, `[start_item, add_to_cart]` loses `add_to_cart` |
| BatchGuard.GuardOutputFits | app/lib/agents/orderAgent.ts:187-229 | with no item no item edit survives, and every surviving cart edit targets an existing entry |
| ReceiptMapper.AsArray | frontend/mapping/receiptMapper.ts:62-64 | an array's elements, and nothing for anything else |
| ReceiptMapper.FirstNonZero | frontend/mapping/receiptMapper.ts:84-87 | the first present non-zero price, else zero |
| ReceiptMapper.NormalizeItem | frontend/mapping/receiptMapper.ts:69-105 | present id, menu id and name are kept, missing ones become the index, 0 and the empty name; the size is 30 exactly when 30 was sent, else 15; the quantity is the sent one when above one, else one; the unit price is the first non-zero of the two price fields, else 0; missing ingredient operations become two empty lists, and each list is kept only when it is an array |
| ReceiptMapper.ItemSource | frontend/mapping/receiptMapper.ts:113-120 | the lines come from the first of items, order_items, data.items that is an array, else none |
| ReceiptMapper.NormalizeItems | frontend/mapping/receiptMapper.ts:122 | line i of the result is raw line i normalised with fallback id i + 1, so order and count are kept and every line is valid |
| ReceiptMapper.StatusOf | frontend/mapping/receiptMapper.ts:125-129 | CONFIRMED or CANCELLED exactly when the upper-cased raw status reads so; PENDING otherwise |
| ReceiptMapper.NormalizeReceipt | frontend/mapping/receiptMapper.ts:110-140 | line i is line i of the first array-valued source normalised with fallback id i + 1; a present id and total are kept and missing ones become 0; the status is the upper-cased one, PENDING when missing; the creation time passes through unchanged |
| ReceiptMapper.ZeroUnitPriceFallsThrough | frontend/mapping/receiptMapper.ts:84-87 | a zero unit price is not a price: the compatibility price is used |
| ReceiptMapper.ToUpperIdempotent | frontend/mapping/receiptMapper.ts:125 | upper-casing twice is upper-casing once |
| ReceiptMapper.StatusIgnoresCase | frontend/mapping/receiptMapper.ts:125-129 | a status and its upper-cased form map to the same value |
| ReceiptMapper.StatusNamesRoundTrip | frontend/mapping/receiptMapper.ts:125-129 | each status name maps back to its own status |
| ReceiptMapper.LowerCaseStatusNames | frontend/mapping/receiptMapper.ts:125-129 | the status names are recognised in lower case too |
| ReceiptMapper.NormalizeItemRoundTrip | frontend/mapping/receiptMapper.ts:69-105 | a valid front-end line, written out in full, normalises to itself |
| ReceiptMapper.NormalizeItemsRoundTrip | frontend/mapping/receiptMapper.ts:122 | valid lines written out in full normalise to themselves |
| ReceiptMapper.NormalizeReceiptRoundTrip | frontend/mapping/receiptMapper.ts:110-140 | a valid front-end receipt, written out in full, normalises to itself |
| ReceiptMapper.NormalizeReceiptIdempotent | frontend/mapping/receiptMapper.ts:110-140 | normalising an already normalised receipt changes nothing |
| Kiosk.SetOf | frontend/app/page.tsx:48 | the result has no repeats and holds exactly the input's elements |
| Kiosk.UniqIsDedup | frontend/app/page.tsx:48 | `uniq` keeps the first occurrence of each name, in order |
| Kiosk.BuildOps | frontend/app/page.tsx:49 | ADD holds every picked vegetable, sauce and extra exactly once; EXCLUDE is empty |
| Kiosk.BuildOpsOrder | frontend/app/page.tsx:49 | ADD lists the vegetables first, then the new sauces, then the new extras |
| Kiosk.TogglePick | frontend/app/page.tsx:189 | the list passes through a set; a new name is then appended at its end and a present one filtered out; the other lists and the single picks are untouched, and the list has no repeats |
| Kiosk.ToggleTwice | frontend/app/page.tsx:189 | toggling twice restores the set of picked names |
| Kiosk.NamesOfKind | frontend/app/page.tsx:216 | exactly the names of the ingredients of that kind |
| Kiosk.FirstListed | frontend/app/page.tsx:225 | the name found is spoken and in the catalog; none is found only when no spoken name is |
| Kiosk.FirstListedIsFirst | frontend/app/page.tsx:225 | every spoken name before the one found is unknown to the catalog |
| Kiosk.SetSingle | frontend/app/page.tsx:223-228 | the first listed spoken name becomes the bread or cheese; with none (or an empty one) the item is unchanged |
| Kiosk.MultiBase | frontend/app/page.tsx:231-233 | ONLY starts from the listed spoken names, else ALL from the catalog, else the current picks |
| Kiosk.SetMulti | frontend/app/page.tsx:229-237 | the selection has no repeats |
| Kiosk.SetMultiMembership | frontend/app/page.tsx:229-237 | a name ends up selected exactly when it was in the base or was added, and it was not excluded |
| Kiosk.SetMultiAddOrder | frontend/app/page.tsx:234 | without EXCLUDE, ADD keeps the base as a prefix and appends the new names in order |
| Kiosk.ApplyNlu | frontend/app/page.tsx:218-244 | on the bread and cheese screens the item is the single-pick rule applied with that kind's catalog names; on the vegetable, sauce and extra screens that list is the multi-pick rule applied to it with that kind's catalog names and every other pick is kept; other screens, or no item, change nothing |
| Kiosk.BackTableTotal | frontend/app/page.tsx:175-176 | the back table covers every screen, so its fallback is never used |
| Kiosk.BackEntries | frontend/app/page.tsx:175 | START and END go back to START, PAYMENT to REVIEW, RECO_DETAIL to RECO_LIST |
| Kiosk.BackRange | frontend/app/page.tsx:175 | going back never lands on extras, recommendation detail, payment or end |
| Kiosk.BackReachesStart | frontend/app/page.tsx:175-176 | seven back steps reach START from every screen |
| Kiosk.Decrement | frontend/app/page.tsx:430 | only line i changes, and only its quantity, which becomes the larger of one and one less than before |
| Kiosk.Increment | frontend/app/page.tsx:432 | only line i changes, and only its quantity: one more |
| Kiosk.Delete | frontend/app/page.tsx:433 | line i is removed and the rest keep their order; an index with no line changes nothing |
| Kiosk.IncrementThenDecrement | frontend/app/page.tsx:430-432 | plus then minus restores a cart whose line has quantity at least one |

## Left out

- Language-model calls, speech, HTTP, React state and console logging. The
  model starts from the reply's parsed JSON and from the values the handlers
  receive.
- JSON `null`, `NaN` and non-integer numbers. A missing field is `None`;
  numbers are integers. `Number(...)` and `String(...)` coercions of
  ill-typed backend fields are not modelled.
- A command with no `action` field. The action is always a string.
- Types.Command: `set_step`'s `step` is one of the six step names; the
  reducer itself stores any truthy string there.
- BatchGuard.NormalizePayload: the reply's JSON block is taken as already
  classified (no block, unparseable, array, object with its key count, null,
  scalar). Regular-expression extraction and `JSON.parse` are not modelled.
- BatchGuard.Guard: the source removes the flagged commands by object
  identity. Each parsed command is a distinct object, so the model filters
  by index. A `null` target, for which `null < 0` is false, is not
  modelled.
- OrderedLists.RemoveItems: on a list with repeats the whole batch is
  characterised by the multiset count (`RemoveItemsCount`) and each single
  deletion by its splice point (`RemoveFirstSplice`); no one contract
  states, for the whole batch, which occurrences remain in which order.
- OrderLogic.ModifyToppings: the set-edit form of the result is promised
  only for duplicate-free lists, which every entry reachable through the
  reducer has. On a list with repeats `removeItems` drops one occurrence
  per name asked for, and only the frame is stated.
- ReceiptMapper.NormalizeReceipt: a `null` or non-object response (the
  `resp?.` chains) is not modelled. The response is always a record whose
  fields may be missing.
- ReceiptMapper.StatusOf: `toUpperCase` is modelled on ASCII letters, on
  dotless i, long s, sharp s and the Latin ligatures. All of these upper-case
  to ASCII letters only. Other non-ASCII characters are kept as they are;
  their upper case can never read CONFIRMED or CANCELLED anyway.
- The receipt fetch helpers and price formatting in `receiptMapper.ts`, and
  the price arithmetic of the page. They are I/O or presentation.
- Kiosk.ApplyNlu: the slot values are taken as already checked with
  `Array.isArray`. A non-array slot becomes no names or no operations.
- The other intents of the page (confirmation, cancel dialog, order
  submission), which perform I/O.

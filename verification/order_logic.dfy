/** The order reducer (app/lib/orderLogic.ts): a total step function from a
    session state and one command to the next state and a message, and the
    in-order fold of it over a batch. The source mutates the state object in
    place; here every step builds the next state value. */
module OrderLogic {
  import opened Seqs
  import opened Types
  import opened Catalog
  import opened OrderedLists

  /** The state after a command together with the message describing it. */
  datatype Reply = Reply(state: OrderState, message: string)

  const NO_CURRENT_ITEM := "No current item."
  const INVALID_MENU := "Invalid menu."
  const BAD_BREAD := "Bread parameter missing or invalid."
  const BAD_CHEESE := "Cheese parameter missing or invalid."
  const INVALID_QUANTITY := "Invalid quantity."
  const NO_COMPLETE_ITEM := "No complete item."
  const INVALID_TARGET := "Invalid cart target."
  const CART_EMPTY := "Cart is empty."
  const UNKNOWN_PREFIX := "Unknown action: "

  /** The messages by which the reducer reports a refused command. */
  const REJECTIONS: seq<string> := [
    NO_CURRENT_ITEM, INVALID_MENU, BAD_BREAD, BAD_CHEESE,
    INVALID_QUANTITY, NO_COMPLETE_ITEM, INVALID_TARGET, CART_EMPTY]

  predicate IsRejection(msg: string) {
    msg in REJECTIONS || (|UNKNOWN_PREFIX| <= |msg| && msg[..|UNKNOWN_PREFIX|] == UNKNOWN_PREFIX)
  }

  /** JavaScript truthiness of an optional string: present and non-empty. */
  predicate Truthy(o: Option<string>) {
    o.Some? && o.value != ""
  }

  /** An item whose every field could have been reached through the
      reducer: a known menu or none, catalog options or none, duplicate-free
      catalog-valid topping lists, and a positive quantity. */
  predicate ItemValid(it: OrderItem) {
    && (it.menu == "" || FindMenu(it.menu).Some?)
    && (it.bread == "" || it.bread in BREAD_OPTIONS)
    && (it.cheese == "" || it.cheese in CHEESE_OPTIONS)
    && NoDup(it.vegetables)
    && (forall v :: v in it.vegetables ==> v in VEGETABLE_OPTIONS)
    && NoDup(it.sauces)
    && (forall v :: v in it.sauces ==> v in SAUCE_OPTIONS)
    && it.quantity >= 1
  }

  /** The session invariant: every item is valid, and an item only reaches
      the cart once it has a menu. */
  predicate WellFormed(s: OrderState) {
    && (forall i :: 0 <= i < |s.cart| ==> ItemValid(s.cart[i]) && s.cart[i].menu != "")
    && (s.currentItem.Some? ==> ItemValid(s.currentItem.value))
  }

  /** The state a session starts in. */
  function CreateInitialState(): (s: OrderState)
    ensures s.cart == [] && s.currentItem.None? && s.status == Init
    ensures WellFormed(s)
  {
    OrderState([], None, Init)
  }

  /** A fresh item: nothing chosen, quantity one, at the bread step. */
  function CreateEmptyItem(): (it: OrderItem)
    ensures it.menu == "" && it.bread == "" && it.cheese == ""
    ensures it.vegetables == [] && it.sauces == []
    ensures it.quantity == 1 && it.step == Bread
    ensures ItemValid(it)
  {
    OrderItem("", "", "", [], [], 1, Bread)
  }

  /** Menu selection: the template's name and defaults replace the item's
      menu, bread, cheese and toppings; quantity and step are kept. */
  function ApplyTemplate(it: OrderItem, m: MenuTemplate): OrderItem {
    it.(menu := m.name, bread := m.defaultBread, cheese := m.defaultCheese,
        vegetables := m.defaultVegetables, sauces := m.defaultSauces)
  }

  /** The catalog-valid vegetables of `xs` merged into the item's list. */
  function AddVegetablesTo(it: OrderItem, xs: seq<string>): (r: OrderItem)
    ensures r == it.(vegetables := r.vegetables)
    ensures |it.vegetables| <= |r.vegetables| && r.vegetables[..|it.vegetables|] == it.vegetables
  {
    it.(vegetables := AddUniqueItems(it.vegetables, Keep(xs, VEGETABLE_OPTIONS)))
  }

  function RemoveVegetablesFrom(it: OrderItem, xs: seq<string>): (r: OrderItem)
    ensures r == it.(vegetables := r.vegetables)
    ensures |r.vegetables| <= |it.vegetables|
  {
    it.(vegetables := RemoveItems(it.vegetables, xs))
  }

  /** The catalog-valid sauces of `xs` merged into the item's list. */
  function AddSaucesTo(it: OrderItem, xs: seq<string>): (r: OrderItem)
    ensures r == it.(sauces := r.sauces)
    ensures |it.sauces| <= |r.sauces| && r.sauces[..|it.sauces|] == it.sauces
  {
    it.(sauces := AddUniqueItems(it.sauces, Keep(xs, SAUCE_OPTIONS)))
  }

  function RemoveSaucesFrom(it: OrderItem, xs: seq<string>): (r: OrderItem)
    ensures r == it.(sauces := r.sauces)
    ensures |r.sauces| <= |it.sauces|
  {
    it.(sauces := RemoveItems(it.sauces, xs))
  }

  /** The menu part of `modify_cart_item`: a known menu name resets the
      entry to that template's defaults; anything else leaves it alone. */
  function ModifyMenu(it: OrderItem, c: Command): (r: OrderItem)
    ensures r.quantity == it.quantity && r.step == it.step
    ensures Truthy(c.menu) && FindMenu(c.menu.value).Some? ==> r.menu == c.menu.value
    ensures !(Truthy(c.menu) && FindMenu(c.menu.value).Some?) ==> r == it
  {
    if Truthy(c.menu) && FindMenu(c.menu.value).Some? then
      ApplyTemplate(it, FindMenu(c.menu.value).value)
    else it
  }

  /** The list parts of `modify_cart_item`, in the source's order: add
      vegetables, remove vegetables, add sauces, remove sauces. On
      duplicate-free lists (which every reachable entry has) the result
      reads as a set edit: the catalog-valid names to add that are new are
      appended once each, in order, and then every name to remove is
      filtered out. */
  function ModifyToppings(it: OrderItem, c: Command): (r: OrderItem)
    ensures r == it.(vegetables := r.vegetables, sauces := r.sauces)
    ensures NoDup(it.vegetables) ==>
      r.vegetables == Without(it.vegetables + Dedup(Without(Keep(c.addVegetables.GetOr([]), VEGETABLE_OPTIONS),
                                                            it.vegetables)),
                              c.removeVegetables.GetOr([]))
    ensures NoDup(it.sauces) ==>
      r.sauces == Without(it.sauces + Dedup(Without(Keep(c.addSauces.GetOr([]), SAUCE_OPTIONS), it.sauces)),
                          c.removeSauces.GetOr([]))
  {
    ListEdit(it.vegetables, c.addVegetables, c.removeVegetables, VEGETABLE_OPTIONS);
    ListEdit(it.sauces, c.addSauces, c.removeSauces, SAUCE_OPTIONS);
    var e := if c.addVegetables.Some? then AddVegetablesTo(it, c.addVegetables.value) else it;
    var f := if c.removeVegetables.Some? then RemoveVegetablesFrom(e, c.removeVegetables.value) else e;
    var g := if c.addSauces.Some? then AddSaucesTo(f, c.addSauces.value) else f;
    if c.removeSauces.Some? then RemoveSaucesFrom(g, c.removeSauces.value) else g
  }

  /** One optional add followed by one optional remove, on a duplicate-free
      list, is an append of the new valid names and a filter; an absent
      field counts as an empty list. */
  lemma {:induction false} ListEdit(v: seq<string>, add: Option<seq<string>>, remove: Option<seq<string>>,
                                    options: seq<string>)
    ensures NoDup(v) ==>
      var a := if add.Some? then AddUniqueItems(v, Keep(add.value, options)) else v;
      var b := if remove.Some? then RemoveItems(a, remove.value) else a;
      b == Without(v + Dedup(Without(Keep(add.GetOr([]), options), v)), remove.GetOr([]))
  {
    if NoDup(v) {
      var k := Keep(add.GetOr([]), options);
      var a := if add.Some? then AddUniqueItems(v, Keep(add.value, options)) else v;
      AddUniqueIsAppendDedup(v, k);
      if add.None? {
        assert k == [];
        assert Without(k, v) == [];
        assert a == v + Dedup(Without(k, v));
      }
      assert NoDup(a);
      if remove.Some? {
        RemoveItemsOnSetIsWithout(a, remove.value);
      } else {
        WithoutEmpty(a);
      }
    }
  }

  /** The bread and cheese parts of `modify_cart_item`: a value the
      single-item setter would refuse is skipped. */
  function ModifyBreadCheese(it: OrderItem, c: Command): (r: OrderItem)
    ensures r == it.(bread := r.bread, cheese := r.cheese)
    ensures Truthy(c.bread) && c.bread.value in BREAD_OPTIONS ==> r.bread == c.bread.value
    ensures !(Truthy(c.bread) && c.bread.value in BREAD_OPTIONS) ==> r.bread == it.bread
    ensures Truthy(c.cheese) && c.cheese.value in CHEESE_OPTIONS ==> r.cheese == c.cheese.value
    ensures !(Truthy(c.cheese) && c.cheese.value in CHEESE_OPTIONS) ==> r.cheese == it.cheese
  {
    var b := if Truthy(c.bread) && IsValidOption(c.bread.value, BREAD_OPTIONS)
      then it.(bread := c.bread.value) else it;
    if Truthy(c.cheese) && IsValidOption(c.cheese.value, CHEESE_OPTIONS)
    then b.(cheese := c.cheese.value) else b
  }

  /** `modify_cart_item`: every present field is applied to the entry, in
      the source's order (menu, bread, cheese, the four list edits,
      quantity), with the single-item setters' validation; invalid values
      are skipped rather than refused. */
  function ModifyItem(it: OrderItem, c: Command): (r: OrderItem)
    ensures r.step == it.step
    ensures c.quantity.Some? && c.quantity.value > 0 ==> r.quantity == c.quantity.value
    ensures !(c.quantity.Some? && c.quantity.value > 0) ==> r.quantity == it.quantity
    ensures Truthy(c.menu) && FindMenu(c.menu.value).Some? ==> r.menu == c.menu.value
    ensures !(Truthy(c.menu) && FindMenu(c.menu.value).Some?) ==> r.menu == it.menu
    ensures Truthy(c.bread) && c.bread.value in BREAD_OPTIONS ==> r.bread == c.bread.value
    ensures Truthy(c.cheese) && c.cheese.value in CHEESE_OPTIONS ==> r.cheese == c.cheese.value
    ensures !(Truthy(c.bread) && c.bread.value in BREAD_OPTIONS) && !(Truthy(c.menu) && FindMenu(c.menu.value).Some?) ==>
      r.bread == it.bread
    ensures !(Truthy(c.cheese) && c.cheese.value in CHEESE_OPTIONS) && !(Truthy(c.menu) && FindMenu(c.menu.value).Some?) ==>
      r.cheese == it.cheese
    ensures !(Truthy(c.bread) && c.bread.value in BREAD_OPTIONS) && Truthy(c.menu) && FindMenu(c.menu.value).Some? ==>
      r.bread == FindMenu(c.menu.value).value.defaultBread
    ensures !(Truthy(c.cheese) && c.cheese.value in CHEESE_OPTIONS) && Truthy(c.menu) && FindMenu(c.menu.value).Some? ==>
      r.cheese == FindMenu(c.menu.value).value.defaultCheese
  {
    var h := ModifyToppings(ModifyBreadCheese(ModifyMenu(it, c), c), c);
    if c.quantity.Some? && c.quantity.value > 0 then h.(quantity := c.quantity.value) else h
  }

  /** The state with its current item replaced. */
  function WithCurrent(s: OrderState, it: OrderItem): OrderState {
    s.(currentItem := Some(it))
  }

  /** The answer to a command the reducer does not recognise: the state is
      returned as it was and the action name is echoed. */
  function Unknown(s: OrderState, c: Command): (r: Reply)
    ensures r.state == s
  {
    Reply(s, UNKNOWN_PREFIX + c.action)
  }

  /** `start_item`: a fresh item and the building status, whatever came
      before. */
  function OnStartItem(s: OrderState): (r: Reply)
    ensures r.state.cart == s.cart
  {
    Reply(s.(currentItem := Some(CreateEmptyItem()), status := Building), "Started new item.")
  }

  function OnSelectMenu(s: OrderState, c: Command): (r: Reply)
    ensures r.state.cart == s.cart && r.state.status == s.status
  {
    if !Truthy(c.menu) then Unknown(s, c)
    else if s.currentItem.None? then Reply(s, NO_CURRENT_ITEM)
    else if FindMenu(c.menu.value).None? then Reply(s, INVALID_MENU)
    else Reply(WithCurrent(s, ApplyTemplate(s.currentItem.value, FindMenu(c.menu.value).value)),
               "Menu set: " + c.menu.value)
  }

  function OnSelectBread(s: OrderState, c: Command): (r: Reply)
    ensures r.state.cart == s.cart && r.state.status == s.status
  {
    if s.currentItem.None? then Reply(s, NO_CURRENT_ITEM)
    else if Truthy(c.bread) && IsValidOption(c.bread.value, BREAD_OPTIONS) then
      Reply(WithCurrent(s, s.currentItem.value.(bread := c.bread.value)), "Bread set: " + c.bread.value)
    else Reply(s, BAD_BREAD)
  }

  function OnSelectCheese(s: OrderState, c: Command): (r: Reply)
    ensures r.state.cart == s.cart && r.state.status == s.status
  {
    if s.currentItem.None? then Reply(s, NO_CURRENT_ITEM)
    else if Truthy(c.cheese) && IsValidOption(c.cheese.value, CHEESE_OPTIONS) then
      Reply(WithCurrent(s, s.currentItem.value.(cheese := c.cheese.value)), "Cheese set: " + c.cheese.value)
    else Reply(s, BAD_CHEESE)
  }

  function OnAddVegetables(s: OrderState, c: Command): (r: Reply)
    ensures r.state.cart == s.cart && r.state.status == s.status
  {
    if c.addVegetables.None? then Unknown(s, c)
    else if s.currentItem.None? then Reply(s, NO_CURRENT_ITEM)
    else
      Reply(WithCurrent(s, AddVegetablesTo(s.currentItem.value, c.addVegetables.value)),
            "Added vegetables: " + Join(Keep(c.addVegetables.value, VEGETABLE_OPTIONS), ", "))
  }

  function OnRemoveVegetables(s: OrderState, c: Command): (r: Reply)
    ensures r.state.cart == s.cart && r.state.status == s.status
  {
    if c.removeVegetables.None? then Unknown(s, c)
    else if s.currentItem.None? then Reply(s, NO_CURRENT_ITEM)
    else
      Reply(WithCurrent(s, RemoveVegetablesFrom(s.currentItem.value, c.removeVegetables.value)),
            "Removed vegetables: " + Join(c.removeVegetables.value, ", "))
  }

  function OnAddSauce(s: OrderState, c: Command): (r: Reply)
    ensures r.state.cart == s.cart && r.state.status == s.status
  {
    if c.addSauces.None? then Unknown(s, c)
    else if s.currentItem.None? then Reply(s, NO_CURRENT_ITEM)
    else
      Reply(WithCurrent(s, AddSaucesTo(s.currentItem.value, c.addSauces.value)),
            "Added sauces: " + Join(Keep(c.addSauces.value, SAUCE_OPTIONS), ", "))
  }

  function OnRemoveSauce(s: OrderState, c: Command): (r: Reply)
    ensures r.state.cart == s.cart && r.state.status == s.status
  {
    if c.removeSauces.None? then Unknown(s, c)
    else if s.currentItem.None? then Reply(s, NO_CURRENT_ITEM)
    else
      Reply(WithCurrent(s, RemoveSaucesFrom(s.currentItem.value, c.removeSauces.value)),
            "Removed sauces: " + Join(c.removeSauces.value, ", "))
  }

  /** `set_quantity`: zero is falsy in the source, so it is not recognised;
      a negative quantity is refused. */
  function OnSetQuantity(s: OrderState, c: Command): (r: Reply)
    ensures r.state.cart == s.cart && r.state.status == s.status
  {
    if c.quantity.None? || c.quantity.value == 0 then Unknown(s, c)
    else if s.currentItem.None? then Reply(s, NO_CURRENT_ITEM)
    else if c.quantity.value > 0 then
      Reply(WithCurrent(s, s.currentItem.value.(quantity := c.quantity.value)),
            "Quantity set: " + NatToString(c.quantity.value))
    else Reply(s, INVALID_QUANTITY)
  }

  function OnSetStep(s: OrderState, c: Command): (r: Reply)
    ensures r.state.cart == s.cart && r.state.status == s.status
  {
    if c.step.None? then Unknown(s, c)
    else if s.currentItem.None? then Reply(s, NO_CURRENT_ITEM)
    else Reply(WithCurrent(s, s.currentItem.value.(step := c.step.value)), "Step set: " + StepName(c.step.value))
  }

  function OnAddToCart(s: OrderState): (r: Reply)
    ensures r.state.status == s.status
  {
    if s.currentItem.None? || s.currentItem.value.menu == "" then Reply(s, NO_COMPLETE_ITEM)
    else Reply(s.(cart := s.cart + [s.currentItem.value], currentItem := None), "Item added to cart.")
  }

  function OnModifyCartItem(s: OrderState, c: Command): (r: Reply)
    ensures r.state.currentItem == s.currentItem && r.state.status == s.status
  {
    if c.target.None? then Unknown(s, c)
    else if !(0 <= c.target.value < |s.cart|) then Reply(s, INVALID_TARGET)
    else
      var t := c.target.value;
      Reply(s.(cart := s.cart[t := ModifyItem(s.cart[t], c)]), "Cart item " + NatToString(t) + " modified.")
  }

  /** `remove_from_cart`: a target out of range is not refused by a
      message of its own; it falls through to the unknown-action answer. */
  function OnRemoveFromCart(s: OrderState, c: Command): (r: Reply)
    ensures r.state.currentItem == s.currentItem && r.state.status == s.status
  {
    if c.target.Some? && 0 <= c.target.value < |s.cart| then
      var t := c.target.value;
      Reply(s.(cart := s.cart[..t] + s.cart[t + 1..]), "Removed " + s.cart[t].menu + " from cart.")
    else Unknown(s, c)
  }

  function OnConfirmOrder(s: OrderState): (r: Reply)
    ensures r.state.cart == s.cart && r.state.currentItem == s.currentItem
  {
    if |s.cart| > 0 then Reply(s.(status := Ready), "Order ready for confirmation.")
    else Reply(s, CART_EMPTY)
  }

  /** Applies one command (`processAction`): the action name selects one
      branch. A recognised action whose guarding parameter is missing or
      falsy falls through to the final "Unknown action" answer, as the
      source's chain of `if`s does. */
  function ProcessAction(s: OrderState, c: Command): (r: Reply)
    ensures r.state.cart != s.cart ==>
      ParseAction(c.action) in {AddToCart, ModifyCartItem, RemoveFromCart}
    ensures r.state.status != s.status ==>
      ParseAction(c.action) in {StartItem, ConfirmOrder, CompleteOrder, CancelOrder}
    ensures r.state.currentItem != s.currentItem ==>
      ParseAction(c.action) !in {ModifyCartItem, RemoveFromCart, ViewCart, ConfirmOrder, CompleteOrder, CancelOrder}
      && !ParseAction(c.action).Other?
  {
    match ParseAction(c.action)
    case StartItem => OnStartItem(s)
    case SelectMenu => OnSelectMenu(s, c)
    case SelectBread => OnSelectBread(s, c)
    case SelectCheese => OnSelectCheese(s, c)
    case AddVegetables => OnAddVegetables(s, c)
    case RemoveVegetables => OnRemoveVegetables(s, c)
    case AddSauce => OnAddSauce(s, c)
    case RemoveSauce => OnRemoveSauce(s, c)
    case SetQuantity => OnSetQuantity(s, c)
    case SetStep => OnSetStep(s, c)
    case AddToCart => OnAddToCart(s)
    case ModifyCartItem => OnModifyCartItem(s, c)
    case RemoveFromCart => OnRemoveFromCart(s, c)
    case ViewCart => Reply(s, "Cart view requested.")
    case ConfirmOrder => OnConfirmOrder(s)
    case CompleteOrder => Reply(s.(status := Completed), "Order completed.")
    case CancelOrder => Reply(s.(status := Cancelled), "Order cancelled.")
    case Other(_) => Unknown(s, c)
  }

  /** Which step function answers each recognised action. */
  lemma Routes(s: OrderState, c: Command)
    ensures ParseAction(c.action) == StartItem ==> ProcessAction(s, c) == OnStartItem(s)
    ensures ParseAction(c.action) == SelectMenu ==> ProcessAction(s, c) == OnSelectMenu(s, c)
    ensures ParseAction(c.action) == SelectBread ==> ProcessAction(s, c) == OnSelectBread(s, c)
    ensures ParseAction(c.action) == SelectCheese ==> ProcessAction(s, c) == OnSelectCheese(s, c)
    ensures ParseAction(c.action) == AddVegetables ==> ProcessAction(s, c) == OnAddVegetables(s, c)
    ensures ParseAction(c.action) == RemoveVegetables ==> ProcessAction(s, c) == OnRemoveVegetables(s, c)
    ensures ParseAction(c.action) == AddSauce ==> ProcessAction(s, c) == OnAddSauce(s, c)
    ensures ParseAction(c.action) == RemoveSauce ==> ProcessAction(s, c) == OnRemoveSauce(s, c)
    ensures ParseAction(c.action) == SetQuantity ==> ProcessAction(s, c) == OnSetQuantity(s, c)
    ensures ParseAction(c.action) == SetStep ==> ProcessAction(s, c) == OnSetStep(s, c)
    ensures ParseAction(c.action) == AddToCart ==> ProcessAction(s, c) == OnAddToCart(s)
    ensures ParseAction(c.action) == ModifyCartItem ==> ProcessAction(s, c) == OnModifyCartItem(s, c)
    ensures ParseAction(c.action) == RemoveFromCart ==> ProcessAction(s, c) == OnRemoveFromCart(s, c)
    ensures ParseAction(c.action) == ConfirmOrder ==> ProcessAction(s, c) == OnConfirmOrder(s)
  {
  }

  /** The batch argument of `processCommands`: one command or an array. */
  datatype Commands = One(cmd: Command) | Many(cmds: seq<Command>)

  function CommandList(cs: Commands): (r: seq<Command>)
    ensures cs.One? ==> r == [cs.cmd]
    ensures cs.Many? ==> r == cs.cmds
  {
    match cs
    case One(c) => [c]
    case Many(l) => l
  }

  /** The final state and the messages of applying `cmds` in order, each
      command seeing the effect of all earlier ones. */
  datatype Run = Run(state: OrderState, messages: seq<string>)

  /** Applies `step` to each command in turn, from `s`. */
  function Fold(step: (OrderState, Command) -> Reply, s: OrderState, cmds: seq<Command>): (r: Run)
    ensures |r.messages| == |cmds|
    decreases |cmds|
  {
    if cmds == [] then Run(s, [])
    else
      var first := step(s, cmds[0]);
      var rest := Fold(step, first.state, cmds[1..]);
      Run(rest.state, [first.message] + rest.messages)
  }

  /** The loop of `processCommands`: the reducer folded over the batch. */
  function ApplyAll(s: OrderState, cmds: seq<Command>): (r: Run)
    ensures |r.messages| == |cmds|
  {
    Fold(ProcessAction, s, cmds)
  }

  /** A non-empty batch is its first command followed by the rest. */
  lemma ApplyAllCons(s: OrderState, cmds: seq<Command>)
    requires cmds != []
    ensures var first := ProcessAction(s, cmds[0]);
      var rest := ApplyAll(first.state, cmds[1..]);
      ApplyAll(s, cmds) == Run(rest.state, [first.message] + rest.messages)
  {
  }

  /** `processCommands`: one message per command, in command order. */
  function ProcessCommands(s: OrderState, cs: Commands): (r: Run)
    ensures |r.messages| == |CommandList(cs)|
  {
    ApplyAll(s, CommandList(cs))
  }
}

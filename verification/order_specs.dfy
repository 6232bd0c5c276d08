/** What each action of the order reducer does, stated field by field
    against the state it was given, and how a batch is folded. */
module OrderSpecs {
  import opened Seqs
  import opened Types
  import opened Catalog
  import opened OrderedLists
  import opened OrderLogic

  // ---------------------------------------------------------------------
  // Session start
  // ---------------------------------------------------------------------

  /** `start_item` is not guarded: whatever the status and whether or not
      an item is already being composed, it installs a fresh empty item and
      moves the session to `building`; the cart is untouched. */
  lemma StartItemInstallsFreshItem(s: OrderState, c: Command)
    requires c.action == "start_item"
    ensures ProcessAction(s, c).state.currentItem == Some(OrderItem("", "", "", [], [], 1, Bread))
    ensures ProcessAction(s, c).state.status == Building
    ensures ProcessAction(s, c).state.cart == s.cart
    ensures ProcessAction(s, c).message == "Started new item."
  {
    assert ParseAction(c.action) == StartItem;
    Routes(s, c);
  }

  // ---------------------------------------------------------------------
  // Single-valued choices
  // ---------------------------------------------------------------------

  /** `select_menu` with a known template name copies that template's name
      and defaults into the current item and keeps its quantity and step;
      cart and status are untouched. */
  lemma SelectMenuAppliesTemplate(s: OrderState, c: Command, m: MenuTemplate)
    requires c.action == "select_menu" && m in MENU && c.menu == Some(m.name)
    requires s.currentItem.Some?
    ensures var r := ProcessAction(s, c); var it := s.currentItem.value;
      && r.state.currentItem.Some?
      && var n := r.state.currentItem.value;
      && n.menu == m.name && n.bread == m.defaultBread && n.cheese == m.defaultCheese
      && n.vegetables == m.defaultVegetables && n.sauces == m.defaultSauces
      && n.quantity == it.quantity && n.step == it.step
      && r.state.cart == s.cart && r.state.status == s.status
      && r.message == "Menu set: " + m.name
  {
    TemplatesValid();
    FindMenuExact(m);
  }

  /** `select_menu` refusals: without a current item, or with a name no
      template carries, the state is returned unchanged with the matching
      message; without a menu name the command is not recognised at all. */
  lemma SelectMenuRefusals(s: OrderState, c: Command)
    requires c.action == "select_menu"
    ensures c.menu.None? || c.menu == Some("") ==>
      ProcessAction(s, c) == Reply(s, "Unknown action: select_menu")
    ensures Truthy(c.menu) && s.currentItem.None? ==> ProcessAction(s, c) == Reply(s, NO_CURRENT_ITEM)
    ensures Truthy(c.menu) && s.currentItem.Some? && (forall m :: m in MENU ==> m.name != c.menu.value) ==>
      ProcessAction(s, c) == Reply(s, INVALID_MENU)
  {
    assert ParseAction(c.action) == SelectMenu;
    Routes(s, c);
    SelectMenuRefusalsStep(s, c);
  }

  /** The same, for the step function alone. */
  lemma SelectMenuRefusalsStep(s: OrderState, c: Command)
    requires c.action == "select_menu"
    ensures c.menu.None? || c.menu == Some("") ==>
      OnSelectMenu(s, c) == Reply(s, "Unknown action: select_menu")
    ensures Truthy(c.menu) && s.currentItem.None? ==> OnSelectMenu(s, c) == Reply(s, NO_CURRENT_ITEM)
    ensures Truthy(c.menu) && s.currentItem.Some? && (forall m :: m in MENU ==> m.name != c.menu.value) ==>
      OnSelectMenu(s, c) == Reply(s, INVALID_MENU)
  {
  }

  /** `select_bread` changes the bread of the current item, and nothing
      else, exactly when the value is a bread option; otherwise the state is
      unchanged and a refusal names the problem. */
  lemma SelectBreadSpec(s: OrderState, c: Command)
    requires c.action == "select_bread"
    ensures var r := ProcessAction(s, c);
      && (s.currentItem.None? ==> r == Reply(s, NO_CURRENT_ITEM))
      && (s.currentItem.Some? && c.bread.Some? && c.bread.value in BREAD_OPTIONS ==>
            && r.state.cart == s.cart && r.state.status == s.status
            && r.state.currentItem == Some(s.currentItem.value.(bread := c.bread.value)))
      && (s.currentItem.Some? && !(c.bread.Some? && c.bread.value in BREAD_OPTIONS) ==>
            r == Reply(s, BAD_BREAD))
  {
    assert ParseAction(c.action) == SelectBread;
    Routes(s, c);
    SelectBreadStep(s, c);
  }

  /** The same, for the step function alone. */
  lemma SelectBreadStep(s: OrderState, c: Command)
    requires c.action == "select_bread"
    ensures var r := OnSelectBread(s, c);
      && (s.currentItem.None? ==> r == Reply(s, NO_CURRENT_ITEM))
      && (s.currentItem.Some? && c.bread.Some? && c.bread.value in BREAD_OPTIONS ==>
            && r.state.cart == s.cart && r.state.status == s.status
            && r.state.currentItem == Some(s.currentItem.value.(bread := c.bread.value)))
      && (s.currentItem.Some? && !(c.bread.Some? && c.bread.value in BREAD_OPTIONS) ==>
            r == Reply(s, BAD_BREAD))
  {
  }

  /** `select_cheese`, the same rule over the cheese options. */
  lemma SelectCheeseSpec(s: OrderState, c: Command)
    requires c.action == "select_cheese"
    ensures var r := ProcessAction(s, c);
      && (s.currentItem.None? ==> r == Reply(s, NO_CURRENT_ITEM))
      && (s.currentItem.Some? && c.cheese.Some? && c.cheese.value in CHEESE_OPTIONS ==>
            && r.state.cart == s.cart && r.state.status == s.status
            && r.state.currentItem == Some(s.currentItem.value.(cheese := c.cheese.value)))
      && (s.currentItem.Some? && !(c.cheese.Some? && c.cheese.value in CHEESE_OPTIONS) ==>
            r == Reply(s, BAD_CHEESE))
  {
    assert ParseAction(c.action) == SelectCheese;
    Routes(s, c);
    SelectCheeseStep(s, c);
  }

  /** The same, for the step function alone. */
  lemma SelectCheeseStep(s: OrderState, c: Command)
    requires c.action == "select_cheese"
    ensures var r := OnSelectCheese(s, c);
      && (s.currentItem.None? ==> r == Reply(s, NO_CURRENT_ITEM))
      && (s.currentItem.Some? && c.cheese.Some? && c.cheese.value in CHEESE_OPTIONS ==>
            && r.state.cart == s.cart && r.state.status == s.status
            && r.state.currentItem == Some(s.currentItem.value.(cheese := c.cheese.value)))
      && (s.currentItem.Some? && !(c.cheese.Some? && c.cheese.value in CHEESE_OPTIONS) ==>
            r == Reply(s, BAD_CHEESE))
  {
  }

  /** `set_quantity`: a positive quantity replaces only the quantity; a
      negative one is refused; zero or a missing quantity is not recognised
      as the action at all. */
  lemma SetQuantitySpec(s: OrderState, c: Command)
    requires c.action == "set_quantity"
    ensures var r := ProcessAction(s, c);
      && (c.quantity.None? || c.quantity == Some(0) ==> r == Reply(s, "Unknown action: set_quantity"))
      && (c.quantity.Some? && c.quantity.value != 0 && s.currentItem.None? ==> r == Reply(s, NO_CURRENT_ITEM))
      && (c.quantity.Some? && c.quantity.value > 0 && s.currentItem.Some? ==>
            && r.state.cart == s.cart && r.state.status == s.status
            && r.state.currentItem == Some(s.currentItem.value.(quantity := c.quantity.value)))
      && (c.quantity.Some? && c.quantity.value < 0 && s.currentItem.Some? ==> r == Reply(s, INVALID_QUANTITY))
  {
    assert ParseAction(c.action) == SetQuantity;
    Routes(s, c);
    SetQuantityStep(s, c);
  }

  /** The same, for the step function alone. */
  lemma SetQuantityStep(s: OrderState, c: Command)
    requires c.action == "set_quantity"
    ensures var r := OnSetQuantity(s, c);
      && (c.quantity.None? || c.quantity == Some(0) ==> r == Reply(s, "Unknown action: set_quantity"))
      && (c.quantity.Some? && c.quantity.value != 0 && s.currentItem.None? ==> r == Reply(s, NO_CURRENT_ITEM))
      && (c.quantity.Some? && c.quantity.value > 0 && s.currentItem.Some? ==>
            && r.state.cart == s.cart && r.state.status == s.status
            && r.state.currentItem == Some(s.currentItem.value.(quantity := c.quantity.value)))
      && (c.quantity.Some? && c.quantity.value < 0 && s.currentItem.Some? ==> r == Reply(s, INVALID_QUANTITY))
  {
  }

  // ---------------------------------------------------------------------
  // List-valued choices
  // ---------------------------------------------------------------------

  /** `add_vegetables` keeps the old list as it was and appends the
      catalog-valid names not yet present, once each, in input order;
      every other field and the cart are untouched. */
  lemma AddVegetablesSpec(s: OrderState, c: Command)
    requires c.action == "add_vegetables" && c.addVegetables.Some? && s.currentItem.Some?
    ensures var r := ProcessAction(s, c); var it := s.currentItem.value;
      && r.state.cart == s.cart && r.state.status == s.status
      && r.state.currentItem.Some?
      && r.state.currentItem.value == it.(vegetables := r.state.currentItem.value.vegetables)
      && r.state.currentItem.value.vegetables
         == it.vegetables + Dedup(Without(Keep(c.addVegetables.value, VEGETABLE_OPTIONS), it.vegetables))
  {
    AddUniqueIsAppendDedup(s.currentItem.value.vegetables, Keep(c.addVegetables.value, VEGETABLE_OPTIONS));
  }

  /** `add_sauce`, the same rule over the sauce options. */
  lemma AddSauceSpec(s: OrderState, c: Command)
    requires c.action == "add_sauce" && c.addSauces.Some? && s.currentItem.Some?
    ensures var r := ProcessAction(s, c); var it := s.currentItem.value;
      && r.state.cart == s.cart && r.state.status == s.status
      && r.state.currentItem.Some?
      && r.state.currentItem.value == it.(sauces := r.state.currentItem.value.sauces)
      && r.state.currentItem.value.sauces
         == it.sauces + Dedup(Without(Keep(c.addSauces.value, SAUCE_OPTIONS), it.sauces))
  {
    AddUniqueIsAppendDedup(s.currentItem.value.sauces, Keep(c.addSauces.value, SAUCE_OPTIONS));
  }

  /** The five edits of the item being composed that carry their argument
      (`add_vegetables`, `remove_vegetables`, `add_sauce`, `remove_sauce`,
      `set_step`) are refused with "No current item." when there is none,
      and the state is kept. */
  lemma NoCurrentItemRefusals(s: OrderState, c: Command)
    requires s.currentItem.None?
    requires || (c.action == "add_vegetables" && c.addVegetables.Some?)
             || (c.action == "remove_vegetables" && c.removeVegetables.Some?)
             || (c.action == "add_sauce" && c.addSauces.Some?)
             || (c.action == "remove_sauce" && c.removeSauces.Some?)
             || (c.action == "set_step" && c.step.Some?)
    ensures ProcessAction(s, c) == Reply(s, NO_CURRENT_ITEM)
  {
    Routes(s, c);
    if c.action == "add_vegetables" {
      assert ParseAction(c.action) == AddVegetables;
    } else if c.action == "remove_vegetables" {
      assert ParseAction(c.action) == RemoveVegetables;
    } else if c.action == "add_sauce" {
      assert ParseAction(c.action) == AddSauce;
    } else if c.action == "remove_sauce" {
      assert ParseAction(c.action) == RemoveSauce;
    } else {
      assert ParseAction(c.action) == SetStep;
    }
  }

  /** Adding the same toppings twice is adding them once. */
  lemma AddToppingsTwice(s: OrderState, c: Command)
    requires c.action in {"add_vegetables", "add_sauce"}
    ensures ProcessAction(ProcessAction(s, c).state, c).state == ProcessAction(s, c).state
  {
    var t := ProcessAction(s, c).state;
    if t != s && t.currentItem.Some? {
      var it := s.currentItem.value;
      if c.action == "add_vegetables" {
        AddUniqueIdempotent(it.vegetables, Keep(c.addVegetables.value, VEGETABLE_OPTIONS));
      } else {
        AddUniqueIdempotent(it.sauces, Keep(c.addSauces.value, SAUCE_OPTIONS));
      }
    }
  }

  /** `remove_vegetables` on a valid item filters the listed names out and
      keeps the order of the rest; names not in the list are ignored. */
  lemma RemoveVegetablesSpec(s: OrderState, c: Command)
    requires c.action == "remove_vegetables" && c.removeVegetables.Some? && s.currentItem.Some?
    requires ItemValid(s.currentItem.value)
    ensures var r := ProcessAction(s, c); var it := s.currentItem.value;
      && r.state.cart == s.cart && r.state.status == s.status
      && r.state.currentItem == Some(it.(vegetables := Without(it.vegetables, c.removeVegetables.value)))
  {
    RemoveItemsOnSetIsWithout(s.currentItem.value.vegetables, c.removeVegetables.value);
  }

  /** `remove_sauce`, the same rule over the sauces. */
  lemma RemoveSauceSpec(s: OrderState, c: Command)
    requires c.action == "remove_sauce" && c.removeSauces.Some? && s.currentItem.Some?
    requires ItemValid(s.currentItem.value)
    ensures var r := ProcessAction(s, c); var it := s.currentItem.value;
      && r.state.cart == s.cart && r.state.status == s.status
      && r.state.currentItem == Some(it.(sauces := Without(it.sauces, c.removeSauces.value)))
  {
    RemoveItemsOnSetIsWithout(s.currentItem.value.sauces, c.removeSauces.value);
  }

  /** Removing only names the item does not carry leaves the state as it
      was, on any item. */
  lemma RemoveAbsentIsNoop(s: OrderState, c: Command)
    requires c.action in {"remove_vegetables", "remove_sauce"} && s.currentItem.Some?
    requires c.removeVegetables.Some? ==>
      forall x :: x in c.removeVegetables.value ==> x !in s.currentItem.value.vegetables
    requires c.removeSauces.Some? ==>
      forall x :: x in c.removeSauces.value ==> x !in s.currentItem.value.sauces
    ensures ProcessAction(s, c).state == s
  {
  }

  // ---------------------------------------------------------------------
  // The cart
  // ---------------------------------------------------------------------

  /** `add_to_cart` appends exactly the current item when it has a menu and
      clears the current item; otherwise nothing changes. */
  lemma AddToCartSpec(s: OrderState, c: Command)
    requires c.action == "add_to_cart"
    ensures var r := ProcessAction(s, c);
      && (s.currentItem.Some? && s.currentItem.value.menu != "" ==>
            && |r.state.cart| == |s.cart| + 1
            && r.state.cart[..|s.cart|] == s.cart
            && r.state.cart[|s.cart|] == s.currentItem.value
            && r.state.currentItem.None?
            && r.state.status == s.status)
      && (s.currentItem.None? || s.currentItem.value.menu == "" ==> r == Reply(s, NO_COMPLETE_ITEM))
  {
    var r := ProcessAction(s, c);
    if s.currentItem.Some? && s.currentItem.value.menu != "" {
      assert r.state.cart[..|s.cart|] == s.cart;
    }
  }

  /** `modify_cart_item` touches only the targeted entry: the other entries,
      the current item and the status are kept; a target with no entry is
      refused; a missing target is not recognised. */
  lemma ModifyCartItemSpec(s: OrderState, c: Command)
    requires c.action == "modify_cart_item"
    ensures var r := ProcessAction(s, c);
      && (c.target.None? ==> r == Reply(s, "Unknown action: modify_cart_item"))
      && (c.target.Some? && !(0 <= c.target.value < |s.cart|) ==> r == Reply(s, INVALID_TARGET))
      && (c.target.Some? && 0 <= c.target.value < |s.cart| ==>
            && |r.state.cart| == |s.cart|
            && (forall i :: 0 <= i < |s.cart| && i != c.target.value ==> r.state.cart[i] == s.cart[i])
            && r.state.currentItem == s.currentItem
            && r.state.status == s.status)
  {
    assert ParseAction(c.action) == ModifyCartItem;
    Routes(s, c);
    ModifyCartItemStep(s, c);
  }

  /** The same, for the step function alone. */
  lemma ModifyCartItemStep(s: OrderState, c: Command)
    requires c.action == "modify_cart_item"
    ensures var r := OnModifyCartItem(s, c);
      && (c.target.None? ==> r == Reply(s, "Unknown action: modify_cart_item"))
      && (c.target.Some? && !(0 <= c.target.value < |s.cart|) ==> r == Reply(s, INVALID_TARGET))
      && (c.target.Some? && 0 <= c.target.value < |s.cart| ==>
            && |r.state.cart| == |s.cart|
            && (forall i :: 0 <= i < |s.cart| && i != c.target.value ==> r.state.cart[i] == s.cart[i])
            && r.state.currentItem == s.currentItem
            && r.state.status == s.status)
  {
  }

  /** A `modify_cart_item` naming only a known menu resets that entry's
      menu, bread, cheese and toppings to the template's defaults and keeps
      its quantity and step. */
  lemma ModifyToMenuResetsDefaults(s: OrderState, c: Command, m: MenuTemplate)
    requires c.action == "modify_cart_item" && c.target.Some? && 0 <= c.target.value < |s.cart|
    requires m in MENU && c.menu == Some(m.name)
    requires c.bread.None? && c.cheese.None? && c.quantity.None?
    requires c.addVegetables.None? && c.removeVegetables.None?
    requires c.addSauces.None? && c.removeSauces.None?
    ensures var e := ProcessAction(s, c).state.cart[c.target.value]; var old_e := s.cart[c.target.value];
      && e.menu == m.name && e.bread == m.defaultBread && e.cheese == m.defaultCheese
      && e.vegetables == m.defaultVegetables && e.sauces == m.defaultSauces
      && e.quantity == old_e.quantity && e.step == old_e.step
  {
    var t := c.target.value;
    ModifiedEntry(s, c);
    ModifyItemToMenu(s.cart[t], c, m);
  }

  /** An in-range `modify_cart_item` replaces the targeted entry by its
      edited form. */
  lemma ModifiedEntry(s: OrderState, c: Command)
    requires c.action == "modify_cart_item" && c.target.Some? && 0 <= c.target.value < |s.cart|
    ensures ProcessAction(s, c).state.cart == s.cart[c.target.value := ModifyItem(s.cart[c.target.value], c)]
  {
    assert ParseAction(c.action) == ModifyCartItem;
    Routes(s, c);
  }

  lemma ModifyItemToMenu(it: OrderItem, c: Command, m: MenuTemplate)
    requires m in MENU && c.menu == Some(m.name)
    requires c.bread.None? && c.cheese.None? && c.quantity.None?
    requires c.addVegetables.None? && c.removeVegetables.None?
    requires c.addSauces.None? && c.removeSauces.None?
    ensures ModifyItem(it, c) == ApplyTemplate(it, m)
  {
    MenuStage(it, c, m);
    var a := ApplyTemplate(it, m);
    UntouchedStages(a, c);
  }

  lemma MenuStage(it: OrderItem, c: Command, m: MenuTemplate)
    requires m in MENU && c.menu == Some(m.name)
    ensures ModifyMenu(it, c) == ApplyTemplate(it, m)
  {
    FindMenuExact(m);
  }

  /** An edit with no bread, cheese, topping or quantity field leaves the
      entry as the menu stage left it. */
  lemma UntouchedStages(a: OrderItem, c: Command)
    requires c.bread.None? && c.cheese.None? && c.quantity.None?
    requires c.addVegetables.None? && c.removeVegetables.None?
    requires c.addSauces.None? && c.removeSauces.None?
    ensures ModifyToppings(ModifyBreadCheese(a, c), c) == a
  {
  }

  /** `remove_from_cart` with an index in range deletes exactly that entry
      and keeps the others in order; any other target is not recognised. */
  lemma RemoveFromCartSpec(s: OrderState, c: Command)
    requires c.action == "remove_from_cart"
    ensures var r := ProcessAction(s, c);
      && (c.target.Some? && 0 <= c.target.value < |s.cart| ==>
            var t := c.target.value;
            && |r.state.cart| == |s.cart| - 1
            && (forall i :: 0 <= i < t ==> r.state.cart[i] == s.cart[i])
            && (forall i :: t <= i < |r.state.cart| ==> r.state.cart[i] == s.cart[i + 1])
            && r.state.currentItem == s.currentItem && r.state.status == s.status
            && r.message == "Removed " + s.cart[t].menu + " from cart.")
      && (!(c.target.Some? && 0 <= c.target.value < |s.cart|) ==>
            r == Reply(s, "Unknown action: remove_from_cart"))
  {
    assert ParseAction(c.action) == RemoveFromCart;
    Routes(s, c);
    RemoveFromCartStep(s, c);
  }

  /** The same, for the step function alone. */
  lemma RemoveFromCartStep(s: OrderState, c: Command)
    requires c.action == "remove_from_cart"
    ensures var r := OnRemoveFromCart(s, c);
      && (c.target.Some? && 0 <= c.target.value < |s.cart| ==>
            var t := c.target.value;
            && |r.state.cart| == |s.cart| - 1
            && (forall i :: 0 <= i < t ==> r.state.cart[i] == s.cart[i])
            && (forall i :: t <= i < |r.state.cart| ==> r.state.cart[i] == s.cart[i + 1])
            && r.state.currentItem == s.currentItem && r.state.status == s.status
            && r.message == "Removed " + s.cart[t].menu + " from cart.")
      && (!(c.target.Some? && 0 <= c.target.value < |s.cart|) ==>
            r == Reply(s, "Unknown action: remove_from_cart"))
  {
  }

  // ---------------------------------------------------------------------
  // Status and the rest
  // ---------------------------------------------------------------------

  /** `confirm_order` moves to `ready` exactly when the cart is non-empty;
      an empty cart is refused and the status kept. The items are not
      touched. */
  lemma ConfirmOrderSpec(s: OrderState, c: Command)
    requires c.action == "confirm_order"
    ensures var r := ProcessAction(s, c);
      && r.state.cart == s.cart && r.state.currentItem == s.currentItem
      && (|s.cart| > 0 ==> r.state.status == Ready)
      && (|s.cart| == 0 ==> r == Reply(s, CART_EMPTY))
  {
    assert ParseAction(c.action) == ConfirmOrder;
    Routes(s, c);
    ConfirmOrderStep(s);
  }

  /** `complete_order` and `cancel_order` set their status whatever the
      state, and touch nothing else. */
  lemma CloseOrderSpec(s: OrderState, c: Command)
    requires c.action == "complete_order" || c.action == "cancel_order"
    ensures var r := ProcessAction(s, c);
      && r.state.cart == s.cart && r.state.currentItem == s.currentItem
      && (c.action == "complete_order" ==> r.state.status == Completed)
      && (c.action == "cancel_order" ==> r.state.status == Cancelled)
  {
    if c.action == "complete_order" {
      CompleteOrderSets(s, c);
    } else {
      CancelOrderSets(s, c);
    }
  }

  lemma CompleteOrderSets(s: OrderState, c: Command)
    requires c.action == "complete_order"
    ensures ProcessAction(s, c).state == s.(status := Completed)
  {
    assert ParseAction(c.action) == CompleteOrder;
  }

  lemma CancelOrderSets(s: OrderState, c: Command)
    requires c.action == "cancel_order"
    ensures ProcessAction(s, c).state == s.(status := Cancelled)
  {
    assert ParseAction(c.action) == CancelOrder;
  }

  /** `confirm_order`, for the step function alone. */
  lemma ConfirmOrderStep(s: OrderState)
    ensures var r := OnConfirmOrder(s);
      && (|s.cart| > 0 ==> r.state == s.(status := Ready))
      && (|s.cart| == 0 ==> r == Reply(s, CART_EMPTY))
  {
  }

  /** `view_cart` leaves the state unchanged. */
  lemma ViewCartInert(s: OrderState, c: Command)
    requires c.action == "view_cart"
    ensures ProcessAction(s, c) == Reply(s, "Cart view requested.")
  {
    assert ParseAction(c.action) == ViewCart;
  }

  /** Every unrecognised name leaves the state unchanged and is echoed back. */
  lemma UnknownNamesInert(s: OrderState, c: Command)
    requires forall k :: k in KNOWN_KINDS ==> c.action != ActionName(k)
    ensures ProcessAction(s, c) == Reply(s, "Unknown action: " + c.action)
  {
    assert ParseAction(c.action).Other?;
  }

  /** "help" is not an action of the reducer. */
  lemma HelpIsUnknown(s: OrderState)
    ensures ProcessAction(s, Bare("help")) == Reply(s, "Unknown action: help")
  {
    assert ParseAction("help") == Other("help");
  }

  // ---------------------------------------------------------------------
  // Batches
  // ---------------------------------------------------------------------

  /** Running `a` then `b` is running `a + b`, for any step function: each
      command sees the state left by all earlier ones, and the messages are
      concatenated. */
  lemma {:induction false} FoldAppend(step: (OrderState, Command) -> Reply, s: OrderState, a: seq<Command>, b: seq<Command>)
    ensures Fold(step, s, a + b).state == Fold(step, Fold(step, s, a).state, b).state
    ensures Fold(step, s, a + b).messages == Fold(step, s, a).messages + Fold(step, Fold(step, s, a).state, b).messages
    decreases |a|
  {
    if a != [] {
      var first := step(s, a[0]);
      assert (a + b)[0] == a[0] && (a + b)[1..] == a[1..] + b;
      FoldAppend(step, first.state, a[1..], b);
    } else {
      assert a + b == b;
    }
  }

  /** The same for the reducer's batch loop. */
  lemma ApplyAllAppend(s: OrderState, a: seq<Command>, b: seq<Command>)
    ensures ApplyAll(s, a + b).state == ApplyAll(ApplyAll(s, a).state, b).state
    ensures ApplyAll(s, a + b).messages == ApplyAll(s, a).messages + ApplyAll(ApplyAll(s, a).state, b).messages
  {
    FoldAppend(ProcessAction, s, a, b);
  }

  /** The i-th message is the reply to the i-th command in the state the
      first i commands produced. */
  lemma ApplyAllMessageAt(s: OrderState, cmds: seq<Command>, i: nat)
    requires i < |cmds|
    ensures ApplyAll(s, cmds).messages[i] == ProcessAction(ApplyAll(s, cmds[..i]).state, cmds[i]).message
  {
    var pre := ApplyAll(s, cmds[..i]);
    assert cmds == cmds[..i] + cmds[i..];
    ApplyAllAppend(s, cmds[..i], cmds[i..]);
    ApplyAllCons(pre.state, cmds[i..]);
  }

  /** A single command is a batch of one. */
  lemma ProcessCommandsSingle(s: OrderState, c: Command)
    ensures ProcessCommands(s, One(c)).state == ProcessAction(s, c).state
    ensures ProcessCommands(s, One(c)).messages == [ProcessAction(s, c).message]
  {
    assert CommandList(One(c)) == [c];
    assert [c][1..] == [];
    ApplyAllCons(s, [c]);
  }

  // ---------------------------------------------------------------------
  // Worked sessions
  // ---------------------------------------------------------------------

  function WithMenu(action: string, name: string): Command {
    Bare(action).(menu := Some(name))
  }

  /** The item "햄" as the template makes it, at quantity one. */
  const HAM_ITEM := OrderItem("햄", "위트", "아메리칸치즈", ["양상추", "토마토", "피클"], ["허니 머스타드"], 1, Bread)

  /** Two commands in a batch are the second applied after the first. */
  lemma ApplyAllPair(s: OrderState, c1: Command, c2: Command)
    ensures var r1 := ProcessAction(s, c1); var r2 := ProcessAction(r1.state, c2);
      ApplyAll(s, [c1, c2]) == Run(r2.state, [r1.message, r2.message])
  {
    var r1 := ProcessAction(s, c1);
    assert [c1, c2][1..] == [c2];
    assert [c2][1..] == [];
    ApplyAllCons(s, [c1, c2]);
    ApplyAllCons(r1.state, [c2]);
  }

  /** A fresh session, `start_item` and `select_menu("햄")` yield the
      template's item as the current item. */
  lemma SessionSelectHam()
    ensures ApplyAll(CreateInitialState(), [Bare("start_item"), WithMenu("select_menu", "햄")]).state
         == OrderState([], Some(HAM_ITEM), Building)
  {
    var s0, c1, c2 := CreateInitialState(), Bare("start_item"), WithMenu("select_menu", "햄");
    StartItemInstallsFreshItem(s0, c1);
    var s1 := ProcessAction(s0, c1).state;
    assert MENU[7].name == "햄";
    SelectMenuAppliesTemplate(s1, c2, MENU[7]);
    ApplyAllPair(s0, c1, c2);
  }

  /** The session holding the "햄" item as its current item. */
  const HAM_SESSION := OrderState([], Some(HAM_ITEM), Building)
  const REMOVE_TOMATO := Bare("remove_vegetables").(removeVegetables := Some(["토마토"]))
  const ADD_OLIVE := Bare("add_vegetables").(addVegetables := Some(["올리브"]))

  /** Removing "토마토" and then adding "올리브" keeps the rest in order
      and appends the new name. */
  lemma SessionSwapVegetable()
    ensures var s1 := ProcessAction(HAM_SESSION, REMOVE_TOMATO).state;
      ProcessAction(s1, ADD_OLIVE).state.currentItem.value.vegetables == ["양상추", "피클", "올리브"]
  {
    RemoveTomato(HAM_SESSION, REMOVE_TOMATO);
    AddOlive(ProcessAction(HAM_SESSION, REMOVE_TOMATO).state, ADD_OLIVE);
  }

  lemma RemoveTomato(s0: OrderState, c1: Command)
    requires s0 == OrderState([], Some(HAM_ITEM), Building)
    requires c1 == Bare("remove_vegetables").(removeVegetables := Some(["토마토"]))
    ensures ProcessAction(s0, c1).state == OrderState([], Some(HAM_ITEM.(vegetables := ["양상추", "피클"])), Building)
  {
    assert ParseAction(c1.action) == RemoveVegetables;
    Routes(s0, c1);
    var v := HAM_ITEM.vegetables;
    assert RemoveFirst(v, "토마토") == ["양상추", "피클"] by {
      assert v[0] != "토마토" && v[1] == "토마토";
      assert v[1..][1..] == ["피클"];
    }
    assert RemoveItems(v, ["토마토"]) == RemoveItems(RemoveFirst(v, "토마토"), []);
  }

  lemma AddOlive(s1: OrderState, c2: Command)
    requires s1 == OrderState([], Some(HAM_ITEM.(vegetables := ["양상추", "피클"])), Building)
    requires c2 == Bare("add_vegetables").(addVegetables := Some(["올리브"]))
    ensures ProcessAction(s1, c2).state.currentItem.value.vegetables == ["양상추", "피클", "올리브"]
  {
    assert ParseAction(c2.action) == AddVegetables;
    Routes(s1, c2);
    var v := ["양상추", "피클"];
    assert Keep(["올리브"], VEGETABLE_OPTIONS) == ["올리브"];
    assert AddUniqueItems(v, ["올리브"]) == AddUniqueItems(v + ["올리브"], []);
  }

  /** Committing the "햄" item puts it in the cart and clears the current
      item. */
  lemma SessionCommitHam()
    ensures ProcessAction(OrderState([], Some(HAM_ITEM), Building), Bare("add_to_cart")).state
         == OrderState([HAM_ITEM], None, Building)
  {
    var c := Bare("add_to_cart");
    assert ParseAction(c.action) == AddToCart;
    Routes(HAM_SESSION, c);
  }

  /** Editing a cart entry on an empty cart is refused and changes nothing. */
  lemma SessionModifyEmptyCart()
    ensures ProcessAction(CreateInitialState(), Bare("modify_cart_item").(target := Some(0), bread := Some("화이트")))
         == Reply(CreateInitialState(), INVALID_TARGET)
  {
    var c := Bare("modify_cart_item").(target := Some(0), bread := Some("화이트"));
    assert ParseAction(c.action) == ModifyCartItem;
    Routes(CreateInitialState(), c);
    ModifyCartItemStep(CreateInitialState(), c);
  }

  /** Confirming a one-item cart makes the order ready; after removing the
      item, a second confirmation is refused and the status stays ready. */
  lemma SessionConfirmTwice()
    ensures var s0 := OrderState([HAM_ITEM], None, Building);
      var s1 := ProcessAction(s0, Bare("confirm_order")).state;
      var s2 := ProcessAction(s1, Bare("remove_from_cart").(target := Some(0))).state;
      && s1.status == Ready
      && ProcessAction(s2, Bare("confirm_order")) == Reply(OrderState([], None, Ready), CART_EMPTY)
  {
    var s0 := OrderState([HAM_ITEM], None, Building);
    var confirm := Bare("confirm_order");
    assert ParseAction(confirm.action) == ConfirmOrder;
    Routes(s0, confirm);
    ConfirmOrderStep(s0);
    var s1 := ProcessAction(s0, confirm).state;
    assert s1 == OrderState([HAM_ITEM], None, Ready);
    var c := Bare("remove_from_cart").(target := Some(0));
    assert ParseAction(c.action) == RemoveFromCart;
    Routes(s1, c);
    RemoveFromCartStep(s1, c);
    var s2 := ProcessAction(s1, c).state;
    assert s2 == OrderState([], None, Ready);
    Routes(s2, confirm);
    ConfirmOrderStep(s2);
  }
}

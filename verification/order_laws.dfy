/** Properties of the order reducer: the session invariant it preserves,
    what each action does and leaves alone, that refusals change nothing,
    and how a batch is folded. */
module OrderLaws {
  import opened Seqs
  import opened Types
  import opened Catalog
  import opened OrderedLists
  import opened OrderLogic

  // ---------------------------------------------------------------------
  // The session invariant
  // ---------------------------------------------------------------------

  lemma ApplyTemplateValid(it: OrderItem, m: MenuTemplate)
    requires ItemValid(it) && m in MENU
    ensures ItemValid(ApplyTemplate(it, m)) && ApplyTemplate(it, m).menu != ""
  {
    TemplatesValid();
    FindMenuExact(m);
  }

  lemma StartItemKeepsWellFormed(s: OrderState)
    requires WellFormed(s)
    ensures WellFormed(s.(currentItem := Some(CreateEmptyItem()), status := Building))
  {
  }

  lemma CurrentEditKeepsWellFormed(s: OrderState, it: OrderItem)
    requires WellFormed(s) && ItemValid(it)
    ensures WellFormed(WithCurrent(s, it))
  {
  }

  lemma AppendKeepsWellFormed(s: OrderState)
    requires WellFormed(s) && s.currentItem.Some? && s.currentItem.value.menu != ""
    ensures WellFormed(s.(cart := s.cart + [s.currentItem.value], currentItem := None))
  {
  }

  lemma ReplaceEntryKeepsWellFormed(s: OrderState, t: int, it: OrderItem)
    requires WellFormed(s) && 0 <= t < |s.cart| && ItemValid(it) && it.menu != ""
    ensures WellFormed(s.(cart := s.cart[t := it]))
  {
  }

  lemma DeleteEntryKeepsWellFormed(s: OrderState, t: int)
    requires WellFormed(s) && 0 <= t < |s.cart|
    ensures WellFormed(s.(cart := s.cart[..t] + s.cart[t + 1..]))
  {
    var c := s.cart[..t] + s.cart[t + 1..];
    forall i | 0 <= i < |c| ensures ItemValid(c[i]) && c[i].menu != "" {
      if i < t { assert c[i] == s.cart[i]; } else { assert c[i] == s.cart[i + 1]; }
    }
  }

  /** The topping edits keep an item valid: only catalog options are
      added, and neither adding nor removing introduces a repeat. */
  lemma ToppingEditsKeepValid(it: OrderItem, xs: seq<string>)
    requires ItemValid(it)
    ensures ItemValid(AddVegetablesTo(it, xs)) && ItemValid(RemoveVegetablesFrom(it, xs))
    ensures ItemValid(AddSaucesTo(it, xs)) && ItemValid(RemoveSaucesFrom(it, xs))
  {
  }

  lemma ModifyToppingsKeepsValid(it: OrderItem, c: Command)
    requires ItemValid(it)
    ensures ItemValid(ModifyToppings(it, c))
  {
    var e := if c.addVegetables.Some? then AddVegetablesTo(it, c.addVegetables.value) else it;
    if c.addVegetables.Some? { ToppingEditsKeepValid(it, c.addVegetables.value); }
    var f := if c.removeVegetables.Some? then RemoveVegetablesFrom(e, c.removeVegetables.value) else e;
    if c.removeVegetables.Some? { ToppingEditsKeepValid(e, c.removeVegetables.value); }
    var g := if c.addSauces.Some? then AddSaucesTo(f, c.addSauces.value) else f;
    if c.addSauces.Some? { ToppingEditsKeepValid(f, c.addSauces.value); }
    if c.removeSauces.Some? { ToppingEditsKeepValid(g, c.removeSauces.value); }
  }

  /** Editing a cart entry keeps it valid and with a menu: a menu change
      installs a catalog template, and the other edits use the same
      validation as the single-item actions. */
  lemma ModifyItemKeepsValid(it: OrderItem, c: Command)
    requires ItemValid(it) && it.menu != ""
    ensures ItemValid(ModifyItem(it, c)) && ModifyItem(it, c).menu != ""
  {
    var a := ModifyMenu(it, c);
    if Truthy(c.menu) && FindMenu(c.menu.value).Some? {
      ApplyTemplateValid(it, FindMenu(c.menu.value).value);
    }
    var b := ModifyBreadCheese(a, c);
    assert ItemValid(b) && b.menu != "";
    ModifyToppingsKeepsValid(b, c);
  }

  /** On a valid cart entry, a `modify_cart_item` edits each topping list
      as a set: starting from the entry's list (or the new menu's default
      list, when a known menu is named), the new catalog-valid names to add
      are appended once each, in order, and every name to remove is then
      filtered out. */
  lemma ModifyItemToppings(it: OrderItem, c: Command)
    requires ItemValid(it)
    ensures var menuApplies := Truthy(c.menu) && FindMenu(c.menu.value).Some?;
      var v := if menuApplies then FindMenu(c.menu.value).value.defaultVegetables else it.vegetables;
      ModifyItem(it, c).vegetables ==
        Without(v + Dedup(Without(Keep(c.addVegetables.GetOr([]), VEGETABLE_OPTIONS), v)), c.removeVegetables.GetOr([]))
    ensures var menuApplies := Truthy(c.menu) && FindMenu(c.menu.value).Some?;
      var v := if menuApplies then FindMenu(c.menu.value).value.defaultSauces else it.sauces;
      ModifyItem(it, c).sauces ==
        Without(v + Dedup(Without(Keep(c.addSauces.GetOr([]), SAUCE_OPTIONS), v)), c.removeSauces.GetOr([]))
  {
    var a := ModifyMenu(it, c);
    if Truthy(c.menu) && FindMenu(c.menu.value).Some? {
      ApplyTemplateValid(it, FindMenu(c.menu.value).value);
    }
    var b := ModifyBreadCheese(a, c);
    assert NoDup(b.vegetables) && NoDup(b.sauces);
  }

  lemma SelectMenuKeepsWellFormed(s: OrderState, c: Command)
    requires WellFormed(s)
    ensures WellFormed(OnSelectMenu(s, c).state)
  {
    if Truthy(c.menu) && s.currentItem.Some? && FindMenu(c.menu.value).Some? {
      var it := ApplyTemplate(s.currentItem.value, FindMenu(c.menu.value).value);
      ApplyTemplateValid(s.currentItem.value, FindMenu(c.menu.value).value);
      CurrentEditKeepsWellFormed(s, it);
    }
  }

  lemma SelectBreadKeepsWellFormed(s: OrderState, c: Command)
    requires WellFormed(s)
    ensures WellFormed(OnSelectBread(s, c).state)
  {
    if s.currentItem.Some? && Truthy(c.bread) && IsValidOption(c.bread.value, BREAD_OPTIONS) {
      CurrentEditKeepsWellFormed(s, s.currentItem.value.(bread := c.bread.value));
    }
  }

  lemma SelectCheeseKeepsWellFormed(s: OrderState, c: Command)
    requires WellFormed(s)
    ensures WellFormed(OnSelectCheese(s, c).state)
  {
    if s.currentItem.Some? && Truthy(c.cheese) && IsValidOption(c.cheese.value, CHEESE_OPTIONS) {
      CurrentEditKeepsWellFormed(s, s.currentItem.value.(cheese := c.cheese.value));
    }
  }

  lemma SetQuantityKeepsWellFormed(s: OrderState, c: Command)
    requires WellFormed(s)
    ensures WellFormed(OnSetQuantity(s, c).state)
  {
    if s.currentItem.Some? && c.quantity.Some? && c.quantity.value > 0 {
      CurrentEditKeepsWellFormed(s, s.currentItem.value.(quantity := c.quantity.value));
    }
  }

  lemma SetStepKeepsWellFormed(s: OrderState, c: Command)
    requires WellFormed(s)
    ensures WellFormed(OnSetStep(s, c).state)
  {
    if s.currentItem.Some? && c.step.Some? {
      CurrentEditKeepsWellFormed(s, s.currentItem.value.(step := c.step.value));
    }
  }

  lemma AddVegetablesKeepsWellFormed(s: OrderState, c: Command)
    requires WellFormed(s)
    ensures WellFormed(OnAddVegetables(s, c).state)
  {
    if s.currentItem.Some? && c.addVegetables.Some? {
      ToppingEditsKeepValid(s.currentItem.value, c.addVegetables.value);
      CurrentEditKeepsWellFormed(s, AddVegetablesTo(s.currentItem.value, c.addVegetables.value));
    }
  }

  lemma RemoveVegetablesKeepsWellFormed(s: OrderState, c: Command)
    requires WellFormed(s)
    ensures WellFormed(OnRemoveVegetables(s, c).state)
  {
    if s.currentItem.Some? && c.removeVegetables.Some? {
      ToppingEditsKeepValid(s.currentItem.value, c.removeVegetables.value);
      CurrentEditKeepsWellFormed(s, RemoveVegetablesFrom(s.currentItem.value, c.removeVegetables.value));
    }
  }

  lemma AddSauceKeepsWellFormed(s: OrderState, c: Command)
    requires WellFormed(s)
    ensures WellFormed(OnAddSauce(s, c).state)
  {
    if s.currentItem.Some? && c.addSauces.Some? {
      ToppingEditsKeepValid(s.currentItem.value, c.addSauces.value);
      CurrentEditKeepsWellFormed(s, AddSaucesTo(s.currentItem.value, c.addSauces.value));
    }
  }

  lemma RemoveSauceKeepsWellFormed(s: OrderState, c: Command)
    requires WellFormed(s)
    ensures WellFormed(OnRemoveSauce(s, c).state)
  {
    if s.currentItem.Some? && c.removeSauces.Some? {
      ToppingEditsKeepValid(s.currentItem.value, c.removeSauces.value);
      CurrentEditKeepsWellFormed(s, RemoveSaucesFrom(s.currentItem.value, c.removeSauces.value));
    }
  }

  lemma AddToCartKeepsWellFormed(s: OrderState)
    requires WellFormed(s)
    ensures WellFormed(OnAddToCart(s).state)
  {
    if s.currentItem.Some? && s.currentItem.value.menu != "" {
      AppendKeepsWellFormed(s);
    }
  }

  lemma ModifyCartItemKeepsWellFormed(s: OrderState, c: Command)
    requires WellFormed(s)
    ensures WellFormed(OnModifyCartItem(s, c).state)
  {
    if c.target.Some? && 0 <= c.target.value < |s.cart| {
      var t := c.target.value;
      ModifyItemKeepsValid(s.cart[t], c);
      ReplaceEntryKeepsWellFormed(s, t, ModifyItem(s.cart[t], c));
    }
  }

  lemma RemoveFromCartKeepsWellFormed(s: OrderState, c: Command)
    requires WellFormed(s)
    ensures WellFormed(OnRemoveFromCart(s, c).state)
  {
    if c.target.Some? && 0 <= c.target.value < |s.cart| {
      DeleteEntryKeepsWellFormed(s, c.target.value);
    }
  }

  /** Every command keeps the session invariant: items only ever hold
      catalog options without repeats and a positive quantity, and no item
      without a menu reaches the cart. */
  lemma ProcessActionPreservesWellFormed(s: OrderState, c: Command)
    requires WellFormed(s)
    ensures WellFormed(ProcessAction(s, c).state)
  {
    match ParseAction(c.action)
    case StartItem => StartItemKeepsWellFormed(s);
    case SelectMenu => SelectMenuKeepsWellFormed(s, c);
    case SelectBread => SelectBreadKeepsWellFormed(s, c);
    case SelectCheese => SelectCheeseKeepsWellFormed(s, c);
    case SetQuantity => SetQuantityKeepsWellFormed(s, c);
    case SetStep => SetStepKeepsWellFormed(s, c);
    case AddVegetables => AddVegetablesKeepsWellFormed(s, c);
    case RemoveVegetables => RemoveVegetablesKeepsWellFormed(s, c);
    case AddSauce => AddSauceKeepsWellFormed(s, c);
    case RemoveSauce => RemoveSauceKeepsWellFormed(s, c);
    case AddToCart => AddToCartKeepsWellFormed(s);
    case ModifyCartItem => ModifyCartItemKeepsWellFormed(s, c);
    case RemoveFromCart => RemoveFromCartKeepsWellFormed(s, c);
    case _ =>
  }

  /** A whole batch keeps the session invariant. */
  lemma {:induction false} ApplyAllPreservesWellFormed(s: OrderState, cmds: seq<Command>)
    requires WellFormed(s)
    ensures WellFormed(ApplyAll(s, cmds).state)
    decreases |cmds|
  {
    if cmds != [] {
      ProcessActionPreservesWellFormed(s, cmds[0]);
      ApplyAllPreservesWellFormed(ProcessAction(s, cmds[0]).state, cmds[1..]);
      ApplyAllCons(s, cmds);
    }
  }

  // ---------------------------------------------------------------------
  // Refusals change nothing
  // ---------------------------------------------------------------------

  /** `p` differs at position `k` from every refusal message and from the
      unknown-action prefix, so no message starting with `p` is a refusal. */
  predicate SuccessPrefix(p: string, k: nat) {
    && k < |p| && k < |UNKNOWN_PREFIX|
    && DiffersAt(UNKNOWN_PREFIX, p, k)
    && DiffersAt(NO_CURRENT_ITEM, p, k) && DiffersAt(INVALID_MENU, p, k)
    && DiffersAt(BAD_BREAD, p, k) && DiffersAt(BAD_CHEESE, p, k)
    && DiffersAt(INVALID_QUANTITY, p, k) && DiffersAt(NO_COMPLETE_ITEM, p, k)
    && DiffersAt(INVALID_TARGET, p, k) && DiffersAt(CART_EMPTY, p, k)
  }

  predicate DiffersAt(a: string, p: string, k: nat)
    requires k < |p|
  {
    k >= |a| || a[k] != p[k]
  }

  lemma NotRejection(p: string, x: string, k: nat)
    requires SuccessPrefix(p, k)
    ensures !IsRejection(p + x)
  {
    var msg := p + x;
    assert msg[k] == p[k];
    assert msg !in REJECTIONS;
    if |UNKNOWN_PREFIX| <= |msg| {
      assert msg[..|UNKNOWN_PREFIX|][k] == p[k];
    }
  }

  /** The fixed prefixes of the reducer's success messages. */
  lemma SuccessPrefixes()
    ensures SuccessPrefix("Started new item.", 0)
    ensures SuccessPrefix("Menu set: ", 0)
    ensures SuccessPrefix("Bread set: ", 8)
    ensures SuccessPrefix("Cheese set: ", 7)
    ensures SuccessPrefix("Added vegetables: ", 0)
    ensures SuccessPrefix("Removed vegetables: ", 0)
    ensures SuccessPrefix("Added sauces: ", 0)
    ensures SuccessPrefix("Removed sauces: ", 0)
    ensures SuccessPrefix("Quantity set: ", 0)
    ensures SuccessPrefix("Step set: ", 0)
    ensures SuccessPrefix("Item added to cart.", 1)
    ensures SuccessPrefix("Cart item ", 6)
    ensures SuccessPrefix("Removed ", 0)
    ensures SuccessPrefix("Order ready for confirmation.", 0)
    ensures SuccessPrefix("Order completed.", 0)
    ensures SuccessPrefix("Order cancelled.", 0)
  {
  }

  lemma NotRejectionLiteral(p: string, k: nat)
    requires SuccessPrefix(p, k)
    ensures !IsRejection(p)
  {
    NotRejection(p, "", k);
    assert p + "" == p;
  }

  lemma UnknownIsRejection(name: string)
    ensures IsRejection(UNKNOWN_PREFIX + name)
  {
    assert (UNKNOWN_PREFIX + name)[..|UNKNOWN_PREFIX|] == UNKNOWN_PREFIX;
  }

  /** A reply is honest about `s` when a refusal comes with `s` untouched. */
  predicate Honest(s: OrderState, r: Reply)
  {
    IsRejection(r.message) ==> r.state == s
  }

  lemma StartItemHonest(s: OrderState)
    ensures Honest(s, OnStartItem(s))
  {
    SuccessPrefixes();
    NotRejectionLiteral("Started new item.", 0);
  }

  lemma SelectMenuHonest(s: OrderState, c: Command)
    ensures Honest(s, OnSelectMenu(s, c))
  {
    if OnSelectMenu(s, c).state != s {
      SuccessPrefixes();
      NotRejection("Menu set: ", c.menu.value, 0);
    }
  }

  lemma SelectBreadHonest(s: OrderState, c: Command)
    ensures Honest(s, OnSelectBread(s, c))
  {
    if OnSelectBread(s, c).state != s {
      SuccessPrefixes();
      NotRejection("Bread set: ", c.bread.value, 8);
    }
  }

  lemma SelectCheeseHonest(s: OrderState, c: Command)
    ensures Honest(s, OnSelectCheese(s, c))
  {
    if OnSelectCheese(s, c).state != s {
      SuccessPrefixes();
      NotRejection("Cheese set: ", c.cheese.value, 7);
    }
  }

  lemma SetQuantityHonest(s: OrderState, c: Command)
    ensures Honest(s, OnSetQuantity(s, c))
  {
    if OnSetQuantity(s, c).state != s {
      SuccessPrefixes();
      NotRejection("Quantity set: ", NatToString(c.quantity.value), 0);
    }
  }

  lemma SetStepHonest(s: OrderState, c: Command)
    ensures Honest(s, OnSetStep(s, c))
  {
    if OnSetStep(s, c).state != s {
      SuccessPrefixes();
      NotRejection("Step set: ", StepName(c.step.value), 0);
    }
  }

  lemma AddVegetablesHonest(s: OrderState, c: Command)
    ensures Honest(s, OnAddVegetables(s, c))
  {
    if OnAddVegetables(s, c).state != s {
      SuccessPrefixes();
      NotRejection("Added vegetables: ", Join(Keep(c.addVegetables.value, VEGETABLE_OPTIONS), ", "), 0);
    }
  }

  lemma RemoveVegetablesHonest(s: OrderState, c: Command)
    ensures Honest(s, OnRemoveVegetables(s, c))
  {
    if OnRemoveVegetables(s, c).state != s {
      SuccessPrefixes();
      NotRejection("Removed vegetables: ", Join(c.removeVegetables.value, ", "), 0);
    }
  }

  lemma AddSauceHonest(s: OrderState, c: Command)
    ensures Honest(s, OnAddSauce(s, c))
  {
    if OnAddSauce(s, c).state != s {
      SuccessPrefixes();
      NotRejection("Added sauces: ", Join(Keep(c.addSauces.value, SAUCE_OPTIONS), ", "), 0);
    }
  }

  lemma RemoveSauceHonest(s: OrderState, c: Command)
    ensures Honest(s, OnRemoveSauce(s, c))
  {
    if OnRemoveSauce(s, c).state != s {
      SuccessPrefixes();
      NotRejection("Removed sauces: ", Join(c.removeSauces.value, ", "), 0);
    }
  }

  lemma AddToCartHonest(s: OrderState)
    ensures Honest(s, OnAddToCart(s))
  {
    if OnAddToCart(s).state != s {
      SuccessPrefixes();
      NotRejectionLiteral("Item added to cart.", 1);
    }
  }

  lemma ModifyCartItemHonest(s: OrderState, c: Command)
    ensures Honest(s, OnModifyCartItem(s, c))
  {
    var r := OnModifyCartItem(s, c);
    if r.state != s {
      var t := c.target.value;
      assert r.message == "Cart item " + (NatToString(t) + " modified.");
      SuccessPrefixes();
      NotRejection("Cart item ", NatToString(t) + " modified.", 6);
    }
  }

  lemma RemoveFromCartHonest(s: OrderState, c: Command)
    ensures Honest(s, OnRemoveFromCart(s, c))
  {
    var r := OnRemoveFromCart(s, c);
    if r.state != s {
      var t := c.target.value;
      assert r.message == "Removed " + (s.cart[t].menu + " from cart.");
      SuccessPrefixes();
      NotRejection("Removed ", s.cart[t].menu + " from cart.", 0);
    }
  }

  lemma ConfirmOrderHonest(s: OrderState)
    ensures Honest(s, OnConfirmOrder(s))
  {
    if OnConfirmOrder(s).state != s {
      SuccessPrefixes();
      NotRejectionLiteral("Order ready for confirmation.", 0);
    }
  }

  lemma StatusEndsHonest(s: OrderState)
    ensures Honest(s, Reply(s.(status := Completed), "Order completed."))
    ensures Honest(s, Reply(s.(status := Cancelled), "Order cancelled."))
  {
    SuccessPrefixes();
    NotRejectionLiteral("Order completed.", 0);
    NotRejectionLiteral("Order cancelled.", 0);
  }

  /** Whenever the reducer answers with a refusal, the state is exactly the
      one it was given: no command is ever half applied. */
  lemma RefusalLeavesStateUnchanged(s: OrderState, c: Command)
    ensures IsRejection(ProcessAction(s, c).message) ==> ProcessAction(s, c).state == s
  {
    match ParseAction(c.action)
    case StartItem => StartItemHonest(s);
    case SelectMenu => SelectMenuHonest(s, c);
    case SelectBread => SelectBreadHonest(s, c);
    case SelectCheese => SelectCheeseHonest(s, c);
    case AddVegetables => AddVegetablesHonest(s, c);
    case RemoveVegetables => RemoveVegetablesHonest(s, c);
    case AddSauce => AddSauceHonest(s, c);
    case RemoveSauce => RemoveSauceHonest(s, c);
    case SetQuantity => SetQuantityHonest(s, c);
    case SetStep => SetStepHonest(s, c);
    case AddToCart => AddToCartHonest(s);
    case ModifyCartItem => ModifyCartItemHonest(s, c);
    case RemoveFromCart => RemoveFromCartHonest(s, c);
    case ViewCart =>
    case ConfirmOrder => ConfirmOrderHonest(s);
    case CompleteOrder => StatusEndsHonest(s);
    case CancelOrder => StatusEndsHonest(s);
    case Other(_) =>
  }
}

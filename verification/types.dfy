/** The order data model (app/types.ts) and the action vocabulary the
    reducer dispatches on. */
module Types {
  import opened Seqs

  /** The UI sub-stage an item is at; a hint, not enforced by the reducer. */
  datatype Step = Bread | Cheese | Vegetables | Sauces | Quantity | Done

  /** The coarse session lifecycle tag. */
  datatype Status = Init | Building | Ready | Completed | Cancelled

  /** A sandwich being composed or already in the cart. `menu`, `bread` and
      `cheese` are empty strings until chosen. */
  datatype OrderItem = OrderItem(
    menu: string,
    bread: string,
    cheese: string,
    vegetables: seq<string>,
    sauces: seq<string>,
    quantity: int,
    step: Step)

  /** The session: an ordered cart and at most one item being composed. */
  datatype OrderState = OrderState(
    cart: seq<OrderItem>,
    currentItem: Option<OrderItem>,
    status: Status)

  /** A command as the upstream intent source emits it: a free-form action
      name and optional parameters. */
  datatype Command = Command(
    action: string,
    menu: Option<string>,
    bread: Option<string>,
    cheese: Option<string>,
    addVegetables: Option<seq<string>>,
    removeVegetables: Option<seq<string>>,
    addSauces: Option<seq<string>>,
    removeSauces: Option<seq<string>>,
    quantity: Option<int>,
    target: Option<int>,
    step: Option<Step>)

  /** A command carrying only an action name. */
  function Bare(action: string): (c: Command)
    ensures c.action == action
  {
    Command(action, None, None, None, None, None, None, None, None, None, None)
  }

  /** The action names the reducer has a branch for, plus every other name. */
  datatype ActionKind =
    | StartItem | SelectMenu | SelectBread | SelectCheese
    | AddVegetables | RemoveVegetables | AddSauce | RemoveSauce
    | SetQuantity | SetStep | AddToCart | ModifyCartItem | RemoveFromCart
    | ViewCart | ConfirmOrder | CompleteOrder | CancelOrder
    | Other(name: string)

  /** The wire name of an action kind. */
  function ActionName(k: ActionKind): string {
    match k
    case StartItem => "start_item"
    case SelectMenu => "select_menu"
    case SelectBread => "select_bread"
    case SelectCheese => "select_cheese"
    case AddVegetables => "add_vegetables"
    case RemoveVegetables => "remove_vegetables"
    case AddSauce => "add_sauce"
    case RemoveSauce => "remove_sauce"
    case SetQuantity => "set_quantity"
    case SetStep => "set_step"
    case AddToCart => "add_to_cart"
    case ModifyCartItem => "modify_cart_item"
    case RemoveFromCart => "remove_from_cart"
    case ViewCart => "view_cart"
    case ConfirmOrder => "confirm_order"
    case CompleteOrder => "complete_order"
    case CancelOrder => "cancel_order"
    case Other(n) => n
  }

  /** The kinds the reducer recognises by name. */
  const KNOWN_KINDS: seq<ActionKind> := [
    StartItem, SelectMenu, SelectBread, SelectCheese,
    AddVegetables, RemoveVegetables, AddSauce, RemoveSauce,
    SetQuantity, SetStep, AddToCart, ModifyCartItem, RemoveFromCart,
    ViewCart, ConfirmOrder, CompleteOrder, CancelOrder]

  /** Classifies an action name by exact string comparison, the way the
      reducer's chain of `action === '…'` tests does. Every name is
      representable: an unrecognised one becomes `Other`. */
  function ParseAction(name: string): (k: ActionKind)
    ensures ActionName(k) == name
    ensures !k.Other? ==> k in KNOWN_KINDS
    ensures k.Other? ==> forall j :: 0 <= j < |KNOWN_KINDS| ==> ActionName(KNOWN_KINDS[j]) != name
  {
    if name == "start_item" then StartItem
    else if name == "select_menu" then SelectMenu
    else if name == "select_bread" then SelectBread
    else if name == "select_cheese" then SelectCheese
    else if name == "add_vegetables" then AddVegetables
    else if name == "remove_vegetables" then RemoveVegetables
    else if name == "add_sauce" then AddSauce
    else if name == "remove_sauce" then RemoveSauce
    else if name == "set_quantity" then SetQuantity
    else if name == "set_step" then SetStep
    else if name == "add_to_cart" then AddToCart
    else if name == "modify_cart_item" then ModifyCartItem
    else if name == "remove_from_cart" then RemoveFromCart
    else if name == "view_cart" then ViewCart
    else if name == "confirm_order" then ConfirmOrder
    else if name == "complete_order" then CompleteOrder
    else if name == "cancel_order" then CancelOrder
    else Other(name)
  }

  /** Recognised kinds survive a trip through their wire name. */
  lemma KnownKindRoundTrip(k: ActionKind)
    requires k in KNOWN_KINDS
    ensures ParseAction(ActionName(k)) == k
  {
  }

  /** The wire name of a step (`OrderStep` in app/types.ts). */
  function StepName(s: Step): string {
    match s
    case Bread => "bread"
    case Cheese => "cheese"
    case Vegetables => "vegetables"
    case Sauces => "sauces"
    case Quantity => "quantity"
    case Done => "done"
  }

  /** Reads a wire step name; exactly the six `OrderStep` names are accepted. */
  function ParseStep(name: string): (r: Option<Step>)
    ensures r.Some? ==> StepName(r.value) == name
    ensures r.None? ==> forall s: Step :: StepName(s) != name
  {
    if name == "bread" then Some(Bread)
    else if name == "cheese" then Some(Cheese)
    else if name == "vegetables" then Some(Vegetables)
    else if name == "sauces" then Some(Sauces)
    else if name == "quantity" then Some(Quantity)
    else if name == "done" then Some(Done)
    else None
  }

  lemma StepRoundTrip(s: Step)
    ensures ParseStep(StepName(s)) == Some(s)
  {
  }

  /** The wire name of a status (`OrderStatus` in app/types.ts). */
  function StatusName(s: Status): string {
    match s
    case Init => "init"
    case Building => "building"
    case Ready => "ready"
    case Completed => "completed"
    case Cancelled => "cancelled"
  }

  /** Reads a wire status; exactly the five `OrderStatus` names are accepted. */
  function ParseStatus(name: string): (r: Option<Status>)
    ensures r.Some? ==> StatusName(r.value) == name
    ensures r.None? ==> forall s: Status :: StatusName(s) != name
  {
    if name == "init" then Some(Init)
    else if name == "building" then Some(Building)
    else if name == "ready" then Some(Ready)
    else if name == "completed" then Some(Completed)
    else if name == "cancelled" then Some(Cancelled)
    else None
  }

  lemma StatusRoundTrip(s: Status)
    ensures ParseStatus(StatusName(s)) == Some(s)
  {
  }
}

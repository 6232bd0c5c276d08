/** The pure helpers of the kiosk page (frontend/app/page.tsx), lifted out
    of the component: list deduplication and the ingredient operations of
    a cart line, pick toggling, the two slot-filling rules of the
    "set ingredients" intent, the back-navigation table and the review
    screen's cart edits. */
module Kiosk {
  import opened Seqs
  import opened OrderedLists
  import opened ReceiptMapper

  // ---------------------------------------------------------------------
  // Data
  // ---------------------------------------------------------------------

  /** The screens of the kiosk flow. */
  datatype KioskState =
    | Start | ModeSelect | ThemeSelect | BreadSelect | CheeseSelect
    | VegeSelect | SauceSelect | ExtraSelect | Review
    | RecoList | RecoDetail | Payment | End

  /** The choices made for one sandwich. */
  datatype Picks = Picks(
    bread: Option<string>,
    cheese: Option<string>,
    vegetables: seq<string>,
    sauces: seq<string>,
    extras: seq<string>)

  /** A cart line of the kiosk page; the item being composed has the same
      shape. */
  datatype CartItem = CartItem(
    menuId: int,
    name: string,
    sizeCm: int,
    quantity: int,
    picks: Picks,
    ops: IngredientOps)

  /** An ingredient row as the backend lists it. */
  datatype Ingredient = Ingredient(name: string, kind: string)

  /** The three pick lists that hold several names. */
  datatype ListCategory = VegetableList | SauceList | ExtraList

  function PickList(p: Picks, cat: ListCategory): seq<string> {
    match cat
    case VegetableList => p.vegetables
    case SauceList => p.sauces
    case ExtraList => p.extras
  }

  function WithPickList(p: Picks, cat: ListCategory, xs: seq<string>): (r: Picks)
    ensures PickList(r, cat) == xs
    ensures forall other :: other != cat ==> PickList(r, other) == PickList(p, other)
    ensures r.bread == p.bread && r.cheese == p.cheese
  {
    match cat
    case VegetableList => p.(vegetables := xs)
    case SauceList => p.(sauces := xs)
    case ExtraList => p.(extras := xs)
  }

  // ---------------------------------------------------------------------
  // uniq and buildOps
  // ---------------------------------------------------------------------

  /** The contents of a JavaScript `Set` built from `xs`, in iteration
      order: every element inserted in turn, a repeat ignored. */
  function SetOf(xs: seq<string>): (r: seq<string>)
    ensures NoDup(r)
    ensures forall x :: x in r <==> x in xs
  {
    AddUniqueItems([], xs)
  }

  /** `uniq` keeps the first occurrence of every name, in order. */
  lemma UniqIsDedup(xs: seq<string>)
    ensures SetOf(xs) == Dedup(xs)
  {
    FromEmptyIsDedup(xs);
  }

  /** `buildOps`: every picked vegetable, sauce and extra once, in that
      order; nothing excluded. */
  function BuildOps(p: Picks): (r: IngredientOps)
    ensures NoDup(r.add) && r.exclude == []
    ensures forall x :: x in r.add <==> x in p.vegetables || x in p.sauces || x in p.extras
  {
    IngredientOps(SetOf(p.vegetables + p.sauces + p.extras), [])
  }

  /** The vegetables come first in `buildOps`, then the new sauces, then
      the new extras. */
  lemma BuildOpsOrder(p: Picks)
    ensures var add := BuildOps(p).add;
      var vs := SetOf(p.vegetables);
      var vss := SetOf(p.vegetables + p.sauces);
      && |vs| <= |vss| <= |add|
      && add[..|vs|] == vs
      && add[..|vss|] == vss
      && add == Dedup(p.vegetables + p.sauces + p.extras)
  {
    AddUniqueConcat([], p.vegetables, p.sauces);
    AddUniqueConcat([], p.vegetables + p.sauces, p.extras);
    var vs := SetOf(p.vegetables);
    var vss := SetOf(p.vegetables + p.sauces);
    var add := BuildOps(p).add;
    assert add[..|vs|] == vs by {
      assert add[..|vss|][..|vs|] == add[..|vs|];
    }
    UniqIsDedup(p.vegetables + p.sauces + p.extras);
  }

  // ---------------------------------------------------------------------
  // togglePick
  // ---------------------------------------------------------------------

  /** `togglePick`: `n` leaves the list when it is there and joins it at the
      end when it is not; the list passes through a `Set`, so repeats are
      collapsed on the way. Without an item being composed nothing
      happens. */
  function TogglePick(w: Option<CartItem>, cat: ListCategory, n: string): (r: Option<CartItem>)
    ensures w.None? ==> r.None?
    ensures w.Some? ==> r.Some? && r.value == w.value.(picks := r.value.picks)
    ensures w.Some? ==>
      && NoDup(PickList(r.value.picks, cat))
      && (n in PickList(r.value.picks, cat) <==> n !in PickList(w.value.picks, cat))
      && (forall x :: x != n ==> (x in PickList(r.value.picks, cat) <==> x in PickList(w.value.picks, cat)))
      && (forall other :: other != cat ==> PickList(r.value.picks, other) == PickList(w.value.picks, other))
      && r.value.picks.bread == w.value.picks.bread && r.value.picks.cheese == w.value.picks.cheese
    ensures w.Some? && n !in PickList(w.value.picks, cat) ==>
      PickList(r.value.picks, cat) == SetOf(PickList(w.value.picks, cat)) + [n]
    ensures w.Some? && n in PickList(w.value.picks, cat) ==>
      PickList(r.value.picks, cat) == Without(SetOf(PickList(w.value.picks, cat)), [n])
  {
    if w.None? then None
    else
      var it := w.value;
      var s := SetOf(PickList(it.picks, cat));
      var s' := if n in s then Without(s, [n]) else (NoDupSnoc(s, n); s + [n]);
      WithoutKeepsNoDup(s, [n]);
      Some(it.(picks := WithPickList(it.picks, cat, s')))
  }

  lemma {:induction false} WithoutKeepsNoDup(xs: seq<string>, ys: seq<string>)
    requires NoDup(xs)
    ensures NoDup(Without(xs, ys))
  {
    if xs != [] {
      NoDupTail(xs);
      WithoutKeepsNoDup(xs[1..], ys);
      if xs[0] !in ys {
        NoDupCons(xs[0], Without(xs[1..], ys));
      }
    }
  }

  /** Toggling a name twice gives back the same set of names, and touches
      nothing else. */
  lemma ToggleTwice(w: CartItem, cat: ListCategory, n: string)
    ensures var r := TogglePick(TogglePick(Some(w), cat, n), cat, n);
      && r.Some?
      && (forall x :: x in PickList(r.value.picks, cat) <==> x in PickList(w.picks, cat))
      && r.value == w.(picks := r.value.picks)
  {
  }

  // ---------------------------------------------------------------------
  // setSingle and setMulti
  // ---------------------------------------------------------------------

  /** The names of the ingredients of one kind (`byCat`). */
  function NamesOfKind(ings: seq<Ingredient>, kind: string): (r: seq<string>)
    ensures |r| <= |ings|
    ensures forall x :: x in r <==> exists i :: 0 <= i < |ings| && ings[i].kind == kind && ings[i].name == x
  {
    if ings == [] then []
    else
      var rest := NamesOfKind(ings[1..], kind);
      assert forall i :: 1 <= i < |ings| ==> ings[i] == ings[1..][i - 1];
      (if ings[0].kind == kind then [ings[0].name] else []) + rest
  }

  /** The first of `items` that the catalog lists (`Array.find`). */
  function FirstListed(items: seq<string>, catalog: seq<string>): (r: Option<string>)
    ensures r.Some? ==> r.value in items && r.value in catalog
    ensures r.None? ==> forall x :: x in items ==> x !in catalog
  {
    if items == [] then None
    else if items[0] in catalog then Some(items[0])
    else FirstListed(items[1..], catalog)
  }

  /** The name found is the earliest listed one: every spoken name before
      it is unknown to the catalog. */
  lemma {:induction false} FirstListedIsFirst(items: seq<string>, catalog: seq<string>)
    requires FirstListed(items, catalog).Some?
    ensures exists i ::
      && 0 <= i < |items| && items[i] == FirstListed(items, catalog).value
      && (forall j :: 0 <= j < i ==> items[j] !in catalog)
  {
    if items[0] !in catalog {
      FirstListedIsFirst(items[1..], catalog);
      var v := FirstListed(items, catalog).value;
      var i :| 0 <= i < |items[1..]| && items[1..][i] == v
        && forall j :: 0 <= j < i ==> items[1..][j] !in catalog;
      assert items[i + 1] == v;
      assert forall j :: 1 <= j < i + 1 ==> items[j] == items[1..][j - 1];
    } else {
      assert items[0] == FirstListed(items, catalog).value;
    }
  }

  /** The single-valued pick lists. */
  datatype SingleCategory = BreadPick | CheesePick

  /** `setSingle`: the first spoken name the catalog lists becomes the
      bread (or cheese); when none is listed (or it is the empty name)
      the item is left as it was. */
  function SetSingle(w: CartItem, cat: SingleCategory, items: seq<string>, catalog: seq<string>): (r: CartItem)
    ensures var pick := FirstListed(items, catalog);
      && (pick.None? || pick.value == "" ==> r == w)
      && (pick.Some? && pick.value != "" ==>
            && r == w.(picks := r.picks)
            && r.picks.vegetables == w.picks.vegetables && r.picks.sauces == w.picks.sauces
            && r.picks.extras == w.picks.extras
            && (cat == BreadPick ==> r.picks.bread == Some(pick.value) && r.picks.cheese == w.picks.cheese)
            && (cat == CheesePick ==> r.picks.cheese == Some(pick.value) && r.picks.bread == w.picks.bread))
  {
    var pick := FirstListed(items, catalog);
    if pick.None? || pick.value == "" then w
    else if cat == BreadPick then w.(picks := w.picks.(bread := Some(pick.value)))
    else w.(picks := w.picks.(cheese := Some(pick.value)))
  }

  /** The selection `setMulti` starts from: the catalog for ALL, the listed
      spoken names for ONLY (which, applied later, wins), the current picks
      otherwise. */
  function MultiBase(current: seq<string>, items: seq<string>, ops: seq<string>, catalog: seq<string>): (r: seq<string>)
    ensures NoDup(r)
    ensures "ONLY" in ops ==> forall x :: x in r <==> x in items && x in catalog
    ensures "ONLY" !in ops && "ALL" in ops ==> forall x :: x in r <==> x in catalog
    ensures "ONLY" !in ops && "ALL" !in ops ==> forall x :: x in r <==> x in current
  {
    var sel := SetOf(current);
    var sel := if "ALL" in ops then SetOf(catalog) else sel;
    if "ONLY" in ops then SetOf(Keep(items, catalog)) else sel
  }

  /** `setMulti`: start from `MultiBase`, then ADD puts in the listed spoken
      names, then EXCLUDE takes every spoken name out. */
  function SetMulti(current: seq<string>, items: seq<string>, ops: seq<string>, catalog: seq<string>): (r: seq<string>)
    ensures NoDup(r)
  {
    var sel := MultiBase(current, items, ops, catalog);
    var sel := if "ADD" in ops then AddUniqueItems(sel, Keep(items, catalog)) else sel;
    if "EXCLUDE" in ops then (WithoutKeepsNoDup(sel, items); Without(sel, items)) else sel
  }

  /** What a name's membership after `setMulti` depends on: it must be in
      the starting selection or be added, and must not be excluded. EXCLUDE
      therefore always wins over ALL, ONLY and ADD. */
  lemma SetMultiMembership(current: seq<string>, items: seq<string>, ops: seq<string>, catalog: seq<string>, x: string)
    ensures x in SetMulti(current, items, ops, catalog) <==>
      && (x in MultiBase(current, items, ops, catalog) || ("ADD" in ops && x in items && x in catalog))
      && !("EXCLUDE" in ops && x in items)
  {
  }

  /** Order is kept: the starting selection stays a prefix unless EXCLUDE
      removes something from it, and each added name goes to the end. */
  lemma SetMultiAddOrder(current: seq<string>, items: seq<string>, ops: seq<string>, catalog: seq<string>)
    requires "EXCLUDE" !in ops && "ADD" in ops
    ensures var base := MultiBase(current, items, ops, catalog);
      SetMulti(current, items, ops, catalog) == base + Dedup(Without(Keep(items, catalog), base))
  {
    AddUniqueIsAppendDedup(MultiBase(current, items, ops, catalog), Keep(items, catalog));
  }

  /** The slot-filling intent applied to the screen being shown; other
      screens, or no item being composed, ignore it. `items` and `ops` are
      the intent's slots when they are arrays, and nothing otherwise. */
  function ApplyNlu(st: KioskState, w: Option<CartItem>, items: Option<seq<string>>, ops: Option<seq<string>>,
                    ings: seq<Ingredient>): (r: Option<CartItem>)
    ensures w.None? ==> r.None?
    ensures w.Some? ==> r.Some? && r.value == w.value.(picks := r.value.picks)
    ensures st !in {BreadSelect, CheeseSelect, VegeSelect, SauceSelect, ExtraSelect} ==> r == w
    ensures w.Some? && st == BreadSelect ==>
      r == Some(SetSingle(w.value, BreadPick, items.GetOr([]), NamesOfKind(ings, "bread")))
    ensures w.Some? && st == CheeseSelect ==>
      r == Some(SetSingle(w.value, CheesePick, items.GetOr([]), NamesOfKind(ings, "cheese")))
    ensures w.Some? && st == VegeSelect ==>
      && r.value.picks.vegetables == SetMulti(w.value.picks.vegetables, items.GetOr([]), ops.GetOr([]), NamesOfKind(ings, "vegetable"))
      && r.value.picks.sauces == w.value.picks.sauces && r.value.picks.extras == w.value.picks.extras
      && r.value.picks.bread == w.value.picks.bread && r.value.picks.cheese == w.value.picks.cheese
    ensures w.Some? && st == SauceSelect ==>
      && r.value.picks.sauces == SetMulti(w.value.picks.sauces, items.GetOr([]), ops.GetOr([]), NamesOfKind(ings, "sauce"))
      && r.value.picks.vegetables == w.value.picks.vegetables && r.value.picks.extras == w.value.picks.extras
      && r.value.picks.bread == w.value.picks.bread && r.value.picks.cheese == w.value.picks.cheese
    ensures w.Some? && st == ExtraSelect ==>
      && r.value.picks.extras == SetMulti(w.value.picks.extras, items.GetOr([]), ops.GetOr([]), NamesOfKind(ings, "extra"))
      && r.value.picks.vegetables == w.value.picks.vegetables && r.value.picks.sauces == w.value.picks.sauces
      && r.value.picks.bread == w.value.picks.bread && r.value.picks.cheese == w.value.picks.cheese
  {
    if w.None? then None
    else
      var it := w.value;
      var xs := items.GetOr([]);
      var os := ops.GetOr([]);
      match st
      case BreadSelect => Some(SetSingle(it, BreadPick, xs, NamesOfKind(ings, "bread")))
      case CheeseSelect => Some(SetSingle(it, CheesePick, xs, NamesOfKind(ings, "cheese")))
      case VegeSelect => Some(it.(picks := WithPickList(it.picks, VegetableList,
                           SetMulti(it.picks.vegetables, xs, os, NamesOfKind(ings, "vegetable")))))
      case SauceSelect => Some(it.(picks := WithPickList(it.picks, SauceList,
                           SetMulti(it.picks.sauces, xs, os, NamesOfKind(ings, "sauce")))))
      case ExtraSelect => Some(it.(picks := WithPickList(it.picks, ExtraList,
                           SetMulti(it.picks.extras, xs, os, NamesOfKind(ings, "extra")))))
      case _ => w
  }

  // ---------------------------------------------------------------------
  // Back navigation
  // ---------------------------------------------------------------------

  /** The back-navigation table of the GO_BACK intent. */
  const BACK_TABLE: map<KioskState, KioskState> := map[
    Start := Start, ModeSelect := Start, ThemeSelect := ModeSelect,
    BreadSelect := ThemeSelect, CheeseSelect := BreadSelect, VegeSelect := CheeseSelect,
    SauceSelect := VegeSelect, ExtraSelect := SauceSelect, Review := ModeSelect,
    RecoList := ModeSelect, RecoDetail := RecoList, Payment := Review, End := Start]

  /** One step back; a state missing from the table would go to MODE_SELECT. */
  function Back(s: KioskState): KioskState {
    if s in BACK_TABLE then BACK_TABLE[s] else ModeSelect
  }

  /** The table covers every screen, so the fallback is never taken. */
  lemma BackTableTotal(s: KioskState)
    ensures s in BACK_TABLE
  {
  }

  function BackN(s: KioskState, n: nat): KioskState
    decreases n
  {
    if n == 0 then s else BackN(Back(s), n - 1)
  }

  /** The fixed entries: START and END go to START,
      PAYMENT to REVIEW, RECO_DETAIL to RECO_LIST. */
  lemma BackEntries()
    ensures Back(Start) == Start && Back(End) == Start
    ensures Back(Payment) == Review && Back(RecoDetail) == RecoList
  {
  }

  /** Going back never lands on the extras, recommendation-detail, payment
      or end screens. */
  lemma BackRange(s: KioskState)
    ensures Back(s) !in {ExtraSelect, RecoDetail, Payment, End}
  {
  }

  /** Seven steps back reach START from every screen, and START stays. */
  lemma BackReachesStart(s: KioskState)
    ensures BackN(s, 7) == Start
  {
    BackDepth(s);
    BackAfterDepth(s, Depth(s), 7);
  }

  lemma {:induction false} BackStartStays(s: KioskState, n: nat)
    requires s == Start
    ensures BackN(s, n) == Start
  {
    if n > 0 {
      BackStartStays(Back(s), n - 1);
    }
  }

  /** The number of back steps from a screen to START. */
  function Depth(s: KioskState): nat {
    match s
    case Start => 0
    case ModeSelect => 1
    case ThemeSelect => 2
    case BreadSelect => 3
    case CheeseSelect => 4
    case VegeSelect => 5
    case SauceSelect => 6
    case ExtraSelect => 7
    case Review => 2
    case RecoList => 2
    case RecoDetail => 3
    case Payment => 3
    case End => 1
  }

  lemma BackDepth(s: KioskState)
    ensures s != Start ==> Depth(Back(s)) == Depth(s) - 1
    ensures Depth(s) <= 7
  {
  }

  lemma {:induction false} BackAfterDepth(s: KioskState, k: nat, n: nat)
    requires Depth(s) == k && k <= n
    ensures BackN(s, n) == Start
    decreases k
  {
    if k == 0 {
      assert s == Start;
      BackStartStays(s, n);
    } else {
      BackDepth(s);
      BackAfterDepth(Back(s), k - 1, n - 1);
    }
  }

  // ---------------------------------------------------------------------
  // Review-screen cart edits
  // ---------------------------------------------------------------------

  /** The minus button on line `i`: one less, but never below one. */
  function Decrement(cart: seq<CartItem>, i: int): (r: seq<CartItem>)
    ensures |r| == |cart|
    ensures forall j :: 0 <= j < |cart| && j != i ==> r[j] == cart[j]
    ensures 0 <= i < |cart| ==>
      && r[i] == cart[i].(quantity := r[i].quantity)
      && r[i].quantity >= 1
      && r[i].quantity == Max(1, cart[i].quantity - 1)
      && (cart[i].quantity >= 2 ==> r[i].quantity == cart[i].quantity - 1)
      && (cart[i].quantity <= 1 ==> r[i].quantity == 1)
  {
    seq(|cart|, j requires 0 <= j < |cart| =>
      if j == i then cart[j].(quantity := Max(1, cart[j].quantity - 1)) else cart[j])
  }

  /** The plus button on line `i`: exactly one more. */
  function Increment(cart: seq<CartItem>, i: int): (r: seq<CartItem>)
    ensures |r| == |cart|
    ensures forall j :: 0 <= j < |cart| && j != i ==> r[j] == cart[j]
    ensures 0 <= i < |cart| ==> r[i] == cart[i].(quantity := cart[i].quantity + 1)
  {
    seq(|cart|, j requires 0 <= j < |cart| =>
      if j == i then cart[j].(quantity := cart[j].quantity + 1) else cart[j])
  }

  /** The delete button on line `i`: that line goes, the rest keep their
      order; an index with no line changes nothing. */
  function Delete(cart: seq<CartItem>, i: int): (r: seq<CartItem>)
    ensures 0 <= i < |cart| ==>
      && |r| == |cart| - 1
      && (forall j :: 0 <= j < i ==> r[j] == cart[j])
      && (forall j :: i <= j < |r| ==> r[j] == cart[j + 1])
    ensures !(0 <= i < |cart|) ==> r == cart
  {
    if cart == [] then []
    else
      var rest := Delete(cart[1..], i - 1);
      if i == 0 then cart[1..] else [cart[0]] + rest
  }

  /** Increment then decrement restores a line whose quantity is at least
      one. */
  lemma IncrementThenDecrement(cart: seq<CartItem>, i: int)
    requires 0 <= i < |cart| && cart[i].quantity >= 1
    ensures Decrement(Increment(cart, i), i) == cart
  {
    var r := Decrement(Increment(cart, i), i);
    assert forall j :: 0 <= j < |cart| ==> r[j] == cart[j];
  }
}

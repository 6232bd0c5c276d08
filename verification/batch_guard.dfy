/** The guard between the intent source and the reducer
    (app/lib/agents/orderAgent.ts): the payload the model proposed is first
    brought to a list of commands, then every command that does not fit the
    state as it was before the batch is dropped. */
module BatchGuard {
  import opened Seqs
  import opened Types
  import OrderLogic

  /** What the proposal's JSON block turned out to be. */
  datatype Payload =
    | NoBlock                              // the reply carried no JSON block
    | Unparseable                          // the block was not valid JSON
    | JsonArray(elems: seq<Command>)
    | JsonObject(keyCount: nat, fields: Command)
    | JsonNull
    | JsonScalar

  /** An array is used as it is, an object with at least one key becomes a
      batch of one, and everything else (an empty object, `null`, a number
      or string, a parse failure, no block at all) becomes no commands. */
  function NormalizePayload(p: Payload): (r: seq<Command>)
    ensures p.JsonArray? ==> r == p.elems
    ensures p.JsonObject? && p.keyCount > 0 ==> r == [p.fields]
    ensures !p.JsonArray? ==> |r| <= 1
    ensures r != [] ==> p.JsonArray? || (p.JsonObject? && p.keyCount > 0)
  {
    match p
    case JsonArray(elems) => elems
    case JsonObject(n, fields) => if n > 0 then [fields] else []
    case _ => []
  }

  /** The guard's normalisation gives the batch shape the reducer itself
      gives: an array is the batch, a non-empty object is the batch of one
      that `processCommands` makes of a lone command, and anything else is
      an empty batch. */
  lemma NormalizeMatchesCommandList(p: Payload)
    ensures p.JsonArray? ==> NormalizePayload(p) == OrderLogic.CommandList(OrderLogic.Many(p.elems))
    ensures p.JsonObject? && p.keyCount > 0 ==>
      NormalizePayload(p) == OrderLogic.CommandList(OrderLogic.One(p.fields))
    ensures !p.JsonArray? && !(p.JsonObject? && p.keyCount > 0) ==>
      NormalizePayload(p) == OrderLogic.CommandList(OrderLogic.Many([]))
  {
  }

  /** The actions that edit the current item. */
  const ITEM_EDITS: seq<string> := [
    "select_bread", "select_cheese", "add_vegetables", "remove_vegetables",
    "add_sauce", "remove_sauce", "set_quantity", "add_to_cart"]

  /** The first index whose command has the given action, or -1
      (`Array.findIndex`). */
  function FindIndex(cmds: seq<Command>, action: string): (r: int)
    ensures -1 <= r < |cmds|
    ensures r == -1 <==> forall i :: 0 <= i < |cmds| ==> cmds[i].action != action
    ensures r >= 0 ==> cmds[r].action == action && forall i :: 0 <= i < r ==> cmds[i].action != action
  {
    if cmds == [] then -1
    else if cmds[0].action == action then 0
    else
      var k := FindIndex(cmds[1..], action);
      if k == -1 then -1 else k + 1
  }

  /** The guard's test for the command at index `idx`, reading only whether
      the pre-batch state has a current item and how long its cart is: an
      item edit with no item, a second `start_item` not preceded by any
      `add_to_cart` of the batch, and a `modify_cart_item` with no entry at
      its target are dropped. */
  predicate Dropped(pre: OrderState, cmds: seq<Command>, idx: nat)
    requires idx < |cmds|
  {
    var a := cmds[idx];
    var hasItem := pre.currentItem.Some?;
    var hasCart := |pre.cart| > 0;
    || (!hasItem && a.action in ITEM_EDITS)
    || (hasItem && a.action == "start_item"
        && (var k := FindIndex(cmds, "add_to_cart"); k == -1 || idx < k))
    || (a.action == "modify_cart_item"
        && (!hasCart || a.target.None? || a.target.value < 0 || a.target.value >= |pre.cart|))
  }

  /** The indices from `i` on whose command is kept, in increasing order. */
  function KeptFrom(pre: OrderState, cmds: seq<Command>, i: nat): (r: seq<nat>)
    requires i <= |cmds|
    ensures forall k :: 0 <= k < |r| ==> i <= r[k] < |cmds|
    ensures forall k, l :: 0 <= k < l < |r| ==> r[k] < r[l]
    decreases |cmds| - i
  {
    if i == |cmds| then []
    else
      var rest := KeptFrom(pre, cmds, i + 1);
      if Dropped(pre, cmds, i) then rest else [i] + rest
  }

  /** `KeptFrom` holds exactly the indices from `i` on that are not dropped. */
  lemma {:induction false} KeptFromMembers(pre: OrderState, cmds: seq<Command>, i: nat)
    requires i <= |cmds|
    ensures forall j :: i <= j < |cmds| ==> (j in KeptFrom(pre, cmds, i) <==> !Dropped(pre, cmds, j))
    decreases |cmds| - i
  {
    if i < |cmds| {
      KeptFromMembers(pre, cmds, i + 1);
      var rest := KeptFrom(pre, cmds, i + 1);
      assert i !in rest;
      assert KeptFrom(pre, cmds, i) == if Dropped(pre, cmds, i) then rest else [i] + rest;
    }
  }

  function KeptIndices(pre: OrderState, cmds: seq<Command>): (r: seq<nat>)
    ensures forall k :: 0 <= k < |r| ==> r[k] < |cmds|
    ensures forall k, l :: 0 <= k < l < |r| ==> r[k] < r[l]
    ensures forall j :: 0 <= j < |cmds| ==> (j in r <==> !Dropped(pre, cmds, j))
  {
    KeptFromMembers(pre, cmds, 0);
    KeptFrom(pre, cmds, 0)
  }

  /** The filtered batch: the kept commands, in their original order. */
  function Guard(pre: OrderState, cmds: seq<Command>): (r: seq<Command>)
    ensures |r| == |KeptIndices(pre, cmds)| <= |cmds|
    ensures forall k :: 0 <= k < |r| ==> r[k] == cmds[KeptIndices(pre, cmds)[k]]
  {
    var ks := KeptIndices(pre, cmds);
    IncreasingBound(ks, |cmds|);
    seq(|ks|, k requires 0 <= k < |ks| => cmds[ks[k]])
  }

  /** A strictly increasing sequence of indices below `n` has at most `n`
      entries. */
  lemma {:induction false} IncreasingBound(ks: seq<nat>, n: nat)
    requires forall k :: 0 <= k < |ks| ==> ks[k] < n
    requires forall k, l :: 0 <= k < l < |ks| ==> ks[k] < ks[l]
    ensures |ks| <= n
  {
    if ks != [] {
      var last := ks[|ks| - 1];
      var init := ks[..|ks| - 1];
      assert forall k :: 0 <= k < |init| ==> init[k] < ks[|ks| - 1];
      IncreasingBound(init, last);
    }
  }

  // ---------------------------------------------------------------------
  // The rules, one by one
  // ---------------------------------------------------------------------

  /** With no current item before the batch, every item edit is dropped. */
  lemma NoItemDropsItemEdits(pre: OrderState, cmds: seq<Command>, j: nat)
    requires pre.currentItem.None? && j < |cmds| && cmds[j].action in ITEM_EDITS
    ensures j !in KeptIndices(pre, cmds)
  {
  }

  /** With a current item, a `start_item` is kept exactly when some
      `add_to_cart` comes earlier in the same batch. */
  lemma StartItemRule(pre: OrderState, cmds: seq<Command>, j: nat)
    requires pre.currentItem.Some? && j < |cmds| && cmds[j].action == "start_item"
    ensures j in KeptIndices(pre, cmds) <==> exists i :: 0 <= i < j && cmds[i].action == "add_to_cart"
  {
    var k := FindIndex(cmds, "add_to_cart");
    if exists i :: 0 <= i < j && cmds[i].action == "add_to_cart" {
      var i :| 0 <= i < j && cmds[i].action == "add_to_cart";
      assert k != -1 && k <= i;
    }
  }

  /** A `modify_cart_item` is kept exactly when the pre-batch cart has an
      entry at its target. */
  lemma ModifyTargetRule(pre: OrderState, cmds: seq<Command>, j: nat)
    requires j < |cmds| && cmds[j].action == "modify_cart_item"
    ensures j in KeptIndices(pre, cmds) <==>
      cmds[j].target.Some? && 0 <= cmds[j].target.value < |pre.cart|
  {
  }

  /** Actions the rules do not name are always kept: `select_menu`,
      `remove_from_cart`, `view_cart`, the status actions and any unknown
      name; so is `start_item` when there is no current item. */
  lemma OthersKept(pre: OrderState, cmds: seq<Command>, j: nat)
    requires j < |cmds|
    requires cmds[j].action !in ITEM_EDITS && cmds[j].action != "modify_cart_item"
    requires cmds[j].action != "start_item" || pre.currentItem.None?
    ensures j in KeptIndices(pre, cmds)
  {
  }

  /** The guard reads the pre-batch state only through "has a current item"
      and "cart length". */
  lemma GuardReadsLittle(pre1: OrderState, pre2: OrderState, cmds: seq<Command>)
    requires pre1.currentItem.Some? == pre2.currentItem.Some? && |pre1.cart| == |pre2.cart|
    ensures Guard(pre1, cmds) == Guard(pre2, cmds)
  {
    assert forall j :: 0 <= j < |cmds| ==> Dropped(pre1, cmds, j) == Dropped(pre2, cmds, j);
    KeptFromSame(pre1, pre2, cmds, 0);
  }

  lemma {:induction false} KeptFromSame(pre1: OrderState, pre2: OrderState, cmds: seq<Command>, i: nat)
    requires i <= |cmds|
    requires forall j :: 0 <= j < |cmds| ==> Dropped(pre1, cmds, j) == Dropped(pre2, cmds, j)
    ensures KeptFrom(pre1, cmds, i) == KeptFrom(pre2, cmds, i)
    decreases |cmds| - i
  {
    if i < |cmds| {
      KeptFromSame(pre1, pre2, cmds, i + 1);
    }
  }

  /** The checks are not cumulative: on a state with no current item,
      `[start_item, add_to_cart]` loses its `add_to_cart` even though the
      batch itself would have created the item first. */
  lemma NotCumulative(pre: OrderState)
    requires pre.currentItem.None?
    ensures Guard(pre, [Bare("start_item"), Bare("add_to_cart")]) == [Bare("start_item")]
  {
    var cmds := [Bare("start_item"), Bare("add_to_cart")];
    assert !Dropped(pre, cmds, 0);
    assert Dropped(pre, cmds, 1);
    assert KeptFrom(pre, cmds, 1) == [];
  }

  /** What survives the guard fits the pre-batch state: no item edit when
      there is no current item, and every cart edit names an existing entry. */
  lemma GuardOutputFits(pre: OrderState, cmds: seq<Command>)
    ensures var r := Guard(pre, cmds);
      && (pre.currentItem.None? ==> forall k :: 0 <= k < |r| ==> r[k].action !in ITEM_EDITS)
      && (forall k :: 0 <= k < |r| && r[k].action == "modify_cart_item" ==>
            r[k].target.Some? && 0 <= r[k].target.value < |pre.cart|)
  {
    var r := Guard(pre, cmds);
    var ks := KeptIndices(pre, cmds);
    forall k | 0 <= k < |r|
      ensures pre.currentItem.None? ==> r[k].action !in ITEM_EDITS
      ensures r[k].action == "modify_cart_item" ==> r[k].target.Some? && 0 <= r[k].target.value < |pre.cart|
    {
      assert ks[k] in ks && !Dropped(pre, cmds, ks[k]);
    }
  }
}

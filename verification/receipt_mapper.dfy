/** The receipt normaliser (frontend/mapping/receiptMapper.ts): loosely
    shaped backend receipts are brought to one fixed front-end schema, every
    missing or ill-typed field replaced by a default. */
module ReceiptMapper {
  import opened Seqs

  /** A backend field that should hold a list: absent (or `null`), present
      but not an array, or an array. */
  datatype Loose<T> = Absent | NotArray | Array(elems: seq<T>)

  /** `asArray`: the elements of an array, and nothing for anything else. */
  function AsArray<T>(v: Loose<T>): (r: seq<T>)
    ensures v.Array? ==> r == v.elems
    ensures !v.Array? ==> r == []
  {
    if v.Array? then v.elems else []
  }

  /** The ADD / EXCLUDE pair as it may arrive. */
  datatype RawOps = RawOps(add: Loose<string>, exclude: Loose<string>)

  /** The ADD / EXCLUDE pair of the front-end schema; the kiosk page builds
      its cart lines with the same shape. */
  datatype IngredientOps = IngredientOps(add: seq<string>, exclude: seq<string>)

  /** A backend order line: every field may be missing. */
  datatype RawItem = RawItem(
    id: Option<int>,
    menuId: Option<int>,
    name: Option<string>,
    sizeCm: Option<int>,
    quantity: Option<int>,
    unitPriceCents: Option<int>,
    priceCents: Option<int>,
    ingredientsOps: Option<RawOps>)

  /** A front-end order line. */
  datatype FrontItem = FrontItem(
    id: int,
    menuId: int,
    name: string,
    sizeCm: int,
    quantity: int,
    unitPriceCents: int,
    ops: IngredientOps)

  /** The constraints the front-end schema puts on a line. */
  predicate FrontItemValid(f: FrontItem) {
    (f.sizeCm == 15 || f.sizeCm == 30) && f.quantity >= 1
  }

  /** JavaScript's `a || b` on numbers: zero (and a missing value, read as
      NaN) is falsy. */
  function FirstNonZero(a: Option<int>, b: Option<int>): (r: int)
    ensures a.Some? && a.value != 0 ==> r == a.value
    ensures (a.None? || a.value == 0) && b.Some? && b.value != 0 ==> r == b.value
    ensures (a.None? || a.value == 0) && (b.None? || b.value == 0) ==> r == 0
  {
    if a.Some? && a.value != 0 then a.value
    else if b.Some? && b.value != 0 then b.value
    else 0
  }

  /** `normalizeItem`: a present field is kept, a missing one takes its
      default; the size collapses to 15 unless it is exactly 30, the
      quantity is at least one, the unit price is the first non-zero of the
      two price fields, and each ingredient list is kept only when it is an
      array. */
  function NormalizeItem(raw: RawItem, idxFallback: int): (f: FrontItem)
    ensures FrontItemValid(f)
    ensures f.sizeCm == 30 <==> raw.sizeCm == Some(30)
    ensures f.quantity == (if raw.quantity.Some? && raw.quantity.value > 1 then raw.quantity.value else 1)
    ensures raw.id.Some? ==> f.id == raw.id.value
    ensures raw.id.None? ==> f.id == idxFallback
    ensures raw.menuId.Some? ==> f.menuId == raw.menuId.value
    ensures raw.menuId.None? ==> f.menuId == 0
    ensures raw.name.Some? ==> f.name == raw.name.value
    ensures raw.name.None? ==> f.name == ""
    ensures f.unitPriceCents == FirstNonZero(raw.unitPriceCents, raw.priceCents)
    ensures raw.ingredientsOps.None? ==> f.ops == IngredientOps([], [])
    ensures raw.ingredientsOps.Some? ==>
      f.ops == IngredientOps(AsArray(raw.ingredientsOps.value.add), AsArray(raw.ingredientsOps.value.exclude))
  {
    var ops := raw.ingredientsOps.GetOr(RawOps(Array([]), Array([])));
    FrontItem(
      raw.id.GetOr(idxFallback),
      raw.menuId.GetOr(0),
      raw.name.GetOr(""),
      if raw.sizeCm.GetOr(15) == 30 then 30 else 15,
      Max(1, raw.quantity.GetOr(1)),
      FirstNonZero(raw.unitPriceCents, raw.priceCents),
      IngredientOps(AsArray(ops.add), AsArray(ops.exclude)))
  }

  // ---------------------------------------------------------------------
  // Status
  // ---------------------------------------------------------------------

  datatype ReceiptStatus = Pending | Confirmed | Cancelled

  function StatusName(s: ReceiptStatus): string {
    match s
    case Pending => "PENDING"
    case Confirmed => "CONFIRMED"
    case Cancelled => "CANCELLED"
  }

  /** Upper-casing of one character as `String.prototype.toUpperCase` does
      it where the outcome can matter here: ASCII letters, and the
      non-ASCII characters whose upper case is made of ASCII letters only
      (dotless i, long s, sharp s and the Latin ligatures). Every other character is
      kept, which differs from JavaScript only on characters whose upper
      case still holds a non-ASCII character. */
  function UpperChar(ch: char): (r: string)
    ensures |r| >= 1
  {
    if 'a' <= ch <= 'z' then [(ch as int - 32) as char]
    else if ch == 'ı' then "I"
    else if ch == 'ſ' then "S"
    else if ch == 'ß' then "SS"
    else if ch == 'ﬀ' then "FF"
    else if ch == 'ﬁ' then "FI"
    else if ch == 'ﬂ' then "FL"
    else if ch == 'ﬃ' then "FFI"
    else if ch == 'ﬄ' then "FFL"
    else if ch == 'ﬅ' || ch == 'ﬆ' then "ST"
    else [ch]
  }

  function ToUpper(s: string): string {
    if s == [] then [] else UpperChar(s[0]) + ToUpper(s[1..])
  }

  /** The status of a receipt: the raw value, upper-cased, if it reads
      CONFIRMED or CANCELLED, and PENDING for anything else; a missing status is PENDING. */
  function StatusOf(raw: Option<string>): (r: ReceiptStatus)
    ensures r == Confirmed <==> raw.Some? && ToUpper(raw.value) == "CONFIRMED"
    ensures r == Cancelled <==> raw.Some? && ToUpper(raw.value) == "CANCELLED"
  {
    if raw.None? then Pending
    else
      var up := ToUpper(raw.value);
      if up == "CONFIRMED" then Confirmed
      else if up == "CANCELLED" then Cancelled
      else Pending
  }

  // ---------------------------------------------------------------------
  // Receipts
  // ---------------------------------------------------------------------

  datatype RawData = RawData(items: Loose<RawItem>)

  /** A backend receipt: every field may be missing, and the lines may sit
      under `items`, `order_items` or `data.items`. */
  datatype RawReceipt = RawReceipt(
    orderId: Option<int>,
    status: Option<string>,
    createdAt: Option<string>,
    totalCents: Option<int>,
    items: Loose<RawItem>,
    orderItems: Loose<RawItem>,
    data: Option<RawData>)

  datatype FrontReceipt = FrontReceipt(
    orderId: int,
    status: ReceiptStatus,
    createdAt: Option<string>,
    totalCents: int,
    items: seq<FrontItem>)

  /** The raw lines: the first of `items`, `order_items`, `data.items` that
      is an array; none at all when none is. */
  function ItemSource(resp: RawReceipt): (r: seq<RawItem>)
    ensures resp.items.Array? ==> r == resp.items.elems
    ensures !resp.items.Array? && resp.orderItems.Array? ==> r == resp.orderItems.elems
    ensures !resp.items.Array? && !resp.orderItems.Array? && resp.data.Some? && resp.data.value.items.Array?
      ==> r == resp.data.value.items.elems
    ensures !resp.items.Array? && !resp.orderItems.Array? && !(resp.data.Some? && resp.data.value.items.Array?)
      ==> r == []
  {
    var third := if resp.data.Some? then resp.data.value.items else Absent;
    if resp.items.Array? then resp.items.elems
    else if resp.orderItems.Array? then resp.orderItems.elems
    else AsArray(third)
  }

  /** Normalises every line in place, giving line `i` the fallback id
      `i + 1`. */
  function NormalizeItems(src: seq<RawItem>): (r: seq<FrontItem>)
    ensures |r| == |src|
    ensures forall i :: 0 <= i < |src| ==> r[i] == NormalizeItem(src[i], i + 1)
    ensures forall i :: 0 <= i < |src| ==> FrontItemValid(r[i])
    ensures forall i :: 0 <= i < |src| && src[i].id.None? ==> r[i].id == i + 1
  {
    seq(|src|, i requires 0 <= i < |src| => NormalizeItem(src[i], i + 1))
  }

  /** `normalizeReceipt`: the lines of the first array-valued source, each
      normalised in place; the id and total default to zero, the status to
      PENDING, and the creation time passes through untouched. */
  function NormalizeReceipt(resp: RawReceipt): (r: FrontReceipt)
    ensures |r.items| == |ItemSource(resp)|
    ensures forall i :: 0 <= i < |r.items| ==> r.items[i] == NormalizeItem(ItemSource(resp)[i], i + 1)
    ensures forall i :: 0 <= i < |r.items| ==> FrontItemValid(r.items[i])
    ensures resp.orderId.Some? ==> r.orderId == resp.orderId.value
    ensures resp.orderId.None? ==> r.orderId == 0
    ensures resp.totalCents.Some? ==> r.totalCents == resp.totalCents.value
    ensures resp.totalCents.None? ==> r.totalCents == 0
    ensures r.status == StatusOf(resp.status)
    ensures resp.status.None? ==> r.status == Pending
    ensures r.createdAt == resp.createdAt
  {
    FrontReceipt(
      resp.orderId.GetOr(0),
      StatusOf(resp.status),
      resp.createdAt,
      resp.totalCents.GetOr(0),
      NormalizeItems(ItemSource(resp)))
  }

  // ---------------------------------------------------------------------
  // Properties
  // ---------------------------------------------------------------------

  /** An explicit zero unit price is not a price: the compatibility field is
      used instead. */
  lemma ZeroUnitPriceFallsThrough(raw: RawItem)
    requires raw.unitPriceCents == Some(0) && raw.priceCents.Some?
    ensures NormalizeItem(raw, 0).unitPriceCents == raw.priceCents.value
  {
  }

  lemma {:induction false} ToUpperAppend(a: string, b: string)
    ensures ToUpper(a + b) == ToUpper(a) + ToUpper(b)
  {
    if a != [] {
      assert (a + b)[0] == a[0] && (a + b)[1..] == a[1..] + b;
      ToUpperAppend(a[1..], b);
    } else {
      assert a + b == b;
    }
  }

  lemma UpperCharFixed(ch: char)
    ensures ToUpper(UpperChar(ch)) == UpperChar(ch)
  {
    var u := UpperChar(ch);
    if |u| == 1 {
      assert ToUpper(u) == UpperChar(u[0]) + ToUpper([]);
    } else {
      forall i | 0 <= i < |u| ensures 'A' <= u[i] <= 'Z' { }
      UpperOfCapitals(u);
    }
  }

  lemma {:induction false} UpperOfCapitals(s: string)
    requires forall i :: 0 <= i < |s| ==> 'A' <= s[i] <= 'Z'
    ensures ToUpper(s) == s
  {
    if s != [] {
      UpperOfCapitals(s[1..]);
      assert s == [s[0]] + s[1..];
    }
  }

  /** Upper-casing twice is upper-casing once. */
  lemma {:induction false} ToUpperIdempotent(s: string)
    ensures ToUpper(ToUpper(s)) == ToUpper(s)
  {
    if s != [] {
      ToUpperIdempotent(s[1..]);
      ToUpperAppend(UpperChar(s[0]), ToUpper(s[1..]));
      UpperCharFixed(s[0]);
    }
  }

  /** Status matching ignores case: a raw status and its upper-cased form
      give the same status. */
  lemma StatusIgnoresCase(raw: string)
    ensures StatusOf(Some(raw)) == StatusOf(Some(ToUpper(raw)))
  {
    ToUpperIdempotent(raw);
  }

  /** A status already in capitals is compared as it is. */
  lemma StatusOfCapitals(raw: string)
    requires forall i :: 0 <= i < |raw| ==> 'A' <= raw[i] <= 'Z'
    ensures StatusOf(Some(raw)) == (if raw == "CONFIRMED" then Confirmed
                                    else if raw == "CANCELLED" then Cancelled else Pending)
  {
    UpperOfCapitals(raw);
  }

  /** The three status names read back as themselves. */
  lemma StatusNamesRoundTrip(st: ReceiptStatus)
    ensures StatusOf(Some(StatusName(st))) == st
  {
    var n := StatusName(st);
    assert forall i :: 0 <= i < |n| ==> 'A' <= n[i] <= 'Z';
    StatusOfCapitals(n);
  }

  /** ASCII lower-casing of capital letters. */
  function LowerCapitals(s: string): (r: string)
    requires forall i :: 0 <= i < |s| ==> 'A' <= s[i] <= 'Z'
    ensures |r| == |s|
  {
    if s == [] then [] else [(s[0] as int + 32) as char] + LowerCapitals(s[1..])
  }

  lemma {:induction false} UpperOfLower(s: string)
    requires forall i :: 0 <= i < |s| ==> 'A' <= s[i] <= 'Z'
    ensures ToUpper(LowerCapitals(s)) == s
  {
    if s != [] {
      var l := LowerCapitals(s);
      UpperOfLower(s[1..]);
      assert l[0] == (s[0] as int + 32) as char && l[1..] == LowerCapitals(s[1..]);
      assert s == [s[0]] + s[1..];
    }
  }

  /** The status names are recognised in lower case too. */
  lemma LowerCaseStatusNames(st: ReceiptStatus)
    ensures StatusOf(Some(LowerCapitals(StatusName(st)))) == st
  {
    var n := StatusName(st);
    assert forall i :: 0 <= i < |n| ==> 'A' <= n[i] <= 'Z';
    UpperOfLower(n);
    StatusIgnoresCase(LowerCapitals(n));
    StatusNamesRoundTrip(st);
  }

  /** The raw line a front-end line would have been read from. */
  function ToRaw(f: FrontItem): RawItem {
    RawItem(Some(f.id), Some(f.menuId), Some(f.name), Some(f.sizeCm), Some(f.quantity),
      Some(f.unitPriceCents), None, Some(RawOps(Array(f.ops.add), Array(f.ops.exclude))))
  }

  /** Normal forms are fixed points: a valid front-end line, written out in
      full, normalises to itself whatever the fallback id. */
  lemma NormalizeItemRoundTrip(f: FrontItem, k: int)
    requires FrontItemValid(f)
    ensures NormalizeItem(ToRaw(f), k) == f
  {
  }

  function ToRawReceipt(r: FrontReceipt): RawReceipt {
    RawReceipt(Some(r.orderId), Some(StatusName(r.status)), r.createdAt, Some(r.totalCents),
      Array(ToRawItems(r.items)), Absent, None)
  }

  function ToRawItems(items: seq<FrontItem>): (r: seq<RawItem>)
    ensures |r| == |items|
    ensures forall i :: 0 <= i < |items| ==> r[i] == ToRaw(items[i])
  {
    seq(|items|, i requires 0 <= i < |items| => ToRaw(items[i]))
  }

  lemma NormalizeItemsRoundTrip(items: seq<FrontItem>)
    requires forall i :: 0 <= i < |items| ==> FrontItemValid(items[i])
    ensures NormalizeItems(ToRawItems(items)) == items
  {
    var out := NormalizeItems(ToRawItems(items));
    forall i | 0 <= i < |items| ensures out[i] == items[i] {
      NormalizeItemRoundTrip(items[i], i + 1);
    }
  }

  /** A valid front-end receipt, written out in full, normalises to itself. */
  lemma NormalizeReceiptRoundTrip(r: FrontReceipt)
    requires forall i :: 0 <= i < |r.items| ==> FrontItemValid(r.items[i])
    ensures NormalizeReceipt(ToRawReceipt(r)) == r
  {
    StatusNamesRoundTrip(r.status);
    NormalizeItemsRoundTrip(r.items);
    assert ItemSource(ToRawReceipt(r)) == ToRawItems(r.items);
  }

  /** Normalising is idempotent on receipts: reading back a normalised
      receipt changes nothing. */
  lemma NormalizeReceiptIdempotent(resp: RawReceipt)
    ensures NormalizeReceipt(ToRawReceipt(NormalizeReceipt(resp))) == NormalizeReceipt(resp)
  {
    NormalizeReceiptRoundTrip(NormalizeReceipt(resp));
  }
}

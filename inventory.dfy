/** The inventory screen (src/components/Inventory.js) in guest mode: the product
    form and its defaults, the record built from the form, the guest list kept
    in the store (at most two creations, edits merged by id, deletes filtered by
    id), the creation counter, the low-stock rule and the change-history text. */
module Inventory {
  import opened JsText
  import opened Storage
  import opened Routing

  const GuestLimit := 2
  const GuestCountKey := "guest_inventory_count"

  /** The form, every field as typed. */
  datatype FormState = FormState(
    name: string, productNumber: string, barcode: string, brand: string, category: string,
    quantity: string, costPrice: string, sellingPrice: string, lowStockThreshold: string)

  /** `BASE_FORM_STATE`. */
  const BaseForm := FormState("", "", "", "", "", "", "", "", "5")

  /** The fields a caller of `buildFormState` passes; None leaves the base value. */
  datatype FormOverrides = FormOverrides(
    name: Option<string>, productNumber: Option<string>, barcode: Option<string>,
    brand: Option<string>, category: Option<string>, quantity: Option<string>,
    costPrice: Option<string>, sellingPrice: Option<string>, lowStockThreshold: Option<string>)

  const NoOverrides := FormOverrides(None, None, None, None, None, None, None, None, None)

  /** `buildFormState(overrides)`: an override wins over the base field. */
  function BuildFormState(o: FormOverrides): (f: FormState)
    ensures f.name == o.name.GetOr("") && f.productNumber == o.productNumber.GetOr("")
    ensures f.barcode == o.barcode.GetOr("") && f.brand == o.brand.GetOr("")
    ensures f.category == o.category.GetOr("") && f.quantity == o.quantity.GetOr("")
    ensures f.costPrice == o.costPrice.GetOr("") && f.sellingPrice == o.sellingPrice.GetOr("")
    ensures f.lowStockThreshold == o.lowStockThreshold.GetOr("5")
  {
    FormState(
      o.name.GetOr(BaseForm.name), o.productNumber.GetOr(BaseForm.productNumber),
      o.barcode.GetOr(BaseForm.barcode), o.brand.GetOr(BaseForm.brand),
      o.category.GetOr(BaseForm.category), o.quantity.GetOr(BaseForm.quantity),
      o.costPrice.GetOr(BaseForm.costPrice), o.sellingPrice.GetOr(BaseForm.sellingPrice),
      o.lowStockThreshold.GetOr(BaseForm.lowStockThreshold))
  }

  /** A stored product. Numbers that failed to parse are stored as `null` (None);
      an absent `lowStockThreshold`, barcode or product number is None too. */
  datatype Product = Product(
    uid: Option<string>,        // `_id`, set by the server
    id: Option<string>,         // `id`, set for guest items
    name: string,
    productNumber: Option<string>,
    barcode: Option<string>,
    brand: string,
    category: string,
    quantity: Option<int>,
    costPrice: Option<real>,
    sellingPrice: Option<real>,
    lowStockThreshold: Option<real>)

  /** `p._id || p.id`. */
  function KeyOf(p: Product): Option<string> {
    Or(p.uid, p.id)
  }

  /** `productData`: what a submit saves; `productNumber` None means the key is left out. */
  datatype Draft = Draft(
    name: string,
    barcode: Option<string>,
    brand: string,
    category: string,
    quantity: Option<int>,
    costPrice: Option<real>,
    sellingPrice: Option<real>,
    lowStockThreshold: Option<real>,
    productNumber: Option<string>)

  /** The product number saved: the trimmed field, or when it is blank the
      edited product's number, or nothing. */
  function ResolvedProductNumber(f: FormState, editing: Option<Product>): (r: Option<string>)
    ensures Trim(f.productNumber) != "" ==> r == Some(Trim(f.productNumber))
    ensures Trim(f.productNumber) == "" && editing.Some? ==> r == editing.value.productNumber
    ensures Trim(f.productNumber) == "" && editing.None? ==> r.None?
  {
    var t := Trim(f.productNumber);
    if t == "" then (if editing.Some? then editing.value.productNumber else None) else Some(t)
  }

  /** The record built from the form. */
  function BuildDraft(f: FormState, editing: Option<Product>): (d: Draft)
    ensures d.barcode.None? <==> Trim(f.barcode) == ""
    ensures d.barcode.Some? ==> d.barcode.value == Trim(f.barcode) && d.barcode.value != ""
    ensures d.productNumber == ResolvedProductNumber(f, editing)
    ensures d.name == f.name && d.brand == f.brand && d.category == f.category
    ensures d.quantity == ParseInt(f.quantity)
    ensures d.costPrice == ParseFloat(f.costPrice) && d.sellingPrice == ParseFloat(f.sellingPrice)
    ensures f.lowStockThreshold == "" ==> d.lowStockThreshold.None?
    ensures f.lowStockThreshold != "" ==> d.lowStockThreshold == ParseFloat(f.lowStockThreshold)
  {
    var barcode := Trim(f.barcode);
    Draft(
      f.name,
      if barcode == "" then None else Some(barcode),
      f.brand,
      f.category,
      ParseInt(f.quantity),
      ParseFloat(f.costPrice),
      ParseFloat(f.sellingPrice),
      if f.lowStockThreshold == "" then None else ParseFloat(f.lowStockThreshold),
      ResolvedProductNumber(f, editing))
  }

  /** Every form field of the draft, apart from the product number, is what the product holds. */
  predicate CarriesDraft(q: Product, d: Draft) {
    && q.name == d.name && q.barcode == d.barcode && q.brand == d.brand && q.category == d.category
    && q.quantity == d.quantity && q.costPrice == d.costPrice && q.sellingPrice == d.sellingPrice
    && q.lowStockThreshold == d.lowStockThreshold
  }

  /** `{ ...p, ...productData }`: the draft's fields win, except a left-out
      product number, which keeps the product's; the ids stay. */
  function Merge(p: Product, d: Draft): (q: Product)
    ensures q.uid == p.uid && q.id == p.id && KeyOf(q) == KeyOf(p)
    ensures q.productNumber == if d.productNumber.Some? then d.productNumber else p.productNumber
    ensures CarriesDraft(q, d)
  {
    Product(p.uid, p.id, d.name,
      if d.productNumber.Some? then d.productNumber else p.productNumber,
      d.barcode, d.brand, d.category, d.quantity, d.costPrice, d.sellingPrice, d.lowStockThreshold)
  }

  /** The id of a guest creation at time `now` (milliseconds). */
  function GuestId(now: int): string {
    "guest-" + IntToString(now)
  }

  /** `{ ...productData, id }`. */
  function NewGuestProduct(d: Draft, id: string): (p: Product)
    ensures KeyOf(p) == Some(id) || id == ""
    ensures p.uid.None? && p.id == Some(id) && p.productNumber == d.productNumber
    ensures CarriesDraft(p, d)
  {
    Product(None, Some(id), d.name, d.productNumber, d.barcode, d.brand, d.category,
      d.quantity, d.costPrice, d.sellingPrice, d.lowStockThreshold)
  }

  /** The edit's `current.map(...)`: items with the edited key get the draft merged in. */
  function MergeByKey(items: seq<Product>, key: Option<string>, d: Draft): (r: seq<Product>)
    ensures |r| == |items|
    ensures forall i :: 0 <= i < |items| ==>
      r[i] == if KeyOf(items[i]) == key then Merge(items[i], d) else items[i]
  {
    if items == [] then []
    else
      var head := if KeyOf(items[0]) == key then Merge(items[0], d) else items[0];
      [head] + MergeByKey(items[1..], key, d)
  }

  /** The delete's `current.filter(...)`: every item whose key is `id` goes, the
      rest stay in order. */
  function RemoveByKey(items: seq<Product>, id: Option<string>): (r: seq<Product>)
    ensures |r| <= |items|
    ensures forall p :: p in r <==> p in items && KeyOf(p) != id
    ensures (forall p :: p in items ==> KeyOf(p) != id) ==> r == items
    ensures (exists i :: 0 <= i < |items| && KeyOf(items[i]) == id) ==> |r| < |items|
    ensures |items| == 1 ==> r == if KeyOf(items[0]) != id then items else []
  {
    if items == [] then []
    else
      var rest := RemoveByKey(items[1..], id);
      if KeyOf(items[0]) != id then
        assert forall p :: p in items <==> p == items[0] || p in items[1..];
        [items[0]] + rest
      else rest
  }

  /** The filter goes item by item: filtering a concatenation filters each part,
      so with the one-item case above, the kept items appear once each, in order. */
  lemma {:induction false} RemoveByKeyAppend(a: seq<Product>, b: seq<Product>, id: Option<string>)
    ensures RemoveByKey(a + b, id) == RemoveByKey(a, id) + RemoveByKey(b, id)
  {
    if a == [] {
      assert a + b == b;
    } else {
      assert (a + b)[1..] == a[1..] + b;
      RemoveByKeyAppend(a[1..], b, id);
    }
  }

  /** The guest branch of a submit on the list: None when a creation would
      exceed the limit. */
  function GuestSave(items: seq<Product>, editing: Option<Product>, d: Draft, now: int): (r: Option<seq<Product>>)
    ensures r.None? <==> editing.None? && |items| >= GuestLimit
    ensures editing.Some? ==> r == Some(MergeByKey(items, KeyOf(editing.value), d))
    ensures editing.None? && r.Some? ==> r.value == items + [NewGuestProduct(d, GuestId(now))]
  {
    if editing.None? && |items| >= GuestLimit then None
    else if editing.Some? then Some(MergeByKey(items, KeyOf(editing.value), d))
    else Some(items + [NewGuestProduct(d, GuestId(now))])
  }

  /** A saved list stays within the limit if it was within it. */
  lemma GuestSaveKeepsLimit(items: seq<Product>, editing: Option<Product>, d: Draft, now: int)
    requires |items| <= GuestLimit
    ensures GuestSave(items, editing, d, now).Some? ==> |GuestSave(items, editing, d, now).value| <= GuestLimit
  {
  }

  /** An edit changes no item's key, so the list's keys are as before. */
  lemma EditKeepsKeys(items: seq<Product>, key: Option<string>, d: Draft)
    ensures forall i :: 0 <= i < |items| ==> KeyOf(MergeByKey(items, key, d)[i]) == KeyOf(items[i])
    ensures forall i :: 0 <= i < |items| && KeyOf(items[i]) != key ==> MergeByKey(items, key, d)[i] == items[i]
  {
  }

  /** `guestCount`'s initial value: the stored counter read with `parseInt`, 0
      outside guest mode or when the counter is missing or unreadable. */
  function InitialGuestCount(guestMode: bool, raw: Option<string>): (n: int)
    ensures !guestMode || !Truthy(raw) ==> n == 0
    ensures guestMode && Truthy(raw) ==> n == ParseInt(raw.value).GetOr(0)
  {
    if !guestMode then 0
    else if !Truthy(raw) then 0
    else ParseInt(raw.value).GetOr(0)
  }

  /** The counter a creation writes is the one the next visit starts from. */
  lemma GuestCountPersists(s: Store, n: int)
    ensures InitialGuestCount(true, Get(s[GuestCountKey := IntToString(n)], GuestCountKey)) == n
  {
    ParseIntOfIntToString(n);
  }

  /** `p.quantity <= (p.lowStockThreshold ?? 5)`; a `null` quantity compares as 0. */
  predicate IsLowStock(p: Product) {
    p.quantity.GetOr(0) as real <= p.lowStockThreshold.GetOr(5.0)
  }

  /** The guest low-stock list: the low-stock items, in order. */
  function LowStock(items: seq<Product>): (r: seq<Product>)
    ensures |r| <= |items|
    ensures forall p :: p in r <==> p in items && IsLowStock(p)
    ensures |items| == 1 ==> r == if IsLowStock(items[0]) then items else []
  {
    if items == [] then []
    else
      var rest := LowStock(items[1..]);
      assert forall p :: p in items <==> p == items[0] || p in items[1..];
      if IsLowStock(items[0]) then [items[0]] + rest else rest
  }

  /** Filtering a concatenation filters each part, keeping the order. */
  lemma {:induction false} LowStockAppend(a: seq<Product>, b: seq<Product>)
    ensures LowStock(a + b) == LowStock(a) + LowStock(b)
  {
    if a == [] {
      assert a + b == b;
    } else {
      assert (a + b)[1..] == a[1..] + b;
      LowStockAppend(a[1..], b);
    }
  }

  /** With no threshold, an item is low on stock iff at most 5 are left. */
  lemma DefaultThreshold(p: Product)
    requires p.lowStockThreshold.None? && p.quantity.Some?
    ensures IsLowStock(p) <==> p.quantity.value <= 5
  {
  }

  /** A value in a history entry's `before` or `after`. */
  datatype FieldValue = Num(n: int) | Text(s: string)

  /** A product-history entry; `changedFields` None is a value that is not an array. */
  datatype HistoryItem = HistoryItem(
    action: string,
    changedFields: Option<seq<string>>,
    before: map<string, FieldValue>,
    after: map<string, FieldValue>)

  /** `${v ?? "-"}`. */
  function Show(v: Option<FieldValue>): string {
    match v
    case None => "-"
    case Some(Num(n)) => IntToString(n)
    case Some(Text(s)) => s
  }

  function Lookup(m: map<string, FieldValue>, k: string): Option<FieldValue> {
    if k in m then Some(m[k]) else None
  }

  /** A quantity change with its sign: `+d` for growth or none, `-d` for a drop. */
  function Signed(d: int): (r: string)
    ensures r != "" && (r[0] == '+' <==> d >= 0) && (r[0] == '-' <==> d < 0)
    ensures ParseInt(r) == Some(d)
  {
    if d >= 0 then
      ParseIntOfPlus(d);
      "+" + NatToString(d)
    else
      ParseIntOfIntToString(d);
      IntToString(d)
  }

  /** The ` (±d)` suffix: present iff both values are numbers. */
  function DeltaText(prev: Option<FieldValue>, next: Option<FieldValue>): (t: string)
    ensures t != "" <==> prev.Some? && prev.value.Num? && next.Some? && next.value.Num?
    ensures t != "" ==>
      |t| >= 3 && t[..2] == " (" && t[|t| - 1] == ')' && ParseInt(t[2..|t| - 1]) == Some(next.value.n - prev.value.n)
  {
    if prev.Some? && prev.value.Num? && next.Some? && next.value.Num? then
      var signed := Signed(next.value.n - prev.value.n);
      var t := " (" + signed + ")";
      assert t[2..|t| - 1] == signed;
      t
    else ""
  }

  /** One changed field: `field: before -> after`, plus the delta for quantities. */
  function FieldLine(field: string, before: map<string, FieldValue>, after: map<string, FieldValue>): (r: string)
    ensures var prev, next := Lookup(before, field), Lookup(after, field);
      r == field + ": " + Show(prev) + " -> " + Show(next) + (if field == "quantity" then DeltaText(prev, next) else "")
    ensures StartsWith(r, field + ": ")
  {
    var prev, next := Lookup(before, field), Lookup(after, field);
    var line := field + ": " + Show(prev) + " -> " + Show(next);
    var r := if field == "quantity" then line + DeltaText(prev, next) else line;
    assert r[..|field + ": "|] == field + ": ";
    r
  }

  /** `changedFields.map(...)`: one line per changed field, in the recorded order. */
  function ChangeLines(fields: seq<string>, before: map<string, FieldValue>, after: map<string, FieldValue>): (r: seq<string>)
    ensures |r| == |fields|
    ensures forall i :: 0 <= i < |fields| ==> r[i] == FieldLine(fields[i], before, after)
  {
    seq(|fields|, i requires 0 <= i < |fields| => FieldLine(fields[i], before, after))
  }

  /** `formatChangeDetails(item)`. */
  function FormatChangeDetails(item: HistoryItem): (r: string)
    ensures r == "Deleted" <==> item.action == "delete"
    ensures r == "-" <==> item.action != "delete" && (item.changedFields.None? || item.changedFields.value == [])
    ensures item.action != "delete" && item.changedFields.Some? && item.changedFields.value != [] ==>
      r == Join(ChangeLines(item.changedFields.value, item.before, item.after), "; ")
  {
    if item.action == "delete" then "Deleted"
    else if item.changedFields.None? || item.changedFields.value == [] then "-"
    else
      var fields := item.changedFields.value;
      var lines := ChangeLines(fields, item.before, item.after);
      var r := Join(lines, "; ");
      var f0 := fields[0];
      assert StartsWith(r, lines[0]);
      assert r[|f0|] == ':' by {
        assert lines[0][|f0|] == (f0 + ": ")[|f0|];
      }
      assert r != "Deleted" && r != "-";
      r
  }

  /** In the details of an edit, the line of the `k`-th changed field stands at
      its place in the `"; "`-separated text, followed by `"; "` unless it is the last. */
  lemma ChangeDetailsLine(item: HistoryItem, k: nat)
    requires item.action != "delete" && item.changedFields.Some? && k < |item.changedFields.value|
    ensures var fields := item.changedFields.value;
      var lines := ChangeLines(fields, item.before, item.after);
      PlacedAt(FormatChangeDetails(item), Offset(lines, "; ", k), FieldLine(fields[k], item.before, item.after), "; ", k + 1 < |fields|)
  {
    var lines := ChangeLines(item.changedFields.value, item.before, item.after);
    assert FormatChangeDetails(item) == Join(lines, "; ");
    JoinParts(lines, "; ", k);
  }

  /** The page state the guest branches touch. `guestInventory` stands for the
      decoded `guest_inventory` entry of the store. */
  class InventoryPage {
    const guestMode: bool
    var guestInventory: seq<Product>
    var products: seq<Product>
    var lowStock: seq<Product>
    var guestCount: int
    var editingProduct: Option<Product>
    var formData: FormState
    var showForm: bool

    constructor (guestMode: bool, ls: LocalStorage, stored: seq<Product>)
      ensures this.guestMode == guestMode && guestInventory == stored
      ensures guestCount == InitialGuestCount(guestMode, ls.GetItem(GuestCountKey))
      ensures formData == BuildFormState(NoOverrides) && editingProduct.None? && !showForm
    {
      this.guestMode := guestMode;
      guestInventory := stored;
      products := [];
      lowStock := [];
      guestCount := InitialGuestCount(guestMode, ls.GetItem(GuestCountKey));
      editingProduct := None;
      formData := BuildFormState(NoOverrides);
      showForm := false;
    }

    /** The guest reload after a save or delete: the list and its low-stock part. */
    method Reload()
      modifies this
      ensures products == guestInventory && lowStock == LowStock(guestInventory)
      ensures guestInventory == old(guestInventory) && guestCount == old(guestCount)
      ensures editingProduct == old(editingProduct) && formData == old(formData) && showForm == old(showForm)
    {
      products := guestInventory;
      lowStock := LowStock(guestInventory);
    }

    /** The guest branch of `handleSubmit`. A creation over the limit asks
        whether to sign up (`goSignup`) and changes nothing; otherwise the list
        is saved, a creation counts one more and stores the counter, and the
        form is reset and closed. */
    method HandleSubmit(ls: LocalStorage, now: int, goSignup: bool) returns (nav: Option<Nav>)
      requires guestMode
      modifies this, ls
      ensures GuestSave(old(guestInventory), old(editingProduct), BuildDraft(old(formData), old(editingProduct)), now).None? ==>
        && nav == (if goSignup then Some(Nav(Signup, false)) else None)
        && guestInventory == old(guestInventory) && guestCount == old(guestCount)
        && editingProduct == old(editingProduct) && formData == old(formData)
        && showForm == old(showForm) && ls.entries == old(ls.entries)
        && products == old(products) && lowStock == old(lowStock)
      ensures GuestSave(old(guestInventory), old(editingProduct), BuildDraft(old(formData), old(editingProduct)), now).Some? ==>
        && nav.None?
        && guestInventory == GuestSave(old(guestInventory), old(editingProduct), BuildDraft(old(formData), old(editingProduct)), now).value
        && products == guestInventory && lowStock == LowStock(guestInventory)
        && editingProduct.None? && formData == BaseForm && !showForm
      ensures old(editingProduct).Some? ==> guestCount == old(guestCount) && ls.entries == old(ls.entries)
      ensures old(editingProduct).None? && |old(guestInventory)| < GuestLimit ==>
        && guestCount == old(guestCount) + 1
        && ls.entries == old(ls.entries)[GuestCountKey := IntToString(old(guestCount) + 1)]
    {
      var productData := BuildDraft(formData, editingProduct);
      nav := Save(ls, productData, now, goSignup);
    }

    /** The guest branch of `handleSubmit` once `productData` is built. */
    method Save(ls: LocalStorage, productData: Draft, now: int, goSignup: bool) returns (nav: Option<Nav>)
      requires guestMode
      modifies this, ls
      ensures GuestSave(old(guestInventory), old(editingProduct), productData, now).None? ==>
        && nav == (if goSignup then Some(Nav(Signup, false)) else None)
        && guestInventory == old(guestInventory) && guestCount == old(guestCount)
        && editingProduct == old(editingProduct) && formData == old(formData)
        && showForm == old(showForm) && ls.entries == old(ls.entries)
        && products == old(products) && lowStock == old(lowStock)
      ensures GuestSave(old(guestInventory), old(editingProduct), productData, now).Some? ==>
        && nav.None?
        && guestInventory == GuestSave(old(guestInventory), old(editingProduct), productData, now).value
        && products == guestInventory && lowStock == LowStock(guestInventory)
        && editingProduct.None? && formData == BaseForm && !showForm
      ensures old(editingProduct).Some? ==> guestCount == old(guestCount) && ls.entries == old(ls.entries)
      ensures old(editingProduct).None? && |old(guestInventory)| < GuestLimit ==>
        && guestCount == old(guestCount) + 1
        && ls.entries == old(ls.entries)[GuestCountKey := IntToString(old(guestCount) + 1)]
    {
      var current := guestInventory;
      var isEditing := editingProduct.Some?;
      if !isEditing && |current| >= GuestLimit {
        nav := if goSignup then Some(Nav(Signup, false)) else None;
        return;
      }
      var updated;
      if isEditing {
        updated := MergeByKey(current, KeyOf(editingProduct.value), productData);
      } else {
        var id := GuestId(now);
        updated := current + [NewGuestProduct(productData, id)];
        var nextCount := guestCount + 1;
        guestCount := nextCount;
        ls.SetItem(GuestCountKey, IntToString(nextCount));
      }
      guestInventory := updated;
      editingProduct := None;
      Reload();
      formData := BuildFormState(NoOverrides);
      showForm := false;
      nav := None;
    }

    /** The guest branch of `handleDelete(id)`: after confirmation, every item
        with that key is dropped; the creation counter is not decremented. */
    method HandleDelete(id: Option<string>, confirmed: bool)
      requires guestMode
      modifies this
      ensures !confirmed ==> guestInventory == old(guestInventory) && products == old(products) && lowStock == old(lowStock)
      ensures confirmed ==>
        guestInventory == RemoveByKey(old(guestInventory), id) && products == guestInventory && lowStock == LowStock(guestInventory)
      ensures guestCount == old(guestCount)
      ensures editingProduct == old(editingProduct) && formData == old(formData) && showForm == old(showForm)
    {
      if confirmed {
        guestInventory := RemoveByKey(guestInventory, id);
        Reload();
      }
    }
  }

  /** Deleting frees room for a new guest item although the counter is not
      decremented: the limit is on the list, not on the counter. */
  lemma DeleteFreesRoom(items: seq<Product>, editing: Option<Product>, d: Draft, now: int)
    requires |items| == GuestLimit && editing.None?
    ensures GuestSave(items, editing, d, now).None?
    ensures forall i :: 0 <= i < |items| ==> GuestSave(RemoveByKey(items, KeyOf(items[i])), editing, d, now).Some?
  {
    forall i | 0 <= i < |items|
      ensures GuestSave(RemoveByKey(items, KeyOf(items[i])), editing, d, now).Some?
    {
      assert |RemoveByKey(items, KeyOf(items[i]))| < |items|;
    }
  }
}

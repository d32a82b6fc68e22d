/** The workshop's bill: its total, and the edit guards of the bill screen.
    Every edit on that screen either hands a new (items, labor) pair to the
    store's bill update, or does nothing. */
module Billing {
  import opened Types
  import opened Seqs

  function LineTotal(item: BillItem): int {
    item.price * item.quantity
  }

  /** The sum of the line totals, as a mathematical sum. */
  function Sigma(items: seq<BillItem>): int
    decreases |items|
  {
    if items == [] then 0 else LineTotal(items[0]) + Sigma(items[1..])
  }

  /** `items.reduce((acc, item) => acc + item.price * item.quantity, acc)`: a left fold. */
  function Reduce(acc: int, items: seq<BillItem>): int
    decreases |items|
  {
    if items == [] then acc else Reduce(acc + LineTotal(items[0]), items[1..])
  }

  /** The bill total both the bill screen and the stored update compute. */
  function BillTotal(items: seq<BillItem>, labor: int): int {
    Reduce(0, items) + labor
  }

  /** The left fold computes the sum of the lines on top of its start value. */
  lemma {:induction false} ReduceIsSigma(acc: int, items: seq<BillItem>)
    ensures Reduce(acc, items) == acc + Sigma(items)
    decreases |items|
  {
    if items != [] {
      ReduceIsSigma(acc + LineTotal(items[0]), items[1..]);
    }
  }

  /** The total is the sum of price times quantity over the lines, plus labor. */
  lemma {:induction false} BillTotalIsSum(items: seq<BillItem>, labor: int)
    ensures BillTotal(items, labor) == Sigma(items) + labor
  {
    ReduceIsSigma(0, items);
  }

  lemma {:induction false} SigmaAppend(a: seq<BillItem>, b: seq<BillItem>)
    ensures Sigma(a + b) == Sigma(a) + Sigma(b)
    decreases |a|
  {
    if a != [] {
      assert (a + b)[1..] == a[1..] + b;
      SigmaAppend(a[1..], b);
    } else {
      assert a + b == b;
    }
  }

  /** `item.id !== id` filter, as the delete handler writes it. */
  function WithoutItem(items: seq<BillItem>, id: int): (r: seq<BillItem>)
    ensures forall x :: x in r <==> x in items && x.id != id
    ensures |r| <= |items|
    decreases |items|
  {
    if items == [] then []
    else if items[0].id != id then [items[0]] + WithoutItem(items[1..], id)
    else WithoutItem(items[1..], id)
  }

  /** The delete is the filter on a different id, so it keeps the other lines in order. */
  lemma {:induction false} WithoutItemIsFilter(items: seq<BillItem>, id: int)
    ensures WithoutItem(items, id) == Filter(items, (x: BillItem) => x.id != id)
    decreases |items|
  {
    if items != [] {
      WithoutItemIsFilter(items[1..], id);
    }
  }

  /** The lines a delete removes. */
  function ItemsWithId(items: seq<BillItem>, id: int): seq<BillItem>
    decreases |items|
  {
    if items == [] then []
    else if items[0].id == id then [items[0]] + ItemsWithId(items[1..], id)
    else ItemsWithId(items[1..], id)
  }

  /** Deleting lines lowers the sum by exactly the deleted lines' totals. */
  lemma {:induction false} SigmaWithoutItem(items: seq<BillItem>, id: int)
    ensures Sigma(WithoutItem(items, id)) == Sigma(items) - Sigma(ItemsWithId(items, id))
    decreases |items|
  {
    if items != [] {
      var head: seq<BillItem> := if items[0].id != id then [items[0]] else [];
      var gone: seq<BillItem> := if items[0].id == id then [items[0]] else [];
      SigmaWithoutItem(items[1..], id);
      SigmaAppend(head, WithoutItem(items[1..], id));
      SigmaAppend(gone, ItemsWithId(items[1..], id));
      assert Sigma([items[0]]) == LineTotal(items[0]);
    }
  }

  /** Bill statuses in which the owner has already agreed: editing is closed. */
  predicate IsAgreed(s: Status) {
    s == Pending || s == Accepted || s == PickedUp || s == Completed || s == ArrivedAtDest
  }

  /** Terminal statuses: the request is read-only. */
  predicate IsReadOnly(s: Status) {
    s == Completed || s == Cancelled
  }

  /** The condition under which every edit handler of the bill screen returns early. */
  predicate EditLocked(m: Option<Request>) {
    m.None? || m.value.isBillFinalized || IsAgreed(m.value.status) || IsReadOnly(m.value.status)
  }

  function ShownItems(m: Option<Request>): seq<BillItem> {
    if m.Some? then m.value.billItems else []
  }

  function ShownLabor(m: Option<Request>): int {
    if m.Some? then m.value.laborCost else 0
  }

  /** The total the bill screen displays. */
  function DisplayedTotal(m: Option<Request>): int {
    BillTotal(ShownItems(m), ShownLabor(m))
  }

  /** What an edit hands to the store's bill update. */
  datatype BillUpdate = BillUpdate(items: seq<BillItem>, labor: int)

  /** The field an item edit writes; prices and quantities arrive already converted to numbers. */
  datatype ItemEdit = SetName(name: string) | SetPrice(price: int) | SetQuantity(quantity: int)

  function ApplyEdit(item: BillItem, e: ItemEdit): BillItem {
    match e
    case SetName(n) => item.(name := n)
    case SetPrice(p) => item.(price := p)
    case SetQuantity(q) => item.(quantity := q)
  }

  /** Add an empty line (price 0, quantity 1) with the given id. */
  function AddItem(m: Option<Request>, newId: int): Option<BillUpdate> {
    if EditLocked(m) then None
    else Some(BillUpdate(ShownItems(m) + [BillItem(newId, "", 0, 1)], ShownLabor(m)))
  }

  function DeleteItem(m: Option<Request>, id: int): Option<BillUpdate> {
    if EditLocked(m) then None
    else Some(BillUpdate(WithoutItem(ShownItems(m), id), ShownLabor(m)))
  }

  function UpdateItem(m: Option<Request>, id: int, e: ItemEdit): Option<BillUpdate> {
    if EditLocked(m) then None
    else
      var items := ShownItems(m);
      Some(BillUpdate(seq(|items|, i requires 0 <= i < |items| =>
                            if items[i].id == id then ApplyEdit(items[i], e) else items[i]),
                      ShownLabor(m)))
  }

  function ChangeLabor(m: Option<Request>, labor: int): Option<BillUpdate> {
    if EditLocked(m) then None
    else Some(BillUpdate(ShownItems(m), labor))
  }

  /** A locked bill cannot be edited: each of the four edits is a no-op. */
  lemma {:induction false} LockedBillIgnoresEdits(m: Option<Request>, newId: int, id: int, e: ItemEdit, labor: int)
    requires EditLocked(m)
    ensures AddItem(m, newId).None? && DeleteItem(m, id).None?
    ensures UpdateItem(m, id, e).None? && ChangeLabor(m, labor).None?
  {
  }

  /** An unlocked bill accepts every edit. */
  lemma {:induction false} OpenBillAcceptsEdits(m: Option<Request>, newId: int, id: int, e: ItemEdit, labor: int)
    requires !EditLocked(m)
    ensures AddItem(m, newId).Some? && DeleteItem(m, id).Some?
    ensures UpdateItem(m, id, e).Some? && ChangeLabor(m, labor).Some?
  {
  }

  /** Adding a line appends exactly one empty line and leaves the total as displayed. */
  lemma {:induction false} AddItemKeepsTotal(m: Option<Request>, newId: int)
    requires !EditLocked(m)
    ensures var u := AddItem(m, newId).value;
            u.items == ShownItems(m) + [BillItem(newId, "", 0, 1)] && u.labor == ShownLabor(m)
            && BillTotal(u.items, u.labor) == DisplayedTotal(m)
  {
    var items := ShownItems(m);
    BillTotalIsSum(items + [BillItem(newId, "", 0, 1)], ShownLabor(m));
    BillTotalIsSum(items, ShownLabor(m));
    SigmaAppend(items, [BillItem(newId, "", 0, 1)]);
  }

  /** Deleting a line removes every line with that id, keeps labor, and lowers the total by their sum. */
  lemma {:induction false} DeleteItemLowersTotal(m: Option<Request>, id: int)
    requires !EditLocked(m)
    ensures var u := DeleteItem(m, id).value;
            (forall x :: x in u.items <==> x in ShownItems(m) && x.id != id)
            && u.labor == ShownLabor(m)
            && BillTotal(u.items, u.labor) == DisplayedTotal(m) - Sigma(ItemsWithId(ShownItems(m), id))
  {
    var items := ShownItems(m);
    BillTotalIsSum(WithoutItem(items, id), ShownLabor(m));
    BillTotalIsSum(items, ShownLabor(m));
    SigmaWithoutItem(items, id);
  }

  /** Editing a line changes only the lines with that id, and only the edited field. */
  lemma {:induction false} UpdateItemTouchesOnlyThatLine(m: Option<Request>, id: int, e: ItemEdit)
    requires !EditLocked(m)
    ensures var u := UpdateItem(m, id, e).value; var items := ShownItems(m);
            |u.items| == |items| && u.labor == ShownLabor(m)
            && forall i :: 0 <= i < |items| ==>
                 u.items[i].id == items[i].id
                 && (items[i].id != id ==> u.items[i] == items[i])
                 && (items[i].id == id ==> u.items[i] == ApplyEdit(items[i], e))
  {
  }
}

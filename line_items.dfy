/** The editable line-item list of the invoice form (src/components/invoice-form.tsx, lines
    46-77): its initial value and the add, remove and update operations, each of which computes
    the new list that replaces the old one. Quantities and prices are kept as the text the user
    typed. */
module LineItems {
  import opened Results

  /** A row of the form: every field is text. */
  datatype FormItem = FormItem(id: string, description: string, quantity: string, unitPrice: string)

  /** A line item of an invoice being edited, as stored. */
  datatype StoredItem = StoredItem(id: string, description: string, quantity: real, unitPrice: real)

  /** `keyof LineItem`. */
  datatype Field = Id | Description | Quantity | UnitPrice

  /** The row `addLineItem` and a new form start with. */
  function BlankItem(id: string): FormItem {
    FormItem(id, "", "1", "")
  }

  /** The initial list: for a new invoice one blank row with a fresh id, when editing one row per
      stored item with its numbers shown as text (`String(n)` is the parameter `show`). */
  function InitialItems(invoice: Option<seq<StoredItem>>, freshId: string, show: real -> string)
    : (items: seq<FormItem>)
    ensures invoice.None? ==> items == [FormItem(freshId, "", "1", "")]
    ensures invoice.Some? ==> |items| == |invoice.value| && forall k :: 0 <= k < |items| ==>
      var s := invoice.value[k];
      items[k] == FormItem(s.id, s.description, show(s.quantity), show(s.unitPrice))
  {
    match invoice
    case None => [BlankItem(freshId)]
    case Some(stored) =>
      seq(|stored|, k requires 0 <= k < |stored| =>
        FormItem(stored[k].id, stored[k].description, show(stored[k].quantity), show(stored[k].unitPrice)))
  }

  /** `addLineItem`: the same rows followed by one blank row. */
  function AddLineItem(items: seq<FormItem>, freshId: string): (r: seq<FormItem>)
    ensures |r| == |items| + 1 && r[..|items|] == items
    ensures r[|items|] == FormItem(freshId, "", "1", "")
  {
    items + [BlankItem(freshId)]
  }

  /** `items.filter((item) => item.id !== id)`. */
  function Without(items: seq<FormItem>, id: string): (r: seq<FormItem>)
    ensures |r| <= |items|
    ensures forall x :: x in r <==> x in items && x.id != id
  {
    if items == [] then []
    else Without(items[..|items| - 1], id) + (if items[|items| - 1].id != id then [items[|items| - 1]] else [])
  }

  /** `removeLineItem`: a one-row (or empty) list is left alone; otherwise every row with this id
      is dropped. */
  function RemoveLineItem(items: seq<FormItem>, id: string): (r: seq<FormItem>)
    ensures |items| <= 1 ==> r == items
    ensures |items| > 1 ==> forall x :: x in r <==> x in items && x.id != id
  {
    if |items| > 1 then Without(items, id) else items
  }

  /** `{ ...item, [field]: value }`. */
  function SetField(item: FormItem, field: Field, value: string): (r: FormItem)
    ensures field == Id ==> r == item.(id := value)
    ensures field == Description ==> r == item.(description := value)
    ensures field == Quantity ==> r == item.(quantity := value)
    ensures field == UnitPrice ==> r == item.(unitPrice := value)
  {
    match field
    case Id => item.(id := value)
    case Description => item.(description := value)
    case Quantity => item.(quantity := value)
    case UnitPrice => item.(unitPrice := value)
  }

  /** `updateLineItem`: each row with this id gets the new value in that field. */
  function UpdateLineItem(items: seq<FormItem>, id: string, field: Field, value: string): (r: seq<FormItem>)
    ensures |r| == |items|
    ensures forall k :: 0 <= k < |r| ==>
      r[k] == if items[k].id == id then SetField(items[k], field, value) else items[k]
  {
    seq(|items|, k requires 0 <= k < |items| =>
      if items[k].id == id then SetField(items[k], field, value) else items[k])
  }

  /** No two rows share an id. */
  predicate UniqueIds(items: seq<FormItem>) {
    forall i, j :: 0 <= i < j < |items| ==> items[i].id != items[j].id
  }

  predicate HasId(items: seq<FormItem>, id: string) {
    exists k :: 0 <= k < |items| && items[k].id == id
  }

  /** Filtering distributes over concatenation, so the rows that stay keep their order. */
  lemma {:induction false} WithoutAppend(a: seq<FormItem>, b: seq<FormItem>, id: string)
    ensures Without(a + b, id) == Without(a, id) + Without(b, id)
    decreases |b|
  {
    if b == [] {
      assert a + b == a;
    } else {
      var b' := b[..|b| - 1];
      assert (a + b)[..|a + b| - 1] == a + b';
      WithoutAppend(a, b', id);
    }
  }

  /** With unique ids at most one row goes, and none when the id is absent. */
  lemma {:induction false} WithoutUnique(items: seq<FormItem>, id: string)
    requires UniqueIds(items)
    ensures |Without(items, id)| >= |items| - 1
    ensures !HasId(items, id) ==> Without(items, id) == items
    ensures HasId(items, id) ==> |Without(items, id)| == |items| - 1
  {
    if items != [] {
      var init := items[..|items| - 1];
      var last := items[|items| - 1];
      assert items == init + [last];
      assert UniqueIds(init) by {
        forall i, j | 0 <= i < j < |init| ensures init[i].id != init[j].id {
          assert init[i] == items[i] && init[j] == items[j];
        }
      }
      WithoutUnique(init, id);
      var r := Without(items, id);
      assert r == Without(init, id) + (if last.id != id then [last] else []);
      if last.id == id {
        assert !HasId(init, id);
        assert HasId(items, id) by { assert items[|items| - 1].id == id; }
      } else {
        assert HasId(init, id) ==> HasId(items, id) by {
          if HasId(init, id) {
            var k :| 0 <= k < |init| && init[k].id == id;
            assert items[k].id == id;
          }
        }
        assert HasId(items, id) ==> HasId(init, id) by {
          if HasId(items, id) {
            var k :| 0 <= k < |items| && items[k].id == id;
            assert k < |init| && init[k].id == id;
          }
        }
      }
    }
  }

  /** On a list with unique ids, removing never empties a non-empty list. */
  lemma RemoveKeepsARow(items: seq<FormItem>, id: string)
    requires UniqueIds(items) && |items| >= 1
    ensures |RemoveLineItem(items, id)| >= 1
  {
    if |items| > 1 {
      WithoutUnique(items, id);
    }
  }

  /** The filter keeps unique ids unique. */
  lemma {:induction false} WithoutKeepsUnique(items: seq<FormItem>, id: string)
    requires UniqueIds(items)
    ensures UniqueIds(Without(items, id))
  {
    if items != [] {
      var init := items[..|items| - 1];
      var last := items[|items| - 1];
      assert UniqueIds(init);
      WithoutKeepsUnique(init, id);
      var r := Without(items, id);
      forall i, j | 0 <= i < j < |r| ensures r[i].id != r[j].id {
        if j == |r| - 1 && last.id != id {
          assert r[i] in Without(init, id);
          var k :| 0 <= k < |init| && init[k] == r[i];
        }
      }
    }
  }

  /** Adding a row with a fresh id keeps ids unique; removing does too; updating a field other
      than the id leaves every id where it was. */
  lemma OperationsKeepIdsUnique(items: seq<FormItem>, freshId: string, id: string, field: Field, value: string)
    requires UniqueIds(items)
    ensures !HasId(items, freshId) ==> UniqueIds(AddLineItem(items, freshId))
    ensures UniqueIds(RemoveLineItem(items, id))
    ensures field != Id ==> UniqueIds(UpdateLineItem(items, id, field, value))
  {
    WithoutKeepsUnique(items, id);
    var added := AddLineItem(items, freshId);
    if !HasId(items, freshId) {
      forall i, j | 0 <= i < j < |added| ensures added[i].id != added[j].id {
        if j == |items| {
          assert added[i] == items[i];
        } else {
          assert added[i] == items[i] && added[j] == items[j];
        }
      }
    }
    var updated := UpdateLineItem(items, id, field, value);
    if field != Id {
      assert forall k :: 0 <= k < |items| ==> updated[k].id == items[k].id;
    }
  }

  /** Updating a row one field at a time touches nothing else: the other fields of that row and
      every row with another id stay as they were. */
  lemma UpdateOnlyThatField(items: seq<FormItem>, id: string, field: Field, value: string, k: nat)
    requires k < |items|
    ensures var before := items[k]; var after := UpdateLineItem(items, id, field, value)[k];
      && (before.id != id ==> after == before)
      && (before.id == id ==>
            && (field != Id ==> after.id == before.id)
            && (field != Description ==> after.description == before.description)
            && (field != Quantity ==> after.quantity == before.quantity)
            && (field != UnitPrice ==> after.unitPrice == before.unitPrice))
  {
  }
}

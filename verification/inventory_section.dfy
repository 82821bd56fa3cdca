/**
 * The inventory: adding an item from the form, removing one, and the total
 * weight shown under the list.
 */
module InventorySection {
  import opened Types
  import opened Text
  import Lists

  /** `inventory.reduce((sum, item) => sum + item.weight * item.quantity, 0)`, folded from the left. */
  function TotalWeight(items: seq<InventoryItem>): real {
    if items == [] then 0.0
    else
      var last := items[|items| - 1];
      TotalWeight(items[..|items| - 1]) + Weight(last)
  }

  /** What one inventory line weighs: unit weight times quantity. */
  function Weight(item: InventoryItem): real {
    item.weight * (item.quantity as real)
  }

  /** The total of two lists placed one after the other is the sum of their totals. */
  lemma {:induction false} TotalWeightAppend(a: seq<InventoryItem>, b: seq<InventoryItem>)
    ensures TotalWeight(a + b) == TotalWeight(a) + TotalWeight(b)
    decreases |b|
  {
    if b != [] {
      assert (a + b)[..|a + b| - 1] == a + b[..|b| - 1];
      TotalWeightAppend(a, b[..|b| - 1]);
    } else {
      assert a + b == a;
    }
  }

  /** Adding an item adds exactly its weight times its quantity. */
  lemma TotalWeightAdd(items: seq<InventoryItem>, item: InventoryItem)
    ensures TotalWeight(items + [item]) == TotalWeight(items) + Weight(item)
  {
    assert (items + [item])[..|items|] == items;
  }

  /** A worked total: 3 units of 2.5 and 1 unit of 1.5 weigh 9.0. */
  lemma TotalWeightExample()
    ensures TotalWeight([InventoryItem("1", "Corda", 3, 2.5, ""), InventoryItem("2", "Lanterna", 1, 1.5, "")]) == 9.0
  {
    var a, b := InventoryItem("1", "Corda", 3, 2.5, ""), InventoryItem("2", "Lanterna", 1, 1.5, "");
    assert [a, b][..1] == [a];
    assert [a][..0] == [];
  }

  /** The add-item form. */
  datatype ItemForm = ItemForm(name: string, quantity: int, weight: real, description: string)

  const BlankItemForm: ItemForm := ItemForm("", 1, 0.0, "")

  /** The quantity input: `Number.parseInt(text) || 1`. */
  function ParseQuantityInput(parsed: Option<int>): (q: int)
    ensures q != 0
    ensures parsed.Some? && parsed.value != 0 ==> q == parsed.value
    ensures parsed.None? || parsed.value == 0 ==> q == 1
  {
    OrElse(parsed, 1)
  }

  /** The weight input: `Number.parseFloat(text) || 0`; a value that does not parse is 0. */
  function ParseWeightInput(parsed: Option<real>): (w: real)
    ensures parsed.Some? ==> w == parsed.value
    ensures parsed.None? ==> w == 0.0
  {
    parsed.GetOr(0.0)
  }

  /**
   * `addItem`: a blank name (after trimming) changes nothing; otherwise the form
   * becomes an item with the fresh id, appended at the end, and the form is
   * reset.
   */
  function AddItem(items: seq<InventoryItem>, form: ItemForm, freshId: string): (r: (seq<InventoryItem>, ItemForm))
    ensures IsBlank(form.name) ==> r == (items, form)
    ensures !IsBlank(form.name) ==>
      && |r.0| == |items| + 1
      && r.0[..|items|] == items
      && r.0[|items|] == InventoryItem(freshId, form.name, form.quantity, form.weight, form.description)
      && r.1 == BlankItemForm
  {
    if IsBlank(form.name) then (items, form)
    else (items + [InventoryItem(freshId, form.name, form.quantity, form.weight, form.description)], BlankItemForm)
  }

  /** An added item increases the total weight by its own weight times its quantity. */
  lemma AddItemWeight(items: seq<InventoryItem>, form: ItemForm, freshId: string)
    requires !IsBlank(form.name)
    ensures TotalWeight(AddItem(items, form, freshId).0) == TotalWeight(items) + form.weight * (form.quantity as real)
  {
    TotalWeightAdd(items, InventoryItem(freshId, form.name, form.quantity, form.weight, form.description));
  }

  /** `inventory.filter((item) => item.id !== id)` */
  function RemoveItem(items: seq<InventoryItem>, id: string): (r: seq<InventoryItem>)
    ensures forall i :: 0 <= i < |r| ==> r[i].id != id && r[i] in items
    ensures forall i :: 0 <= i < |items| && items[i].id != id ==> items[i] in r
  {
    Lists.Filter(items, (it: InventoryItem) => it.id != id)
  }

  /** The items a removal drops: every item with that id. */
  function Removed(items: seq<InventoryItem>, id: string): seq<InventoryItem> {
    Lists.Filter(items, (it: InventoryItem) => it.id == id)
  }

  /** Removing an item lowers the total weight by exactly the weight of what was removed. */
  lemma {:induction false} RemoveItemWeight(items: seq<InventoryItem>, id: string)
    ensures TotalWeight(items) == TotalWeight(RemoveItem(items, id)) + TotalWeight(Removed(items, id))
    decreases |items|
  {
    if items != [] {
      var init, last := items[..|items| - 1], items[|items| - 1];
      RemoveItemWeight(init, id);
      var kept, dropped := RemoveItem(init, id), Removed(init, id);
      assert TotalWeight(items) == TotalWeight(init) + Weight(last);
      if last.id == id {
        assert Removed(items, id) == dropped + [last];
        assert RemoveItem(items, id) == kept;
        TotalWeightAdd(dropped, last);
      } else {
        assert RemoveItem(items, id) == kept + [last];
        assert Removed(items, id) == dropped;
        TotalWeightAdd(kept, last);
      }
    }
  }
}

/**
 * The `ShoppingList` component's state: the list, the category chosen for new
 * items, the active filter, and the browser slot the list is written back to
 * whenever it changes.  Each handler replaces the whole list with a new value built
 * by ListOps and then runs the persistence effect.
 */
module ShoppingListComponent {
  import opened Wrappers
  import opened ListOps

  /** The "shopping_list_db" slot of the browser's local storage: empty, or holding a saved list. */
  class Storage {
    var slot: Option<seq<Item>>

    constructor (saved: Option<seq<Item>>)
      ensures slot == saved
    {
      slot := saved;
    }
  }

  class ShoppingList {
    var items: seq<Item>
    var selectedCategory: string
    var filterCategory: string
    const storage: Storage

    /** The persistence effect has caught up: the slot holds exactly the current list. */
    ghost predicate Valid()
      reads this, storage
    {
      storage.slot == Some(items)
    }

    /** Mounting: the saved list if there is one, else the seed list; then the effect writes it. */
    constructor (storage: Storage)
      modifies storage
      ensures this.storage == storage
      ensures items == InitialItems(old(storage.slot))
      ensures selectedCategory == DefaultCategory && filterCategory == AllFilter
      ensures Valid()
    {
      this.storage := storage;
      items := InitialItems(storage.slot);
      selectedCategory := DefaultCategory;
      filterCategory := AllFilter;
      new;
      storage.slot := Some(items);
    }

    /** The effect on `[items]`: the whole list overwrites the slot. */
    method SaveEffect()
      modifies storage
      ensures Valid()
    {
      storage.slot := Some(items);
    }

    /** `addItemToList(product)`, with `now` standing for `Date.now()`. */
    method AddItemToList(product: Product, now: int)
      modifies this, storage
      ensures items == Appended(old(items), product, now, old(selectedCategory))
      ensures selectedCategory == old(selectedCategory) && filterCategory == old(filterCategory)
      ensures Valid()
    {
      items := Appended(items, product, now, selectedCategory);
      SaveEffect();
    }

    /** `updateCategory(id, newCategory)`; the category is stored unchecked. */
    method UpdateCategory(id: int, newCategory: string)
      modifies this, storage
      ensures items == WithCategory(old(items), id, newCategory)
      ensures selectedCategory == old(selectedCategory) && filterCategory == old(filterCategory)
      ensures Valid()
    {
      items := WithCategory(items, id, newCategory);
      SaveEffect();
    }

    /** `toggleItem(id)`. */
    method ToggleItem(id: int)
      modifies this, storage
      ensures items == Toggled(old(items), id)
      ensures selectedCategory == old(selectedCategory) && filterCategory == old(filterCategory)
      ensures Valid()
    {
      items := Toggled(items, id);
      SaveEffect();
    }

    /** `deleteItem(id)`. */
    method DeleteItem(id: int)
      modifies this, storage
      ensures items == Without(old(items), id)
      ensures selectedCategory == old(selectedCategory) && filterCategory == old(filterCategory)
      ensures Valid()
    {
      items := Without(items, id);
      SaveEffect();
    }

    /** The category select for new items: any string is accepted, the list is untouched. */
    method SelectCategory(c: string)
      modifies this`selectedCategory
      ensures selectedCategory == c && Valid() == old(Valid())
    {
      selectedCategory := c;
    }

    /** A filter chip: only the view changes, the list and the slot do not. */
    method SetFilterCategory(c: string)
      modifies this`filterCategory
      ensures filterCategory == c && Valid() == old(Valid())
      ensures EstimatedTotal() == old(EstimatedTotal()) && StatsLine() == old(StatsLine())
    {
      filterCategory := c;
    }

    /** The items shown under the active filter. */
    function FilteredItems(): (r: seq<Item>)
      reads this
      ensures forall it :: it in r ==> it in items
    {
      Filtered(items, filterCategory)
    }

    /** The "Total Estimado" figure: over the whole list, whatever the filter. */
    function EstimatedTotal(): (r: real)
      reads this
      ensures r >= 0.0
    {
      Total(items)
    }

    /** The "<completed> de <length> itens comprados" line, absent for an empty list. */
    function StatsLine(): (r: Option<(nat, nat)>)
      reads this
      ensures r.Some? ==> r.value.0 <= r.value.1 == |items|
    {
      Stats(items)
    }
  }

  /**
   * Because every change is written back, mounting the component again over the same
   * storage shows exactly the list the previous instance held.
   */
  method Remount(previous: ShoppingList) returns (next: ShoppingList)
    requires previous.Valid()
    modifies previous.storage
    ensures next.items == previous.items && next.storage == previous.storage
    ensures next.filterCategory == AllFilter && next.selectedCategory == DefaultCategory
  {
    next := new ShoppingList(previous.storage);
  }

  /**
   * Two mounted instances over the same slot, as two open tabs are: each handler
   * writes its own list over the slot, so after one instance adds a product and the
   * other then toggles an item, the slot holds only the second instance's list and
   * the added product is lost from storage, even though both started from the same list.
   */
  method TwoTabsLoseUpdate(a: ShoppingList, b: ShoppingList, product: Product, now: int, id: int)
    requires a != b && a.storage == b.storage && a.items == b.items
    modifies a, b, a.storage
    ensures a.items == Appended(old(a.items), product, now, old(a.selectedCategory))
    ensures b.items == Toggled(old(b.items), id)
    ensures a.storage.slot == Some(Toggled(old(b.items), id))
    ensures a.storage.slot != Some(a.items)
  {
    a.AddItemToList(product, now);
    b.ToggleItem(id);
  }
}

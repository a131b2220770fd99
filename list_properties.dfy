/**
 * What the list transformations and views promise, stated over the values of
 * ListOps: frame conditions, involution, idempotence, order-preserving filtering,
 * and how each mutation moves the estimated total and the completed count.
 */
module ListProperties {
  import opened Wrappers
  import opened Seqs
  import opened Price
  import opened ListOps

  // ----- The estimated total -----

  /** The total is taken over the whole list: it is never less than the total of any category view. */
  lemma TotalCoversEveryView(items: seq<Item>, filter: string)
    ensures Total(Filtered(items, filter)) <= Total(items)
  {
    if filter != AllFilter {
      SumFromSplit(items, InCategory(filter), (it: Item) => it.category != filter, ItemPrice);
    }
  }

  /** The total depends only on the prices, position by position. */
  lemma TotalOfSamePrices(a: seq<Item>, b: seq<Item>)
    requires |a| == |b|
    requires forall i :: 0 <= i < |a| ==> a[i].price == b[i].price
    ensures Total(a) == Total(b)
  {
    SumFromSameAmounts(a, ItemPrice, b, ItemPrice);
  }

  /** The completed count depends only on the completed flags, position by position. */
  lemma CompletedOfSameFlags(a: seq<Item>, b: seq<Item>)
    requires |a| == |b|
    requires forall i :: 0 <= i < |a| ==> a[i].completed == b[i].completed
    ensures CompletedCount(a) == CompletedCount(b)
  {
    SelectSameVerdicts(a, IsCompleted, b, IsCompleted);
  }

  // ----- addItemToList -----

  /**
   * Appending moves the total by exactly the new price, leaves the completed count
   * alone, and shows the new item at the end of the full view and of its own
   * category's view, and in no other view.
   */
  lemma AppendedViews(items: seq<Item>, product: Product, id: int, category: string, filter: string)
    ensures var r := Appended(items, product, id, category);
      && Total(r) == Total(items) + ParsePrice(product.price)
      && CompletedCount(r) == CompletedCount(items)
      && Filtered(r, filter) == Filtered(items, filter) + (if filter == AllFilter || filter == category then [r[|items|]] else [])
  {
    var r := Appended(items, product, id, category);
    var x := r[|items|];
    assert r == items + [x];
    SumFromAppend(items, [x], ItemPrice);
    SumFromCons(x, [], ItemPrice);
    SelectAppend(items, [x], IsCompleted);
    if filter != AllFilter {
      SelectAppend(items, [x], InCategory(filter));
    }
  }

  // ----- updateCategory -----

  /** A second category change of the same id overrides the first; in particular repeating one is harmless. */
  lemma CategoryLastWriteWins(items: seq<Item>, id: int, first: string, second: string)
    ensures WithCategory(WithCategory(items, id, first), id, second) == WithCategory(items, id, second)
  {
    var once := WithCategory(items, id, first);
    forall i | 0 <= i < |items|
      ensures WithCategory(once, id, second)[i] == WithCategory(items, id, second)[i]
    {
      assert once[i].id == items[i].id;
    }
  }

  /** Changing a category moves neither the total nor the completed count. */
  lemma CategoryKeepsTotals(items: seq<Item>, id: int, c: string)
    ensures Total(WithCategory(items, id, c)) == Total(items)
    ensures CompletedCount(WithCategory(items, id, c)) == CompletedCount(items)
  {
    var r := WithCategory(items, id, c);
    forall i | 0 <= i < |items| ensures r[i].price == items[i].price && r[i].completed == items[i].completed {
      assert r[i].(category := items[i].category) == items[i];
    }
    TotalOfSamePrices(r, items);
    CompletedOfSameFlags(r, items);
  }

  /** An id that no item carries changes nothing. */
  lemma CategoryOfMissingId(items: seq<Item>, id: int, c: string)
    requires !HasId(items, id)
    ensures WithCategory(items, id, c) == items
  {
    var r := WithCategory(items, id, c);
    forall i | 0 <= i < |items| ensures r[i] == items[i] {
      assert r[i].(category := items[i].category) == items[i];
    }
  }

  // ----- toggleItem -----

  /** Toggling the same id twice gives back the original list. */
  lemma ToggleInvolution(items: seq<Item>, id: int)
    ensures Toggled(Toggled(items, id), id) == items
  {
    var once := Toggled(items, id);
    var twice := Toggled(once, id);
    forall i | 0 <= i < |items| ensures twice[i] == items[i] {
      assert once[i].(completed := items[i].completed) == items[i];
      assert twice[i].(completed := once[i].completed) == once[i];
    }
  }

  /** Toggling never moves the total. */
  lemma ToggleKeepsTotal(items: seq<Item>, id: int)
    ensures Total(Toggled(items, id)) == Total(items)
  {
    var r := Toggled(items, id);
    forall i | 0 <= i < |items| ensures r[i].price == items[i].price {
      assert r[i].(completed := items[i].completed) == items[i];
    }
    TotalOfSamePrices(r, items);
  }

  /** An id that no item carries changes nothing. */
  lemma ToggleOfMissingId(items: seq<Item>, id: int)
    requires !HasId(items, id)
    ensures Toggled(items, id) == items
  {
    var r := Toggled(items, id);
    forall i | 0 <= i < |items| ensures r[i] == items[i] {
      assert r[i].(completed := items[i].completed) == items[i];
    }
  }

  /** When exactly one item carries the id, the completed count moves by one, up or down as its flag was. */
  lemma ToggleMovesCountByOne(items: seq<Item>, id: int, k: nat)
    requires k < |items| && items[k].id == id
    requires forall i :: 0 <= i < |items| && i != k ==> items[i].id != id
    ensures CompletedCount(Toggled(items, id)) == if items[k].completed then CompletedCount(items) - 1 else CompletedCount(items) + 1
  {
    var r := Toggled(items, id);
    assert items == items[..k] + [items[k]] + items[k + 1..];
    assert r == r[..k] + [r[k]] + r[k + 1..];
    CompletedOfSameFlags(r[..k], items[..k]);
    CompletedOfSameFlags(r[k + 1..], items[k + 1..]);
    SelectAppend(items[..k] + [items[k]], items[k + 1..], IsCompleted);
    SelectAppend(items[..k], [items[k]], IsCompleted);
    SelectAppend(r[..k] + [r[k]], r[k + 1..], IsCompleted);
    SelectAppend(r[..k], [r[k]], IsCompleted);
  }

  // ----- deleteItem -----

  /** Deletion keeps exactly the items with another id, in their order and with their multiplicity. */
  lemma DeleteIsOrderedRestriction(items: seq<Item>, id: int)
    ensures IsSubsequence(Without(items, id), items)
    ensures forall it :: multiset(Without(items, id))[it] == if it.id != id then multiset(items)[it] else 0
  {
    SelectIsOrderedRestriction(items, OtherId(id));
  }

  /** Deleting the same id twice is the same as deleting it once. */
  lemma DeleteIdempotent(items: seq<Item>, id: int)
    ensures Without(Without(items, id), id) == Without(items, id)
  {
    SelectIdempotent(items, OtherId(id));
  }

  /** Deleting an id that no item carries changes nothing. */
  lemma DeleteOfMissingId(items: seq<Item>, id: int)
    requires !HasId(items, id)
    ensures Without(items, id) == items
  {
    forall it | it in items ensures OtherId(id)(it) {
      var i :| 0 <= i < |items| && items[i] == it;
    }
    SelectAllKept(items, OtherId(id));
  }

  /** Deletion lowers the total by exactly the prices of the removed items. */
  lemma DeleteTotal(items: seq<Item>, id: int)
    ensures Total(Without(items, id)) + Total(Select(items, (it: Item) => it.id == id)) == Total(items)
  {
    SumFromSplit(items, OtherId(id), (it: Item) => it.id == id, ItemPrice);
  }

  // ----- filteredItems -----

  /** A category view keeps exactly the items of that category, in their order and with their multiplicity. */
  lemma FilterIsOrderedRestriction(items: seq<Item>, filter: string)
    requires filter != AllFilter
    ensures IsSubsequence(Filtered(items, filter), items)
    ensures forall it :: multiset(Filtered(items, filter))[it] == if it.category == filter then multiset(items)[it] else 0
  {
    SelectIsOrderedRestriction(items, InCategory(filter));
  }

  // ----- Categories -----

  /** The category preselected for new items and the "all" filter are not among the offered categories. */
  lemma PresetsAreNotCategories()
    ensures DefaultCategory !in Categories
    ensures AllFilter !in Categories
  {
  }

  // ----- The seed list and a worked scenario -----

  lemma SeedAmounts()
    ensures NatValue("29") == 29 && FracValue("90") == 0.9
    ensures NatValue("15") == 15 && FracValue("49") == 0.49
    ensures NatValue("18") == 18 && FracValue("50") == 0.5
  {
    assert "29"[..1] == "2" && "15"[..1] == "1" && "18"[..1] == "1";
  }

  lemma RicePrice()
    ensures ParsePrice(Some("R$ 29,90")) == 29.9
  {
    assert "R$ 29,90" == "R$ " + "29" + [','] + "90";
    ParsePriceOfReais("R$ ", "29", "90");
    SeedAmounts();
  }

  lemma DetergentPrice()
    ensures ParsePrice(Some("R$ 15,49")) == 15.49
  {
    assert "R$ 15,49" == "R$ " + "15" + [','] + "49";
    ParsePriceOfReais("R$ ", "15", "49");
    SeedAmounts();
  }

  lemma CoffeePrice()
    ensures ParsePrice(Some("R$ 18,50")) == 18.5
  {
    assert "R$ 18,50" == "R$ " + "18" + [','] + "50";
    ParsePriceOfReais("R$ ", "18", "50");
    SeedAmounts();
  }

  lemma TotalOfThree(a: Item, b: Item, c: Item)
    ensures Total([a, b, c]) == ParsePrice(a.price) + ParsePrice(b.price) + ParsePrice(c.price)
  {
    assert [a, b, c] == [a] + ([b] + ([c] + []));
    SumFromCons(a, [b] + ([c] + []), ItemPrice);
    SumFromCons(b, [c] + [], ItemPrice);
    SumFromCons(c, [], ItemPrice);
  }

  /** With nothing saved the list holds three items for an estimated R$ 63,89. */
  lemma SeedTotal()
    ensures Total(InitialItems(None)) == 63.89
  {
    var seed := SeedItems();
    RicePrice();
    DetergentPrice();
    CoffeePrice();
    TotalOfThree(seed[0], seed[1], seed[2]);
    assert seed == [seed[0], seed[1], seed[2]];
  }

  /** One of the three seed items is already bought. */
  lemma SeedStats()
    ensures Stats(InitialItems(None)) == Some((1, 3))
  {
    var seed := SeedItems();
    assert Select(seed, IsCompleted) == [seed[1]];
  }

  /**
   * Two products added to an empty list under two different categories: the estimate
   * is the sum of both prices, the first category's view shows only the first item,
   * and the estimate stays the sum of both under that filter although the view alone
   * would sum to the first price.
   */
  lemma TwoItemScenario(first: Product, second: Product, firstId: int, secondId: int, c1: string, c2: string)
    requires c1 != AllFilter && c1 != c2
    ensures var list := Appended(Appended([], first, firstId, c1), second, secondId, c2);
      && Total(list) == ParsePrice(first.price) + ParsePrice(second.price)
      && Filtered(list, c1) == [list[0]]
      && Total(Filtered(list, c1)) == ParsePrice(first.price)
  {
    var one := Appended([], first, firstId, c1);
    AppendedViews([], first, firstId, c1, c1);
    AppendedViews(one, second, secondId, c2, c1);
    SumFromCons(one[0], [], ItemPrice);
  }
}

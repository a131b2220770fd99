/**
 * The list state of the shopping list as values: the item record, the four
 * transformations whose results the component stores back (append, category
 * change, completion toggle, deletion), the category view, the estimated total and
 * the completed count, and the list the component starts from.
 */
module ListOps {
  import opened Wrappers
  import opened Seqs
  import opened Price

  /** The categories offered by the selects; nothing checks an item against them. */
  const Categories: seq<string> := ["Cozinha", "Quarto", "Banheiro", "Sala", "Limpeza"]

  /** The filter value that shows every item. */
  const AllFilter: string := "Todas"

  /** The category preselected for new items; it is not one of `Categories`. */
  const DefaultCategory: string := "Geral"

  /**
   * One list entry.  `category` is a plain string: the default "Geral" and whatever
   * `updateCategory` receives are stored unchecked.  Ids are not checked for uniqueness.
   */
  datatype Item = Item(
    id: int,
    name: string,
    image: Option<string>,
    price: Option<string>,
    store: Option<string>,
    category: string,
    completed: bool)

  /** A search result as handed to `addItemToList`. */
  datatype Product = Product(name: string, image: Option<string>, price: Option<string>, brands: Option<string>)

  // ----- Predicates used to filter -----

  function OtherId(id: int): Item -> bool { (it: Item) => it.id != id }

  function InCategory(c: string): Item -> bool { (it: Item) => it.category == c }

  predicate IsCompleted(it: Item) { it.completed }

  predicate HasId(items: seq<Item>, id: int) { exists i :: 0 <= i < |items| && items[i].id == id }

  // ----- The four mutations -----

  /** `[...items, { id, name, image, price, store: brands, category, completed: false }]` */
  function Appended(items: seq<Item>, product: Product, id: int, category: string): (r: seq<Item>)
    ensures |r| == |items| + 1 && r[..|items|] == items
    ensures r[|items|].id == id && r[|items|].category == category && !r[|items|].completed
    ensures r[|items|].name == product.name && r[|items|].image == product.image
    ensures r[|items|].price == product.price && r[|items|].store == product.brands
  {
    items + [Item(id, product.name, product.image, product.price, product.brands, category, false)]
  }

  /** `updateCategory(id, c)`: every item with that id gets category `c`; nothing else changes. */
  function WithCategory(items: seq<Item>, id: int, c: string): (r: seq<Item>)
    ensures |r| == |items|
    ensures forall i :: 0 <= i < |r| ==> r[i].(category := items[i].category) == items[i]
    ensures forall i :: 0 <= i < |r| ==> r[i].category == if items[i].id == id then c else items[i].category
  {
    seq(|items|, i requires 0 <= i < |items| => if items[i].id == id then items[i].(category := c) else items[i])
  }

  /** `toggleItem(id)`: every item with that id has its completed flag flipped; nothing else changes. */
  function Toggled(items: seq<Item>, id: int): (r: seq<Item>)
    ensures |r| == |items|
    ensures forall i :: 0 <= i < |r| ==> r[i].(completed := items[i].completed) == items[i]
    ensures forall i :: 0 <= i < |r| ==> (r[i].completed <==> (items[i].completed != (items[i].id == id)))
  {
    seq(|items|, i requires 0 <= i < |items| => if items[i].id == id then items[i].(completed := !items[i].completed) else items[i])
  }

  /** `deleteItem(id)`: the items whose id differs, in order. */
  function Without(items: seq<Item>, id: int): (r: seq<Item>)
    ensures |r| <= |items|
    ensures !HasId(r, id)
    ensures forall it :: it in items && it.id != id ==> it in r
  {
    SelectMembers(items, OtherId(id));
    var r := Select(items, OtherId(id));
    assert forall i :: 0 <= i < |r| ==> r[i] in r;
    r
  }

  // ----- Derived views -----

  /** `filteredItems`: the whole list for "Todas", otherwise the items of that category. */
  function Filtered(items: seq<Item>, filter: string): (r: seq<Item>)
    ensures filter == AllFilter ==> r == items
    ensures |r| <= |items|
    ensures forall it :: it in r <==> it in items && (filter == AllFilter || it.category == filter)
  {
    if filter == AllFilter then items
    else
      SelectMembers(items, InCategory(filter));
      Select(items, InCategory(filter))
  }

  /** `parsePrice(item.price)`: what one item adds to the estimate. */
  function ItemPrice(it: Item): (r: real)
    ensures r >= 0.0
  {
    ParsePrice(it.price)
  }

  /** `total`: `items.reduce((acc, item) => acc + parsePrice(item.price), 0)`, over the whole list whatever the filter. */
  function Total(items: seq<Item>): (r: real)
    ensures r >= 0.0
  {
    SumFrom(0.0, items, ItemPrice)
  }

  /** `items.filter(i => i.completed).length`, the first number of the stats line. */
  function CompletedCount(items: seq<Item>): (n: nat)
    ensures n <= |items|
  {
    |Select(items, IsCompleted)|
  }

  /** The stats line "<completed> de <length> itens comprados", shown only for a non-empty list. */
  function Stats(items: seq<Item>): (r: Option<(nat, nat)>)
    ensures r.Some? <==> |items| > 0
    ensures r.Some? ==> r.value.0 <= r.value.1 == |items|
  {
    if |items| > 0 then Some((CompletedCount(items), |items|)) else None
  }

  // ----- Initial state -----

  // The display strings of the three demonstration items.
  const RiceName: string := "Arroz Branco Camil 5kg Tipo 1"
  const RiceImage: string := "https://cdn.tendaatacado.com.br/img/item/0080/00008044.jpg"
  const DetergentName: string := "Kit Detergente Ypê 500ml c/ 6 Unidades"
  const DetergentImage: string := "https://m.media-amazon.com/images/I/61Z6-hL8bXL._AC_SX679_.jpg"
  const CoffeeName: string := "Café Torrado e Moído Melitta 500g Tradicional"
  const CoffeeImage: string := "https://m.media-amazon.com/images/I/61+9+85+xL._AC_SX679_.jpg"
  const TendaStore: string := "Tenda Atacado"
  const AmazonStore: string := "Amazon"
  const MercadoLivreStore: string := "Mercado Livre"

  /** The three demonstration items used when nothing is saved. */
  function SeedItems(): (r: seq<Item>)
    ensures |r| == 3 && r[0].id == 1 && r[1].id == 2 && r[2].id == 3
  {
    [ Item(1, RiceName, Some(RiceImage), Some("R$ 29,90"), Some(TendaStore), "Cozinha", false),
      Item(2, DetergentName, Some(DetergentImage), Some("R$ 15,49"), Some(AmazonStore), "Limpeza", true),
      Item(3, CoffeeName, Some(CoffeeImage), Some("R$ 18,50"), Some(MercadoLivreStore), "Cozinha", false) ]
  }

  /** The `useState` initialiser: the saved list when the slot holds one, else the seed list. */
  function InitialItems(saved: Option<seq<Item>>): (r: seq<Item>)
    ensures saved.Some? ==> r == saved.value
    ensures saved.None? ==> r == SeedItems()
  {
    match saved
    case Some(list) => list
    case None => SeedItems()
  }
}

/** The storefront home page (app/page.tsx): a product grid narrowed by a
    search box and a category selector whose "everything" value is 'All', and
    a cart that the add, remove and plus/minus buttons change. Changing a
    quantity by `delta` applies only when the result stays positive, so the
    minus button at quantity 1 does nothing; lines leave the cart only by
    explicit removal. */
module Storefront {
  import opened Lists
  import opened Text
  import opened OrderLines
  import Catalog

  /** The selector value that shows every category on this page. */
  const EveryCategory: string := "All"

  /** `filteredProducts`: the products whose lowercased name contains the
      lowercased query and whose category is the selected one (any category
      under 'All'), in catalog order. */
  function FilterProducts(products: seq<Item>, query: string, category: string): (r: seq<Item>)
    ensures IsSubsequence(r, products)
    ensures forall p :: p in r <==>
      p in products && Includes(Lower(p.name), Lower(query)) && (category == "All" || p.category == category)
    ensures forall p :: multiset(r)[p] ==
              if Includes(Lower(p.name), Lower(query)) && (category == "All" || p.category == category) then multiset(products)[p] else 0
  {
    Catalog.FilterItems(products, query, category, EveryCategory)
  }

  /** The page's initial state (empty query, 'All') shows every product. */
  lemma InitialViewShowsAllProducts(products: seq<Item>)
    ensures FilterProducts(products, "", "All") == products
  {
    Catalog.ShowsEverything(products, EveryCategory);
  }

  /** The `filter` callback of `removeFromCart`: the line is for another product. */
  function IdIsNot(id: int): Line -> bool
  {
    (l: Line) => l.item.id != id
  }

  /** `removeFromCart`: exactly the lines of other products remain, in their
      order, and none for `id`. */
  function Without(lines: seq<Line>, id: int): (r: seq<Line>)
    ensures IsSubsequence(r, lines)
    ensures forall l :: l in r <==> l in lines && l.item.id != id
    ensures !HasLine(r, id)
  {
    var r := Filter(lines, IdIsNot(id));
    assert forall i :: 0 <= i < |r| ==> r[i] in r;
    r
  }

  /** The callback of `updateQuantity`: the line for `id` takes quantity
      `quantity + delta` when that is positive and is returned as it was otherwise. */
  function AdjustIf(id: int, delta: int): Line -> Line
  {
    (l: Line) =>
      if l.item.id == id then
        var q := l.quantity + delta;
        if q > 0 then l.(quantity := q) else l
      else l
  }

  /** `updateQuantity`: every line keeps its item and its place; the line for
      `id` takes `quantity + delta` when that is positive, and nothing else changes. */
  function Adjusted(lines: seq<Line>, id: int, delta: int): (r: seq<Line>)
    ensures |r| == |lines|
    ensures forall i :: 0 <= i < |lines| ==> r[i].item == lines[i].item
    ensures forall i :: 0 <= i < |lines| ==>
      r[i].quantity == if lines[i].item.id == id && lines[i].quantity + delta > 0 then lines[i].quantity + delta else lines[i].quantity
  {
    Map(lines, AdjustIf(id, delta))
  }

  /** Removing an id the cart does not hold leaves it unchanged. */
  lemma RemoveAbsent(lines: seq<Line>, id: int)
    requires !HasLine(lines, id)
    ensures Without(lines, id) == lines
  {
    FilterKeepsAll(lines, IdIsNot(id));
  }

  /** Removing the id of line `k` takes out exactly that line and keeps the
      others in their order. */
  lemma RemoveLine(lines: seq<Line>, k: int)
    requires UniqueIds(lines) && 0 <= k < |lines|
    ensures Without(lines, lines[k].item.id) == lines[..k] + lines[k + 1..]
  {
    var keep := IdIsNot(lines[k].item.id);
    var before, after := lines[..k], lines[k + 1..];
    assert forall i :: 0 <= i < |before| ==> before[i] == lines[i];
    assert forall i :: 0 <= i < |after| ==> after[i] == lines[k + 1 + i];
    assert lines == before + [lines[k]] + after;
    FilterDropsOne(before, lines[k], after, keep);
  }

  /** Removal keeps ids unique and quantities positive. */
  lemma RemoveKeepsWellFormed(lines: seq<Line>, id: int)
    requires WellFormed(lines)
    ensures WellFormed(Without(lines, id))
    ensures !HasLine(Without(lines, id), id)
  {
    FilterKeepsWellFormed(lines, IdIsNot(id));
  }

  /** Changing the quantity of an id the cart does not hold leaves it unchanged. */
  lemma AdjustAbsent(lines: seq<Line>, id: int, delta: int)
    requires !HasLine(lines, id)
    ensures Adjusted(lines, id, delta) == lines
  {
    var r := Adjusted(lines, id, delta);
    assert forall i :: 0 <= i < |lines| ==> r[i] == lines[i];
  }

  /** Changing the quantity of line `k` by `delta`: the line takes
      `quantity + delta` if that is positive and stays as it was otherwise;
      every other line and the length are unchanged. */
  lemma AdjustLine(lines: seq<Line>, k: int, delta: int)
    requires UniqueIds(lines) && 0 <= k < |lines|
    ensures var r := Adjusted(lines, lines[k].item.id, delta);
      && |r| == |lines|
      && (lines[k].quantity + delta > 0 ==> r[k] == lines[k].(quantity := lines[k].quantity + delta))
      && (lines[k].quantity + delta <= 0 ==> r[k] == lines[k])
      && forall j :: 0 <= j < |lines| && j != k ==> r[j] == lines[j]
  {
  }

  /** The minus button on a line at quantity 1 leaves the cart unchanged. */
  lemma MinusAtOneIsNoop(lines: seq<Line>, k: int)
    requires UniqueIds(lines) && 0 <= k < |lines| && lines[k].quantity == 1
    ensures Adjusted(lines, lines[k].item.id, -1) == lines
  {
    var r := Adjusted(lines, lines[k].item.id, -1);
    assert forall j :: 0 <= j < |lines| ==> r[j] == lines[j];
  }

  /** Changing a quantity keeps ids unique and quantities positive. */
  lemma AdjustKeepsWellFormed(lines: seq<Line>, id: int, delta: int)
    requires WellFormed(lines)
    ensures WellFormed(Adjusted(lines, id, delta))
  {
    var r := Adjusted(lines, id, delta);
    assert forall i :: 0 <= i < |lines| ==> r[i].item == lines[i].item;
  }

  /** The actions the cart's buttons take. */
  datatype CartAction = AddProduct(product: Item) | RemoveProduct(id: int) | ChangeQuantity(id: int, delta: int)

  function Apply(lines: seq<Line>, action: CartAction): seq<Line>
  {
    match action
    case AddProduct(product) => WithItem(lines, product)
    case RemoveProduct(id) => Without(lines, id)
    case ChangeQuantity(id, delta) => Adjusted(lines, id, delta)
  }

  /** The cart after `actions`, starting from the empty cart the page opens with. */
  function Replay(actions: seq<CartAction>): seq<Line>
  {
    if actions == [] then [] else Apply(Replay(actions[..|actions| - 1]), actions[|actions| - 1])
  }

  /** Every cart the page can reach has unique ids and positive quantities. */
  lemma {:induction false} EveryCartWellFormed(actions: seq<CartAction>)
    ensures WellFormed(Replay(actions))
  {
    if actions != [] {
      var before := Replay(actions[..|actions| - 1]);
      EveryCartWellFormed(actions[..|actions| - 1]);
      match actions[|actions| - 1]
      case AddProduct(product) => AddKeepsWellFormed(before, product);
      case RemoveProduct(id) => RemoveKeepsWellFormed(before, id);
      case ChangeQuantity(id, delta) => AdjustKeepsWellFormed(before, id, delta);
    }
  }

  const ChickenWings: Item :=
    Item(1, "Chicken Wings", 12.99, "Appetizers", "https://images.unsplash.com/photo-1567620832903-9fc6debc209f?w=800&q=80")
  const CaesarSalad: Item :=
    Item(2, "Caesar Salad", 8.99, "Salads", "https://images.unsplash.com/photo-1550304943-4f24f54ddde9?w=800&q=80")

  /** Adding the wings twice and the salad once to the page's empty cart gives
      two lines, wings at 2 and salad at 1, for a total of 34.97. */
  lemma SampleCart()
    ensures var lines := Replay([AddProduct(ChickenWings), AddProduct(ChickenWings), AddProduct(CaesarSalad)]);
      && lines == [Line(ChickenWings, 2), Line(CaesarSalad, 1)]
      && Subtotal(lines) == 34.97
  {
    var actions := [AddProduct(ChickenWings), AddProduct(ChickenWings), AddProduct(CaesarSalad)];
    var one := [AddProduct(ChickenWings)];
    assert one[..0] == [];
    assert Replay(one) == WithItem([], ChickenWings);
    assert actions[..2] == one + one;
    assert (one + one)[..1] == one;
    AddTwice([], ChickenWings);
    var two := [Line(ChickenWings, 2)];
    assert Replay(actions[..2]) == two;
    assert !HasLine(two, CaesarSalad.id);
    var lines := two + [Line(CaesarSalad, 1)];
    assert Replay(actions) == lines;
    assert lines[1..] == [Line(CaesarSalad, 1)];
  }

  /** The cart of the home page: `cart` and the handlers that replace it. */
  class Cart {
    var lines: seq<Line>

    ghost predicate Valid()
      reads this
    {
      WellFormed(lines)
    }

    constructor ()
      ensures Valid() && lines == []
    {
      lines := [];
    }

    /** `addToCart`: the cart takes the product as `WithItem` describes. */
    method AddToCart(product: Item)
      requires Valid()
      modifies this
      ensures Valid() && HasLine(lines, product.id)
      ensures lines == WithItem(old(lines), product)
    {
      AddKeepsWellFormed(lines, product);
      lines := AddLine(lines, product);
    }

    /** `removeFromCart`: the lines for `id` leave the cart. */
    method RemoveFromCart(id: int)
      requires Valid()
      modifies this
      ensures Valid() && !HasLine(lines, id)
      ensures lines == Without(old(lines), id)
    {
      RemoveKeepsWellFormed(lines, id);
      lines := RunFilter(lines, IdIsNot(id));
    }

    /** `updateQuantity`: the line for `id` changes by `delta` if it stays positive. */
    method UpdateQuantity(id: int, delta: int)
      requires Valid()
      modifies this
      ensures Valid()
      ensures lines == Adjusted(old(lines), id, delta)
    {
      AdjustKeepsWellFormed(lines, id, delta);
      lines := RunMap(lines, AdjustIf(id, delta));
    }

    /** `totalAmount`: the subtotal of the cart's lines, never negative when no
        price is. */
    function TotalAmount(): (r: real)
      reads this
      requires Valid()
      ensures r == Subtotal(lines)
      ensures (forall i :: 0 <= i < |lines| ==> lines[i].item.price >= 0.0) ==> r >= 0.0
    {
      Subtotal(lines)
    }

    /** The payment button is disabled when the cart has no line, which is
        exactly when it holds no unit. */
    function PaymentDisabled(): (r: bool)
      reads this
      requires Valid()
      ensures r <==> TotalQuantity(lines) == 0
    {
      EmptyIffNoUnits(lines);
      |lines| == 0
    }
  }
}

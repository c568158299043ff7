/** What the storefront cart (app/page.tsx) and the point-of-sale order
    (app/pos/page.tsx) have in common: an order is a sequence of lines, each an
    item spread into a new record together with a quantity; adding an item
    bumps its line or appends a new one; the amount due is the sum of
    price times quantity. */
module OrderLines {
  import opened Lists

  /** A sellable item as the pages hold it. Prices are exact reals. */
  datatype Item = Item(id: int, name: string, price: real, category: string, image: string)

  /** A line of an order: the item's fields copied into a new record, plus how many units. */
  datatype Line = Line(item: Item, quantity: int)

  /** Some line of the order is for item `id`. */
  predicate HasLine(lines: seq<Line>, id: int)
  {
    exists i :: 0 <= i < |lines| && lines[i].item.id == id
  }

  /** At most one line per item id. */
  ghost predicate UniqueIds(lines: seq<Line>)
  {
    forall i, j :: 0 <= i < j < |lines| ==> lines[i].item.id != lines[j].item.id
  }

  /** Every line holds at least one unit. */
  ghost predicate PositiveQuantities(lines: seq<Line>)
  {
    forall i :: 0 <= i < |lines| ==> lines[i].quantity >= 1
  }

  /** The invariant of every order the pages can reach. */
  ghost predicate WellFormed(lines: seq<Line>)
  {
    UniqueIds(lines) && PositiveQuantities(lines)
  }

  /** The `find` callback of the add handlers: the line is for item `id`. */
  function IdIs(id: int): Line -> bool
  {
    (l: Line) => l.item.id == id
  }

  /** The `map` callback of the add and plus handlers: the line for `id` comes
      back as a copy with one more unit, every other line as it was. */
  function IncrementIf(id: int): Line -> Line
  {
    (l: Line) => if l.item.id == id then l.(quantity := l.quantity + 1) else l
  }

  /** `incrementQuantity`: every line keeps its item and its place, and gains
      one unit exactly when it is for `id`. */
  function Incremented(lines: seq<Line>, id: int): (r: seq<Line>)
    ensures |r| == |lines|
    ensures forall i :: 0 <= i < |lines| ==> r[i].item == lines[i].item
    ensures forall i :: 0 <= i < |lines| ==>
      r[i].quantity == if lines[i].item.id == id then lines[i].quantity + 1 else lines[i].quantity
  {
    Map(lines, IncrementIf(id))
  }

  /** `addToCart` / `addToOrder`: the item's line bumped if it has one, else a
      new line at the end. Afterwards the item has a line, the order has grown
      by a line exactly when it had none, and the earlier lines keep their items. */
  function WithItem(lines: seq<Line>, item: Item): (r: seq<Line>)
    ensures HasLine(r, item.id)
    ensures |r| == if HasLine(lines, item.id) then |lines| else |lines| + 1
    ensures forall i :: 0 <= i < |lines| ==> r[i].item == lines[i].item
  {
    assert !HasLine(lines, item.id) ==> (lines + [Line(item, 1)])[|lines|].item.id == item.id;
    assert HasLine(lines, item.id) ==> HasLine(Incremented(lines, item.id), item.id);
    if HasLine(lines, item.id) then Incremented(lines, item.id) else lines + [Line(item, 1)]
  }

  /** Price times quantity of one line. */
  function LineAmount(l: Line): real
  {
    l.item.price * l.quantity as real
  }

  /** The cart's `totalAmount` and the order's `subtotal`: price times quantity
      added up over the lines, never negative when no price or quantity is. */
  function Subtotal(lines: seq<Line>): (r: real)
    ensures (forall i :: 0 <= i < |lines| ==> lines[i].item.price >= 0.0 && lines[i].quantity >= 0) ==> r >= 0.0
  {
    assert (forall i :: 0 <= i < |lines| ==> lines[i].item.price >= 0.0 && lines[i].quantity >= 0) ==>
      forall i :: 0 <= i < |lines| ==> LineAmount(lines[i]) >= 0.0;
    Sum(lines, LineAmount)
  }

  /** Units in the order over all lines. */
  function TotalQuantity(lines: seq<Line>): int
  {
    if lines == [] then 0 else lines[0].quantity + TotalQuantity(lines[1..])
  }

  /** The body of `addToCart` and `addToOrder`: look for the item's line, then
      either bump it by a `map` or append a new line. */
  method AddLine(lines: seq<Line>, item: Item) returns (r: seq<Line>)
    ensures r == WithItem(lines, item)
  {
    var existing := RunFind(lines, IdIs(item.id));
    if existing.Some? {
      r := RunMap(lines, IncrementIf(item.id));
    } else {
      r := lines + [Line(item, 1)];
    }
  }

  /** Bumping an id that has no line changes nothing. */
  lemma IncrementAbsent(lines: seq<Line>, id: int)
    requires !HasLine(lines, id)
    ensures Incremented(lines, id) == lines
  {
    var r := Incremented(lines, id);
    assert forall i :: 0 <= i < |lines| ==> r[i] == lines[i];
  }

  /** Bumping the id of line `k` raises that line by one, keeps its item, and
      leaves the length and every other line as they were. */
  lemma IncrementLine(lines: seq<Line>, k: int)
    requires UniqueIds(lines) && 0 <= k < |lines|
    ensures var r := Incremented(lines, lines[k].item.id);
      && |r| == |lines|
      && r[k] == lines[k].(quantity := lines[k].quantity + 1)
      && forall j :: 0 <= j < |lines| && j != k ==> r[j] == lines[j]
  {
  }

  /** Adding an item that already has line `k` is bumping that line. */
  lemma AddExisting(lines: seq<Line>, item: Item, k: int)
    requires UniqueIds(lines) && 0 <= k < |lines| && lines[k].item.id == item.id
    ensures var r := WithItem(lines, item);
      && |r| == |lines|
      && r[k] == lines[k].(quantity := lines[k].quantity + 1)
      && forall j :: 0 <= j < |lines| && j != k ==> r[j] == lines[j]
  {
    IncrementLine(lines, k);
  }

  /** Adding an item with no line appends a line of quantity 1 after the others. */
  lemma AddNew(lines: seq<Line>, item: Item)
    requires !HasLine(lines, item.id)
    ensures var r := WithItem(lines, item);
      && |r| == |lines| + 1
      && r[..|lines|] == lines
      && r[|lines|] == Line(item, 1)
  {
  }

  /** Adding the same new item twice gives one line of quantity 2. */
  lemma AddTwice(lines: seq<Line>, item: Item)
    requires !HasLine(lines, item.id)
    ensures WithItem(WithItem(lines, item), item) == lines + [Line(item, 2)]
  {
    var once := lines + [Line(item, 1)];
    assert once[|lines|].item.id == item.id;
    var twice := Incremented(once, item.id);
    assert forall j :: 0 <= j < |lines| ==> twice[j] == lines[j];
  }

  /** Adding keeps ids unique and quantities positive, and the item then has a line. */
  lemma AddKeepsWellFormed(lines: seq<Line>, item: Item)
    requires WellFormed(lines)
    ensures WellFormed(WithItem(lines, item))
    ensures HasLine(WithItem(lines, item), item.id)
  {
    var r := WithItem(lines, item);
    if HasLine(lines, item.id) {
      var k :| 0 <= k < |lines| && lines[k].item.id == item.id;
      assert r[k].item.id == item.id;
    } else {
      assert r[|lines|].item.id == item.id;
    }
  }

  /** Any filter of a well-formed order is well formed. */
  lemma FilterKeepsWellFormed(lines: seq<Line>, keep: Line -> bool)
    requires WellFormed(lines)
    ensures WellFormed(Filter(lines, keep))
  {
    var r := Filter(lines, keep);
    forall i | 0 <= i < |r|
      ensures r[i].quantity >= 1
    {
      assert r[i] in lines;
    }
    FilterKeepsUniqueIds(lines, keep);
  }

  /** Filtering never puts two lines for one id into an order that had one each. */
  lemma {:induction false} FilterKeepsUniqueIds(lines: seq<Line>, keep: Line -> bool)
    requires UniqueIds(lines)
    ensures UniqueIds(Filter(lines, keep))
  {
    if lines != [] {
      var rest := lines[1..];
      var fr := Filter(rest, keep);
      FilterKeepsUniqueIds(rest, keep);
      if keep(lines[0]) {
        HeadIdNotInTail(lines);
        assert forall y :: y in fr ==> y in rest;
        ConsKeepsUniqueIds(lines[0], fr);
        assert Filter(lines, keep) == [lines[0]] + fr;
      } else {
        assert Filter(lines, keep) == fr;
      }
    }
  }

  /** A line whose id no other line has can go in front. */
  lemma ConsKeepsUniqueIds(l: Line, lines: seq<Line>)
    requires UniqueIds(lines)
    requires forall y :: y in lines ==> y.item.id != l.item.id
    ensures UniqueIds([l] + lines)
  {
    var r := [l] + lines;
    forall i, j | 0 <= i < j < |r|
      ensures r[i].item.id != r[j].item.id
    {
      assert r[j] == lines[j - 1];
      if i > 0 {
        assert r[i] == lines[i - 1];
      }
    }
  }

  /** In an order with unique ids, no later line shares the first line's id. */
  lemma HeadIdNotInTail(lines: seq<Line>)
    requires UniqueIds(lines) && lines != []
    ensures forall y :: y in lines[1..] ==> y.item.id != lines[0].item.id
  {
    forall y | y in lines[1..]
      ensures y.item.id != lines[0].item.id
    {
      var m :| 0 <= m < |lines[1..]| && lines[1..][m] == y;
      assert lines[m + 1] == y;
    }
  }

  /** Appending a line adds its amount. */
  lemma {:induction false} SubtotalAppend(lines: seq<Line>, l: Line)
    ensures Subtotal(lines + [l]) == Subtotal(lines) + LineAmount(l)
  {
    if lines == [] {
      assert [] + [l] == [l];
    } else {
      assert (lines + [l])[1..] == lines[1..] + [l];
      SubtotalAppend(lines[1..], l);
    }
  }

  /** Bumping line `k` adds exactly that line's unit price to the subtotal. */
  lemma {:induction false} SubtotalIncremented(lines: seq<Line>, k: int)
    requires UniqueIds(lines) && 0 <= k < |lines|
    ensures Subtotal(Incremented(lines, lines[k].item.id)) == Subtotal(lines) + lines[k].item.price
  {
    var id := lines[k].item.id;
    var r := Incremented(lines, id);
    assert r[1..] == Incremented(lines[1..], id);
    if k == 0 {
      assert !HasLine(lines[1..], id) by {
        forall j | 0 <= j < |lines[1..]| ensures lines[1..][j].item.id != id {
          assert lines[j + 1] == lines[1..][j];
        }
      }
      IncrementAbsent(lines[1..], id);
      var q := lines[0].quantity as real;
      assert LineAmount(r[0]) == lines[0].item.price * (q + 1.0);
    } else {
      assert lines[1..][k - 1] == lines[k];
      SubtotalIncremented(lines[1..], k - 1);
    }
  }

  /** What adding an item does to the amount due: plus the unit price of its
      existing line, or plus the item's own price for a new line. */
  lemma SubtotalAfterAdd(lines: seq<Line>, item: Item)
    requires UniqueIds(lines)
    ensures !HasLine(lines, item.id) ==> Subtotal(WithItem(lines, item)) == Subtotal(lines) + item.price
    ensures forall k :: 0 <= k < |lines| && lines[k].item.id == item.id ==>
      Subtotal(WithItem(lines, item)) == Subtotal(lines) + lines[k].item.price
  {
    if HasLine(lines, item.id) {
      forall k | 0 <= k < |lines| && lines[k].item.id == item.id
        ensures Subtotal(WithItem(lines, item)) == Subtotal(lines) + lines[k].item.price
      {
        SubtotalIncremented(lines, k);
      }
    } else {
      SubtotalAppend(lines, Line(item, 1));
    }
  }

  /** Every line holds a unit, so there are at least as many units as lines. */
  lemma {:induction false} QuantityCoversLines(lines: seq<Line>)
    requires PositiveQuantities(lines)
    ensures TotalQuantity(lines) >= |lines|
  {
    if lines != [] {
      QuantityCoversLines(lines[1..]);
    }
  }

  /** In a well-formed order, having no line is having no unit: the
      `length === 0` guards at checkout test that the order holds something. */
  lemma EmptyIffNoUnits(lines: seq<Line>)
    requires PositiveQuantities(lines)
    ensures |lines| == 0 <==> TotalQuantity(lines) == 0
  {
    QuantityCoversLines(lines);
  }
}

/** The point-of-sale page (app/pos/page.tsx): an order built from the menu,
    with plus and minus buttons per line, a 10% service charge, and a checkout
    that writes one record to the store. The minus button lowers a line only
    while it holds more than one unit, so the trailing filter that keeps the lines
    holding a unit never finds anything to drop: lines never leave the order
    except by a completed checkout. */
module PointOfSale {
  import opened Lists
  import opened OrderLines

  /** The callback of `decrementQuantity`: the line for `id` loses one unit
      when it has more than one. */
  function DecrementIf(id: int): Line -> Line
  {
    (l: Line) => if l.item.id == id && l.quantity > 1 then l.(quantity := l.quantity - 1) else l
  }

  /** The `filter` callback of `decrementQuantity`: the line holds a unit. */
  function HoldsUnit(l: Line): bool
  {
    l.quantity > 0
  }

  /** The `map` step of `decrementQuantity`. */
  function Lowered(lines: seq<Line>, id: int): seq<Line>
  {
    Map(lines, DecrementIf(id))
  }

  /** `decrementQuantity`: the `map` step followed by the `filter` step. Every
      line left holds a unit and is a line of the `map` step, in its order. */
  function Decremented(lines: seq<Line>, id: int): (r: seq<Line>)
    ensures forall i :: 0 <= i < |r| ==> r[i].quantity > 0
    ensures IsSubsequence(r, Lowered(lines, id))
  {
    Filter(Lowered(lines, id), HoldsUnit)
  }

  /** The service-charge rate. */
  const ServiceRate: real := 0.1

  /** `serviceCharge`: a tenth of the subtotal, so between 0 and the subtotal
      when the subtotal is not negative. */
  function ServiceCharge(lines: seq<Line>): (r: real)
    ensures r == Subtotal(lines) / 10.0
    ensures Subtotal(lines) >= 0.0 ==> 0.0 <= r <= Subtotal(lines)
  {
    Subtotal(lines) * ServiceRate
  }

  /** `total`: the subtotal plus the service charge, eleven tenths of the subtotal. */
  function Total(lines: seq<Line>): (r: real)
    ensures r == Subtotal(lines) * 11.0 / 10.0
    ensures r - Subtotal(lines) == Subtotal(lines) / 10.0
  {
    Subtotal(lines) + ServiceCharge(lines)
  }

  /** The row inserted into `orders` at checkout. */
  datatype OrderRecord = OrderRecord(totalAmount: real, status: string, paymentMethod: string)

  /** What the store answers to the insert (the `error` of the response, abstracted). */
  datatype StoreReply = Inserted | InsertFailed

  /** How a checkout ends: refused before any write, or the record written and
      the store's answer. */
  datatype CheckoutOutcome = NothingToCheckout | Completed(record: OrderRecord) | Failed(record: OrderRecord)

  /** The record checkout writes for `lines`: the order's total, 'completed', 'cash'. */
  function CheckoutRecord(lines: seq<Line>): (r: OrderRecord)
    ensures r.totalAmount == Subtotal(lines) * 11.0 / 10.0
    ensures r.status == "completed" && r.paymentMethod == "cash"
  {
    OrderRecord(Total(lines), "completed", "cash")
  }

  /** The order left by `handleCheckout`: cleared after a completed insert,
      untouched when the order is empty or the insert fails. */
  function AfterCheckout(lines: seq<Line>, reply: StoreReply): (r: seq<Line>)
    ensures r == [] || r == lines
    ensures r == [] <==> lines == [] || reply == Inserted
  {
    if lines != [] && reply == Inserted then [] else lines
  }

  /** Lowering line `k`: it loses a unit when it has more than one and stays
      as it was at one; every other line and the length are unchanged. */
  lemma DecrementLine(lines: seq<Line>, k: int)
    requires WellFormed(lines) && 0 <= k < |lines|
    ensures var r := Decremented(lines, lines[k].item.id);
      && |r| == |lines|
      && (lines[k].quantity > 1 ==> r[k] == lines[k].(quantity := lines[k].quantity - 1))
      && (lines[k].quantity == 1 ==> r[k] == lines[k])
      && forall j :: 0 <= j < |lines| && j != k ==> r[j] == lines[j]
  {
    DecrementFilterDropsNothing(lines, lines[k].item.id);
  }

  /** On an order whose lines all hold a unit, the `filter` step of
      `decrementQuantity` drops nothing: the result is the `map` step's. */
  lemma DecrementFilterDropsNothing(lines: seq<Line>, id: int)
    requires PositiveQuantities(lines)
    ensures Decremented(lines, id) == Lowered(lines, id)
    ensures PositiveQuantities(Decremented(lines, id))
  {
    var m := Lowered(lines, id);
    assert forall i :: 0 <= i < |m| ==> m[i].quantity >= 1;
    FilterKeepsAll(m, HoldsUnit);
  }

  /** Lowering an id the order does not hold leaves it unchanged. */
  lemma DecrementAbsent(lines: seq<Line>, id: int)
    requires PositiveQuantities(lines) && !HasLine(lines, id)
    ensures Decremented(lines, id) == lines
  {
    DecrementFilterDropsNothing(lines, id);
    var m := Lowered(lines, id);
    assert forall i :: 0 <= i < |lines| ==> m[i] == lines[i];
  }

  /** Lowering keeps ids unique and quantities positive. */
  lemma DecrementKeepsWellFormed(lines: seq<Line>, id: int)
    requires WellFormed(lines)
    ensures WellFormed(Decremented(lines, id))
  {
    DecrementFilterDropsNothing(lines, id);
    var m := Lowered(lines, id);
    assert forall i :: 0 <= i < |lines| ==> m[i].item == lines[i].item;
  }

  /** Raising keeps ids unique and quantities positive. */
  lemma IncrementKeepsWellFormed(lines: seq<Line>, id: int)
    requires WellFormed(lines)
    ensures WellFormed(Incremented(lines, id))
  {
    var m := Incremented(lines, id);
    assert forall i :: 0 <= i < |lines| ==> m[i].item == lines[i].item;
  }

  /** The buttons of the page and the checkout with the store's answer. */
  datatype PosAction = AddItem(item: Item) | Increment(id: int) | Decrement(id: int) | Checkout(reply: StoreReply)

  function Apply(lines: seq<Line>, action: PosAction): seq<Line>
  {
    match action
    case AddItem(item) => WithItem(lines, item)
    case Increment(id) => Incremented(lines, id)
    case Decrement(id) => Decremented(lines, id)
    case Checkout(reply) => AfterCheckout(lines, reply)
  }

  /** The order after `actions`, starting from the empty order the page opens with. */
  function Replay(actions: seq<PosAction>): seq<Line>
  {
    if actions == [] then [] else Apply(Replay(actions[..|actions| - 1]), actions[|actions| - 1])
  }

  /** Every order the page can reach has unique ids and positive quantities. */
  lemma {:induction false} EveryOrderWellFormed(actions: seq<PosAction>)
    ensures WellFormed(Replay(actions))
  {
    if actions != [] {
      var before := Replay(actions[..|actions| - 1]);
      EveryOrderWellFormed(actions[..|actions| - 1]);
      match actions[|actions| - 1]
      case AddItem(item) => AddKeepsWellFormed(before, item);
      case Increment(id) => IncrementKeepsWellFormed(before, id);
      case Decrement(id) => DecrementKeepsWellFormed(before, id);
      case Checkout(reply) =>
    }
  }

  /** In every reachable order the minus button never removes a line: the
      trailing `filter` keeps all of them. */
  lemma MinusNeverRemoves(actions: seq<PosAction>, id: int)
    ensures var lines := Replay(actions);
      Decremented(lines, id) == Lowered(lines, id) && |Decremented(lines, id)| == |lines|
  {
    EveryOrderWellFormed(actions);
    DecrementFilterDropsNothing(Replay(actions), id);
  }

  /** A subtotal of 100 carries a service charge of 10 and a total of 110. */
  lemma ServiceChargeExample(lines: seq<Line>)
    requires Subtotal(lines) == 100.0
    ensures ServiceCharge(lines) == 10.0 && Total(lines) == 110.0
  {
  }

  /** The order panel of the point-of-sale page: `orderItems` and its handlers. */
  class Order {
    var items: seq<Line>

    ghost predicate Valid()
      reads this
    {
      WellFormed(items)
    }

    constructor ()
      ensures Valid() && items == []
    {
      items := [];
    }

    /** `addToOrder`: the order takes the menu item as `WithItem` describes. */
    method AddToOrder(item: Item)
      requires Valid()
      modifies this
      ensures Valid() && HasLine(items, item.id)
      ensures items == WithItem(old(items), item)
    {
      AddKeepsWellFormed(items, item);
      items := AddLine(items, item);
    }

    /** `incrementQuantity`: one more unit on the line for `id`. */
    method IncrementQuantity(id: int)
      requires Valid()
      modifies this
      ensures Valid()
      ensures items == Incremented(old(items), id)
    {
      IncrementKeepsWellFormed(items, id);
      items := RunMap(items, IncrementIf(id));
    }

    /** `decrementQuantity`: the `map` loop, then the `filter` loop; no line is removed. */
    method DecrementQuantity(id: int)
      requires Valid()
      modifies this
      ensures Valid() && |items| == |old(items)|
      ensures items == Decremented(old(items), id)
    {
      DecrementKeepsWellFormed(items, id);
      DecrementFilterDropsNothing(items, id);
      var lowered := RunMap(items, DecrementIf(id));
      items := RunFilter(lowered, HoldsUnit);
    }

    /** `handleCheckout`, with the store's answer to the insert as `reply`. An
        empty order is refused before any write; otherwise the record for the
        current total is written, and the order is cleared only if the store
        accepted it. */
    method HandleCheckout(reply: StoreReply) returns (outcome: CheckoutOutcome)
      requires Valid()
      modifies this
      ensures Valid()
      ensures items == AfterCheckout(old(items), reply)
      ensures old(items) == [] ==> outcome == NothingToCheckout && items == old(items)
      ensures old(items) != [] && reply == Inserted ==> outcome == Completed(CheckoutRecord(old(items))) && items == []
      ensures old(items) != [] && reply == InsertFailed ==> outcome == Failed(CheckoutRecord(old(items))) && items == old(items)
    {
      if |items| == 0 {
        return NothingToCheckout;
      }
      var record := CheckoutRecord(items);
      if reply == InsertFailed {
        return Failed(record);
      }
      items := [];
      outcome := Completed(record);
    }
  }
}

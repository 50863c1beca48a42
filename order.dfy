/**
 * The order document: its pre-save hook (order number, per-item profit, total cost
 * and profit), `calculateTotal` and the append-only status history.
 */
module OrderModel {
  import opened Common

  datatype OrderStatus = Pending | Confirmed | Processing | Shipped | Delivered | Completed | Cancelled | Refunded

  /** A line of an order; `cost` is optional in the schema. */
  datatype OrderItem = OrderItem(product: ProductId, name: string, price: int, cost: Option<int>,
                                 quantity: int, subtotal: int, profit: int)

  datatype StatusEntry = StatusEntry(status: OrderStatus, note: string, changedBy: UserId, changedAt: int)

  /** `item.cost || 0`. */
  function CostOrZero(item: OrderItem): int
  {
    if item.cost.Some? then item.cost.value else 0
  }

  /** `(item.price - (item.cost || 0)) * item.quantity`. */
  function ItemProfit(item: OrderItem): int
  {
    (item.price - CostOrZero(item)) * item.quantity
  }

  /** `items.reduce((sum, item) => sum + item.subtotal, 0)`. */
  function SumSubtotals(items: seq<OrderItem>): int
  {
    if items == [] then 0 else SumSubtotals(items[..|items| - 1]) + items[|items| - 1].subtotal
  }

  /** The cost the pre-save loop accumulates: Σ (cost or 0) × quantity. */
  function TotalCost(items: seq<OrderItem>): int
  {
    if items == [] then 0 else TotalCost(items[..|items| - 1]) + CostOrZero(items[|items| - 1]) * items[|items| - 1].quantity
  }

  /** Σ price × quantity: what the items sell for. */
  function Revenue(items: seq<OrderItem>): int
  {
    if items == [] then 0 else Revenue(items[..|items| - 1]) + items[|items| - 1].price * items[|items| - 1].quantity
  }

  function SumProfits(items: seq<OrderItem>): int
  {
    if items == [] then 0 else SumProfits(items[..|items| - 1]) + items[|items| - 1].profit
  }

  /** The items after the pre-save loop: each one's profit set, nothing else touched. */
  function WithProfits(items: seq<OrderItem>): (r: seq<OrderItem>)
    ensures |r| == |items|
    ensures forall i :: 0 <= i < |items| ==> r[i] == items[i].(profit := ItemProfit(items[i]))
  {
    if items == [] then [] else
      var last := items[|items| - 1];
      WithProfits(items[..|items| - 1]) + [last.(profit := ItemProfit(last))]
  }

  /** The running cost after one more item. */
  lemma TotalCostStep(items: seq<OrderItem>, i: nat)
    requires i < |items|
    ensures TotalCost(items[..i + 1]) == TotalCost(items[..i]) + CostOrZero(items[i]) * items[i].quantity
  {
    assert items[..i + 1][..i] == items[..i];
  }

  /**
   * The pre-save loop over the items: each item gets its profit and the costs are
   * summed, one item at a time.
   */
  method ProfitPass(items: seq<OrderItem>) returns (its: seq<OrderItem>, cost: int)
    ensures its == WithProfits(items)
    ensures cost == TotalCost(items)
  {
    its, cost := items, 0;
    var i := 0;
    while i < |its|
      invariant 0 <= i <= |its| == |items|
      invariant forall k :: 0 <= k < i ==> its[k] == items[k].(profit := ItemProfit(items[k]))
      invariant forall k :: i <= k < |its| ==> its[k] == items[k]
      invariant cost == TotalCost(items[..i])
    {
      var item := its[i];
      TotalCostStep(items, i);
      its := its[i := item.(profit := ItemProfit(item))];
      cost := cost + CostOrZero(item) * item.quantity;
      i := i + 1;
    }
    assert items[..|its|] == items;
    assert its == WithProfits(items);
  }

  // ---------------------------------------------------------------- order number

  /** `padStart(3, '0')`. */
  function PadStart3(s: string): (r: string)
    ensures |s| < 3 ==> |r| == 3 && r == seq(3 - |s|, _ => '0') + s
    ensures |s| >= 3 ==> r == s
    decreases 3 - |s|
  {
    if |s| < 3 then
      var r := PadStart3("0" + s);
      assert seq(3 - |s| - 1, _ => '0') + ("0" + s) == seq(3 - |s|, _ => '0') + s;
      r
    else s
  }

  /** `ORD-<timestamp>-<random padded to three digits>`. */
  function OrderNumber(timestamp: nat, random: nat): string
    requires random < 1000
  {
    "ORD-" + NatToDecimal(timestamp) + "-" + PadStart3(NatToDecimal(random))
  }

  lemma {:induction false} LeadingZero(s: string)
    requires AllDigits(s)
    ensures AllDigits("0" + s) && DecimalValue("0" + s) == DecimalValue(s)
  {
    if s != [] {
      var init := s[..|s| - 1];
      LeadingZero(init);
      assert ("0" + s)[..|"0" + s| - 1] == "0" + init;
    }
  }

  lemma {:induction false} PadStart3Value(s: string)
    requires AllDigits(s)
    ensures AllDigits(PadStart3(s)) && DecimalValue(PadStart3(s)) == DecimalValue(s)
    decreases 3 - |s|
  {
    if |s| < 3 {
      LeadingZero(s);
      PadStart3Value("0" + s);
    }
  }

  lemma {:induction false} SmallDecimal(n: nat)
    requires n < 1000
    ensures |NatToDecimal(n)| <= 3
  {
    if n >= 10 {
      SmallDecimal(n / 10);
    }
  }

  /**
   * An order number is `ORD-`, the timestamp's digits, `-` and exactly three digits,
   * and both numbers read back from it.
   */
  lemma OrderNumberReadsBack(timestamp: nat, random: nat)
    requires random < 1000
    ensures var o := OrderNumber(timestamp, random);
      var t := NatToDecimal(timestamp);
      |o| == 4 + |t| + 4 && o[..4] == "ORD-" && o[4 + |t|] == '-'
      && AllDigits(o[4..4 + |t|]) && AllDigits(o[|o| - 3..])
      && DecimalValue(o[4..4 + |t|]) == timestamp && DecimalValue(o[|o| - 3..]) == random
  {
    var t := NatToDecimal(timestamp);
    var p := PadStart3(NatToDecimal(random));
    SmallDecimal(random);
    PadStart3Value(NatToDecimal(random));
    DecimalRoundTrip(timestamp);
    DecimalRoundTrip(random);
    FourPartSlices("ORD-", t, "-", p);
  }

  /** The parts of `a + t + b + p` read back by position. */
  lemma FourPartSlices(a: string, t: string, b: string, p: string)
    requires |b| == 1
    ensures var o := a + t + b + p;
      |o| == |a| + |t| + 1 + |p| && o[..|a|] == a && o[|a|..|a| + |t|] == t
      && o[|a| + |t|] == b[0] && o[|o| - |p|..] == p
  {
    var o := a + t + b + p;
    assert o[..|a|] == a;
    assert o[|a|..|a| + |t|] == t;
    assert o[|o| - |p|..] == p;
  }

  /** The number the pre-save hook leaves on an order: the stored one, else a generated one. */
  function HookNumber(orderNumber: string, now: nat, random: nat): (r: string)
    requires random < 1000
    ensures r != ""
    ensures orderNumber != "" ==> r == orderNumber
    ensures orderNumber == "" ==> StartsWith(r, "ORD-")
  {
    if orderNumber == "" then OrderNumber(now, random) else orderNumber
  }

  /**
   * The number `Order.create(body)` stores as the source is written, `None` for its 500:
   * Mongoose validates before it runs the pre-save hooks, and `orderNumber` is
   * `required`, so a body without a number fails validation before the hook can
   * generate one; a body with a number keeps it.
   */
  function CreatedNumberAsWritten(bodyNumber: string, now: nat, random: nat): (r: Option<string>)
    requires random < 1000
    ensures r.Some? <==> bodyNumber != ""
    ensures r.Some? ==> r.value == bodyNumber
  {
    if bodyNumber == "" then None else Some(HookNumber(bodyNumber, now, random))
  }

  /**
   * The evident intent: the number is generated before validation (in a `pre('validate')`
   * hook), so every created order carries one, generated exactly when the body has none.
   */
  function CreatedNumber(bodyNumber: string, now: nat, random: nat): (r: Option<string>)
    requires random < 1000
    ensures r.Some? && r.value != ""
    ensures bodyNumber != "" ==> r.value == bodyNumber
    ensures bodyNumber == "" ==> r.value == OrderNumber(now, random)
  {
    var n := HookNumber(bodyNumber, now, random);
    if n == "" then None else Some(n)
  }

  /**
   * As written, no body without a number is ever stored, so the generator is dead code
   * on create; with the number generated first, the same body is stored under a fresh
   * `ORD-` number.
   */
  lemma GeneratorUnreachableOnCreate(now: nat, random: nat)
    requires random < 1000
    ensures CreatedNumberAsWritten("", now, random).None?
    ensures CreatedNumber("", now, random) == Some(OrderNumber(now, random))
    ensures StartsWith(CreatedNumber("", now, random).value, "ORD-")
  {
    assert HookNumber("", now, random) == OrderNumber(now, random);
  }

  /** Different timestamps or random parts give different order numbers. */
  lemma OrderNumberInjective(t1: nat, r1: nat, t2: nat, r2: nat)
    requires r1 < 1000 && r2 < 1000
    requires OrderNumber(t1, r1) == OrderNumber(t2, r2)
    ensures t1 == t2 && r1 == r2
  {
    OrderNumberReadsBack(t1, r1);
    OrderNumberReadsBack(t2, r2);
    var o := OrderNumber(t1, r1);
    var n1, n2 := |NatToDecimal(t1)|, |NatToDecimal(t2)|;
    assert n1 == n2;
  }

  // ---------------------------------------------------------------- fold laws

  lemma {:induction false} SumSubtotalsAppend(a: seq<OrderItem>, b: seq<OrderItem>)
    ensures SumSubtotals(a + b) == SumSubtotals(a) + SumSubtotals(b)
  {
    if b == [] {
      assert a + b == a;
    } else {
      assert (a + b)[..|a + b| - 1] == a + b[..|b| - 1];
      SumSubtotalsAppend(a, b[..|b| - 1]);
    }
  }

  /** The item profits written by the pre-save loop add up to revenue minus total cost. */
  lemma {:induction false} ProfitsAddUp(items: seq<OrderItem>)
    ensures SumProfits(WithProfits(items)) == Revenue(items) - TotalCost(items)
  {
    if items != [] {
      var init := items[..|items| - 1];
      ProfitsAddUp(init);
      var w := WithProfits(items);
      assert w[..|w| - 1] == WithProfits(init);
    }
  }

  // ---------------------------------------------------------------- the document

  class Order {
    var orderNumber: string
    var items: seq<OrderItem>
    var subtotal: int
    var shipping: int
    var tax: int
    var discount: int
    var total: int
    var totalCost: int
    var totalProfit: int
    var status: OrderStatus
    var statusHistory: seq<StatusEntry>

    /** A new order with the schema defaults: no number yet, status `pending`, empty history. */
    constructor(items: seq<OrderItem>, subtotal: int, shipping: int, tax: int, discount: int, total: int)
      ensures this.orderNumber == "" && this.items == items && this.subtotal == subtotal
      ensures this.shipping == shipping && this.tax == tax && this.discount == discount && this.total == total
      ensures totalCost == 0 && totalProfit == 0 && status == Pending && statusHistory == []
    {
      orderNumber := "";
      this.items := items;
      this.subtotal := subtotal;
      this.shipping := shipping;
      this.tax := tax;
      this.discount := discount;
      this.total := total;
      totalCost := 0;
      totalProfit := 0;
      status := Pending;
      statusHistory := [];
    }

    /**
     * `calculateTotal()`: the subtotal becomes the sum of item subtotals and the total
     * subtotal + shipping + tax − discount, which is returned.
     */
    method CalculateTotal() returns (t: int)
      modifies this
      ensures subtotal == SumSubtotals(items) && total == subtotal + shipping + tax - discount && t == total
      ensures items == old(items) && shipping == old(shipping) && tax == old(tax) && discount == old(discount)
      ensures orderNumber == old(orderNumber) && totalCost == old(totalCost) && totalProfit == old(totalProfit)
      ensures status == old(status) && statusHistory == old(statusHistory)
    {
      var sum := 0;
      var i := 0;
      while i < |items|
        invariant 0 <= i <= |items|
        invariant sum == SumSubtotals(items[..i])
      {
        assert items[..i + 1][..i] == items[..i];
        sum := sum + items[i].subtotal;
        i := i + 1;
      }
      assert items[..|items|] == items;
      subtotal := sum;
      total := sum + shipping + tax - discount;
      t := total;
    }

    /**
     * The pre-save hook: an order number when there is none (`now` is the clock,
     * `random` the value of `Math.floor(Math.random() * 1000)`), then each item's
     * profit, the total cost, and the total profit net of shipping.
     */
    method PreSave(now: nat, random: nat)
      requires random < 1000
      modifies this
      ensures orderNumber == HookNumber(old(orderNumber), now, random)
      ensures items == WithProfits(old(items))
      ensures totalCost == TotalCost(old(items))
      ensures totalProfit == total - totalCost - shipping
      ensures subtotal == old(subtotal) && shipping == old(shipping) && tax == old(tax)
      ensures discount == old(discount) && total == old(total)
      ensures status == old(status) && statusHistory == old(statusHistory)
    {
      var its, cost := ProfitPass(items);
      // The hook numbers the order first; no later step reads the number, so the order of
      // the writes is immaterial.
      orderNumber := HookNumber(orderNumber, now, random);
      items := its;
      totalCost := cost;
      totalProfit := total - cost - shipping;
    }

    /** `addStatusHistory(status, note, userId)` at time `now`. */
    method AddStatusHistory(newStatus: OrderStatus, note: string, userId: UserId, now: int)
      modifies this
      ensures statusHistory == old(statusHistory) + [StatusEntry(newStatus, note, userId, now)]
      ensures status == newStatus
      ensures orderNumber == old(orderNumber) && items == old(items) && subtotal == old(subtotal)
      ensures shipping == old(shipping) && tax == old(tax) && discount == old(discount) && total == old(total)
      ensures totalCost == old(totalCost) && totalProfit == old(totalProfit)
    {
      statusHistory := statusHistory + [StatusEntry(newStatus, note, userId, now)];
      status := newStatus;
    }
  }

  /**
   * When the stored total is revenue plus shipping (no tax or discount), the total
   * profit the pre-save hook records is exactly the sum of the item profits it wrote.
   */
  lemma TotalProfitIsItemProfits(items: seq<OrderItem>, shipping: int, total: int)
    requires total == Revenue(items) + shipping
    ensures total - TotalCost(items) - shipping == SumProfits(WithProfits(items))
  {
    ProfitsAddUp(items);
  }
}

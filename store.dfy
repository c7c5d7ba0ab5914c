/** The relational tables the handlers read and write: stock-keeping units
    (GoodsSKU), order headers (OrderInfo), order lines (OrderGoods) and
    delivery addresses. Money is an integer number of cents. */
module Store {
  import opened Common

  type SkuId = nat
  type UserId = nat
  type AddrId = nat

  /** A GoodsSKU row: unit price, available stock and cumulative sales. */
  datatype Sku = Sku(price: int, stock: int, sales: int)

  /** An OrderInfo row, keyed by its order id. */
  datatype OrderInfo = OrderInfo(
    user: UserId,
    addr: AddrId,
    payMethod: string,
    totalCount: int,
    totalPrice: int,
    transitPrice: int,
    status: int,
    tradeNo: string)

  /** An OrderGoods row: the order it belongs to, the unit bought, the count
      and the unit price copied at the time of purchase. */
  datatype OrderLine = OrderLine(order: string, sku: SkuId, count: int, price: int, comment: string)

  /** An Address row; its id is its position in the address table. */
  datatype Address = Address(
    user: UserId,
    receiver: string,
    addr: string,
    zipCode: string,
    phone: string,
    isDefault: bool)

  /** The part of the store a checkout writes, and so the part a savepoint
      captures and a rollback restores. */
  datatype Tables = Tables(skus: map<SkuId, Sku>, orders: map<string, OrderInfo>, lines: seq<OrderLine>)

  /** The order statuses the handlers set. */
  const StatusUnpaid := 1
  const StatusAwaitingReview := 4
  const StatusCompleted := 5

  /** The fixed shipping fee (10 yuan), in the same unit as prices. */
  const TransitPrice := 10

  function Amount(l: OrderLine): int
  {
    l.price * l.count
  }

  /** The number of items over a list of order lines. */
  function CountOf(lines: seq<OrderLine>): int
    decreases |lines|
  {
    if lines == [] then 0 else CountOf(lines[..|lines| - 1]) + lines[|lines| - 1].count
  }

  /** The money over a list of order lines, each line's price times its count. */
  function PriceOf(lines: seq<OrderLine>): int
    decreases |lines|
  {
    if lines == [] then 0 else PriceOf(lines[..|lines| - 1]) + Amount(lines[|lines| - 1])
  }

  lemma TotalsSnoc(lines: seq<OrderLine>, l: OrderLine)
    ensures CountOf(lines + [l]) == CountOf(lines) + l.count
    ensures PriceOf(lines + [l]) == PriceOf(lines) + Amount(l)
  {
    assert (lines + [l])[..|lines|] == lines;
  }

  lemma {:induction false} TotalsAppend(a: seq<OrderLine>, b: seq<OrderLine>)
    ensures CountOf(a + b) == CountOf(a) + CountOf(b)
    ensures PriceOf(a + b) == PriceOf(a) + PriceOf(b)
    decreases |b|
  {
    if b == [] {
      assert a + b == a;
    } else {
      var b' := b[..|b| - 1];
      assert (a + b)[..|a + b| - 1] == a + b';
      assert b[..|b| - 1] == b';
      TotalsAppend(a, b');
    }
  }

  /** The database: the three tables of Tables plus the address table. */
  class Database {
    var skus: map<SkuId, Sku>
    var orders: map<string, OrderInfo>
    var lines: seq<OrderLine>
    var addresses: seq<Address>

    constructor (skus: map<SkuId, Sku>, orders: map<string, OrderInfo>, lines: seq<OrderLine>, addresses: seq<Address>)
      ensures this.skus == skus && this.orders == orders && this.lines == lines && this.addresses == addresses
    {
      this.skus := skus;
      this.orders := orders;
      this.lines := lines;
      this.addresses := addresses;
    }

    /** transaction.savepoint(): the current contents of the written tables. */
    function Snapshot(): Tables
      reads this
    {
      Tables(skus, orders, lines)
    }

    /** transaction.savepoint_rollback(): every write since the savepoint is undone. */
    method RollbackTo(sp: Tables)
      modifies this
      ensures Snapshot() == sp && addresses == old(addresses)
    {
      skus, orders, lines := sp.skus, sp.orders, sp.lines;
    }
  }
}

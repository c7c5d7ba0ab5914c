/** Checkout: the order-page preview and the two order-commit handlers, one
    that locks each unit's row before reading it (pessimistic) and one that
    updates stock with a compare-and-swap retried up to three times
    (optimistic).

    Both commit handlers run inside one transaction with a savepoint taken
    before the order header is inserted. The model keeps the handlers as
    written, including two branches that roll back to the savepoint and then
    carry on instead of returning. The loop functions take a flag `strict`:
    false is the code as written, true is the evidently intended behaviour
    (return after the rollback), and the lemmas at the end compare the two. */
module Checkout {
  import opened Common
  import opened Store
  import opened Cart

  // ---------------------------------------------------------------------------
  // Requests, answers and the state a commit threads through its loop
  // ---------------------------------------------------------------------------

  /** The "res" codes of the commit handlers. UnderStocked (6) is built by the
      code as written but never returned; Contended is what the intended code
      answers when three compare-and-swap attempts fail, given the generic
      failure code 4 because the source has no code of its own for it. */
  datatype CommitRes =
    | NotLoggedIn
    | Incomplete
    | UnknownPayMethod
    | UnknownSku
    | Failed
    | Placed
    | UnderStocked
    | UnknownAddress
    | Contended
  {
    function Code(): nat
    {
      match this
      case NotLoggedIn => 0
      case Incomplete => 1
      case UnknownPayMethod => 2
      case UnknownSku => 3
      case Failed => 4
      case Placed => 5
      case UnderStocked => 6
      case UnknownAddress => 7
      case Contended => 4
    }
  }

  /** The form of a commit: an empty addr_id is None, an empty pay_method is
      "", an empty sku_ids is [] (otherwise it is already split at commas);
      timestamp is the formatted current time the order id starts with. */
  datatype CommitRequest = CommitRequest(
    authenticated: bool,
    user: UserId,
    addrId: Option<AddrId>,
    payMethod: string,
    skuIds: seq<SkuId>,
    timestamp: string)

  /** Whether the database checks the order-line foreign key at each insert
      (MySQL InnoDB) or at the end of the transaction (the deferred constraints
      Django creates on PostgreSQL). It matters only after a rollback has
      removed the header row. */
  datatype FkCheck = Immediate | Deferred

  /** The loop's state: the tables, the running totals, and the answer once a
      branch has returned. */
  datatype Run = Run(t: Tables, totalCount: int, totalPrice: int, stop: Option<CommitRes>)

  /** What a commit leaves behind: the answer, the tables and the cart. */
  datatype Outcome = Outcome(res: CommitRes, t: Tables, cart: map<SkuId, int>)

  /** The checks made before anything is written, in their order: login (0),
      missing field (1), pay method not a key of the pay-method table (2),
      address id without a row (7). The address is looked up by id alone. */
  function Validate(req: CommitRequest, addresses: seq<Address>, payMethods: set<string>): (r: Option<CommitRes>)
    ensures r.None? <==>
      req.authenticated && req.addrId.Some? && req.payMethod != "" && req.skuIds != [] &&
      req.payMethod in payMethods && req.addrId.value < |addresses|
    ensures r == Some(NotLoggedIn) <==> !req.authenticated
    ensures r == Some(Incomplete) <==>
      req.authenticated && (req.addrId.None? || req.payMethod == "" || req.skuIds == [])
    ensures r == Some(UnknownPayMethod) <==>
      req.authenticated && req.addrId.Some? && req.payMethod != "" && req.skuIds != [] &&
      req.payMethod !in payMethods
    ensures r == Some(UnknownAddress) <==>
      req.authenticated && req.addrId.Some? && req.payMethod != "" && req.skuIds != [] &&
      req.payMethod in payMethods && req.addrId.value >= |addresses|
    ensures r.Some? ==> r.value in {NotLoggedIn, Incomplete, UnknownPayMethod, UnknownAddress}
  {
    if !req.authenticated then Some(NotLoggedIn)
    else if req.addrId.None? || req.payMethod == "" || req.skuIds == [] then Some(Incomplete)
    else if req.payMethod !in payMethods then Some(UnknownPayMethod)
    else if req.addrId.value >= |addresses| then Some(UnknownAddress)
    else None
  }

  /** The order id: the timestamp followed by the user id in decimal. */
  function OrderId(req: CommitRequest): string
  {
    req.timestamp + DecimalString(req.user)
  }

  /** The header as first inserted: zero totals, the fixed shipping fee,
      status unpaid and no gateway trade number. */
  function Header(req: CommitRequest): OrderInfo
    requires req.addrId.Some?
  {
    OrderInfo(req.user, req.addrId.value, req.payMethod, 0, 0, TransitPrice, StatusUnpaid, "")
  }

  /** The answers a commit loop can return early with. */
  function LockedRefusals(strict: bool): set<CommitRes>
  {
    if strict then {UnknownSku, Failed, UnderStocked} else {UnknownSku, Failed}
  }

  function CasRefusals(strict: bool): set<CommitRes>
  {
    if strict then {UnknownSku, Failed, UnderStocked, Contended} else {UnknownSku, Failed}
  }

  /** Return `res` after rolling back to the savepoint. */
  function Abort(r: Run, sp: Tables, res: CommitRes): Run
  {
    Run(sp, r.totalCount, r.totalPrice, Some(res))
  }

  function AddLine(t: Tables, oid: string, id: SkuId, count: int, price: int): Tables
  {
    t.(lines := t.lines + [OrderLine(oid, id, count, price, "")])
  }

  // ---------------------------------------------------------------------------
  // Order page (OrderPlaceView)
  // ---------------------------------------------------------------------------

  /** A unit as the order page lists it: unit price, cart count and subtotal. */
  datatype Item = Item(sku: SkuId, price: int, count: int, amount: int)

  /** The order page: back to the cart when nothing was selected, a server
      error when a selected unit is unknown or missing from the cart (the
      handler does not catch those exceptions), otherwise the listing. */
  datatype Preview =
    | BackToCart
    | ServerError
    | Shown(items: seq<Item>, totalCount: int, totalPrice: int, transitPrice: int, totalPay: int)

  /** Every selected unit is in the catalogue and in the cart. */
  predicate Covered(ids: seq<SkuId>, skus: map<SkuId, Sku>, cart: map<SkuId, int>)
  {
    forall i :: 0 <= i < |ids| ==> ids[i] in skus && ids[i] in cart
  }

  /** The listing: each selected unit with its price, its cart count and
      their product. */
  function PreviewItems(ids: seq<SkuId>, skus: map<SkuId, Sku>, cart: map<SkuId, int>): seq<Item>
    requires Covered(ids, skus, cart)
  {
    seq(|ids|, i requires 0 <= i < |ids| && Covered(ids, skus, cart) =>
      Item(ids[i], skus[ids[i]].price, cart[ids[i]], skus[ids[i]].price * cart[ids[i]]))
  }

  function ItemsCount(items: seq<Item>): int
    decreases |items|
  {
    if items == [] then 0 else ItemsCount(items[..|items| - 1]) + items[|items| - 1].count
  }

  function ItemsPrice(items: seq<Item>): int
    decreases |items|
  {
    if items == [] then 0 else ItemsPrice(items[..|items| - 1]) + items[|items| - 1].amount
  }

  /** OrderPlaceView.post: list the selected units with their subtotals, the
      total count, the total price and the amount to pay including the fixed
      shipping fee. */
  method PlaceOrder(ids: seq<SkuId>, skus: map<SkuId, Sku>, cart: map<SkuId, int>) returns (p: Preview)
    ensures ids == [] ==> p == BackToCart
    ensures ids != [] && !Covered(ids, skus, cart) ==> p == ServerError
    ensures ids != [] && Covered(ids, skus, cart) ==>
      var items := PreviewItems(ids, skus, cart);
      p == Shown(items, ItemsCount(items), ItemsPrice(items), TransitPrice, TransitPrice + ItemsPrice(items))
  {
    if ids == [] {
      return BackToCart;
    }
    var items: seq<Item> := [];
    var totalCount, totalPrice := 0, 0;
    var i := 0;
    while i < |ids|
      invariant 0 <= i <= |ids|
      invariant Covered(ids[..i], skus, cart)
      invariant items == PreviewItems(ids[..i], skus, cart)
      invariant totalCount == ItemsCount(items) && totalPrice == ItemsPrice(items)
    {
      var id := ids[i];
      if id !in skus || id !in cart {
        return ServerError;
      }
      var price, count := skus[id].price, cart[id];
      var amount := price * count;
      assert ids[..i + 1] == ids[..i] + [id];
      items := items + [Item(id, price, count, amount)];
      assert items[..|items| - 1] == PreviewItems(ids[..i], skus, cart);
      totalCount := totalCount + count;
      totalPrice := totalPrice + amount;
      i := i + 1;
    }
    assert ids[..i] == ids;
    var transitPrice := TransitPrice;
    p := Shown(items, totalCount, totalPrice, transitPrice, transitPrice + totalPrice);
  }

  // ---------------------------------------------------------------------------
  // Pessimistic commit (OrderCommitView)
  // ---------------------------------------------------------------------------

  /** One pass of the loop body for unit `id`: read the (locked) row, read the
      cart count, check the stock, insert the line, write the row back with
      stock lowered and sales raised by the count, add to the totals. As
      written (strict false), a shortfall rolls back and carries on with the
      values read before the rollback. */
  function LockedStep(r: Run, sp: Tables, cart: map<SkuId, int>, oid: string, id: SkuId, fk: FkCheck, strict: bool): Run
  {
    if id !in r.t.skus then Abort(r, sp, UnknownSku)
    else if id !in cart then Abort(r, sp, Failed)
    else
      var sku, count := r.t.skus[id], cart[id];
      if count > sku.stock && strict then Abort(r, sp, UnderStocked)
      else
        var t1 := if count > sku.stock then sp else r.t;
        if fk == Immediate && oid !in t1.orders then Abort(r, sp, Failed)
        else
          var t2 := AddLine(t1, oid, id, count, sku.price);
          var t3 := t2.(skus := t2.skus[id := Sku(sku.price, sku.stock - count, sku.sales + count)]);
          Run(t3, r.totalCount + count, r.totalPrice + sku.price * count, None)
  }

  /** The loop over the units; once a branch has returned, nothing more
      happens, and every early return leaves the tables as at the savepoint. */
  function LockedLoop(r: Run, sp: Tables, cart: map<SkuId, int>, oid: string, ids: seq<SkuId>, fk: FkCheck, strict: bool): Run
    decreases |ids|
  {
    if r.stop.Some? || ids == [] then r
    else LockedLoop(LockedStep(r, sp, cart, oid, ids[0], fk, strict), sp, cart, oid, ids[1..], fk, strict)
  }

  /** After the loop: an early return keeps its answer; otherwise the header
      gets the totals (saving it re-inserts it if a rollback removed it), the
      transaction commits, and only then are the units deleted from the cart. */
  function Close(cart: map<SkuId, int>, req: CommitRequest, r: Run): Outcome
    requires req.addrId.Some?
  {
    if r.stop.Some? then Outcome(r.stop.value, r.t, cart)
    else
      var header := Header(req).(totalCount := r.totalCount, totalPrice := r.totalPrice);
      Outcome(Placed, r.t.(orders := r.t.orders[OrderId(req) := header]), RemoveUnits(cart, req.skuIds))
  }

  /** OrderCommitView.post as a function of the tables, the address table, the
      cart and the request. Validation precedes every write; whatever the
      answer other than success, the tables and the cart are as before
      (CommitAtomic). */
  function LockedCommit(t: Tables, addresses: seq<Address>, cart: map<SkuId, int>, payMethods: set<string>,
                        req: CommitRequest, fk: FkCheck, strict: bool): Outcome
  {
    match Validate(req, addresses, payMethods)
    case Some(e) => Outcome(e, t, cart)
    case None =>
      var oid := OrderId(req);
      if oid in t.orders then Outcome(Failed, t, cart)
      else
        var start := Run(t.(orders := t.orders[oid := Header(req)]), 0, 0, None);
        Close(cart, req, LockedLoop(start, t, cart, oid, req.skuIds, fk, strict))
  }

  /** With a valid request and a fresh order id, the commit is the loop run
      from the freshly inserted header, then closed. */
  lemma LockedCommitOpens(t: Tables, addresses: seq<Address>, cart: map<SkuId, int>, payMethods: set<string>,
                          req: CommitRequest, fk: FkCheck, strict: bool)
    requires Validate(req, addresses, payMethods).None? && OrderId(req) !in t.orders
    ensures LockedCommit(t, addresses, cart, payMethods, req, fk, strict)
         == Close(cart, req, LockedLoop(Run(t.(orders := t.orders[OrderId(req) := Header(req)]), 0, 0, None),
                                        t, cart, OrderId(req), req.skuIds, fk, strict))
  {
  }

  /** One pass of the body of the loop of OrderCommitView.post, for unit
      `id`: read the row under the lock and the cart count, then book the
      line and lower the stock; `stop` is the answer when the handler returns
      from inside the loop. */
  method ReserveLocked(db: Database, cart: CartHash, save: Tables, oid: string, id: SkuId,
                       totalCount: int, totalPrice: int, fk: FkCheck)
    returns (stop: Option<CommitRes>, newCount: int, newPrice: int)
    modifies db
    ensures Run(db.Snapshot(), newCount, newPrice, stop)
         == LockedStep(Run(old(db.Snapshot()), totalCount, totalPrice, None), save, cart.entries, oid, id, fk, false)
    ensures db.addresses == old(db.addresses)
  {
    newCount, newPrice := totalCount, totalPrice;
    if id !in db.skus {
      db.RollbackTo(save);
      return Some(UnknownSku), newCount, newPrice;
    }
    var sku := db.skus[id];
    if id !in cart.entries {
      // int(None) raises; the handler's except clause rolls back
      db.RollbackTo(save);
      return Some(Failed), newCount, newPrice;
    }
    var count := cart.entries[id];
    var price := sku.price;
    if count > sku.stock {
      // the "stock insufficient" answer is built but not returned
      db.RollbackTo(save);
    }
    if fk == Immediate && oid !in db.orders {
      db.RollbackTo(save);
      return Some(Failed), newCount, newPrice;
    }
    db.lines := db.lines + [OrderLine(oid, id, count, price, "")];
    db.skus := db.skus[id := Sku(sku.price, sku.stock - count, sku.sales + count)];
    newCount := newCount + count;
    newPrice := newPrice + price * count;
    stop := None;
  }

  /** The loop of OrderCommitView.post over the selected units, from zero
      totals; it ends early when a pass returns. */
  method ReserveAllLocked(db: Database, cart: CartHash, save: Tables, oid: string, ids: seq<SkuId>, fk: FkCheck)
    returns (stop: Option<CommitRes>, totalCount: int, totalPrice: int)
    modifies db
    ensures Run(db.Snapshot(), totalCount, totalPrice, stop)
         == LockedLoop(Run(old(db.Snapshot()), 0, 0, None), save, cart.entries, oid, ids, fk, false)
    ensures db.addresses == old(db.addresses)
  {
    ghost var start := Run(db.Snapshot(), 0, 0, None);
    stop, totalCount, totalPrice := None, 0, 0;
    var i := 0;
    while i < |ids|
      invariant 0 <= i <= |ids|
      invariant db.addresses == old(db.addresses) && stop.None?
      invariant LockedLoop(Run(db.Snapshot(), totalCount, totalPrice, None), save, cart.entries, oid, ids[i..], fk, false)
             == LockedLoop(start, save, cart.entries, oid, ids, fk, false)
    {
      assert ids[i..][0] == ids[i] && ids[i..][1..] == ids[i + 1..];
      stop, totalCount, totalPrice := ReserveLocked(db, cart, save, oid, ids[i], totalCount, totalPrice, fk);
      if stop.Some? {
        return;
      }
      i := i + 1;
    }
    assert ids[i..] == [];
  }

  /** OrderCommitView.post. */
  method CommitLocked(db: Database, cart: CartHash, payMethods: set<string>, req: CommitRequest, fk: FkCheck)
    returns (res: CommitRes)
    modifies db, cart
    ensures Outcome(res, db.Snapshot(), cart.entries)
         == LockedCommit(old(db.Snapshot()), old(db.addresses), old(cart.entries), payMethods, req, fk, false)
    ensures db.addresses == old(db.addresses)
  {
    var invalid := Validate(req, db.addresses, payMethods);
    if invalid.Some? {
      return invalid.value;
    }
    var oid := OrderId(req);
    var order := Header(req);
    var save := db.Snapshot();
    if oid in db.orders {
      // the header insert violates the primary key
      db.RollbackTo(save);
      return Failed;
    }
    LockedCommitOpens(save, db.addresses, cart.entries, payMethods, req, fk, false);
    db.orders := db.orders[oid := order];
    var stop, totalCount, totalPrice := ReserveAllLocked(db, cart, save, oid, req.skuIds, fk);
    if stop.Some? {
      return stop.value;
    }
    db.orders := db.orders[oid := order.(totalCount := totalCount, totalPrice := totalPrice)];
    cart.DeleteAll(req.skuIds);
    return Placed;
  }

  // ---------------------------------------------------------------------------
  // Optimistic commit (OrderCommitViewOPL)
  // ---------------------------------------------------------------------------

  /** A write by a concurrent transaction to the unit's stock, landing between
      this transaction's read and its conditional update; None is no write. */
  function Interfere(t: Tables, id: SkuId, writes: seq<Option<int>>): Tables
  {
    if writes != [] && writes[0].Some? && id in t.skus
    then t.(skus := t.skus[id := t.skus[id].(stock := writes[0].value)])
    else t
  }

  /** Attempt number `attempt` (0, 1 or 2) for unit `id`: read the row and
      the cart count, check the stock, then UPDATE stock and sales WHERE the
      stock still equals the value read. On success insert the line and add
      to the totals; on failure ask for another attempt, except that the third
      failure rolls back and (as written) gives up on the unit. An attempt
      that reaches the update consumes one entry of `writes`. The last
      component says whether to try again. */
  function CasTry(r: Run, sp: Tables, cart: map<SkuId, int>, oid: string, id: SkuId,
                  writes: seq<Option<int>>, attempt: nat, fk: FkCheck, strict: bool): (Run, seq<Option<int>>, bool)
  {
    if id !in r.t.skus then (Abort(r, sp, UnknownSku), writes, false)
    else if id !in cart then (Abort(r, sp, Failed), writes, false)
    else
      var sku, count := r.t.skus[id], cart[id];
      if count > sku.stock && strict then (Abort(r, sp, UnderStocked), writes, false)
      else
        var t1 := if count > sku.stock then sp else r.t;
        var t2 := Interfere(t1, id, writes);
        var rest := if writes == [] then [] else writes[1..];
        if id in t2.skus && t2.skus[id].stock == sku.stock then
          var t3 := t2.(skus := t2.skus[id := t2.skus[id].(stock := sku.stock - count, sales := sku.sales + count)]);
          if fk == Immediate && oid !in t3.orders then (Abort(r, sp, Failed), rest, false)
          else (Run(AddLine(t3, oid, id, count, sku.price), r.totalCount + count, r.totalPrice + sku.price * count, None), rest, false)
        else if attempt == 2 && strict then (Abort(r, sp, Contended), rest, false)
        else if attempt == 2 then (r.(t := sp), rest, false)
        else (r.(t := t2), rest, true)
  }

  /** An attempt consumes the first concurrent write, or none. */
  lemma {:induction false} CasTryConsumes(r: Run, sp: Tables, cart: map<SkuId, int>, oid: string, id: SkuId,
                                          writes: seq<Option<int>>, attempt: nat, fk: FkCheck, strict: bool)
    ensures var rest := CasTry(r, sp, cart, oid, id, writes, attempt, fk, strict).1;
      rest == writes || (writes != [] && rest == writes[1..])
  {
    if id in r.t.skus && id in cart && !(cart[id] > r.t.skus[id].stock && strict) {
      assert CasTry(r, sp, cart, oid, id, writes, attempt, fk, strict).1 == if writes == [] then [] else writes[1..];
    }
  }

  /** A suffix of what is left after at most one write is consumed is a
      suffix of the writes. */
  lemma {:induction false} SuffixAfterConsumed(writes: seq<Option<int>>, rest: seq<Option<int>>, tail: seq<Option<int>>)
    requires rest == writes || (writes != [] && rest == writes[1..])
    requires |tail| <= |rest| && tail == rest[|rest| - |tail|..]
    ensures |tail| <= |writes| && tail == writes[|writes| - |tail|..]
  {
    if rest != writes {
      assert writes[1..][|rest| - |tail|..] == writes[|writes| - |tail|..];
    }
  }

  /** The attempts from `attempt` on, at most three in all, each consuming at
      most one concurrent write. */
  function CasAttempt(r: Run, sp: Tables, cart: map<SkuId, int>, oid: string, id: SkuId,
                      writes: seq<Option<int>>, attempt: nat, fk: FkCheck, strict: bool): (res: (Run, seq<Option<int>>))
    requires attempt <= 2
    ensures |res.1| <= |writes| && res.1 == writes[|writes| - |res.1|..]
    ensures |writes| - |res.1| <= 3 - attempt
    decreases 2 - attempt
  {
    var (r', rest, again) := CasTry(r, sp, cart, oid, id, writes, attempt, fk, strict);
    CasTryConsumes(r, sp, cart, oid, id, writes, attempt, fk, strict);
    if again && attempt < 2 then
      var res := CasAttempt(r', sp, cart, oid, id, rest, attempt + 1, fk, strict);
      SuffixAfterConsumed(writes, rest, res.1);
      res
    else (r', rest)
  }

  function CasLoop(r: Run, sp: Tables, cart: map<SkuId, int>, oid: string, ids: seq<SkuId>,
                   writes: seq<Option<int>>, fk: FkCheck, strict: bool): Run
    decreases |ids|
  {
    if r.stop.Some? || ids == [] then r
    else
      var (r', rest) := CasAttempt(r, sp, cart, oid, ids[0], writes, 0, fk, strict);
      CasLoop(r', sp, cart, oid, ids[1..], rest, fk, strict)
  }

  /** One unit's attempts, then the rest of the loop with the writes they
      left. */
  lemma CasLoopStep(r: Run, sp: Tables, cart: map<SkuId, int>, oid: string, ids: seq<SkuId>,
                    writes: seq<Option<int>>, fk: FkCheck, strict: bool)
    requires r.stop.None? && ids != []
    ensures var (r', rest) := CasAttempt(r, sp, cart, oid, ids[0], writes, 0, fk, strict);
      CasLoop(r, sp, cart, oid, ids, writes, fk, strict) == CasLoop(r', sp, cart, oid, ids[1..], rest, fk, strict)
  {
  }

  /** OrderCommitViewOPL.post as a function. */
  function CasCommit(t: Tables, addresses: seq<Address>, cart: map<SkuId, int>, payMethods: set<string>,
                     req: CommitRequest, writes: seq<Option<int>>, fk: FkCheck, strict: bool): Outcome
  {
    match Validate(req, addresses, payMethods)
    case Some(e) => Outcome(e, t, cart)
    case None =>
      var oid := OrderId(req);
      if oid in t.orders then Outcome(Failed, t, cart)
      else
        var start := Run(t.(orders := t.orders[oid := Header(req)]), 0, 0, None);
        Close(cart, req, CasLoop(start, t, cart, oid, req.skuIds, writes, fk, strict))
  }

  /** With a valid request and a fresh order id, the commit is the loop run
      from the freshly inserted header, then closed. */
  lemma CasCommitOpens(t: Tables, addresses: seq<Address>, cart: map<SkuId, int>, payMethods: set<string>,
                       req: CommitRequest, writes: seq<Option<int>>, fk: FkCheck, strict: bool)
    requires Validate(req, addresses, payMethods).None? && OrderId(req) !in t.orders
    ensures CasCommit(t, addresses, cart, payMethods, req, writes, fk, strict)
         == Close(cart, req, CasLoop(Run(t.(orders := t.orders[OrderId(req) := Header(req)]), 0, 0, None),
                                     t, cart, OrderId(req), req.skuIds, writes, fk, strict))
  {
  }

  /** One pass of the body of the `for i in range(3)` loop of
      OrderCommitViewOPL.post; `stop` is the answer when the handler returns
      from inside it, `again` says whether the loop goes round once more. */
  method TryReserve(db: Database, cart: CartHash, save: Tables, oid: string, id: SkuId, writes: seq<Option<int>>,
                    attempt: nat, totalCount: int, totalPrice: int, fk: FkCheck)
    returns (stop: Option<CommitRes>, pending: seq<Option<int>>, newCount: int, newPrice: int, again: bool)
    modifies db
    ensures (Run(db.Snapshot(), newCount, newPrice, stop), pending, again)
         == CasTry(Run(old(db.Snapshot()), totalCount, totalPrice, None), save, cart.entries, oid, id, writes, attempt, fk, false)
    ensures db.addresses == old(db.addresses)
  {
    pending, newCount, newPrice, again := writes, totalCount, totalPrice, false;
    if id !in db.skus {
      db.RollbackTo(save);
      return Some(UnknownSku), pending, newCount, newPrice, false;
    }
    var sku := db.skus[id];
    if id !in cart.entries {
      // int(None) raises; the handler's except clause rolls back
      db.RollbackTo(save);
      return Some(Failed), pending, newCount, newPrice, false;
    }
    var count := cart.entries[id];
    var price := sku.price;
    if count > sku.stock {
      // the "stock insufficient" answer is built but not returned
      db.RollbackTo(save);
    }
    var originStock := sku.stock;
    var newSales := count + sku.sales;
    var newStock := originStock - count;
    if pending != [] {
      if pending[0].Some? && id in db.skus {
        db.skus := db.skus[id := db.skus[id].(stock := pending[0].value)];
      }
      pending := pending[1..];
    }
    // UPDATE ... SET sales, stock WHERE id = sku_id AND stock = origin_stock
    var updated := id in db.skus && db.skus[id].stock == originStock;
    if !updated {
      if attempt == 2 {
        db.RollbackTo(save);
      }
      return None, pending, newCount, newPrice, attempt != 2;
    }
    db.skus := db.skus[id := db.skus[id].(stock := newStock, sales := newSales)];
    if fk == Immediate && oid !in db.orders {
      db.RollbackTo(save);
      return Some(Failed), pending, newCount, newPrice, false;
    }
    db.lines := db.lines + [OrderLine(oid, id, count, price, "")];
    newCount := newCount + count;
    newPrice := newPrice + price * count;
    stop := None;
  }

  /** One attempt, then the remaining ones if the attempt asks for them. */
  lemma {:induction false} CasAttemptUnfold(r: Run, sp: Tables, cart: map<SkuId, int>, oid: string, id: SkuId,
                         writes: seq<Option<int>>, attempt: nat, fk: FkCheck)
    requires attempt <= 2 && r.stop.None?
    ensures var (r', rest, again) := CasTry(r, sp, cart, oid, id, writes, attempt, fk, false);
      (again ==> attempt < 2 && r'.stop.None?) &&
      CasAttempt(r, sp, cart, oid, id, writes, attempt, fk, false)
        == if again then CasAttempt(r', sp, cart, oid, id, rest, attempt + 1, fk, false) else (r', rest)
  {
  }

  /** The `for i in range(3)` loop of OrderCommitViewOPL.post for one unit. */
  method ReserveOptimistic(db: Database, cart: CartHash, save: Tables, oid: string, id: SkuId,
                           writes: seq<Option<int>>, totalCount: int, totalPrice: int, fk: FkCheck)
    returns (stop: Option<CommitRes>, pending: seq<Option<int>>, newCount: int, newPrice: int)
    modifies db
    ensures (Run(db.Snapshot(), newCount, newPrice, stop), pending)
         == CasAttempt(Run(old(db.Snapshot()), totalCount, totalPrice, None), save, cart.entries, oid, id, writes, 0, fk, false)
    ensures db.addresses == old(db.addresses)
  {
    ghost var before := Run(db.Snapshot(), totalCount, totalPrice, None);
    stop, pending, newCount, newPrice := None, writes, totalCount, totalPrice;
    var attempt, again := 0, true;
    while again
      invariant 0 <= attempt <= 3 && (again ==> attempt <= 2)
      invariant db.addresses == old(db.addresses)
      invariant again ==> stop.None?
      invariant again ==>
        CasAttempt(Run(db.Snapshot(), newCount, newPrice, None), save, cart.entries, oid, id, pending, attempt, fk, false)
          == CasAttempt(before, save, cart.entries, oid, id, writes, 0, fk, false)
      invariant !again ==>
        (Run(db.Snapshot(), newCount, newPrice, stop), pending)
          == CasAttempt(before, save, cart.entries, oid, id, writes, 0, fk, false)
      decreases 3 - attempt
    {
      ghost var cur := Run(db.Snapshot(), newCount, newPrice, None);
      ghost var curPending := pending;
      stop, pending, newCount, newPrice, again := TryReserve(db, cart, save, oid, id, pending, attempt, newCount, newPrice, fk);
      ghost var next := Run(db.Snapshot(), newCount, newPrice, stop);
      CasAttemptUnfold(cur, save, cart.entries, oid, id, curPending, attempt, fk);
      attempt := attempt + 1;
    }
  }

  /** The loop of OrderCommitViewOPL.post over the selected units, from zero
      totals; it ends early when a unit's attempts return. */
  method ReserveAllOptimistic(db: Database, cart: CartHash, save: Tables, oid: string, ids: seq<SkuId>,
                              writes: seq<Option<int>>, fk: FkCheck)
    returns (stop: Option<CommitRes>, totalCount: int, totalPrice: int)
    modifies db
    ensures Run(db.Snapshot(), totalCount, totalPrice, stop)
         == CasLoop(Run(old(db.Snapshot()), 0, 0, None), save, cart.entries, oid, ids, writes, fk, false)
    ensures db.addresses == old(db.addresses)
  {
    ghost var start := Run(db.Snapshot(), 0, 0, None);
    stop, totalCount, totalPrice := None, 0, 0;
    var pending := writes;
    var i := 0;
    while i < |ids|
      invariant 0 <= i <= |ids|
      invariant db.addresses == old(db.addresses) && stop.None?
      invariant CasLoop(Run(db.Snapshot(), totalCount, totalPrice, None), save, cart.entries, oid, ids[i..], pending, fk, false)
             == CasLoop(start, save, cart.entries, oid, ids, writes, fk, false)
    {
      ghost var cur, curPending := Run(db.Snapshot(), totalCount, totalPrice, None), pending;
      ghost var step := CasAttempt(cur, save, cart.entries, oid, ids[i], curPending, 0, fk, false);
      assert CasLoop(cur, save, cart.entries, oid, ids[i..], curPending, fk, false)
          == CasLoop(step.0, save, cart.entries, oid, ids[i + 1..], step.1, fk, false) by {
        assert ids[i..][0] == ids[i] && ids[i..][1..] == ids[i + 1..];
        CasLoopStep(cur, save, cart.entries, oid, ids[i..], curPending, fk, false);
      }
      stop, pending, totalCount, totalPrice := ReserveOptimistic(db, cart, save, oid, ids[i], pending, totalCount, totalPrice, fk);
      if stop.Some? {
        return;
      }
      i := i + 1;
    }
    assert ids[i..] == [];
  }

  /** OrderCommitViewOPL.post; `writes` are the concurrent writes met by the
      successive conditional updates. */
  method CommitOptimistic(db: Database, cart: CartHash, payMethods: set<string>, req: CommitRequest,
                          writes: seq<Option<int>>, fk: FkCheck)
    returns (res: CommitRes)
    modifies db, cart
    ensures Outcome(res, db.Snapshot(), cart.entries)
         == CasCommit(old(db.Snapshot()), old(db.addresses), old(cart.entries), payMethods, req, writes, fk, false)
    ensures db.addresses == old(db.addresses)
  {
    var invalid := Validate(req, db.addresses, payMethods);
    if invalid.Some? {
      return invalid.value;
    }
    var oid := OrderId(req);
    var order := Header(req);
    var save := db.Snapshot();
    if oid in db.orders {
      db.RollbackTo(save);
      return Failed;
    }
    CasCommitOpens(save, db.addresses, cart.entries, payMethods, req, writes, fk, false);
    db.orders := db.orders[oid := order];
    var stop, totalCount, totalPrice := ReserveAllOptimistic(db, cart, save, oid, req.skuIds, writes, fk);
    if stop.Some? {
      return stop.value;
    }
    db.orders := db.orders[oid := order.(totalCount := totalCount, totalPrice := totalPrice)];
    cart.DeleteAll(req.skuIds);
    return Placed;
  }
}

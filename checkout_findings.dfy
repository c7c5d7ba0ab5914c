/** Concrete runs on which the commit handlers as written depart from what
    they evidently intend, next to the intended behaviour on the same input. */
module CheckoutFindings {
  import opened Common
  import opened Store
  import opened Cart
  import opened Checkout
  import opened CheckoutProofs

  const Home := Address(7, "Li Lei", "1 Main Road", "100000", "13800000000", true)

  /** A request by user 7 for the given units, paid with method "1", shipped
      to address 0. */
  function Request(ids: seq<SkuId>): CommitRequest
  {
    CommitRequest(true, 7, Some(0), "1", ids, "20240101120000")
  }

  /** One unit out of stock: the intended handler refuses with 6; as written,
      with deferred foreign keys the order is placed and the stock goes to -1,
      and with immediate ones the answer is the generic failure 4. */
  lemma ShortfallIsNotReturned()
    ensures var t := Tables(map[1 := Sku(100, 0, 0)], map[], []);
      var cart := map[1 := 1];
      var deferred := LockedCommit(t, [Home], cart, {"1"}, Request([1]), Deferred, false);
      var immediate := LockedCommit(t, [Home], cart, {"1"}, Request([1]), Immediate, false);
      var intended := LockedCommit(t, [Home], cart, {"1"}, Request([1]), Deferred, true);
      deferred.res == Placed && deferred.t.skus[1].stock == -1 && deferred.cart == map[] &&
      immediate.res == Failed && immediate.res.Code() == 4 &&
      intended.res == UnderStocked && intended.res.Code() == 6 && intended.t == t && intended.cart == cart
  {
    var t := Tables(map[1 := Sku(100, 0, 0)], map[], []);
    var cart := map[1 := 1];
    var req := Request([1]);
    var oid := OrderId(req);
    assert Validate(req, [Home], {"1"}).None?;
    var start := Run(t.(orders := t.orders[oid := Header(req)]), 0, 0, None);
    var done := LockedStep(start, t, cart, oid, 1, Deferred, false);
    assert done == Run(AddLine(t, oid, 1, 1, 100).(skus := map[1 := Sku(100, -1, 1)]), 1, 100, None);
    assert LockedLoop(start, t, cart, oid, [1], Deferred, false) == LockedLoop(done, t, cart, oid, [], Deferred, false);
    assert RemoveUnits(cart, req.skuIds) == map[];
    var failed := LockedStep(start, t, cart, oid, 1, Immediate, false);
    assert LockedLoop(start, t, cart, oid, [1], Immediate, false) == LockedLoop(failed, t, cart, oid, [], Immediate, false);
    var refused := LockedStep(start, t, cart, oid, 1, Deferred, true);
    assert LockedLoop(start, t, cart, oid, [1], Deferred, true) == LockedLoop(refused, t, cart, oid, [], Deferred, true);
  }

  /** The second of two units out of stock: as written (deferred foreign
      keys) the rollback removes the first unit's line and restores its stock,
      yet the header written afterwards still counts it, so the header's total
      price (150) is not the sum over the order's lines (50). */
  lemma ShortfallBreaksHeaderTotals()
    ensures var t := Tables(map[1 := Sku(100, 5, 0), 2 := Sku(50, 0, 0)], map[], []);
      var req := Request([1, 2]);
      var o := LockedCommit(t, [Home], map[1 := 1, 2 := 1], {"1"}, req, Deferred, false);
      o.res == Placed && OrderId(req) in o.t.orders && o.t.orders[OrderId(req)].totalPrice == 150 &&
      o.t.lines == [OrderLine(OrderId(req), 2, 1, 50, "")] && PriceOf(o.t.lines) == 50 &&
      o.t.skus[1] == Sku(100, 5, 0) && o.t.skus[2].stock == -1 &&
      !PlacedCorrectly(t, map[1 := 1, 2 := 1], req, o)
  {
    var t := Tables(map[1 := Sku(100, 5, 0), 2 := Sku(50, 0, 0)], map[], []);
    var cart := map[1 := 1, 2 := 1];
    var req := Request([1, 2]);
    var oid := OrderId(req);
    assert Validate(req, [Home], {"1"}).None?;
    var start := Run(t.(orders := t.orders[oid := Header(req)]), 0, 0, None);
    var r1 := LockedStep(start, t, cart, oid, 1, Deferred, false);
    assert r1.stop.None? && r1.totalCount == 1 && r1.totalPrice == 100;
    var r2 := LockedStep(r1, t, cart, oid, 2, Deferred, false);
    assert r2 == Run(AddLine(t, oid, 2, 1, 50).(skus := t.skus[2 := Sku(50, -1, 1)]), 2, 150, None);
    assert [1, 2][1..] == [2];
    assert LockedLoop(start, t, cart, oid, [1, 2], Deferred, false) == LockedLoop(r2, t, cart, oid, [], Deferred, false);
    var o := LockedCommit(t, [Home], cart, {"1"}, req, Deferred, false);
    assert PriceOf(o.t.lines) == 50 by {
      assert o.t.lines[..0] == [];
    }
    assert o.t.lines[|t.lines|..] == o.t.lines;
  }

  /** Three concurrent writes, each conflicting with the stock the attempt
      before it read, none of which leaves too little stock for the count. */
  predicate ThreeConflicts(stock: int, count: int, writes: seq<Option<int>>)
  {
    |writes| >= 3 && writes[0].Some? && writes[1].Some? && writes[2].Some? &&
    writes[0].value != stock && writes[1].value != writes[0].value && writes[2].value != writes[1].value &&
    count <= stock && count <= writes[0].value && count <= writes[1].value
  }

  /** As written, a valid order for one unit whose three attempts all meet a
      conflicting write is placed with no line and zero totals, the stock is
      untouched, and the unit is still deleted from the cart although nothing
      was bought. */
  lemma ExhaustedRetriesStillPlace(t: Tables, addresses: seq<Address>, cart: map<SkuId, int>, payMethods: set<string>,
                                   req: CommitRequest, writes: seq<Option<int>>, fk: FkCheck)
    requires Validate(req, addresses, payMethods).None? && OrderId(req) !in t.orders
    requires |req.skuIds| == 1 && req.skuIds[0] in t.skus && req.skuIds[0] in cart
    requires ThreeConflicts(t.skus[req.skuIds[0]].stock, cart[req.skuIds[0]], writes)
    ensures var o := CasCommit(t, addresses, cart, payMethods, req, writes, fk, false);
      o.res == Placed && o.t.lines == t.lines && o.t.skus == t.skus &&
      o.t.orders == t.orders[OrderId(req) := Header(req)] && Header(req).totalCount == Header(req).totalPrice == 0 &&
      req.skuIds[0] !in o.cart
  {
    var id, oid := req.skuIds[0], OrderId(req);
    var start := Run(t.(orders := t.orders[oid := Header(req)]), 0, 0, None);
    assert CasLoop(start, t, cart, oid, req.skuIds, writes, fk, false) == start.(t := t) by {
      CasExhausted(start, t, cart, oid, id, writes, fk);
      CasLoopStep(start, t, cart, oid, req.skuIds, writes, fk, false);
      assert req.skuIds[1..] == [];
    }
    CasCommitOpens(t, addresses, cart, payMethods, req, writes, fk, false);
  }

  /** As intended, the same run answers Contended, code 4, and leaves the
      tables and the cart as they were. */
  lemma ExhaustedRetriesRefused(t: Tables, addresses: seq<Address>, cart: map<SkuId, int>, payMethods: set<string>,
                                req: CommitRequest, writes: seq<Option<int>>, fk: FkCheck)
    requires Validate(req, addresses, payMethods).None? && OrderId(req) !in t.orders
    requires |req.skuIds| == 1 && req.skuIds[0] in t.skus && req.skuIds[0] in cart
    requires ThreeConflicts(t.skus[req.skuIds[0]].stock, cart[req.skuIds[0]], writes)
    ensures CasCommit(t, addresses, cart, payMethods, req, writes, fk, true) == Outcome(Contended, t, cart)
    ensures Contended.Code() == 4
  {
    var id, oid := req.skuIds[0], OrderId(req);
    var start := Run(t.(orders := t.orders[oid := Header(req)]), 0, 0, None);
    assert CasLoop(start, t, cart, oid, req.skuIds, writes, fk, true) == Abort(start, t, Contended) by {
      CasExhausted(start, t, cart, oid, id, writes, fk);
      CasLoopStep(start, t, cart, oid, req.skuIds, writes, fk, true);
      assert req.skuIds[1..] == [];
    }
    CasCommitOpens(t, addresses, cart, payMethods, req, writes, fk, true);
  }
}

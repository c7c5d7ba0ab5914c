/** What the two commit handlers guarantee: validation before any write,
    all-or-nothing effects on the tables and the cart, order lines that copy
    the cart counts and the unit prices, header totals equal to the sums over
    the lines, stock that stays non-negative, and how the code as written
    departs from the intended behaviour. */
module CheckoutProofs {
  import opened Common
  import opened Store
  import opened Cart
  import opened Checkout

  // ---------------------------------------------------------------------------
  // What a successful run of a loop adds
  // ---------------------------------------------------------------------------

  /** The new order lines: one per unit id, in order, with the cart's count and
      the unit's price. */
  predicate LinesMatch(lines: seq<OrderLine>, oid: string, ids: seq<SkuId>, cart: map<SkuId, int>, skus: map<SkuId, Sku>)
  {
    |lines| == |ids| &&
    forall i :: 0 <= i < |ids| ==>
      ids[i] in cart && ids[i] in skus && lines[i] == OrderLine(oid, ids[i], cart[ids[i]], skus[ids[i]].price, "")
  }

  /** The same units at the same prices. */
  predicate SameCatalog(a: map<SkuId, Sku>, b: map<SkuId, Sku>)
  {
    a.Keys == b.Keys && forall k :: k in a ==> a[k].price == b[k].price
  }

  /** Every unit's stock plus sales is as before. */
  predicate Conserved(a: map<SkuId, Sku>, b: map<SkuId, Sku>)
  {
    a.Keys == b.Keys && forall k :: k in a ==> a[k].stock + a[k].sales == b[k].stock + b[k].sales
  }

  /** How much of unit k a run over `ids` books: its cart count for each
      time `ids` names it. */
  function Booked(ids: seq<SkuId>, cart: map<SkuId, int>, k: SkuId): int
    decreases |ids|
  {
    if ids == [] then 0
    else Booked(ids[..|ids| - 1], cart, k) + (if ids[|ids| - 1] == k then Weight(cart, k) else 0)
  }

  /** The amount booked is the cart count times the number of times the unit
      is named, repeated ids included. */
  lemma {:induction false} BookedCounts(ids: seq<SkuId>, cart: map<SkuId, int>, k: SkuId)
    ensures Booked(ids, cart, k) == multiset(ids)[k] * Weight(cart, k)
    decreases |ids|
  {
    if ids != [] {
      var n := |ids| - 1;
      BookedCounts(ids[..n], cart, k);
      assert ids == ids[..n] + [ids[n]];
      assert multiset(ids)[k] == multiset(ids[..n])[k] + (if ids[n] == k then 1 else 0);
    }
  }

  /** Booking two runs of units in turn books the joined run. */
  lemma {:induction false} BookedAppend(ids1: seq<SkuId>, ids2: seq<SkuId>, cart: map<SkuId, int>, k: SkuId)
    ensures Booked(ids1 + ids2, cart, k) == Booked(ids1, cart, k) + Booked(ids2, cart, k)
    decreases |ids2|
  {
    if ids2 == [] {
      assert ids1 + ids2 == ids1;
    } else {
      var n := |ids2| - 1;
      BookedAppend(ids1, ids2[..n], cart, k);
      assert (ids1 + ids2)[..|ids1 + ids2| - 1] == ids1 + ids2[..n];
    }
  }

  /** Every unit's sales rose by what was booked of it. */
  predicate SalesBooked(a: map<SkuId, Sku>, b: map<SkuId, Sku>, ids: seq<SkuId>, cart: map<SkuId, int>)
  {
    a.Keys == b.Keys && forall k :: k in a ==> a[k].sales == b[k].sales + Booked(ids, cart, k)
  }

  /** Every unit's stock fell by what was booked of it. */
  predicate StockBooked(a: map<SkuId, Sku>, b: map<SkuId, Sku>, ids: seq<SkuId>, cart: map<SkuId, int>)
  {
    a.Keys == b.Keys && forall k :: k in a ==> a[k].stock == b[k].stock - Booked(ids, cart, k)
  }

  predicate NonNegativeStock(skus: map<SkuId, Sku>)
  {
    forall k :: k in skus ==> skus[k].stock >= 0
  }

  /** A run `res` that went on from `r` over `ids` without returning early:
      the lines grew by exactly the matching lines, the totals by their sums,
      the headers are untouched, prices are kept, each unit's sales grew by
      what was booked of it and no stock went negative. */
  ghost predicate Extends(r: Run, res: Run, oid: string, ids: seq<SkuId>, cart: map<SkuId, int>)
  {
    var n := |r.t.lines|;
    |res.t.lines| == n + |ids| && res.t.lines[..n] == r.t.lines &&
    LinesMatch(res.t.lines[n..], oid, ids, cart, r.t.skus) &&
    res.totalCount == r.totalCount + CountOf(res.t.lines[n..]) &&
    res.totalPrice == r.totalPrice + PriceOf(res.t.lines[n..]) &&
    res.t.orders == r.t.orders &&
    SameCatalog(res.t.skus, r.t.skus) &&
    SalesBooked(res.t.skus, r.t.skus, ids, cart) &&
    (NonNegativeStock(r.t.skus) ==> NonNegativeStock(res.t.skus))
  }

  lemma {:induction false} ExtendsNothing(r: Run, oid: string, cart: map<SkuId, int>)
    ensures Extends(r, r, oid, [], cart)
  {
    assert r.t.lines[|r.t.lines|..] == [];
  }

  /** A concurrent write of a non-negative stock to a unit extends a run by
      nothing. */
  lemma {:induction false} ExtendsByStockWrite(r: Run, oid: string, cart: map<SkuId, int>, id: SkuId, v: int)
    requires id in r.t.skus && v >= 0
    ensures Extends(r, r.(t := r.t.(skus := r.t.skus[id := r.t.skus[id].(stock := v)])), oid, [], cart)
  {
    assert r.t.lines[|r.t.lines|..] == [];
  }

  /** Two successive extensions make one. */
  lemma {:induction false} ExtendsChain(r: Run, mid: Run, res: Run, oid: string, ids1: seq<SkuId>, ids2: seq<SkuId>, cart: map<SkuId, int>)
    requires Extends(r, mid, oid, ids1, cart) && Extends(mid, res, oid, ids2, cart)
    ensures Extends(r, res, oid, ids1 + ids2, cart)
  {
    var n, m := |r.t.lines|, |mid.t.lines|;
    var new1, new2 := mid.t.lines[n..], res.t.lines[m..];
    assert res.t.lines[..n] == r.t.lines && res.t.lines[n..] == new1 + new2 by {
      assert res.t.lines[..m] == mid.t.lines;
      assert res.t.lines == r.t.lines + new1 + new2;
    }
    TotalsAppend(new1, new2);
    assert SalesBooked(res.t.skus, r.t.skus, ids1 + ids2, cart) by {
      SalesBookedChain(res.t.skus, mid.t.skus, r.t.skus, ids1, ids2, cart);
    }
    var ids := ids1 + ids2;
    forall i | 0 <= i < |ids|
      ensures ids[i] in cart && ids[i] in r.t.skus &&
        (new1 + new2)[i] == OrderLine(oid, ids[i], cart[ids[i]], r.t.skus[ids[i]].price, "")
    {
      if i >= |ids1| {
        assert ids[i] == ids2[i - |ids1|] && (new1 + new2)[i] == new2[i - |ids1|];
      }
    }
  }

  /** Sales booked for two runs of units in turn are those for the joined run. */
  lemma {:induction false} SalesBookedChain(c: map<SkuId, Sku>, b: map<SkuId, Sku>, a: map<SkuId, Sku>,
                                            ids1: seq<SkuId>, ids2: seq<SkuId>, cart: map<SkuId, int>)
    requires SalesBooked(b, a, ids1, cart) && SalesBooked(c, b, ids2, cart)
    ensures SalesBooked(c, a, ids1 + ids2, cart)
  {
    forall k | k in c
      ensures c[k].sales == a[k].sales + Booked(ids1 + ids2, cart, k)
    {
      BookedAppend(ids1, ids2, cart, k);
    }
  }

  /** A pass that books unit `id` once: its line appended, its counts added,
      its row rewritten at the same price with a non-negative stock. */
  lemma {:induction false} ExtendsOne(r: Run, r1: Run, oid: string, id: SkuId, cart: map<SkuId, int>, stock: int, sales: int)
    requires id in cart && id in r.t.skus && stock >= 0
    requires r1.t.lines == r.t.lines + [OrderLine(oid, id, cart[id], r.t.skus[id].price, "")]
    requires r1.totalCount == r.totalCount + cart[id]
    requires r1.totalPrice == r.totalPrice + r.t.skus[id].price * cart[id]
    requires r1.t.orders == r.t.orders
    requires r1.t.skus == r.t.skus[id := Sku(r.t.skus[id].price, stock, sales)]
    requires sales == r.t.skus[id].sales + cart[id]
    ensures Extends(r, r1, oid, [id], cart)
  {
    assert SalesBooked(r1.t.skus, r.t.skus, [id], cart) by {
      forall k | k in r1.t.skus
        ensures r1.t.skus[k].sales == r.t.skus[k].sales + Booked([id], cart, k)
      {
        assert [id][..0] == [];
      }
    }
    var n := |r.t.lines|;
    assert r1.t.lines[..n] == r.t.lines;
    assert r1.t.lines[n..] == [r1.t.lines[n]];
    TotalsSnoc([], r1.t.lines[n]);
  }

  /** What is left of the concurrent writes after some were consumed. */
  lemma {:induction false} NonNegativeSuffix(writes: seq<Option<int>>, rest: seq<Option<int>>)
    requires NonNegativeWrites(writes) && |rest| <= |writes| && rest == writes[|writes| - |rest|..]
    ensures NonNegativeWrites(rest)
  {
    forall i | 0 <= i < |rest| && rest[i].Some?
      ensures rest[i].value >= 0
    {
      assert rest[i] == writes[|writes| - |rest| + i];
    }
  }

  // ---------------------------------------------------------------------------
  // Early returns leave the savepoint's tables; validation comes first
  // ---------------------------------------------------------------------------

  /** Once a branch has returned, the loop does nothing more; an early return
      always comes with the tables as at the savepoint. */
  lemma {:induction false} LockedLoopRefusal(r: Run, sp: Tables, cart: map<SkuId, int>, oid: string, ids: seq<SkuId>,
                                             fk: FkCheck, strict: bool)
    ensures var res := LockedLoop(r, sp, cart, oid, ids, fk, strict);
      (r.stop.Some? ==> res == r) &&
      (r.stop.None? && res.stop.Some? ==> res.t == sp && res.stop.value in LockedRefusals(strict))
    decreases |ids|
  {
    if r.stop.None? && ids != [] {
      LockedLoopRefusal(LockedStep(r, sp, cart, oid, ids[0], fk, strict), sp, cart, oid, ids[1..], fk, strict);
    }
  }

  /** OrderCommitView.post: a failed validation answers without writing; any
      answer but success leaves tables and cart as they were; success removes
      exactly the ordered units from the cart. */
  lemma {:induction false} LockedCommitAtomic(t: Tables, addresses: seq<Address>, cart: map<SkuId, int>, payMethods: set<string>,
                           req: CommitRequest, fk: FkCheck, strict: bool)
    ensures var o := LockedCommit(t, addresses, cart, payMethods, req, fk, strict);
      var v := Validate(req, addresses, payMethods);
      (v.Some? ==> o == Outcome(v.value, t, cart)) &&
      (o.res != Placed ==> o.t == t && o.cart == cart) &&
      (o.res == Placed ==> o.cart == RemoveUnits(cart, req.skuIds)) &&
      o.res in {NotLoggedIn, Incomplete, UnknownPayMethod, UnknownAddress, Placed} + LockedRefusals(strict)
  {
    if Validate(req, addresses, payMethods).None? && OrderId(req) !in t.orders {
      var oid := OrderId(req);
      var start := Run(t.(orders := t.orders[oid := Header(req)]), 0, 0, None);
      LockedLoopRefusal(start, t, cart, oid, req.skuIds, fk, strict);
    }
  }

  // ---------------------------------------------------------------------------
  // The intended pessimistic commit
  // ---------------------------------------------------------------------------

  /** One step of the intended loop that does not return adds the matching
      line, keeps stock plus sales, and keeps stock non-negative. */
  lemma {:induction false} StrictLockedStep(r: Run, sp: Tables, cart: map<SkuId, int>, oid: string, id: SkuId, fk: FkCheck)
    requires r.stop.None? && oid in r.t.orders
    ensures var r1 := LockedStep(r, sp, cart, oid, id, fk, true);
      r1.stop.None? ==>
        id in r.t.skus && id in cart &&
        r1.t.skus == r.t.skus[id := Sku(r.t.skus[id].price, r.t.skus[id].stock - cart[id], r.t.skus[id].sales + cart[id])] &&
        Extends(r, r1, oid, [id], cart) && Conserved(r1.t.skus, r.t.skus)
  {
    var r1 := LockedStep(r, sp, cart, oid, id, fk, true);
    if id in r.t.skus && id in cart && cart[id] <= r.t.skus[id].stock {
      var sku, count := r.t.skus[id], cart[id];
      var skus := r.t.skus[id := Sku(sku.price, sku.stock - count, sku.sales + count)];
      assert r1 == Run(AddLine(r.t, oid, id, count, sku.price).(skus := skus), r.totalCount + count, r.totalPrice + sku.price * count, None);
      ExtendsOne(r, r1, oid, id, cart, sku.stock - count, sku.sales + count);
    }
  }

  lemma {:induction false} StrictLockedLoop(r: Run, sp: Tables, cart: map<SkuId, int>, oid: string, ids: seq<SkuId>, fk: FkCheck)
    requires r.stop.None? && oid in r.t.orders
    ensures var res := LockedLoop(r, sp, cart, oid, ids, fk, true);
      res.stop.None? ==> Extends(r, res, oid, ids, cart) && Conserved(res.t.skus, r.t.skus)
    decreases |ids|
  {
    var res := LockedLoop(r, sp, cart, oid, ids, fk, true);
    if ids == [] {
      ExtendsNothing(r, oid, cart);
    } else {
      var r1 := LockedStep(r, sp, cart, oid, ids[0], fk, true);
      if r1.stop.None? && res.stop.None? {
        assert Extends(r, r1, oid, [ids[0]], cart) && Conserved(r1.t.skus, r.t.skus) by {
          StrictLockedStep(r, sp, cart, oid, ids[0], fk);
        }
        assert Extends(r1, res, oid, ids[1..], cart) && Conserved(res.t.skus, r1.t.skus) by {
          StrictLockedLoop(r1, sp, cart, oid, ids[1..], fk);
        }
        assert Extends(r, res, oid, ids, cart) by {
          ExtendsChain(r, r1, res, oid, [ids[0]], ids[1..], cart);
          assert [ids[0]] + ids[1..] == ids;
        }
      }
    }
  }

  /** What a successful commit leaves: the lines it added match the request
      and the cart, the new header carries their totals, prices are kept,
      each unit's sales grew by what was booked of it, stock stays
      non-negative, and the ordered units leave the cart. */
  ghost predicate PlacedCorrectly(t: Tables, cart: map<SkuId, int>, req: CommitRequest, o: Outcome)
  {
    var oid, n := OrderId(req), |t.lines|;
    req.addrId.Some? &&
    |o.t.lines| == n + |req.skuIds| && o.t.lines[..n] == t.lines &&
    LinesMatch(o.t.lines[n..], oid, req.skuIds, cart, t.skus) &&
    oid !in t.orders &&
    o.t.orders == t.orders[oid := Header(req).(totalCount := CountOf(o.t.lines[n..]), totalPrice := PriceOf(o.t.lines[n..]))] &&
    SameCatalog(o.t.skus, t.skus) &&
    SalesBooked(o.t.skus, t.skus, req.skuIds, cart) &&
    (NonNegativeStock(t.skus) ==> NonNegativeStock(o.t.skus)) &&
    o.cart == RemoveUnits(cart, req.skuIds)
  }

  /** Closing a loop that booked every requested unit places the order
      correctly. */
  lemma {:induction false} PlacedFromExtends(t: Tables, cart: map<SkuId, int>, req: CommitRequest, res: Run)
    requires req.addrId.Some? && OrderId(req) !in t.orders && res.stop.None?
    requires Extends(Run(t.(orders := t.orders[OrderId(req) := Header(req)]), 0, 0, None), res, OrderId(req), req.skuIds, cart)
    ensures PlacedCorrectly(t, cart, req, Close(cart, req, res))
  {
  }

  /** Stock plus sales kept, with sales grown by what was booked: the stock
      fell by exactly that much. */
  lemma {:induction false} StockFromSales(a: map<SkuId, Sku>, b: map<SkuId, Sku>, ids: seq<SkuId>, cart: map<SkuId, int>)
    requires Conserved(a, b) && SalesBooked(a, b, ids, cart)
    ensures StockBooked(a, b, ids, cart)
  {
    forall k | k in a
      ensures a[k].stock == b[k].stock - Booked(ids, cart, k)
    {
      assert a[k].stock + a[k].sales == b[k].stock + b[k].sales;
    }
  }

  /** The intended OrderCommitView.post is all-or-nothing and books exactly
      what was ordered: each unit's stock falls, and its sales rise, by its
      cart count once for each time the request names it. */
  lemma {:induction false} CorrectedLockedCommit(t: Tables, addresses: seq<Address>, cart: map<SkuId, int>, payMethods: set<string>,
                              req: CommitRequest, fk: FkCheck)
    ensures var o := LockedCommit(t, addresses, cart, payMethods, req, fk, true);
      (o.res != Placed ==> o.t == t && o.cart == cart) &&
      (o.res == Placed ==>
        PlacedCorrectly(t, cart, req, o) && Conserved(o.t.skus, t.skus) && StockBooked(o.t.skus, t.skus, req.skuIds, cart))
  {
    LockedCommitAtomic(t, addresses, cart, payMethods, req, fk, true);
    if Validate(req, addresses, payMethods).None? && OrderId(req) !in t.orders {
      var oid := OrderId(req);
      var start := Run(t.(orders := t.orders[oid := Header(req)]), 0, 0, None);
      var res := LockedLoop(start, t, cart, oid, req.skuIds, fk, true);
      assert LockedCommit(t, addresses, cart, payMethods, req, fk, true) == Close(cart, req, res) by {
        LockedCommitOpens(t, addresses, cart, payMethods, req, fk, true);
      }
      if res.stop.None? {
        assert Extends(start, res, oid, req.skuIds, cart) && Conserved(res.t.skus, start.t.skus) by {
          StrictLockedLoop(start, t, cart, oid, req.skuIds, fk);
        }
        assert PlacedCorrectly(t, cart, req, Close(cart, req, res)) by {
          PlacedFromExtends(t, cart, req, res);
        }
        assert StockBooked(res.t.skus, t.skus, req.skuIds, cart) by {
          StockFromSales(res.t.skus, t.skus, req.skuIds, cart);
        }
      } else {
        assert res.t == t && res.stop.value in LockedRefusals(true) by {
          LockedLoopRefusal(start, t, cart, oid, req.skuIds, fk, true);
        }
      }
    }
  }

  /** Lines that match the selected units sum to the order page's totals. */
  lemma {:induction false} MatchingLinesSumToPreview(lines: seq<OrderLine>, oid: string, ids: seq<SkuId>,
                                                     cart: map<SkuId, int>, skus: map<SkuId, Sku>)
    requires LinesMatch(lines, oid, ids, cart, skus)
    ensures Covered(ids, skus, cart)
    ensures CountOf(lines) == ItemsCount(PreviewItems(ids, skus, cart))
    ensures PriceOf(lines) == ItemsPrice(PreviewItems(ids, skus, cart))
    decreases |ids|
  {
    if ids != [] {
      var k := |ids| - 1;
      assert LinesMatch(lines[..k], oid, ids[..k], cart, skus);
      MatchingLinesSumToPreview(lines[..k], oid, ids[..k], cart, skus);
      var items := PreviewItems(ids, skus, cart);
      assert items[..k] == PreviewItems(ids[..k], skus, cart);
    }
  }

  /** A successful intended commit writes into the header exactly the total
      count and total price the order page showed for the same units, cart and
      catalogue. */
  lemma {:induction false} PlacedOrderMatchesPreview(t: Tables, addresses: seq<Address>, cart: map<SkuId, int>, payMethods: set<string>,
                                  req: CommitRequest, fk: FkCheck)
    ensures var o := LockedCommit(t, addresses, cart, payMethods, req, fk, true);
      o.res == Placed ==>
        Covered(req.skuIds, t.skus, cart) && OrderId(req) in o.t.orders &&
        o.t.orders[OrderId(req)].totalCount == ItemsCount(PreviewItems(req.skuIds, t.skus, cart)) &&
        o.t.orders[OrderId(req)].totalPrice == ItemsPrice(PreviewItems(req.skuIds, t.skus, cart))
  {
    var o := LockedCommit(t, addresses, cart, payMethods, req, fk, true);
    CorrectedLockedCommit(t, addresses, cart, payMethods, req, fk);
    if o.res == Placed {
      MatchingLinesSumToPreview(o.t.lines[|t.lines|..], OrderId(req), req.skuIds, cart, t.skus);
    }
  }

  // ---------------------------------------------------------------------------
  // The pessimistic commit as written
  // ---------------------------------------------------------------------------

  /** The code as written behaves as intended on every run the intended code
      does not refuse as understocked. */
  lemma {:induction false} LockedAsWrittenAgrees(r: Run, sp: Tables, cart: map<SkuId, int>, oid: string, ids: seq<SkuId>, fk: FkCheck)
    requires LockedLoop(r, sp, cart, oid, ids, fk, true).stop != Some(UnderStocked)
    ensures LockedLoop(r, sp, cart, oid, ids, fk, false) == LockedLoop(r, sp, cart, oid, ids, fk, true)
    decreases |ids|
  {
    if r.stop.None? && ids != [] {
      var r1 := LockedStep(r, sp, cart, oid, ids[0], fk, true);
      LockedLoopRefusal(r1, sp, cart, oid, ids[1..], fk, true);
      assert LockedStep(r, sp, cart, oid, ids[0], fk, false) == r1;
      LockedAsWrittenAgrees(r1, sp, cart, oid, ids[1..], fk);
    }
  }

  lemma {:induction false} LockedAsWrittenCommit(t: Tables, addresses: seq<Address>, cart: map<SkuId, int>, payMethods: set<string>,
                              req: CommitRequest, fk: FkCheck)
    ensures var intended := LockedCommit(t, addresses, cart, payMethods, req, fk, true);
      intended.res != UnderStocked ==> LockedCommit(t, addresses, cart, payMethods, req, fk, false) == intended
  {
    if Validate(req, addresses, payMethods).None? && OrderId(req) !in t.orders {
      var oid := OrderId(req);
      var start := Run(t.(orders := t.orders[oid := Header(req)]), 0, 0, None);
      var res := LockedLoop(start, t, cart, oid, req.skuIds, fk, true);
      if res.stop != Some(UnderStocked) {
        LockedAsWrittenAgrees(start, t, cart, oid, req.skuIds, fk);
      }
    }
  }

  // ---------------------------------------------------------------------------
  // The optimistic commit
  // ---------------------------------------------------------------------------

  /** Concurrent writers never store a negative stock. */
  predicate NonNegativeWrites(writes: seq<Option<int>>)
  {
    forall i :: 0 <= i < |writes| && writes[i].Some? ==> writes[i].value >= 0
  }

  /** No concurrent write at all. */
  predicate Quiet(writes: seq<Option<int>>)
  {
    forall i :: 0 <= i < |writes| ==> writes[i].None?
  }

  /** A single attempt that stops has rolled back to the savepoint with one
      of the refusals, and does not ask for another attempt. */
  lemma {:induction false} CasTryRefusal(r: Run, sp: Tables, cart: map<SkuId, int>, oid: string, id: SkuId,
                                         writes: seq<Option<int>>, attempt: nat, fk: FkCheck, strict: bool)
    requires r.stop.None?
    ensures var (r1, _, again) := CasTry(r, sp, cart, oid, id, writes, attempt, fk, strict);
      (again ==> r1.stop.None?) &&
      (r1.stop.Some? ==> !again && r1.t == sp && r1.stop.value in CasRefusals(strict))
  {
    if id in r.t.skus && id in cart && !(cart[id] > r.t.skus[id].stock && strict) {
      var sku, count := r.t.skus[id], cart[id];
      var t2 := Interfere(if count > sku.stock then sp else r.t, id, writes);
      if !(id in t2.skus && t2.skus[id].stock == sku.stock) && attempt == 2 && strict {
        assert Contended in CasRefusals(strict);
      }
    }
  }

  lemma {:induction false} CasAttemptRefusal(r: Run, sp: Tables, cart: map<SkuId, int>, oid: string, id: SkuId,
                                             writes: seq<Option<int>>, attempt: nat, fk: FkCheck, strict: bool)
    requires attempt <= 2
    ensures var res := CasAttempt(r, sp, cart, oid, id, writes, attempt, fk, strict).0;
      r.stop.None? && res.stop.Some? ==> res.t == sp && res.stop.value in CasRefusals(strict)
    decreases 2 - attempt
  {
    if r.stop.None? {
      var (r1, rest, again) := CasTry(r, sp, cart, oid, id, writes, attempt, fk, strict);
      CasTryRefusal(r, sp, cart, oid, id, writes, attempt, fk, strict);
      if again && attempt < 2 {
        CasAttemptRefusal(r1, sp, cart, oid, id, rest, attempt + 1, fk, strict);
      }
    }
  }

  lemma {:induction false} CasLoopRefusal(r: Run, sp: Tables, cart: map<SkuId, int>, oid: string, ids: seq<SkuId>,
                                          writes: seq<Option<int>>, fk: FkCheck, strict: bool)
    ensures var res := CasLoop(r, sp, cart, oid, ids, writes, fk, strict);
      (r.stop.Some? ==> res == r) &&
      (r.stop.None? && res.stop.Some? ==> res.t == sp && res.stop.value in CasRefusals(strict))
    decreases |ids|
  {
    if r.stop.None? && ids != [] {
      var (r1, rest) := CasAttempt(r, sp, cart, oid, ids[0], writes, 0, fk, strict);
      CasAttemptRefusal(r, sp, cart, oid, ids[0], writes, 0, fk, strict);
      CasLoopRefusal(r1, sp, cart, oid, ids[1..], rest, fk, strict);
    }
  }

  /** OrderCommitViewOPL.post: the same validation-first, all-or-nothing and
      cart guarantees as the pessimistic handler. */
  lemma {:induction false} CasCommitAtomic(t: Tables, addresses: seq<Address>, cart: map<SkuId, int>, payMethods: set<string>,
                        req: CommitRequest, writes: seq<Option<int>>, fk: FkCheck, strict: bool)
    ensures var o := CasCommit(t, addresses, cart, payMethods, req, writes, fk, strict);
      var v := Validate(req, addresses, payMethods);
      (v.Some? ==> o == Outcome(v.value, t, cart)) &&
      (o.res != Placed ==> o.t == t && o.cart == cart) &&
      (o.res == Placed ==> o.cart == RemoveUnits(cart, req.skuIds)) &&
      o.res in {NotLoggedIn, Incomplete, UnknownPayMethod, UnknownAddress, Placed} + CasRefusals(strict)
  {
    var oid := OrderId(req);
    if Validate(req, addresses, payMethods).None? && oid !in t.orders {
      var start := Run(t.(orders := t.orders[oid := Header(req)]), 0, 0, None);
      var res := CasLoop(start, t, cart, oid, req.skuIds, writes, fk, strict);
      assert CasCommit(t, addresses, cart, payMethods, req, writes, fk, strict) == Close(cart, req, res);
      if res.stop.Some? {
        CasLoopRefusal(start, t, cart, oid, req.skuIds, writes, fk, strict);
      }
    }
  }

  /** The conditional update takes effect exactly when the stored stock still
      equals the value read: then the line is added with the stock lowered and
      the sales raised by the count; otherwise nothing is booked and another
      attempt follows unless this was the third. */
  lemma {:induction false} CasAppliesIffUnchanged(r: Run, sp: Tables, cart: map<SkuId, int>, oid: string, id: SkuId,
                               writes: seq<Option<int>>, attempt: nat, fk: FkCheck, strict: bool)
    requires r.stop.None? && id in r.t.skus && id in cart && cart[id] <= r.t.skus[id].stock
    requires oid in r.t.orders && |sp.lines| <= |r.t.lines|
    ensures var (r1, _, again) := CasTry(r, sp, cart, oid, id, writes, attempt, fk, strict);
      var sku, count := r.t.skus[id], cart[id];
      var stored := if writes != [] && writes[0].Some? then writes[0].value else sku.stock;
      (r1.t.lines == r.t.lines + [OrderLine(oid, id, count, sku.price, "")] <==> stored == sku.stock) &&
      (stored == sku.stock ==>
        r1.stop.None? && !again && r1.t.skus[id] == Sku(sku.price, sku.stock - count, sku.sales + count) &&
        r1.totalCount == r.totalCount + count && r1.totalPrice == r.totalPrice + sku.price * count) &&
      (stored != sku.stock ==>
        r1.totalCount == r.totalCount && r1.totalPrice == r.totalPrice && (again <==> attempt != 2))
  {
    var (r1, _, again) := CasTry(r, sp, cart, oid, id, writes, attempt, fk, strict);
    var sku := r.t.skus[id];
    var stored := if writes != [] && writes[0].Some? then writes[0].value else sku.stock;
    if stored != sku.stock {
      assert |r1.t.lines| <= |r.t.lines|;
    }
  }

  /** Three conflicting concurrent writes exhaust the attempts: as written
      the unit is dropped with everything since the savepoint and the loop
      goes on with unchanged totals; as intended the commit answers Contended. */
  lemma {:induction false} CasExhausted(r: Run, sp: Tables, cart: map<SkuId, int>, oid: string, id: SkuId,
                     writes: seq<Option<int>>, fk: FkCheck)
    requires r.stop.None? && id in r.t.skus && id in cart
    requires |writes| >= 3 && writes[0].Some? && writes[1].Some? && writes[2].Some?
    requires writes[0].value != r.t.skus[id].stock && writes[1].value != writes[0].value
    requires writes[2].value != writes[1].value
    requires cart[id] <= r.t.skus[id].stock && cart[id] <= writes[0].value && cart[id] <= writes[1].value
    ensures CasAttempt(r, sp, cart, oid, id, writes, 0, fk, false) == (r.(t := sp), writes[3..])
    ensures CasAttempt(r, sp, cart, oid, id, writes, 0, fk, true) == (Abort(r, sp, Contended), writes[3..])
  {
    var w0, w1 := writes[0].value, writes[1].value;
    var r1 := r.(t := r.t.(skus := r.t.skus[id := r.t.skus[id].(stock := w0)]));
    var r2 := r.(t := r.t.(skus := r.t.skus[id := r.t.skus[id].(stock := w1)]));
    assert writes[1..][1..] == writes[2..] && writes[2..][1..] == writes[3..];
    assert r1.t.skus[id].(stock := w1) == r.t.skus[id].(stock := w1);
    assert r1.t.skus[id := r1.t.skus[id].(stock := w1)] == r2.t.skus;
    forall strict: bool
      ensures CasTry(r, sp, cart, oid, id, writes, 0, fk, strict) == (r1, writes[1..], true)
      ensures CasTry(r1, sp, cart, oid, id, writes[1..], 1, fk, strict) == (r2, writes[2..], true)
    {
    }
    assert CasTry(r2, sp, cart, oid, id, writes[2..], 2, fk, false) == (r.(t := sp), writes[3..], false);
    assert CasTry(r2, sp, cart, oid, id, writes[2..], 2, fk, true) == (Abort(r, sp, Contended), writes[3..], false);
  }

  /** A successful intended run of the attempts for one unit books exactly
      its line, whatever the concurrent writes did to its stock before. */
  lemma {:induction false} StrictCasAttempt(r: Run, sp: Tables, cart: map<SkuId, int>, oid: string, id: SkuId,
                                            writes: seq<Option<int>>, attempt: nat, fk: FkCheck)
    requires attempt <= 2 && r.stop.None? && oid in r.t.orders && NonNegativeWrites(writes)
    ensures var res := CasAttempt(r, sp, cart, oid, id, writes, attempt, fk, true).0;
      res.stop.None? ==> Extends(r, res, oid, [id], cart)
    decreases 2 - attempt
  {
    var (r1, rest, again) := CasTry(r, sp, cart, oid, id, writes, attempt, fk, true);
    var res := CasAttempt(r, sp, cart, oid, id, writes, attempt, fk, true).0;
    StrictCasTry(r, sp, cart, oid, id, writes, attempt, fk);
    if again && attempt < 2 {
      StrictCasAttempt(r1, sp, cart, oid, id, rest, attempt + 1, fk);
      if res.stop.None? {
        ExtendsChain(r, r1, res, oid, [], [id], cart);
        assert [] + [id] == [id];
      }
    }
  }

  /** One intended attempt: a conflict changes nothing but the conflicting
      unit's stock, to the non-negative value written concurrently; a success
      books the unit's line. */
  lemma {:induction false} StrictCasTry(r: Run, sp: Tables, cart: map<SkuId, int>, oid: string, id: SkuId,
                     writes: seq<Option<int>>, attempt: nat, fk: FkCheck)
    requires r.stop.None? && oid in r.t.orders && NonNegativeWrites(writes)
    ensures var (r1, rest, again) := CasTry(r, sp, cart, oid, id, writes, attempt, fk, true);
      (again ==> r1.stop.None? && Extends(r, r1, oid, [], cart)) &&
      (!again && r1.stop.None? ==> Extends(r, r1, oid, [id], cart))
  {
    var (r1, rest, again) := CasTry(r, sp, cart, oid, id, writes, attempt, fk, true);
    if id in r.t.skus && id in cart && cart[id] <= r.t.skus[id].stock {
      var sku, count := r.t.skus[id], cart[id];
      var t2 := Interfere(r.t, id, writes);
      if t2.skus[id].stock == sku.stock {
        assert t2.skus == r.t.skus by {
          if writes != [] && writes[0].Some? {
            assert sku.(stock := writes[0].value) == sku;
          }
        }
        assert r1.t == AddLine(r.t, oid, id, count, sku.price).(skus := r.t.skus[id := Sku(sku.price, sku.stock - count, sku.sales + count)]);
        ExtendsOne(r, r1, oid, id, cart, sku.stock - count, sku.sales + count);
      } else if again {
        assert writes != [] && writes[0].Some? && writes[0].value >= 0;
        assert r1 == r.(t := t2);
        ExtendsByStockWrite(r, oid, cart, id, writes[0].value);
      }
    }
  }

  lemma {:induction false} StrictCasLoop(r: Run, sp: Tables, cart: map<SkuId, int>, oid: string, ids: seq<SkuId>,
                                         writes: seq<Option<int>>, fk: FkCheck)
    requires r.stop.None? && oid in r.t.orders && NonNegativeWrites(writes)
    ensures var res := CasLoop(r, sp, cart, oid, ids, writes, fk, true);
      res.stop.None? ==> Extends(r, res, oid, ids, cart)
    decreases |ids|
  {
    var res := CasLoop(r, sp, cart, oid, ids, writes, fk, true);
    if ids == [] {
      ExtendsNothing(r, oid, cart);
    } else {
      var (r1, rest) := CasAttempt(r, sp, cart, oid, ids[0], writes, 0, fk, true);
      assert res == CasLoop(r1, sp, cart, oid, ids[1..], rest, fk, true) by {
        CasLoopStep(r, sp, cart, oid, ids, writes, fk, true);
      }
      if r1.stop.None? && res.stop.None? {
        assert Extends(r, r1, oid, [ids[0]], cart) by {
          StrictCasAttempt(r, sp, cart, oid, ids[0], writes, 0, fk);
        }
        assert NonNegativeWrites(rest) by {
          NonNegativeSuffix(writes, rest);
        }
        assert Extends(r1, res, oid, ids[1..], cart) by {
          StrictCasLoop(r1, sp, cart, oid, ids[1..], rest, fk);
        }
        assert Extends(r, res, oid, ids, cart) by {
          ExtendsChain(r, r1, res, oid, [ids[0]], ids[1..], cart);
          assert [ids[0]] + ids[1..] == ids;
        }
      }
    }
  }

  /** Closing the intended optimistic loop run from a freshly inserted header
      is all-or-nothing and books exactly what was ordered. */
  lemma {:induction false} CorrectedCasClose(t: Tables, cart: map<SkuId, int>, req: CommitRequest,
                                             writes: seq<Option<int>>, fk: FkCheck)
    requires NonNegativeWrites(writes) && req.addrId.Some? && OrderId(req) !in t.orders
    ensures var o := Close(cart, req, CasLoop(Run(t.(orders := t.orders[OrderId(req) := Header(req)]), 0, 0, None),
                                              t, cart, OrderId(req), req.skuIds, writes, fk, true));
      (o.res != Placed ==> o.t == t && o.cart == cart) &&
      (o.res == Placed ==> PlacedCorrectly(t, cart, req, o))
  {
    var oid := OrderId(req);
    var start := Run(t.(orders := t.orders[oid := Header(req)]), 0, 0, None);
    var res := CasLoop(start, t, cart, oid, req.skuIds, writes, fk, true);
    if res.stop.Some? {
      assert res.t == t && res.stop.value in CasRefusals(true) by {
        CasLoopRefusal(start, t, cart, oid, req.skuIds, writes, fk, true);
      }
    } else {
      assert PlacedCorrectly(t, cart, req, Close(cart, req, res)) by {
        StrictCasLoop(start, t, cart, oid, req.skuIds, writes, fk);
        PlacedFromExtends(t, cart, req, res);
      }
    }
  }

  /** The intended OrderCommitViewOPL.post is all-or-nothing and books exactly
      what was ordered, provided concurrent writers keep stock non-negative. */
  lemma {:induction false} CorrectedCasCommit(t: Tables, addresses: seq<Address>, cart: map<SkuId, int>, payMethods: set<string>,
                           req: CommitRequest, writes: seq<Option<int>>, fk: FkCheck)
    requires NonNegativeWrites(writes)
    ensures var o := CasCommit(t, addresses, cart, payMethods, req, writes, fk, true);
      (o.res != Placed ==> o.t == t && o.cart == cart) &&
      (o.res == Placed ==> PlacedCorrectly(t, cart, req, o))
  {
    if Validate(req, addresses, payMethods).None? && OrderId(req) !in t.orders {
      CasCommitOpens(t, addresses, cart, payMethods, req, writes, fk, true);
      CorrectedCasClose(t, cart, req, writes, fk);
    }
  }

  /** The optimistic code as written behaves as intended on every run the
      intended code neither refuses as understocked nor gives up as contended. */
  lemma {:induction false} CasAttemptAsWritten(r: Run, sp: Tables, cart: map<SkuId, int>, oid: string, id: SkuId,
                                               writes: seq<Option<int>>, attempt: nat, fk: FkCheck)
    requires attempt <= 2 && r.stop.None?
    requires CasAttempt(r, sp, cart, oid, id, writes, attempt, fk, true).0.stop !in {Some(UnderStocked), Some(Contended)}
    ensures CasAttempt(r, sp, cart, oid, id, writes, attempt, fk, false) == CasAttempt(r, sp, cart, oid, id, writes, attempt, fk, true)
    decreases 2 - attempt
  {
    var (r1, rest, again) := CasTry(r, sp, cart, oid, id, writes, attempt, fk, true);
    assert CasTry(r, sp, cart, oid, id, writes, attempt, fk, false) == (r1, rest, again);
    if again && attempt < 2 {
      CasAttemptAsWritten(r1, sp, cart, oid, id, rest, attempt + 1, fk);
    }
  }

  lemma {:induction false} CasLoopAsWritten(r: Run, sp: Tables, cart: map<SkuId, int>, oid: string, ids: seq<SkuId>,
                                            writes: seq<Option<int>>, fk: FkCheck)
    requires CasLoop(r, sp, cart, oid, ids, writes, fk, true).stop !in {Some(UnderStocked), Some(Contended)}
    ensures CasLoop(r, sp, cart, oid, ids, writes, fk, false) == CasLoop(r, sp, cart, oid, ids, writes, fk, true)
    decreases |ids|
  {
    if r.stop.None? && ids != [] {
      var (r1, rest) := CasAttempt(r, sp, cart, oid, ids[0], writes, 0, fk, true);
      CasLoopRefusal(r1, sp, cart, oid, ids[1..], rest, fk, true);
      CasAttemptAsWritten(r, sp, cart, oid, ids[0], writes, 0, fk);
      CasLoopAsWritten(r1, sp, cart, oid, ids[1..], rest, fk);
    }
  }

  lemma {:induction false} CasAsWrittenCommit(t: Tables, addresses: seq<Address>, cart: map<SkuId, int>, payMethods: set<string>,
                           req: CommitRequest, writes: seq<Option<int>>, fk: FkCheck)
    ensures var intended := CasCommit(t, addresses, cart, payMethods, req, writes, fk, true);
      intended.res !in {UnderStocked, Contended} ==>
        CasCommit(t, addresses, cart, payMethods, req, writes, fk, false) == intended
  {
    if Validate(req, addresses, payMethods).None? && OrderId(req) !in t.orders {
      var oid := OrderId(req);
      var start := Run(t.(orders := t.orders[oid := Header(req)]), 0, 0, None);
      var res := CasLoop(start, t, cart, oid, req.skuIds, writes, fk, true);
      if res.stop !in {Some(UnderStocked), Some(Contended)} {
        CasLoopAsWritten(start, t, cart, oid, req.skuIds, writes, fk);
      }
    }
  }

  // ---------------------------------------------------------------------------
  // Without concurrent writes the two handlers agree
  // ---------------------------------------------------------------------------

  /** With no concurrent write an intended attempt does what one locked pass
      does, and never asks for another attempt. */
  lemma {:induction false} QuietCasTry(r: Run, sp: Tables, cart: map<SkuId, int>, oid: string, id: SkuId,
                                       writes: seq<Option<int>>, attempt: nat, fk: FkCheck)
    requires Quiet(writes)
    ensures var (r1, _, again) := CasTry(r, sp, cart, oid, id, writes, attempt, fk, true);
      !again && r1 == LockedStep(r, sp, cart, oid, id, fk, true)
  {
    if id in r.t.skus && id in cart && cart[id] <= r.t.skus[id].stock {
      var sku, count := r.t.skus[id], cart[id];
      assert Interfere(r.t, id, writes) == r.t;
      var skus := r.t.skus[id := Sku(sku.price, sku.stock - count, sku.sales + count)];
      assert sku.(stock := sku.stock - count, sales := sku.sales + count) == Sku(sku.price, sku.stock - count, sku.sales + count);
      assert AddLine(r.t.(skus := skus), oid, id, count, sku.price) == AddLine(r.t, oid, id, count, sku.price).(skus := skus);
    }
  }

  lemma {:induction false} QuietCasAttempt(r: Run, sp: Tables, cart: map<SkuId, int>, oid: string, id: SkuId,
                                           writes: seq<Option<int>>, fk: FkCheck)
    requires Quiet(writes)
    ensures CasAttempt(r, sp, cart, oid, id, writes, 0, fk, true).0 == LockedStep(r, sp, cart, oid, id, fk, true)
  {
    QuietCasTry(r, sp, cart, oid, id, writes, 0, fk);
  }

  lemma {:induction false} QuietCasLoop(r: Run, sp: Tables, cart: map<SkuId, int>, oid: string, ids: seq<SkuId>,
                                        writes: seq<Option<int>>, fk: FkCheck)
    requires Quiet(writes)
    ensures CasLoop(r, sp, cart, oid, ids, writes, fk, true) == LockedLoop(r, sp, cart, oid, ids, fk, true)
    decreases |ids|
  {
    if r.stop.None? && ids != [] {
      QuietCasAttempt(r, sp, cart, oid, ids[0], writes, fk);
      var rest := CasAttempt(r, sp, cart, oid, ids[0], writes, 0, fk, true).1;
      assert Quiet(rest) by {
        forall i | 0 <= i < |rest|
          ensures rest[i].None?
        {
          assert rest[i] == writes[|writes| - |rest| + i];
        }
      }
      QuietCasLoop(LockedStep(r, sp, cart, oid, ids[0], fk, true), sp, cart, oid, ids[1..], rest, fk);
    }
  }

  /** With no concurrent write, the intended optimistic commit gives exactly
      the intended pessimistic one. */
  lemma {:induction false} QuietCasCommit(t: Tables, addresses: seq<Address>, cart: map<SkuId, int>, payMethods: set<string>,
                       req: CommitRequest, writes: seq<Option<int>>, fk: FkCheck)
    requires Quiet(writes)
    ensures CasCommit(t, addresses, cart, payMethods, req, writes, fk, true)
         == LockedCommit(t, addresses, cart, payMethods, req, fk, true)
  {
    if Validate(req, addresses, payMethods).None? && OrderId(req) !in t.orders {
      var oid := OrderId(req);
      var start := Run(t.(orders := t.orders[oid := Header(req)]), 0, 0, None);
      QuietCasLoop(start, t, cart, oid, req.skuIds, writes, fk);
    }
  }
}

/** The shopping cart: one hash per user (key cart_<user id>) from unit id to
    requested count, and the four handlers that add to, overwrite, delete
    from and display it. */
module Cart {
  import opened Common
  import opened Store

  /** What the JSON handlers answer: a refusal code, or a success code with
      the figure the page shows next to the cart. */
  datatype CartReply = Refused(res: nat) | Done(res: nat, totalCount: int)

  /** The outcome of the checks the add and update handlers share. */
  datatype Checked = Rejected(res: nat) | Accepted(sku: SkuId, count: int)

  /** The request checks of the add and update handlers, in their order:
      not logged in (0), sku_id or count missing (1), unknown unit (2),
      count that int() refuses (3). */
  function CheckRequest(authenticated: bool, skuId: Option<SkuId>, count: string, catalog: map<SkuId, Sku>): (r: Checked)
    ensures r.Accepted? <==>
      authenticated && skuId.Some? && count != "" && skuId.value in catalog && ParseInt(count).Some?
    ensures r.Accepted? ==> r.sku == skuId.value && ParseInt(count) == Some(r.count)
    ensures r == Rejected(0) <==> !authenticated
    ensures r == Rejected(1) <==> authenticated && (skuId.None? || count == "")
    ensures r == Rejected(2) <==> authenticated && skuId.Some? && count != "" && skuId.value !in catalog
    ensures r == Rejected(3) <==>
      authenticated && skuId.Some? && count != "" && skuId.value in catalog && ParseInt(count).None?
  {
    if !authenticated then Rejected(0)
    else if skuId.None? || count == "" then Rejected(1)
    else if skuId.value !in catalog then Rejected(2)
    else match ParseInt(count)
      case None => Rejected(3)
      case Some(n) => Accepted(skuId.value, n)
  }

  /** The quantity the add handler tries to store: the requested count plus
      what the cart already holds for that unit. */
  function AddedQuantity(entries: map<SkuId, int>, sku: SkuId, count: int): int
  {
    count + Weight(entries, sku)
  }

  /** The total over a cart of the unit prices times the counts, for units the
      catalogue knows. */
  ghost function CartPrice(entries: map<SkuId, int>, catalog: map<SkuId, Sku>): int
  {
    SumBy(entries.Keys, map k | k in entries && k in catalog :: catalog[k].price * entries[k])
  }

  /** The cart after HDEL of the given units: exactly the other units remain,
      with their counts. */
  function RemoveUnits(entries: map<SkuId, int>, ids: seq<SkuId>): map<SkuId, int>
  {
    entries - set i | i in ids
  }

  /** What the cart page shows: a server error when the cart names a unit the
      catalogue lacks, otherwise the totals. */
  datatype CartPage = MissingSku | Page(totalCount: int, totalPrice: int)

  /** The cart of one user, as stored in its hash. */
  class CartHash {
    var entries: map<SkuId, int>

    constructor (entries: map<SkuId, int>)
      ensures this.entries == entries
    {
      this.entries := entries;
    }

    /** HLEN: the number of distinct units in the cart. */
    function Len(): nat
      reads this
    {
      |entries|
    }

    /** The loop over HVALS that adds up the counts. */
    method SumValues() returns (total: int)
      ensures total == MapSum(entries)
    {
      var rest := entries.Keys;
      total := 0;
      while rest != {}
        invariant rest <= entries.Keys
        invariant total + SumBy(rest, entries) == MapSum(entries)
        decreases rest
      {
        var k :| k in rest;
        SumByPick(rest, entries, k);
        total := total + entries[k];
        rest := rest - {k};
      }
    }

    /** CartAddView.post: add the requested count to what the cart holds, if
        the unit's stock covers the sum; answer with the number of distinct
        units in the cart. */
    method Add(authenticated: bool, skuId: Option<SkuId>, count: string, catalog: map<SkuId, Sku>)
      returns (reply: CartReply)
      modifies this
      ensures match CheckRequest(authenticated, skuId, count, catalog)
        case Rejected(c) => reply == Refused(c) && entries == old(entries)
        case Accepted(k, n) =>
          var q := AddedQuantity(old(entries), k, n);
          if q > catalog[k].stock then reply == Refused(4) && entries == old(entries)
          else entries == old(entries)[k := q] && reply == Done(5, |entries|)
    {
      var checked := CheckRequest(authenticated, skuId, count, catalog);
      if checked.Rejected? {
        return Refused(checked.res);
      }
      var k, n := checked.sku, checked.count;
      if k in entries {
        n := n + entries[k];
      }
      if n > catalog[k].stock {
        return Refused(4);
      }
      entries := entries[k := n];
      reply := Done(5, Len());
    }

    /** CartUpdateView.post: overwrite the unit's count, if its stock covers
        it; answer with the sum of all counts in the cart. */
    method Update(authenticated: bool, skuId: Option<SkuId>, count: string, catalog: map<SkuId, Sku>)
      returns (reply: CartReply)
      modifies this
      ensures match CheckRequest(authenticated, skuId, count, catalog)
        case Rejected(c) => reply == Refused(c) && entries == old(entries)
        case Accepted(k, n) =>
          if n > catalog[k].stock then reply == Refused(4) && entries == old(entries)
          else entries == old(entries)[k := n] && reply == Done(5, MapSum(entries))
    {
      var checked := CheckRequest(authenticated, skuId, count, catalog);
      if checked.Rejected? {
        return Refused(checked.res);
      }
      var k, n := checked.sku, checked.count;
      if n > catalog[k].stock {
        return Refused(4);
      }
      entries := entries[k := n];
      var total := SumValues();
      reply := Done(5, total);
    }

    /** CartDeleteView.post: remove the unit's entry (if any); answer with the
        sum of the counts that remain. */
    method Delete(authenticated: bool, skuId: Option<SkuId>, catalog: map<SkuId, Sku>)
      returns (reply: CartReply)
      modifies this
      ensures !authenticated ==> reply == Refused(0) && entries == old(entries)
      ensures authenticated && skuId.None? ==> reply == Refused(1) && entries == old(entries)
      ensures authenticated && skuId.Some? && skuId.value !in catalog ==>
        reply == Refused(2) && entries == old(entries)
      ensures authenticated && skuId.Some? && skuId.value in catalog ==>
        entries == old(entries) - {skuId.value} && reply == Done(3, MapSum(entries))
    {
      if !authenticated {
        return Refused(0);
      }
      if skuId.None? {
        return Refused(1);
      }
      if skuId.value !in catalog {
        return Refused(2);
      }
      entries := entries - {skuId.value};
      var total := SumValues();
      reply := Done(3, total);
    }

    /** HDEL of several fields at once. */
    method DeleteAll(ids: seq<SkuId>)
      modifies this
      ensures entries == RemoveUnits(old(entries), ids)
    {
      entries := RemoveUnits(entries, ids);
    }

    /** CartInfoView.get: the total count and total price over the cart. */
    method Info(catalog: map<SkuId, Sku>) returns (page: CartPage)
      ensures page.Page? <==> entries.Keys <= catalog.Keys
      ensures page.Page? ==> page.totalCount == MapSum(entries) && page.totalPrice == CartPrice(entries, catalog)
    {
      ghost var prices := map k | k in entries && k in catalog :: catalog[k].price * entries[k];
      var rest := entries.Keys;
      var totalCount, totalPrice := 0, 0;
      while rest != {}
        invariant rest <= entries.Keys
        invariant entries.Keys - rest <= catalog.Keys
        invariant totalCount + SumBy(rest, entries) == MapSum(entries)
        invariant totalPrice + SumBy(rest, prices) == CartPrice(entries, catalog)
        decreases rest
      {
        var k :| k in rest;
        if k !in catalog {
          return MissingSku;
        }
        SumByPick(rest, entries, k);
        SumByPick(rest, prices, k);
        var amount := catalog[k].price * entries[k];
        totalCount := totalCount + entries[k];
        totalPrice := totalPrice + amount;
        rest := rest - {k};
      }
      page := Page(totalCount, totalPrice);
    }
  }

  /** Add answers with the new number of distinct units: one more than before
      exactly when the unit was not yet in the cart. */
  lemma AddCountsDistinctUnits(entries: map<SkuId, int>, k: SkuId, q: int)
    ensures |entries[k := q]| == if k in entries then |entries| else |entries| + 1
  {
    if k !in entries {
      assert (entries[k := q]).Keys == entries.Keys + {k};
    } else {
      assert (entries[k := q]).Keys == entries.Keys;
    }
  }

  /** Update changes the total only by the difference at the updated unit. */
  lemma UpdateTotal(entries: map<SkuId, int>, k: SkuId, n: int)
    ensures MapSum(entries[k := n]) == MapSum(entries) - Weight(entries, k) + n
  {
    MapSumStore(entries, k, n);
    if k in entries {
      MapSumRemove(entries, k);
    } else {
      assert entries - {k} == entries;
    }
  }

  /** Delete lowers the total by exactly the deleted unit's count, and by
      nothing when the unit was not in the cart. */
  lemma DeleteTotal(entries: map<SkuId, int>, k: SkuId)
    ensures MapSum(entries - {k}) == MapSum(entries) - Weight(entries, k)
  {
    if k in entries {
      MapSumRemove(entries, k);
    } else {
      assert entries - {k} == entries;
    }
  }
}

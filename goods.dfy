/** The catalogue pages: the sort order of the goods list, the cart badge
    every page shows, and the per-user list of recently viewed units that the
    detail page maintains. */
module Goods {
  import opened Common
  import opened Store
  import opened Cart
  import opened Paging

  /** The order the goods list is queried in. */
  datatype SortKey = PriceAscending | SalesDescending | IdDescending

  /** The `sort` query parameter picks the order and the label echoed to the
      page: "price" sorts by ascending price, "hot" by descending sales, and
      anything else (absent included) is labelled "default" and sorts by
      descending id. */
  function SelectSort(sort: Option<string>): (r: (string, SortKey))
    ensures sort == Some("price") <==> r.1 == PriceAscending
    ensures sort == Some("hot") <==> r.1 == SalesDescending
    ensures r.0 == (if r.1 == PriceAscending then "price" else if r.1 == SalesDescending then "hot" else "default")
  {
    if sort == Some("price") then ("price", PriceAscending)
    else if sort == Some("hot") then ("hot", SalesDescending)
    else ("default", IdDescending)
  }

  /** Sending back the label the page shows selects the same order again. */
  lemma SortLabelRoundTrip(sort: Option<string>)
    ensures SelectSort(Some(SelectSort(sort).0)) == SelectSort(sort)
  {
  }

  /** The number shown on the cart badge: the number of distinct units in the
      user's cart when logged in, 0 otherwise. */
  method CartBadge(authenticated: bool, cart: CartHash) returns (count: nat)
    ensures count == if authenticated then |cart.entries| else 0
  {
    count := 0;
    if authenticated {
      count := cart.Len();
    }
  }

  /** The answers of GoodsListView.get: back to the index for an unknown
      category, a server error for a page below 1, or the listing. */
  datatype ListPage =
    | UnknownType
    | BadPage
    | Listing(sort: string, key: SortKey, page: int, links: seq<int>, cartCount: nat)

  /** GoodsListView.get, given whether the category exists and the page
      count of the three-per-page paginator over its units. */
  method ShowList(typeKnown: bool, sort: Option<string>, page: string, numPages: nat,
                  authenticated: bool, cart: CartHash) returns (p: ListPage)
    requires numPages >= 1
    ensures p == UnknownType <==> !typeKnown
    ensures p == BadPage <==> typeKnown && NormalizePage(page, numPages) == EmptyPage
    ensures p.Listing? ==> (p.sort, p.key) == SelectSort(sort) && Shown(p.page) == NormalizePage(page, numPages)
    ensures p.Listing? ==> p.links == PageWindow(p.page, numPages) && ConsecutivePages(p.links, numPages)
    ensures p.Listing? ==> p.cartCount == if authenticated then |cart.entries| else 0
  {
    if !typeKnown {
      return UnknownType;
    }
    var order := SelectSort(sort);
    var choice := NormalizePage(page, numPages);
    if choice == EmptyPage {
      return BadPage;
    }
    var links := PageWindow(choice.page, numPages);
    WindowWithinPages(choice.page, numPages);
    var count := CartBadge(authenticated, cart);
    p := Listing(order.0, order.1, choice.page, links, count);
  }

  /** The list without any occurrence of g (LREM with count 0). */
  function Without(h: seq<SkuId>, g: SkuId): (r: seq<SkuId>)
    ensures g !in r
    ensures forall x :: x != g ==> multiset(r)[x] == multiset(h)[x]
    ensures |r| <= |h|
    decreases |h|
  {
    if h == [] then []
    else if h[0] == g then (assert h == [h[0]] + h[1..]; Without(h[1..], g))
    else (assert h == [h[0]] + h[1..]; [h[0]] + Without(h[1..], g))
  }

  /** LREM keeps the order of what it leaves: removing g from a list is
      removing it from each part, and a single unit stays exactly when it is
      not g. */
  lemma {:induction false} WithoutKeepsOrder(a: seq<SkuId>, b: seq<SkuId>, g: SkuId)
    ensures Without(a + b, g) == Without(a, g) + Without(b, g)
    ensures forall x :: Without([x], g) == if x == g then [] else [x]
    decreases |a|
  {
    if a == [] {
      assert a + b == b;
    } else {
      assert (a + b)[0] == a[0] && (a + b)[1..] == a[1..] + b;
      WithoutKeepsOrder(a[1..], b, g);
    }
  }

  /** The history after a visit of g: g first, then the previous history
      without g, cut to five entries. */
  function AfterVisit(h: seq<SkuId>, g: SkuId): seq<SkuId>
  {
    var l := [g] + Without(h, g);
    if |l| <= 5 then l else l[..5]
  }

  /** The list of recently viewed units of one user (key history_<user id>),
      most recent first. */
  class History {
    var items: seq<SkuId>

    constructor (items: seq<SkuId>)
      ensures this.items == items
    {
      this.items := items;
    }

    /** LREM 0, LPUSH, LTRIM 0 4. */
    method Visit(g: SkuId)
      modifies this
      ensures items == AfterVisit(old(items), g)
    {
      items := Without(items, g);
      items := [g] + items;
      if |items| > 5 {
        items := items[..5];
      }
    }
  }

  /** After a visit, g heads the history, appears in it exactly once, and the
      history holds at most five units; the others keep their relative order
      and are the most recent of the earlier ones. */
  lemma {:induction false} VisitProperties(h: seq<SkuId>, g: SkuId)
    ensures var r := AfterVisit(h, g);
      1 <= |r| <= 5 && r[0] == g && multiset(r)[g] == 1 &&
      r[1..] == Without(h, g)[..|r| - 1]
  {
    var l := [g] + Without(h, g);
    var r := AfterVisit(h, g);
    assert multiset(l)[g] == 1;
    if |l| > 5 {
      assert l == r + l[5..];
      assert multiset(l) == multiset(r) + multiset(l[5..]);
    }
  }

  /** No unit occurs twice. */
  predicate Distinct(s: seq<SkuId>)
  {
    forall i, j :: 0 <= i < j < |s| ==> s[i] != s[j]
  }

  /** A history without repeats stays without repeats. */
  lemma {:induction false} VisitKeepsDistinct(h: seq<SkuId>, g: SkuId)
    requires Distinct(h)
    ensures Distinct(AfterVisit(h, g))
  {
    var w := Without(h, g);
    WithoutKeepsDistinct(h, g);
    var l := [g] + w;
    assert Distinct(l) by {
      forall i, j | 0 <= i < j < |l|
        ensures l[i] != l[j]
      {
        if i == 0 {
          assert l[j] == w[j - 1] && w[j - 1] in w && g !in w;
        } else {
          assert l[i] == w[i - 1] && l[j] == w[j - 1] && w[i - 1] != w[j - 1];
        }
      }
    }
  }

  lemma {:induction false} WithoutKeepsDistinct(h: seq<SkuId>, g: SkuId)
    requires Distinct(h)
    ensures Distinct(Without(h, g))
    ensures forall x :: x in Without(h, g) ==> x in h
    decreases |h|
  {
    if h != [] {
      WithoutKeepsDistinct(h[1..], g);
      if h[0] != g {
        var w := Without(h, g);
        assert w == [h[0]] + Without(h[1..], g);
        assert h[0] !in h[1..];
        forall x | x in Without(h[1..], g) ensures x != h[0] {}
      }
    }
  }

  /** Visiting the same unit twice in a row is the same as visiting it once. */
  lemma {:induction false} VisitIdempotent(h: seq<SkuId>, g: SkuId)
    ensures AfterVisit(AfterVisit(h, g), g) == AfterVisit(h, g)
  {
    var r := AfterVisit(h, g);
    VisitProperties(h, g);
    WithoutFirst(r, g);
  }

  /** Removing g from a list headed by its only g leaves the tail. */
  lemma {:induction false} WithoutFirst(r: seq<SkuId>, g: SkuId)
    requires |r| >= 1 && r[0] == g && multiset(r)[g] == 1
    ensures Without(r, g) == r[1..]
  {
    assert r == [g] + r[1..];
    assert multiset(r) == multiset{g} + multiset(r[1..]);
    WithoutAbsent(r[1..], g);
  }

  lemma {:induction false} WithoutAbsent(h: seq<SkuId>, g: SkuId)
    requires g !in h
    ensures Without(h, g) == h
    decreases |h|
  {
    if h != [] {
      WithoutAbsent(h[1..], g);
    }
  }

  /** The detail page: back to the index for an unknown unit; otherwise the
      badge count, and for a logged-in user the unit is recorded as viewed. */
  datatype DetailPage = ToIndex | Detail(cartCount: nat)

  /** GoodsDetailView.get. */
  method ShowDetail(goodsId: SkuId, catalog: map<SkuId, Sku>, authenticated: bool, cart: CartHash, history: History)
    returns (page: DetailPage)
    modifies history
    ensures goodsId !in catalog ==> page == ToIndex && history.items == old(history.items)
    ensures goodsId in catalog ==> page == Detail(if authenticated then |cart.entries| else 0)
    ensures goodsId in catalog && authenticated ==> history.items == AfterVisit(old(history.items), goodsId)
    ensures !authenticated ==> history.items == old(history.items)
  {
    if goodsId !in catalog {
      return ToIndex;
    }
    var count := CartBadge(authenticated, cart);
    if authenticated {
      history.Visit(goodsId);
    }
    page := Detail(count);
  }
}

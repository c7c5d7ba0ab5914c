/** Review submission (OrderCommentView.post): the customer's comments are
    written into the order's lines one form slot at a time, then the order is
    marked completed. */
module Review {
  import opened Common
  import opened Store

  /** Where the handler sends the browser: the order list, or a server error
      from an exception it does not catch. */
  datatype CommentReply = ToOrders | ServerError

  /** The positions of the lines of order `oid` for unit `sku`. */
  function Matching(lines: seq<OrderLine>, oid: string, sku: SkuId): (r: seq<nat>)
    ensures forall k :: 0 <= k < |r| ==> r[k] < |lines| && lines[r[k]].order == oid && lines[r[k]].sku == sku
    ensures forall j :: 0 <= j < |lines| && lines[j].order == oid && lines[j].sku == sku ==> j in r
    ensures forall a, b :: 0 <= a < b < |r| ==> r[a] < r[b]
    decreases |lines|
  {
    if lines == [] then []
    else
      var n := |lines| - 1;
      var rest := Matching(lines[..n], oid, sku);
      if lines[n].order == oid && lines[n].sku == sku then rest + [n] else rest
  }

  /** The form's comment for slot i, or "" when the slot has none. */
  function Content(contents: map<int, string>, i: int): string
  {
    if i in contents then contents[i] else ""
  }

  /** Slots i to n of the form: a slot whose unit id is missing, or names no
      line of the order, is skipped; a slot naming exactly one line writes its
      comment; a slot naming several lines raises, leaving the comments
      written so far. The flag says whether all slots were processed. */
  function CommentFrom(lines: seq<OrderLine>, oid: string, skus: map<int, SkuId>, contents: map<int, string>,
                       i: int, n: int): (bool, seq<OrderLine>)
    decreases n + 1 - i
  {
    if i > n then (true, lines)
    else if i !in skus then CommentFrom(lines, oid, skus, contents, i + 1, n)
    else
      var m := Matching(lines, oid, skus[i]);
      if |m| == 0 then CommentFrom(lines, oid, skus, contents, i + 1, n)
      else if |m| > 1 then (false, lines)
      else CommentFrom(lines[m[0] := lines[m[0]].(comment := Content(contents, i))], oid, skus, contents, i + 1, n)
  }

  /** OrderCommentView.post as a function: the answer, the order table and the
      order lines afterwards. `totalCount` is the form's total_count field. */
  function CommentOf(orders: map<string, OrderInfo>, lines: seq<OrderLine>, authenticated: bool, user: UserId,
                     oid: string, totalCount: Option<string>, skus: map<int, SkuId>, contents: map<int, string>)
    : (CommentReply, map<string, OrderInfo>, seq<OrderLine>)
  {
    if !authenticated || oid == "" || oid !in orders || orders[oid].user != user then (ToOrders, orders, lines)
    else if totalCount.None? || ParseInt(totalCount.value).None? then (ServerError, orders, lines)
    else
      var (done, after) := CommentFrom(lines, oid, skus, contents, 0, ParseInt(totalCount.value).value);
      if done then (ToOrders, orders[oid := orders[oid].(status := StatusCompleted)], after)
      else (ServerError, orders, after)
  }

  /** OrderCommentView.post. */
  method Comment(db: Database, authenticated: bool, user: UserId, oid: string, totalCount: Option<string>,
                 skus: map<int, SkuId>, contents: map<int, string>)
    returns (reply: CommentReply)
    modifies db
    ensures (reply, db.orders, db.lines) == CommentOf(old(db.orders), old(db.lines), authenticated, user, oid, totalCount, skus, contents)
    ensures db.skus == old(db.skus) && db.addresses == old(db.addresses)
  {
    if !authenticated || oid == "" || oid !in db.orders || db.orders[oid].user != user {
      return ToOrders;
    }
    if totalCount.None? {
      // int(None) raises
      return ServerError;
    }
    var parsed := ParseInt(totalCount.value);
    if parsed.None? {
      return ServerError;
    }
    var n := parsed.value;
    var i := 0;
    while i <= n
      invariant 0 <= i && (n >= 0 ==> i <= n + 1)
      invariant db.orders == old(db.orders) && db.skus == old(db.skus) && db.addresses == old(db.addresses)
      invariant CommentFrom(db.lines, oid, skus, contents, i, n) == CommentFrom(old(db.lines), oid, skus, contents, 0, n)
      decreases n + 1 - i
    {
      if i in skus {
        var m := Matching(db.lines, oid, skus[i]);
        if |m| > 1 {
          // MultipleObjectsReturned
          return ServerError;
        }
        if |m| == 1 {
          db.lines := db.lines[m[0] := db.lines[m[0]].(comment := Content(contents, i))];
        }
      }
      i := i + 1;
    }
    db.orders := db.orders[oid := db.orders[oid].(status := StatusCompleted)];
    return ToOrders;
  }

  /** Matching looks only at each line's order and unit. */
  lemma {:induction false} MatchingSameKeys(a: seq<OrderLine>, b: seq<OrderLine>, oid: string, sku: SkuId)
    requires |a| == |b| && forall i :: 0 <= i < |a| ==> a[i].order == b[i].order && a[i].sku == b[i].sku
    ensures Matching(a, oid, sku) == Matching(b, oid, sku)
    decreases |a|
  {
    if a != [] {
      var n := |a| - 1;
      MatchingSameKeys(a[..n], b[..n], oid, sku);
    }
  }

  /** Writing a comment never changes which lines match a slot. */
  lemma {:induction false} MatchingIgnoresComments(lines: seq<OrderLine>, j: nat, c: string, oid: string, sku: SkuId)
    requires j < |lines|
    ensures Matching(lines[j := lines[j].(comment := c)], oid, sku) == Matching(lines, oid, sku)
  {
    MatchingSameKeys(lines[j := lines[j].(comment := c)], lines, oid, sku);
  }

  /** The same line with possibly another comment. */
  predicate SameButComment(a: OrderLine, b: OrderLine)
  {
    a.(comment := "") == b.(comment := "")
  }

  /** A review pass only rewrites comments, and only on lines of the
      reviewed order: line count, units, counts and prices are kept. */
  lemma {:induction false} CommentsOnlyTouchComments(lines: seq<OrderLine>, oid: string, skus: map<int, SkuId>,
                                                     contents: map<int, string>, i: int, n: int)
    ensures var after := CommentFrom(lines, oid, skus, contents, i, n).1;
      |after| == |lines| &&
      forall j :: 0 <= j < |lines| ==> SameButComment(after[j], lines[j]) && (lines[j].order != oid ==> after[j] == lines[j])
    decreases n + 1 - i
  {
    if i <= n {
      if i in skus {
        var m := Matching(lines, oid, skus[i]);
        if |m| == 0 {
          CommentsOnlyTouchComments(lines, oid, skus, contents, i + 1, n);
        } else if |m| == 1 {
          var lines' := lines[m[0] := lines[m[0]].(comment := Content(contents, i))];
          CommentsOnlyTouchComments(lines', oid, skus, contents, i + 1, n);
        }
      } else {
        CommentsOnlyTouchComments(lines, oid, skus, contents, i + 1, n);
      }
    }
  }

  /** Slot k names a unit with several lines in the order. */
  predicate Ambiguous(lines: seq<OrderLine>, oid: string, skus: map<int, SkuId>, k: int)
  {
    k in skus && |Matching(lines, oid, skus[k])| > 1
  }

  /** A review pass fails exactly when some slot from i to n names a unit with
      several lines in the order. */
  lemma {:induction false} CommentFailsIffAmbiguous(lines: seq<OrderLine>, oid: string, skus: map<int, SkuId>,
                                                    contents: map<int, string>, i: int, n: int)
    ensures !CommentFrom(lines, oid, skus, contents, i, n).0 <==> exists k :: i <= k <= n && Ambiguous(lines, oid, skus, k)
    decreases n + 1 - i
  {
    if i > n || Ambiguous(lines, oid, skus, i) {
      return;
    }
    var lines' := lines;
    if i in skus && |Matching(lines, oid, skus[i])| == 1 {
      var m := Matching(lines, oid, skus[i]);
      lines' := lines[m[0] := lines[m[0]].(comment := Content(contents, i))];
      forall k | i + 1 <= k <= n
        ensures Ambiguous(lines', oid, skus, k) == Ambiguous(lines, oid, skus, k)
      {
        if k in skus {
          MatchingIgnoresComments(lines, m[0], Content(contents, i), oid, skus[k]);
        }
      }
    }
    assert CommentFrom(lines, oid, skus, contents, i, n) == CommentFrom(lines', oid, skus, contents, i + 1, n);
    CommentFailsIffAmbiguous(lines', oid, skus, contents, i + 1, n);
  }

  /** The handler completes the order whatever its status was: an order still
      unpaid can be reviewed and is then marked completed. */
  lemma CompletesWithoutStatusCheck(orders: map<string, OrderInfo>, lines: seq<OrderLine>, user: UserId, oid: string)
    requires oid in orders && oid != "" && orders[oid].user == user && orders[oid].status == StatusUnpaid
    ensures var (reply, after, _) := CommentOf(orders, lines, true, user, oid, Some("0"), map[], map[]);
      reply == ToOrders && after[oid].status == StatusCompleted
  {
    assert ParseInt("0") == Some(0) by {
      ParseIntString(0);
      assert IntString(0) == "0";
    }
  }
}

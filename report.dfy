/** The report page: four statistics computed from the admin's items and
    export records, and the guards of the load flow in front of them. */
module Report {
  import opened Common
  import opened Records

  datatype Stats = Stats(totalProducts: nat, totalSold: int, pendingOrders: nat, totalRevenue: int)

  /** What the page ends up doing: the statistics it writes, or why it wrote none. */
  datatype ReportOutcome = LoginRedirect | MissingAdminId | LoadFailed | Shown(stats: Stats)

  // ---------------------------------------------------------------------
  // totalSold: exports.reduce((sum, exp) => sum + exp.quantityShipped, 0)
  // ---------------------------------------------------------------------

  /** The left fold of `reduce`, peeling the last record. */
  function TotalSold(exports: seq<ExportRecord>): int
  {
    if exports == [] then 0
    else TotalSold(exports[..|exports| - 1]) + exports[|exports| - 1].quantityShipped
  }

  lemma {:induction false} TotalSoldAppend(a: seq<ExportRecord>, b: seq<ExportRecord>)
    ensures TotalSold(a + b) == TotalSold(a) + TotalSold(b)
    decreases |b|
  {
    if b == [] {
      assert a + b == a;
    } else {
      var b' := b[..|b| - 1];
      TotalSoldAppend(a, b');
      assert (a + b)[..|a + b| - 1] == a + b';
    }
  }

  /** Read from the front, the fold is the plain sum of shipped quantities. */
  lemma TotalSoldFirst(e: ExportRecord, rest: seq<ExportRecord>)
    ensures TotalSold([e] + rest) == e.quantityShipped + TotalSold(rest)
  {
    TotalSoldAppend([e], rest);
    assert [e][..0] == [];
  }

  /** Reference definition: the plain sum of shipped quantities. */
  function ShippedSum(exports: seq<ExportRecord>): int
  {
    if exports == [] then 0 else exports[0].quantityShipped + ShippedSum(exports[1..])
  }

  /** The `reduce` fold is the plain sum of shipped quantities, from 0. */
  lemma {:induction false} TotalSoldIsShippedSum(exports: seq<ExportRecord>)
    ensures TotalSold(exports) == ShippedSum(exports)
    decreases |exports|
  {
    if exports != [] {
      TotalSoldIsShippedSum(exports[1..]);
      TotalSoldFirst(exports[0], exports[1..]);
      assert [exports[0]] + exports[1..] == exports;
    }
  }

  // ---------------------------------------------------------------------
  // pendingOrders: exports.filter(exp => exp.status?.toLowerCase() === "pending").length
  // ---------------------------------------------------------------------

  /** `exp.status?.toLowerCase() === "pending"`; an absent status gives
      undefined, which is never equal to "pending". */
  predicate IsPending(e: ExportRecord)
  {
    e.status.Some? && AsciiLower(e.status.value) == "pending"
  }

  /** Lower-casing then comparing is a letter-by-letter comparison in
      which each letter may be in either case. */
  lemma PendingIgnoresCase(s: string)
    ensures AsciiLower(s) == "pending" <==>
      (|s| == 7 && forall i :: 0 <= i < 7 ==> s[i] == "pending"[i] || s[i] == "PENDING"[i])
  {
  }

  /** The number of pending records, each occurrence counted. */
  function CountPending(exports: seq<ExportRecord>): nat
  {
    if exports == [] then 0
    else (if IsPending(exports[0]) then 1 else 0) + CountPending(exports[1..])
  }

  /** The records kept by `filter`, in their original order: every pending
      record as often as it occurs, and nothing else; so the length read as
      `pendingOrders` is the number of pending records. */
  function PendingRecords(exports: seq<ExportRecord>): (r: seq<ExportRecord>)
    ensures |r| <= |exports|
    ensures |r| == CountPending(exports)
    ensures forall e :: multiset(r)[e] == if IsPending(e) then multiset(exports)[e] else 0
    ensures forall e :: e in r ==> e in exports && IsPending(e)
    ensures forall e :: e in exports && IsPending(e) ==> e in r
  {
    if exports == [] then []
    else
      assert exports == [exports[0]] + exports[1..];
      if IsPending(exports[0]) then [exports[0]] + PendingRecords(exports[1..])
      else PendingRecords(exports[1..])
  }

  // ---------------------------------------------------------------------
  // totalRevenue
  // ---------------------------------------------------------------------

  /** `items.find(i => i.id === id)`, as the index of the first match. */
  function FindIndex(items: seq<Item>, id: int): (r: Option<nat>)
    ensures r.None? <==> forall k :: 0 <= k < |items| ==> items[k].id != id
    ensures r.Some? ==> r.value < |items| && items[r.value].id == id
    ensures r.Some? ==> forall k :: 0 <= k < r.value ==> items[k].id != id
  {
    if items == [] then None
    else if items[0].id == id then Some(0)
    else match FindIndex(items[1..], id)
      case None => None
      case Some(k) => Some(k + 1)
  }

  /** `item?.price || 0`: the price of the first item with that id, 0 when
      there is none (a price of 0 is falsy and gives 0 as well). */
  function PriceFor(items: seq<Item>, id: int): int
  {
    match FindIndex(items, id)
    case None => 0
    case Some(k) => items[k].price
  }

  /** What one record adds to the revenue, or None when the callback's
      `exp.item.id` throws because the record has no item. The callback
      only runs when `items` is non-empty; otherwise `find` gives undefined
      and the record adds `quantityShipped * 0`. */
  function Contribution(items: seq<Item>, e: ExportRecord): Option<int>
  {
    if items == [] then Some(0)
    else match e.item
      case None => None
      case Some(ref) => Some(e.quantityShipped * PriceFor(items, ref.id))
  }

  /** The left fold of `reduce`; None once any record's callback throws. */
  function TotalRevenue(items: seq<Item>, exports: seq<ExportRecord>): Option<int>
  {
    if exports == [] then Some(0)
    else match TotalRevenue(items, exports[..|exports| - 1])
      case None => None
      case Some(sum) =>
        match Contribution(items, exports[|exports| - 1])
        case None => None
        case Some(c) => Some(sum + c)
  }

  /** Reference definition: the sum, over the records whose item id matches
      some item, of shipped quantity times that item's price. */
  function MatchedRevenue(items: seq<Item>, exports: seq<ExportRecord>): int
  {
    if exports == [] then 0
    else
      var e := exports[0];
      var term :=
        if e.item.Some? && FindIndex(items, e.item.value.id).Some?
        then e.quantityShipped * items[FindIndex(items, e.item.value.id).value].price
        else 0;
      term + MatchedRevenue(items, exports[1..])
  }

  lemma {:induction false} MatchedRevenueAppend(items: seq<Item>, a: seq<ExportRecord>, b: seq<ExportRecord>)
    ensures MatchedRevenue(items, a + b) == MatchedRevenue(items, a) + MatchedRevenue(items, b)
    decreases |a|
  {
    if a == [] {
      assert a + b == b;
    } else {
      MatchedRevenueAppend(items, a[1..], b);
      assert (a + b)[1..] == a[1..] + b;
    }
  }

  /** The revenue fold fails exactly when some record has no item and there
      are items for `find` to run its callback on. */
  lemma {:induction false} RevenueFailsExactly(items: seq<Item>, exports: seq<ExportRecord>)
    ensures TotalRevenue(items, exports).None? <==>
      (items != [] && exists k :: 0 <= k < |exports| && exports[k].item.None?)
    decreases |exports|
  {
    if exports != [] {
      var init := exports[..|exports| - 1];
      RevenueFailsExactly(items, init);
      if exists k :: 0 <= k < |init| && init[k].item.None? {
        var k :| 0 <= k < |init| && init[k].item.None?;
        assert exports[k] == init[k];
      }
      if exists k :: 0 <= k < |exports| && exports[k].item.None? {
        var k :| 0 <= k < |exports| && exports[k].item.None?;
        if k < |init| {
          assert init[k] == exports[k];
        }
      }
    }
  }

  /** When the fold succeeds it equals the reference sum: unmatched records
      contribute nothing. */
  lemma {:induction false} RevenueIsMatchedSum(items: seq<Item>, exports: seq<ExportRecord>)
    requires TotalRevenue(items, exports).Some?
    ensures TotalRevenue(items, exports) == Some(MatchedRevenue(items, exports))
    decreases |exports|
  {
    if exports != [] {
      var init, last := exports[..|exports| - 1], exports[|exports| - 1];
      RevenueIsMatchedSum(items, init);
      MatchedRevenueAppend(items, init, [last]);
      assert init + [last] == exports;
      assert MatchedRevenue(items, [last]) == Contribution(items, last).value by {
        if items == [] {
          assert FindIndex(items, if last.item.Some? then last.item.value.id else 0).None?;
        }
      }
    }
  }

  /** A record whose item id matches nothing, or whose first match has a
      price of 0, leaves the revenue as it was. */
  lemma UnpricedRecordAddsNothing(items: seq<Item>, exports: seq<ExportRecord>, e: ExportRecord)
    requires e.item.Some?
    requires FindIndex(items, e.item.value.id).None? || items[FindIndex(items, e.item.value.id).value].price == 0
    ensures TotalRevenue(items, exports + [e]) == TotalRevenue(items, exports)
  {
  }

  /** With no items, nothing throws and the revenue is 0. */
  lemma {:induction false} NoItemsNoRevenue(exports: seq<ExportRecord>)
    ensures TotalRevenue([], exports) == Some(0)
    decreases |exports|
  {
    if exports != [] {
      NoItemsNoRevenue(exports[..|exports| - 1]);
    }
  }

  // ---------------------------------------------------------------------
  // The calculation block and the load flow
  // ---------------------------------------------------------------------

  /** The four statistics, or None when the revenue fold throws: the item
      count, the plain sum of shipped quantities, the number of pending
      records and the sum over matched records of quantity times price. */
  function ComputeStats(items: seq<Item>, exports: seq<ExportRecord>): (r: Option<Stats>)
    ensures r.Some? <==> TotalRevenue(items, exports).Some?
    ensures r.Some? ==> r.value.totalProducts == |items|
    ensures r.Some? ==> r.value.totalSold == ShippedSum(exports)
    ensures r.Some? ==> r.value.pendingOrders == CountPending(exports)
    ensures r.Some? ==> r.value.totalRevenue == MatchedRevenue(items, exports)
  {
    TotalSoldIsShippedSum(exports);
    match TotalRevenue(items, exports)
    case None => None
    case Some(revenue) =>
      RevenueIsMatchedSum(items, exports);
      Some(Stats(|items|, TotalSold(exports), |PendingRecords(exports)|, revenue))
  }

  /** With no export records, three statistics are 0 whatever the items. */
  lemma EmptyExportsGiveZeros(items: seq<Item>)
    ensures ComputeStats(items, []) == Some(Stats(|items|, 0, 0, 0))
  {
  }

  /** Items [{id:1, price:10}] and exports [{item:{id:1}, quantityShipped:3,
      status:"Pending"}, {item:{id:2}, quantityShipped:5, status:"Shipped"}]
      give 1 product, 8 sold, 1 pending and a revenue of 30. */
  lemma WorkedExample()
    ensures
      var items := [Item(1, "Widget", None, 10, 0, None)];
      var exports := [
        ExportRecord(1, Some(ItemRef(1, None)), "", "", None, 0, 0, 3, Some("Pending")),
        ExportRecord(2, Some(ItemRef(2, None)), "", "", None, 0, 0, 5, Some("Shipped"))];
      ComputeStats(items, exports) == Some(Stats(1, 8, 1, 30))
  {
    var items := [Item(1, "Widget", None, 10, 0, None)];
    var e1 := ExportRecord(1, Some(ItemRef(1, None)), "", "", None, 0, 0, 3, Some("Pending"));
    var e2 := ExportRecord(2, Some(ItemRef(2, None)), "", "", None, 0, 0, 5, Some("Shipped"));
    var exports := [e1, e2];
    assert exports[..1] == [e1] && [e1][..0] == [];
    assert TotalSold(exports) == 8 by {
      assert TotalSold([e1]) == 3;
    }
    assert PendingRecords(exports) == [e1] by {
      assert AsciiLower("Pending") == "pending";
      assert AsciiLower("Shipped")[0] == 's';
      assert exports[1..] == [e2] && [e2][1..] == [];
    }
    assert TotalRevenue(items, exports) == Some(30) by {
      assert FindIndex(items, 1) == Some(0);
      assert FindIndex(items, 2) == None;
      assert TotalRevenue(items, [e1]) == Some(30);
      assert Contribution(items, e2) == Some(0);
    }
  }

  /** `fetch` then `res.json()`, as the report page uses it: the `ok` flag is
      not consulted, and a rejected request or body fails the whole load. */
  function ReportBody<T>(f: Fetched<T>): Option<T>
  {
    match f
    case NetworkError => None
    case Response(_, body) => body
  }

  /** `!adminId`: an absent or empty admin id. */
  predicate AdminIdMissing(u: User)
  {
    u.adminId.None? || u.adminId.value == ""
  }

  /** `loadReport`: no user redirects to the login page; a user without an
      admin id stops before any fetch; a failed fetch or a throwing
      calculation writes no statistic; otherwise all four are written. */
  function LoadReport(user: Option<User>, itemsRes: Fetched<seq<Item>>, exportsRes: Fetched<seq<ExportRecord>>): (r: ReportOutcome)
    ensures r == LoginRedirect <==> user.None?
    ensures r == MissingAdminId <==> user.Some? && AdminIdMissing(user.value)
    ensures r.Shown? <==>
      (user.Some? && !AdminIdMissing(user.value) && ReportBody(itemsRes).Some? && ReportBody(exportsRes).Some?
       && TotalRevenue(ReportBody(itemsRes).value, ReportBody(exportsRes).value).Some?)
    ensures r.Shown? ==> Some(r.stats) == ComputeStats(ReportBody(itemsRes).value, ReportBody(exportsRes).value)
  {
    match user
    case None => LoginRedirect
    case Some(u) =>
      if AdminIdMissing(u) then MissingAdminId
      else match ReportBody(itemsRes)
        case None => LoadFailed
        case Some(items) =>
          match ReportBody(exportsRes)
          case None => LoadFailed
          case Some(exports) =>
            match ComputeStats(items, exports)
            case None => LoadFailed
            case Some(stats) => Shown(stats)
  }

  /** A user without an admin id gets the same outcome whatever the backend
      would have answered: no request result can influence it. */
  lemma AdminIdGuardPrecedesFetch(u: User, i1: Fetched<seq<Item>>, e1: Fetched<seq<ExportRecord>>,
                                  i2: Fetched<seq<Item>>, e2: Fetched<seq<ExportRecord>>)
    requires AdminIdMissing(u)
    ensures LoadReport(Some(u), i1, e1) == LoadReport(Some(u), i2, e2) == MissingAdminId
  {
  }
}

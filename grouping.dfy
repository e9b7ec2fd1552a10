/** The two-strategy comparison of src/grouping_analysis.py. Strategy A
    makes one production order per sales order, in (deadline, priority)
    order, back to back from TODAY; strategy B merges the sales orders of
    each product into one production order, runs the groups in order of
    their earliest deadline, and ships every sales order of a group when the
    group's order ends. Both use raw minutes with no shift handling.
    The simulations are stated for any table `rate` of per-unit minutes;
    the file's `mins_per_unit` is `Bom.MinsPerUnit` (the file repeats the
    phase table of src/scheduler_logic/constants.py). */
module GroupingAnalysis {
  import opened Basics
  import opened ShiftCalendar
  import opened Sorting
  import opened Bom

  /** One entry of `SALES_ORDERS`. */
  datatype AnalysisOrder = AnalysisOrder(soId: string, product: Product, qty: int, deadline: Instant,
                                         priority: int, customer: string)

  /** `total_mins` of a sales order: its quantity times the per-unit minutes. */
  function Work(rate: Product -> int): AnalysisOrder -> int {
    (o: AnalysisOrder) => rate(o.product) * o.qty
  }

  function TotalWork(os: seq<AnalysisOrder>, rate: Product -> int): int {
    Sum(os, Work(rate))
  }

  function Qty(o: AnalysisOrder): int { o.qty }

  function Deadline(o: AnalysisOrder): int { o.deadline }

  function EdfKey(o: AnalysisOrder): (int, int) { (o.deadline, o.priority) }

  // ---------------------------------------------------------------------
  // Strategy A: one production order per sales order
  // ---------------------------------------------------------------------

  /** One row of `simulate_edf_per_order`. */
  datatype OrderResult = OrderResult(order: AnalysisOrder, poStart: Instant, poEnd: Instant, totalMins: int,
                                     slack: int, onTime: bool)

  /** The row of `o` when its production order starts at `start`. */
  function Verdict(o: AnalysisOrder, start: Instant, rate: Product -> int): OrderResult {
    var end := start + rate(o.product) * o.qty;
    OrderResult(o, start, end, rate(o.product) * o.qty, o.deadline - end, end <= o.deadline)
  }

  /** The rows of the orders `os` laid back to back from `start`. */
  function PerOrderPlan(os: seq<AnalysisOrder>, start: Instant, rate: Product -> int): (r: seq<OrderResult>)
    ensures |r| == |os|
  {
    if os == [] then []
    else PerOrderPlan(Init(os), start, rate) + [Verdict(Last(os), start + TotalWork(Init(os), rate), rate)]
  }

  /** `sorted(SALES_ORDERS, key=lambda x: (x["deadline"], x["priority"]))`. */
  function EdfOrder(orders: seq<AnalysisOrder>): (r: seq<AnalysisOrder>)
    ensures multiset(r) == multiset(orders)
  {
    SortStable(orders, ByPairKey(EdfKey))
  }

  lemma TotalWorkSnoc(os: seq<AnalysisOrder>, k: nat, rate: Product -> int)
    requires k < |os|
    ensures TotalWork(os[..k + 1], rate) == TotalWork(os[..k], rate) + rate(os[k].product) * os[k].qty
  {
    assert os[..k + 1] == os[..k] + [os[k]];
    SumAppend(os[..k], [os[k]], Work(rate));
  }

  /** The rolling clock over orders already in EDF order. */
  method RunOrders(sorted: seq<AnalysisOrder>, start: Instant, rate: Product -> int) returns (results: seq<OrderResult>)
    ensures results == PerOrderPlan(sorted, start, rate)
  {
    var current := start;
    results := [];
    for k := 0 to |sorted|
      invariant results == PerOrderPlan(sorted[..k], start, rate)
      invariant current == start + TotalWork(sorted[..k], rate)
    {
      var o := sorted[k];
      var totalMins := rate(o.product) * o.qty;
      var poEnd := current + totalMins;
      assert Init(sorted[..k + 1]) == sorted[..k] && Last(sorted[..k + 1]) == o;
      assert PerOrderPlan(sorted[..k + 1], start, rate) == results + [Verdict(o, current, rate)];
      results := results + [OrderResult(o, current, poEnd, totalMins, o.deadline - poEnd, poEnd <= o.deadline)];
      current := poEnd;
      TotalWorkSnoc(sorted, k, rate);
    }
    assert sorted[..|sorted|] == sorted;
  }

  /** `simulate_edf_per_order`: a rolling clock from TODAY over the EDF order. */
  method SimulatePerOrder(orders: seq<AnalysisOrder>, rate: Product -> int) returns (results: seq<OrderResult>)
    ensures results == PerOrderPlan(EdfOrder(orders), Today, rate)
  {
    var sorted := EdfOrder(orders);
    results := RunOrders(sorted, Today, rate);
  }

  /** The row at position `i` starts after the work of the orders before it. */
  lemma {:induction false} PerOrderPlanAt(os: seq<AnalysisOrder>, start: Instant, rate: Product -> int, i: nat)
    requires i < |os|
    ensures PerOrderPlan(os, start, rate)[i] == Verdict(os[i], start + TotalWork(os[..i], rate), rate)
  {
    if i < |os| - 1 {
      PerOrderPlanAt(Init(os), start, rate, i);
      assert Init(os)[..i] == os[..i];
    } else {
      assert Init(os) == os[..i];
    }
  }

  /** The per-order rows: each order in turn, the first starting at `start`,
      each later one at the end of the one before; each takes its own work;
      on time exactly when it ends by its deadline, with slack the minutes in
      between. */
  lemma PerOrderRows(os: seq<AnalysisOrder>, start: Instant, rate: Product -> int, i: nat)
    requires i < |os|
    ensures var r := PerOrderPlan(os, start, rate);
      && r[i].order == os[i]
      && r[i].poStart == (if i == 0 then start else r[i - 1].poEnd)
      && r[i].poEnd == r[i].poStart + rate(os[i].product) * os[i].qty
      && (r[i].onTime <==> r[i].poEnd <= os[i].deadline)
      && r[i].slack == os[i].deadline - r[i].poEnd
  {
    PerOrderPlanAt(os, start, rate, i);
    if i > 0 {
      PerOrderPlanAt(os, start, rate, i - 1);
      TotalWorkSnoc(os, i - 1, rate);
    }
  }

  /** The last per-order row ends after all the work. */
  lemma PerOrderPlanEnd(os: seq<AnalysisOrder>, start: Instant, rate: Product -> int)
    requires os != []
    ensures Last(PerOrderPlan(os, start, rate)).poEnd == start + TotalWork(os, rate)
  {
    TotalWorkSnoc(os, |os| - 1, rate);
    assert os[..|os| - 1] == Init(os) && os[..|os|] == os;
  }

  /** The rows come in (deadline, priority) order, one per sales order. */
  lemma SimulatePerOrderSorted(orders: seq<AnalysisOrder>, rate: Product -> int)
    ensures var r := PerOrderPlan(EdfOrder(orders), Today, rate);
      && |r| == |orders|
      && multiset(seq(|r|, i requires 0 <= i < |r| => r[i].order)) == multiset(orders)
      && forall i, j :: 0 <= i < j < |r| ==> PairLe(EdfKey(r[i].order), EdfKey(r[j].order))
  {
    var s := EdfOrder(orders);
    var r := PerOrderPlan(s, Today, rate);
    forall i | 0 <= i < |r|
      ensures r[i].order == s[i]
    {
      PerOrderPlanAt(s, Today, rate, i);
    }
    assert seq(|r|, i requires 0 <= i < |r| => r[i].order) == s;
    ByPairKeyTotalPreorder(EdfKey);
    SortStableSorted(orders, ByPairKey(EdfKey));
  }

  // ---------------------------------------------------------------------
  // Strategy B: one production order per product
  // ---------------------------------------------------------------------

  /** One entry of the `defaultdict(list)` keyed by product. */
  datatype Group = Group(product: Product, orders: seq<AnalysisOrder>)

  /** `groups[o["product_id"]].append(o)`: the group of the product grows,
      or a new group is added at the end. */
  function AddToGroup(gs: seq<Group>, o: AnalysisOrder): (r: seq<Group>)
    ensures |r| == |gs| || |r| == |gs| + 1
  {
    if gs == [] then [Group(o.product, [o])]
    else if gs[0].product == o.product then [gs[0].(orders := gs[0].orders + [o])] + gs[1..]
    else [gs[0]] + AddToGroup(gs[1..], o)
  }

  /** The groups after the orders `os`, in the dictionary's insertion order. */
  function Grouped(os: seq<AnalysisOrder>): seq<Group> {
    if os == [] then [] else AddToGroup(Grouped(Init(os)), Last(os))
  }

  /** The grouping loop. */
  method BuildGroups(orders: seq<AnalysisOrder>) returns (groups: seq<Group>)
    ensures groups == Grouped(orders)
  {
    groups := [];
    for k := 0 to |orders|
      invariant groups == Grouped(orders[..k])
    {
      groups := AddToGroup(groups, orders[k]);
      assert Init(orders[..k + 1]) == orders[..k];
    }
    assert orders[..|orders|] == orders;
  }

  function Products(gs: seq<Group>): (r: seq<Product>)
    ensures |r| == |gs|
  {
    if gs == [] then [] else [gs[0].product] + Products(gs[1..])
  }

  lemma {:induction false} ProductsAt(gs: seq<Group>, j: nat)
    requires j < |gs|
    ensures Products(gs)[j] == gs[j].product
  {
    if j > 0 {
      ProductsAt(gs[1..], j - 1);
    }
  }

  function ProductIs(p: Product): AnalysisOrder -> bool {
    (o: AnalysisOrder) => o.product == p
  }

  ghost predicate DistinctProducts(gs: seq<Group>) {
    forall i, j :: 0 <= i < j < |gs| ==> gs[i].product != gs[j].product
  }

  /** Adding an order extends exactly the group of its product, or opens a
      new group for it after the others. */
  lemma {:induction false} AddToGroupEffect(gs: seq<Group>, o: AnalysisOrder)
    requires DistinctProducts(gs)
    ensures var r := AddToGroup(gs, o);
      && (forall j :: 0 <= j < |gs| ==> r[j].product == gs[j].product)
      && (forall j :: 0 <= j < |gs| ==> r[j].orders == gs[j].orders + (if gs[j].product == o.product then [o] else []))
      && (o.product in Products(gs) ==> |r| == |gs|)
      && (o.product !in Products(gs) ==> |r| == |gs| + 1 && r[|gs|] == Group(o.product, [o]))
  {
    if gs != [] {
      if gs[0].product != o.product {
        AddToGroupEffect(gs[1..], o);
      } else {
        ProductsAt(gs, 0);
      }
    }
  }

  /** The groups partition the orders: one group per product that occurs,
      each holding exactly that product's orders in their input order. */
  lemma {:induction false} GroupedPartition(os: seq<AnalysisOrder>)
    ensures var gs := Grouped(os);
      && DistinctProducts(gs)
      && (forall j :: 0 <= j < |gs| ==> gs[j].orders == Filter(os, ProductIs(gs[j].product)) && gs[j].orders != [])
      && (forall o :: o in os ==> o.product in Products(gs))
  {
    if os != [] {
      var s, x := Init(os), Last(os);
      assert os == s + [x];
      GroupedPartition(s);
      var gs := Grouped(s);
      var r := AddToGroup(gs, x);
      AddToGroupEffect(gs, x);
      forall j | 0 <= j < |r|
        ensures r[j].orders == Filter(os, ProductIs(r[j].product)) && r[j].orders != []
      {
        FilterAppend(s, [x], ProductIs(r[j].product));
        if j == |gs| && Filter(s, ProductIs(x.product)) != [] {
          var y := Filter(s, ProductIs(x.product))[0];
          FilterMembership(s, ProductIs(x.product), y);
          assert false;
        }
      }
      forall o | o in os
        ensures o.product in Products(r)
      {
        if o in s {
          var j :| 0 <= j < |gs| && Products(gs)[j] == o.product;
          ProductsAt(gs, j);
          ProductsAt(r, j);
        } else if x.product in Products(gs) {
          var j :| 0 <= j < |gs| && Products(gs)[j] == x.product;
          ProductsAt(gs, j);
          ProductsAt(r, j);
        } else {
          ProductsAt(r, |r| - 1);
        }
      }
      forall i, j | 0 <= i < j < |r|
        ensures r[i].product != r[j].product
      {
        if j == |gs| {
          ProductsAt(gs, i);
        }
      }
    }
  }

  /** Each sales order is in exactly one group: the group of its product. */
  lemma GroupMembership(os: seq<AnalysisOrder>, o: AnalysisOrder, j: nat)
    requires j < |Grouped(os)|
    ensures o in Grouped(os)[j].orders <==> o in os && o.product == Grouped(os)[j].product
  {
    GroupedPartition(os);
    FilterMembership(os, ProductIs(Grouped(os)[j].product), o);
  }

  /** `min(o["deadline"] for o in orders)`. */
  function MinDeadline(os: seq<AnalysisOrder>): Instant
    requires os != []
  {
    if |os| == 1 then os[0].deadline
    else var m := MinDeadline(os[1..]); if os[0].deadline <= m then os[0].deadline else m
  }

  lemma {:induction false} MinDeadlineIsMin(os: seq<AnalysisOrder>)
    requires os != []
    ensures forall o :: o in os ==> MinDeadline(os) <= o.deadline
    ensures exists o :: o in os && MinDeadline(os) == o.deadline
  {
    if |os| > 1 {
      MinDeadlineIsMin(os[1..]);
      assert forall o :: o in os ==> o == os[0] || o in os[1..];
      var w :| w in os[1..] && MinDeadline(os[1..]) == w.deadline;
      assert w in os;
    } else {
      assert os[0] in os;
    }
  }

  /** One entry of `group_list`. */
  datatype GroupSummary = GroupSummary(product: Product, orders: seq<AnalysisOrder>, earliestDl: Instant,
                                       totalQty: int, totalMins: int)

  function TotalMins(g: GroupSummary): int { g.totalMins }

  function EarliestDl(g: GroupSummary): int { g.earliestDl }

  /** The summary of one group: its orders by deadline, the earliest
      deadline, the total quantity and its minutes. */
  function Summarise(g: Group, rate: Product -> int): GroupSummary
    requires g.orders != []
  {
    var totalQty := Sum(g.orders, Qty);
    GroupSummary(g.product, SortStable(g.orders, ByIntKey(Deadline)), MinDeadline(g.orders), totalQty,
                 rate(g.product) * totalQty)
  }

  ghost predicate NonEmptyGroups(gs: seq<Group>) {
    forall j :: 0 <= j < |gs| ==> gs[j].orders != []
  }

  /** The summaries of the groups, in the dictionary's order. */
  function Summaries(gs: seq<Group>, rate: Product -> int): (r: seq<GroupSummary>)
    requires NonEmptyGroups(gs)
    ensures |r| == |gs|
  {
    if gs == [] then [] else Summaries(Init(gs), rate) + [Summarise(Last(gs), rate)]
  }

  /** `group_list` sorted by earliest deadline. */
  function GroupSchedule(orders: seq<AnalysisOrder>, rate: Product -> int): seq<GroupSummary>
  {
    GroupedPartition(orders);
    SortStable(Summaries(Grouped(orders), rate), ByIntKey(EarliestDl))
  }

  /** One verdict of `so_verdicts`. */
  datatype ShipVerdict = ShipVerdict(order: AnalysisOrder, shipsAt: Instant, slack: int, onTime: bool)

  /** The verdicts of orders that all ship at `end`. */
  function ShipAll(os: seq<AnalysisOrder>, end: Instant): (r: seq<ShipVerdict>)
    ensures |r| == |os|
  {
    if os == [] then []
    else ShipAll(Init(os), end) + [ShipVerdict(Last(os), end, Last(os).deadline - end, end <= Last(os).deadline)]
  }

  /** One row of `simulate_edf_grouped`. */
  datatype GroupResult = GroupResult(summary: GroupSummary, poStart: Instant, poEnd: Instant, groupSlack: int,
                                     onTime: bool, verdicts: seq<ShipVerdict>)

  function GroupVerdict(g: GroupSummary, start: Instant): GroupResult {
    var end := start + g.totalMins;
    GroupResult(g, start, end, g.earliestDl - end, end <= g.earliestDl, ShipAll(g.orders, end))
  }

  /** The rows of the groups `gs` laid back to back from `start`. */
  function GroupedPlan(gs: seq<GroupSummary>, start: Instant): (r: seq<GroupResult>)
    ensures |r| == |gs|
  {
    if gs == [] then []
    else GroupedPlan(Init(gs), start) + [GroupVerdict(Last(gs), start + Sum(Init(gs), TotalMins))]
  }

  /** The per-order loop inside a group. */
  method ShipVerdicts(orders: seq<AnalysisOrder>, poEnd: Instant) returns (verdicts: seq<ShipVerdict>)
    ensures verdicts == ShipAll(orders, poEnd)
  {
    verdicts := [];
    for k := 0 to |orders|
      invariant verdicts == ShipAll(orders[..k], poEnd)
    {
      var o := orders[k];
      verdicts := verdicts + [ShipVerdict(o, poEnd, o.deadline - poEnd, poEnd <= o.deadline)];
      assert Init(orders[..k + 1]) == orders[..k];
    }
    assert orders[..|orders|] == orders;
  }

  /** The loop that builds `group_list`. */
  method SummariseGroups(groups: seq<Group>, rate: Product -> int) returns (groupList: seq<GroupSummary>)
    requires NonEmptyGroups(groups)
    ensures groupList == Summaries(groups, rate)
  {
    groupList := [];
    for j := 0 to |groups|
      invariant groupList == Summaries(groups[..j], rate)
    {
      var g := groups[j];
      var totalQty := Sum(g.orders, Qty);
      groupList := groupList + [GroupSummary(g.product, SortStable(g.orders, ByIntKey(Deadline)), MinDeadline(g.orders),
                                             totalQty, rate(g.product) * totalQty)];
      assert Init(groups[..j + 1]) == groups[..j];
    }
    assert groups[..|groups|] == groups;
  }

  lemma GroupedPlanSnoc(gs: seq<GroupSummary>, j: nat, start: Instant)
    requires j < |gs|
    ensures Sum(gs[..j + 1], TotalMins) == Sum(gs[..j], TotalMins) + gs[j].totalMins
    ensures GroupedPlan(gs[..j + 1], start) == GroupedPlan(gs[..j], start) + [GroupVerdict(gs[j], start + Sum(gs[..j], TotalMins))]
  {
    assert Init(gs[..j + 1]) == gs[..j] && Last(gs[..j + 1]) == gs[j];
    assert gs[..j + 1] == gs[..j] + [gs[j]];
    SumAppend(gs[..j], [gs[j]], TotalMins);
  }

  /** The rolling clock over the sorted groups. */
  method RunGroups(groupList: seq<GroupSummary>, start: Instant) returns (results: seq<GroupResult>)
    ensures results == GroupedPlan(groupList, start)
  {
    var current := start;
    results := [];
    for j := 0 to |groupList|
      invariant results == GroupedPlan(groupList[..j], start)
      invariant current == start + Sum(groupList[..j], TotalMins)
    {
      var g := groupList[j];
      var poEnd := current + g.totalMins;
      var verdicts := ShipVerdicts(g.orders, poEnd);
      GroupedPlanSnoc(groupList, j, start);
      results := results + [GroupResult(g, current, poEnd, g.earliestDl - poEnd, poEnd <= g.earliestDl, verdicts)];
      current := poEnd;
    }
    assert groupList[..|groupList|] == groupList;
  }

  /** `simulate_edf_grouped`: group, summarise, sort the groups by earliest
      deadline, and run them back to back from TODAY. */
  method SimulateGrouped(orders: seq<AnalysisOrder>, rate: Product -> int) returns (results: seq<GroupResult>)
    ensures results == GroupedPlan(GroupSchedule(orders, rate), Today)
  {
    var groups := BuildGroups(orders);
    GroupedPartition(orders);
    var groupList := SummariseGroups(groups, rate);
    groupList := SortStable(groupList, ByIntKey(EarliestDl));
    results := RunGroups(groupList, Today);
  }

  lemma {:induction false} ShipAllAt(os: seq<AnalysisOrder>, end: Instant, i: nat)
    requires i < |os|
    ensures ShipAll(os, end)[i] == ShipVerdict(os[i], end, os[i].deadline - end, end <= os[i].deadline)
  {
    if i < |os| - 1 {
      ShipAllAt(Init(os), end, i);
    }
  }

  /** Within a group: every sales order ships when the group's production
      order ends, each on time exactly when that end is by its own deadline,
      and the group is on time exactly when all its sales orders are. */
  lemma GroupVerdicts(g: Group, rate: Product -> int, start: Instant)
    requires g.orders != []
    ensures var r := GroupVerdict(Summarise(g, rate), start);
      && multiset(seq(|r.verdicts|, i requires 0 <= i < |r.verdicts| => r.verdicts[i].order)) == multiset(g.orders)
      && (forall i :: 0 <= i < |r.verdicts| ==> r.verdicts[i].shipsAt == r.poEnd)
      && (forall i :: 0 <= i < |r.verdicts| ==> (r.verdicts[i].onTime <==> r.poEnd <= r.verdicts[i].order.deadline))
      && (r.onTime <==> forall i :: 0 <= i < |r.verdicts| ==> r.verdicts[i].onTime)
  {
    var s := Summarise(g, rate);
    var r := GroupVerdict(s, start);
    forall i | 0 <= i < |r.verdicts|
      ensures r.verdicts[i] == ShipVerdict(s.orders[i], r.poEnd, s.orders[i].deadline - r.poEnd, r.poEnd <= s.orders[i].deadline)
    {
      ShipAllAt(s.orders, r.poEnd, i);
    }
    assert seq(|r.verdicts|, i requires 0 <= i < |r.verdicts| => r.verdicts[i].order) == s.orders;
    MinDeadlineIsMin(g.orders);
    if r.onTime {
      forall i | 0 <= i < |r.verdicts|
        ensures r.verdicts[i].onTime
      {
        assert s.orders[i] in multiset(g.orders);
      }
    } else {
      var w :| w in g.orders && s.earliestDl == w.deadline;
      assert w in multiset(s.orders);
      var i :| 0 <= i < |s.orders| && s.orders[i] == w;
      assert !r.verdicts[i].onTime;
    }
  }

  /** The work of a group: per-unit minutes times the group's quantity. */
  function GroupWork(rate: Product -> int): Group -> int {
    (g: Group) => rate(g.product) * Sum(g.orders, Qty)
  }

  lemma {:induction false} AddToGroupWork(gs: seq<Group>, o: AnalysisOrder, rate: Product -> int)
    ensures Sum(AddToGroup(gs, o), GroupWork(rate)) == Sum(gs, GroupWork(rate)) + rate(o.product) * o.qty
  {
    if gs == [] {
    } else if gs[0].product == o.product {
      SumAppend(gs[0].orders, [o], Qty);
      assert AddToGroup(gs, o)[1..] == gs[1..];
    } else {
      AddToGroupWork(gs[1..], o, rate);
      assert AddToGroup(gs, o)[1..] == AddToGroup(gs[1..], o);
    }
  }

  lemma {:induction false} GroupedWork(os: seq<AnalysisOrder>, rate: Product -> int)
    ensures Sum(Grouped(os), GroupWork(rate)) == TotalWork(os, rate)
  {
    if os != [] {
      GroupedWork(Init(os), rate);
      AddToGroupWork(Grouped(Init(os)), Last(os), rate);
      assert os == Init(os) + [Last(os)];
      SumAppend(Init(os), [Last(os)], Work(rate));
    }
  }

  lemma {:induction false} SummariesMins(gs: seq<Group>, rate: Product -> int)
    requires NonEmptyGroups(gs)
    ensures Sum(Summaries(gs, rate), TotalMins) == Sum(gs, GroupWork(rate))
  {
    if gs != [] {
      var init, last := Init(gs), Last(gs);
      assert gs == init + [last];
      SummariesMins(init, rate);
      SumAppend(Summaries(init, rate), [Summarise(last, rate)], TotalMins);
      SumAppend(init, [last], GroupWork(rate));
    }
  }

  /** The last group row ends after all the groups' minutes. */
  lemma GroupedPlanEnd(gs: seq<GroupSummary>, start: Instant)
    requires gs != []
    ensures Last(GroupedPlan(gs, start)).poEnd == start + Sum(gs, TotalMins)
  {
    assert gs == Init(gs) + [Last(gs)];
    SumAppend(Init(gs), [Last(gs)], TotalMins);
  }

  /** The groups come in order of their earliest deadline. */
  lemma GroupScheduleSorted(orders: seq<AnalysisOrder>, rate: Product -> int)
    ensures var gs := GroupSchedule(orders, rate);
      forall i, j :: 0 <= i < j < |gs| ==> gs[i].earliestDl <= gs[j].earliestDl
  {
    GroupedPartition(orders);
    ByIntKeyTotalPreorder(EarliestDl);
    SortStableSorted(Summaries(Grouped(orders), rate), ByIntKey(EarliestDl));
  }

  /** Merging does not change the amount of work, since the sum of
      `qty * rate` over a product's orders is `(sum of qty) * rate`: both
      strategies finish at the same instant, TODAY plus the total work. */
  lemma SameFinish(orders: seq<AnalysisOrder>, rate: Product -> int)
    requires orders != []
    ensures GroupSchedule(orders, rate) != []
    ensures Last(PerOrderPlan(EdfOrder(orders), Today, rate)).poEnd == Today + TotalWork(orders, rate)
    ensures Last(GroupedPlan(GroupSchedule(orders, rate), Today)).poEnd == Today + TotalWork(orders, rate)
  {
    SumSortStable(orders, ByPairKey(EdfKey), Work(rate));
    PerOrderPlanEnd(EdfOrder(orders), Today, rate);
    GroupedPartition(orders);
    assert orders[0] in orders;
    var gs := Summaries(Grouped(orders), rate);
    SumSortStable(gs, ByIntKey(EarliestDl), TotalMins);
    SummariesMins(Grouped(orders), rate);
    GroupedWork(orders, rate);
    GroupedPlanEnd(GroupSchedule(orders, rate), Today);
  }
}

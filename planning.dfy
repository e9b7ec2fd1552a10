/** Earliest-deadline-first sequencing of sales orders
    (src/scheduler_logic/planning.py): a stable sort on (deadline, priority). */
module Planning {
  import opened Basics
  import opened ShiftCalendar
  import opened Models
  import opened Sorting

  function EdfKey(o: SalesOrder): (int, int) {
    (o.deadline, o.priority)
  }

  /** `key(a) <= key(b)` for the EDF key. */
  function EdfLe(): (SalesOrder, SalesOrder) -> bool {
    ByPairKey(EdfKey)
  }

  /** `sort_orders_edf`. */
  function SortOrdersEdf(orders: seq<SalesOrder>): (r: seq<SalesOrder>)
    ensures multiset(r) == multiset(orders)
  {
    SortStable(orders, EdfLe())
  }

  /** The EDF order is non-decreasing in (deadline, priority). */
  lemma SortOrdersEdfSorted(orders: seq<SalesOrder>)
    ensures forall i, j :: 0 <= i < j < |orders| ==>
      PairLe(EdfKey(SortOrdersEdf(orders)[i]), EdfKey(SortOrdersEdf(orders)[j]))
  {
    ByPairKeyTotalPreorder(EdfKey);
    SortStableSorted(orders, EdfLe());
  }

  /** Orders with equal deadline and priority keep their input order. */
  lemma SortOrdersEdfStable(orders: seq<SalesOrder>, o: SalesOrder)
    ensures Filter(SortOrdersEdf(orders), x => EdfKey(x) == EdfKey(o)) == Filter(orders, x => EdfKey(x) == EdfKey(o))
  {
    var r := SortOrdersEdf(orders);
    ByPairKeyTotalPreorder(EdfKey);
    SortStableStable(orders, EdfLe(), o);
    FilterSamePredicate(r, x => Equivalent(EdfLe(), x, o), x => EdfKey(x) == EdfKey(o));
    FilterSamePredicate(orders, x => Equivalent(EdfLe(), x, o), x => EdfKey(x) == EdfKey(o));
  }

  /** An earlier deadline always goes first, whatever the priorities. */
  lemma EarlierDeadlineFirst(orders: seq<SalesOrder>, i: int, j: int)
    requires 0 <= i < |orders| && 0 <= j < |orders|
    requires SortOrdersEdf(orders)[i].deadline < SortOrdersEdf(orders)[j].deadline
    ensures i < j
  {
    SortOrdersEdfSorted(orders);
  }

  function SampleOrder(id: string, deadline: Instant, priority: int): SalesOrder {
    SalesOrder(id, id, Customer("", "", "", ""), SalesOrderLine("", "", "", 0, "pcs"), deadline, priority, "accepted", "", None)
  }

  /** The escalation conflict: SO-0005 (due Mar 8, escalated to P1) does not
      overtake SO-0003 (due Mar 4, P2); SO-0001 (Mar 10, P3) comes last. */
  lemma EscalationConflictExample()
    ensures
      var so3 := SampleOrder("SO-0003", At(20516, 16 * 60), 2);
      var so5 := SampleOrder("SO-0005", At(20520, 16 * 60), 1);
      var so1 := SampleOrder("SO-0001", At(20522, 16 * 60), 3);
      SortOrdersEdf([so5, so1, so3]) == [so3, so5, so1]
  {
  }
}

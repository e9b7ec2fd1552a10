/** The script pipeline's EDF policy (src/step2_plan_policy.py): raw sales
    order records sorted by their shipping-time string, then priority. */
module PlanPolicy {
  import opened Basics
  import opened ShiftCalendar
  import opened Sorting

  /** The fields of a raw sales-order record the script pipeline reads:
      `internal_id`, `_product_id`, `_quantity`, `expected_shipping_time`
      (both as written and as the instant it parses to), `priority` and
      `customer_attr.name`. */
  datatype RawOrder = RawOrder(
    internalId: string,
    productId: string,
    quantity: int,
    shippingTime: string,
    deadline: Instant,
    priority: int,
    customerName: string)

  function RawKey(o: RawOrder): (string, int) {
    (o.shippingTime, o.priority)
  }

  /** `sort_orders_edf` over raw records. */
  function SortRawOrdersEdf(orders: seq<RawOrder>): (r: seq<RawOrder>)
    ensures multiset(r) == multiset(orders)
  {
    SortStable(orders, ByStrIntKey(RawKey))
  }

  /** The result is ordered by the shipping-time string, then by priority. */
  lemma SortRawOrdersEdfSorted(orders: seq<RawOrder>)
    ensures forall i, j :: 0 <= i < j < |orders| ==>
      StrIntLe(RawKey(SortRawOrdersEdf(orders)[i]), RawKey(SortRawOrdersEdf(orders)[j]))
  {
    ByStrIntKeyTotalPreorder(RawKey);
    SortStableSorted(orders, ByStrIntKey(RawKey));
  }

  /** Records with the same shipping string and priority keep their input order. */
  lemma SortRawOrdersEdfStable(orders: seq<RawOrder>, o: RawOrder)
    ensures Filter(SortRawOrdersEdf(orders), x => RawKey(x) == RawKey(o)) == Filter(orders, x => RawKey(x) == RawKey(o))
  {
    var le := ByStrIntKey(RawKey);
    ByStrIntKeyTotalPreorder(RawKey);
    SortStableStable(orders, le, o);
    forall x ensures Equivalent(le, x, o) == (RawKey(x) == RawKey(o)) {
      if Equivalent(le, x, o) {
        if RawKey(x).0 != RawKey(o).0 {
          StrLeAntisymmetric(RawKey(x).0, RawKey(o).0);
        }
      }
    }
    FilterSamePredicate(SortRawOrdersEdf(orders), x => Equivalent(le, x, o), x => RawKey(x) == RawKey(o));
    FilterSamePredicate(orders, x => Equivalent(le, x, o), x => RawKey(x) == RawKey(o));
  }

  function SampleRaw(id: string, shipping: string, priority: int): RawOrder {
    RawOrder(id, "IOT-200", 10, shipping, 0, priority, "")
  }

  /** The Mar 4 order at priority 2 stays ahead of the Mar 8 order escalated to priority 1. */
  lemma EscalatedOrderStaysBehind()
    ensures
      var mar4 := SampleRaw("SO-003", "2026-03-04T16:00:00Z", 2);
      var mar8 := SampleRaw("SO-005", "2026-03-08T16:00:00Z", 1);
      SortRawOrdersEdf([mar8, mar4]) == [mar4, mar8]
  {
    var mar4 := SampleRaw("SO-003", "2026-03-04T16:00:00Z", 2);
    var mar8 := SampleRaw("SO-005", "2026-03-08T16:00:00Z", 1);
    assert !StrIntLe(RawKey(mar8), RawKey(mar4)) by {
      assert mar8.shippingTime[..9] == mar4.shippingTime[..9];
      assert mar8.shippingTime[9] > mar4.shippingTime[9];
      StrLePrefix(mar8.shippingTime, mar4.shippingTime, 9);
    }
  }

  /** The string key is chronological only within one format: 10:00 at UTC+2
      (08:00 UTC) sorts after 09:00 UTC. */
  lemma MixedOffsetsNotChronological()
    ensures !StrLe("2026-03-04T10:00:00+02:00", "2026-03-04T09:00:00Z")
  {
    var a, b := "2026-03-04T10:00:00+02:00", "2026-03-04T09:00:00Z";
    assert a[..11] == b[..11] && a[11] > b[11];
    StrLePrefix(a, b, 11);
  }

  /** After a common prefix of length `n`, a greater character decides `<=`. */
  lemma {:induction false} StrLePrefix(a: string, b: string, n: nat)
    requires n < |a| && n < |b| && a[..n] == b[..n] && a[n] > b[n]
    ensures !StrLe(a, b)
  {
    if n > 0 {
      assert a[0] == a[..n][0] == b[..n][0] == b[0];
      assert a[1..][..n - 1] == a[..n][1..] == b[..n][1..] == b[1..][..n - 1];
      StrLePrefix(a[1..], b[1..], n - 1);
    }
  }
}

/** Schedule assembly (src/scheduler_logic/orchestrator.py): linking the live
    production orders to sales orders, choosing and sequencing the pending
    sales orders, dating them one after the other on the line, and merging
    everything into a proposed schedule. The remote API is an input. */
module Orchestrator {
  import opened Basics
  import opened ShiftCalendar
  import opened Models
  import opened Sorting
  import opened Planning
  import opened PhasePlanning
  import opened PyDict

  // ---------------------------------------------------------------------
  // Linking existing production orders to sales orders
  // ---------------------------------------------------------------------

  /** `next((so for so in sales_orders if so.id == id), None)`. */
  function SoById(sales: seq<SalesOrder>, id: string): (r: Option<SalesOrder>)
    ensures r.Some? ==> r.value.id == id
  {
    if sales == [] then None else if sales[0].id == id then Some(sales[0]) else SoById(sales[1..], id)
  }

  /** The sales order found is a listed one; none is found only when no
      listed sales order has that id. */
  lemma {:induction false} SoByIdListed(sales: seq<SalesOrder>, id: string)
    ensures SoById(sales, id).Some? ==> SoById(sales, id).value in sales
    ensures SoById(sales, id).None? <==> forall i :: 0 <= i < |sales| ==> sales[i].id != id
  {
    if sales != [] && sales[0].id != id {
      SoByIdListed(sales[1..], id);
      assert forall i :: 1 <= i < |sales| ==> sales[i] == sales[1..][i - 1];
    }
  }

  /** The product test of the fallback match: any of three name comparisons. */
  predicate ProductMatches(so: SalesOrder, po: ProductionOrder) {
    so.line.productInternalId == po.productInternalId
    || so.line.productInternalId == po.productName
    || so.line.productName == po.productName
  }

  /** A sales order the fallback may link to `po`: not linked yet, same product, same quantity. */
  predicate Candidate(so: SalesOrder, po: ProductionOrder, linked: set<string>) {
    so.id !in linked && ProductMatches(so, po) && so.line.quantity == po.quantity
  }

  /** The first candidate in the sales-order list, if any. */
  function FirstCandidate(sales: seq<SalesOrder>, po: ProductionOrder, linked: set<string>): (r: Option<SalesOrder>)
    ensures r.Some? ==> Candidate(r.value, po, linked)
  {
    if sales == [] then None
    else if Candidate(sales[0], po, linked) then Some(sales[0])
    else FirstCandidate(sales[1..], po, linked)
  }

  /** The candidate found is a listed sales order; none is found only when no
      listed sales order is a candidate. */
  lemma {:induction false} FirstCandidateListed(sales: seq<SalesOrder>, po: ProductionOrder, linked: set<string>)
    ensures FirstCandidate(sales, po, linked).Some? ==> FirstCandidate(sales, po, linked).value in sales
    ensures FirstCandidate(sales, po, linked).None? <==> forall i :: 0 <= i < |sales| ==> !Candidate(sales[i], po, linked)
  {
    if sales != [] && !Candidate(sales[0], po, linked) {
      FirstCandidateListed(sales[1..], po, linked);
      assert forall i :: 1 <= i < |sales| ==> sales[i] == sales[1..][i - 1];
    }
  }

  /** The candidate found is the first one in the list: every sales order
      before it is not a candidate. */
  lemma {:induction false} FirstCandidateIsFirst(sales: seq<SalesOrder>, po: ProductionOrder, linked: set<string>)
    requires FirstCandidate(sales, po, linked).Some?
    ensures exists i :: 0 <= i < |sales| && sales[i] == FirstCandidate(sales, po, linked).value
                        && forall j :: 0 <= j < i ==> !Candidate(sales[j], po, linked)
  {
    if !Candidate(sales[0], po, linked) {
      FirstCandidateIsFirst(sales[1..], po, linked);
      var i :| 0 <= i < |sales[1..]| && sales[1..][i] == FirstCandidate(sales, po, linked).value
               && forall j :: 0 <= j < i ==> !Candidate(sales[1..][j], po, linked);
      assert sales[i + 1] == sales[1..][i];
      forall j | 0 <= j < i + 1 ensures !Candidate(sales[j], po, linked) {
        if j > 0 { assert sales[j] == sales[1..][j - 1]; }
      }
    }
  }

  /** The link recorded in `so_po_map`: the first key mapped to the production
      order, when it is a non-empty id of a listed sales order. */
  function MapLink(sales: seq<SalesOrder>, soPoMap: Dict<string, string>, po: ProductionOrder): Option<SalesOrder> {
    match FirstKeyWithValue(soPoMap, po.id)
    case Some(soId) => if soId != "" then SoById(sales, soId) else None
    case None => None
  }

  /** The entry of a production order linked to a sales order. */
  function ExistingEntry(po: ProductionOrder, so: SalesOrder): ScheduleEntry {
    ScheduleEntry(po, so, po.startsAt, po.endsAt, so.deadline, po.endsAt <= so.deadline,
                  so.deadline - po.endsAt, "", true)
  }

  /** The stand-in sales order of an unlinked production order. */
  function PlaceholderSo(po: ProductionOrder): SalesOrder {
    SalesOrder("", po.internalId, Customer("", "—", "", ""),
               SalesOrderLine("", po.productName, po.productName, po.quantity, "pcs"),
               po.endsAt, 99, "unknown", "", None)
  }

  /** The entry of an unlinked production order: due when it ends, so on time. */
  function PlaceholderEntry(po: ProductionOrder): ScheduleEntry {
    ScheduleEntry(po, PlaceholderSo(po), po.startsAt, po.endsAt, po.endsAt, true, 0, "", true)
  }

  /** The state `_match_existing_pos` carries through its loop. */
  datatype MatchState = MatchState(entries: seq<ScheduleEntry>, linked: set<string>, soPoMap: Dict<string, string>)

  /** One iteration: link through the map, else through the first candidate
      (recording that link in the map), else fall back to a placeholder. */
  function MatchStep(sales: seq<SalesOrder>, st: MatchState, po: ProductionOrder): MatchState {
    var viaMap := MapLink(sales, st.soPoMap, po);
    if viaMap.Some? then
      var so := viaMap.value;
      MatchState(st.entries + [ExistingEntry(po, so)], st.linked + {so.id}, st.soPoMap)
    else match FirstCandidate(sales, po, st.linked)
      case Some(so) =>
        MatchState(st.entries + [ExistingEntry(po, so)], st.linked + {so.id}, Put(st.soPoMap, so.id, po.id))
      case None =>
        MatchState(st.entries + [PlaceholderEntry(po)], st.linked, st.soPoMap)
  }

  /** The loop after the first `n` production orders. */
  function MatchUpTo(pos: seq<ProductionOrder>, sales: seq<SalesOrder>, soPoMap: Dict<string, string>, n: nat): (r: MatchState)
    requires n <= |pos|
    ensures |r.entries| == n
  {
    if n == 0 then MatchState([], {}, soPoMap)
    else MatchStep(sales, MatchUpTo(pos, sales, soPoMap, n - 1), pos[n - 1])
  }

  /** A linked sales order is recorded in the map against the production
      order of an entry that carries it. */
  ghost predicate Recorded(st: MatchState, id: string) {
    Get(st.soPoMap, id).Some?
    && exists k :: 0 <= k < |st.entries| && st.entries[k].salesOrder.id == id
                   && st.entries[k].productionOrder.id == Get(st.soPoMap, id).value
  }

  /** The entry `_match_existing_pos` makes for `po`: existing, dated as the
      production order, consistent, and either a placeholder or carrying a
      listed sales order and its deadline. */
  predicate EntryOfExisting(e: ScheduleEntry, po: ProductionOrder, sales: seq<SalesOrder>) {
    && e.productionOrder == po && e.isExisting && Consistent(e)
    && e.plannedStart == po.startsAt && e.plannedEnd == po.endsAt
    && (e == PlaceholderEntry(po) || (e.salesOrder in sales && e.deadline == e.salesOrder.deadline))
  }

  /** One step appends exactly one entry, the one for the production order. */
  lemma MatchStepEntry(sales: seq<SalesOrder>, prev: MatchState, po: ProductionOrder)
    ensures |MatchStep(sales, prev, po).entries| == |prev.entries| + 1
    ensures MatchStep(sales, prev, po).entries[..|prev.entries|] == prev.entries
    ensures EntryOfExisting(MatchStep(sales, prev, po).entries[|prev.entries|], po, sales)
  {
    FirstCandidateListed(sales, po, prev.linked);
    match FirstKeyWithValue(prev.soPoMap, po.id)
    case Some(soId) => SoByIdListed(sales, soId);
    case None =>
  }

  /** `_match_existing_pos` yields one entry per production order, in order:
      the `k`-th entry is the entry of the `k`-th production order. */
  lemma {:induction false} MatchUpToEntry(pos: seq<ProductionOrder>, sales: seq<SalesOrder>, soPoMap: Dict<string, string>, n: nat, k: nat)
    requires k < n <= |pos|
    ensures |MatchUpTo(pos, sales, soPoMap, n).entries| == n
    ensures EntryOfExisting(MatchUpTo(pos, sales, soPoMap, n).entries[k], pos[k], sales)
  {
    var prev := MatchUpTo(pos, sales, soPoMap, n - 1);
    MatchStepEntry(sales, prev, pos[n - 1]);
    if k < n - 1 {
      MatchUpToEntry(pos, sales, soPoMap, n - 1, k);
      assert MatchUpTo(pos, sales, soPoMap, n).entries[k] == prev.entries[k];
    } else if n > 1 {
      MatchUpToEntry(pos, sales, soPoMap, n - 1, 0);
    }
  }

  /** One entry per production order. */
  lemma {:induction false} MatchUpToLength(pos: seq<ProductionOrder>, sales: seq<SalesOrder>, soPoMap: Dict<string, string>, n: nat)
    requires n <= |pos|
    ensures |MatchUpTo(pos, sales, soPoMap, n).entries| == n
  {
    if n > 0 {
      MatchUpToLength(pos, sales, soPoMap, n - 1);
      MatchStepEntry(sales, MatchUpTo(pos, sales, soPoMap, n - 1), pos[n - 1]);
    }
  }

  /** The map `_match_existing_pos` hands back keeps its keys distinct. */
  lemma {:induction false} MatchUpToDistinct(pos: seq<ProductionOrder>, sales: seq<SalesOrder>, soPoMap: Dict<string, string>, n: nat)
    requires n <= |pos| && DistinctKeys(soPoMap)
    ensures DistinctKeys(MatchUpTo(pos, sales, soPoMap, n).soPoMap)
  {
    if n > 0 {
      var prev := MatchUpTo(pos, sales, soPoMap, n - 1);
      MatchUpToDistinct(pos, sales, soPoMap, n - 1);
      var cand := FirstCandidate(sales, pos[n - 1], prev.linked);
      if cand.Some? {
        PutDistinct(prev.soPoMap, cand.value.id, pos[n - 1].id);
      }
    }
  }

  /** Every link `_match_existing_pos` makes is kept in the map: the sales
      order is mapped to the production order of an entry that carries it. */
  lemma {:induction false} MatchUpToRecordsLink(pos: seq<ProductionOrder>, sales: seq<SalesOrder>, soPoMap: Dict<string, string>, n: nat, id: string)
    requires 0 < n <= |pos| && DistinctKeys(soPoMap)
    requires id in MatchUpTo(pos, sales, soPoMap, n).linked
    ensures Recorded(MatchUpTo(pos, sales, soPoMap, n), id)
  {
    var prev := MatchUpTo(pos, sales, soPoMap, n - 1);
    MatchUpToDistinct(pos, sales, soPoMap, n - 1);
    if id in prev.linked && n > 1 {
      MatchUpToRecordsLink(pos, sales, soPoMap, n - 1, id);
    }
    MatchStepRecordsLink(sales, prev, pos[n - 1], id);
  }

  lemma MatchStepRecordsLink(sales: seq<SalesOrder>, prev: MatchState, po: ProductionOrder, id: string)
    requires DistinctKeys(prev.soPoMap)
    requires id in prev.linked ==> Recorded(prev, id)
    requires id in MatchStep(sales, prev, po).linked
    ensures Recorded(MatchStep(sales, prev, po), id)
  {
    var st := MatchStep(sales, prev, po);
    var n := |st.entries|;
    var viaMap := MapLink(sales, prev.soPoMap, po);
    var cand := FirstCandidate(sales, po, prev.linked);
    var newId: string;
    if viaMap.Some? {
      newId := viaMap.value.id;
      var soId := FirstKeyWithValue(prev.soPoMap, po.id).value;
      FirstKeyWithValueFound(prev.soPoMap, po.id);
      GetOfPair(prev.soPoMap, soId, po.id);
    } else if cand.Some? {
      newId := cand.value.id;
      GetPut(prev.soPoMap, newId, po.id, id);
    } else {
      newId := "";
    }
    if id in prev.linked && (id != newId || (viaMap.None? && cand.None?)) {
      var k :| 0 <= k < |prev.entries| && prev.entries[k].salesOrder.id == id
               && prev.entries[k].productionOrder.id == Get(prev.soPoMap, id).value;
      assert st.entries[k] == prev.entries[k];
    } else {
      assert st.entries[n - 1].salesOrder.id == id;
    }
  }

  /** With distinct keys, a pair in the dictionary is what `get` returns. */
  lemma {:induction false} GetOfPair(d: Dict<string, string>, k: string, v: string)
    requires DistinctKeys(d) && (k, v) in d
    ensures Get(d, k) == Some(v)
  {
    if d[0] != (k, v) {
      assert d[0].0 != k by {
        var i :| 0 <= i < |d| && d[i] == (k, v);
      }
      assert (k, v) in d[1..] by {
        var i :| 0 <= i < |d| && d[i] == (k, v);
        assert d[1..][i - 1] == (k, v);
      }
      GetOfPair(d[1..], k, v);
    }
  }

  /** How one production order is linked: through the map when it names a
      listed sales order; otherwise to the first listed sales order that is
      not linked yet and has the same product and quantity, and that link is
      written into the map; otherwise not at all. */
  lemma MatchStepLinks(sales: seq<SalesOrder>, st: MatchState, po: ProductionOrder)
    ensures var next := MatchStep(sales, st, po);
      var e := next.entries[|st.entries|];
      && next.entries[..|st.entries|] == st.entries
      && (MapLink(sales, st.soPoMap, po).Some? ==>
            e.salesOrder == MapLink(sales, st.soPoMap, po).value && next.soPoMap == st.soPoMap)
      && (MapLink(sales, st.soPoMap, po).None? && FirstCandidate(sales, po, st.linked).Some? ==>
            var so := FirstCandidate(sales, po, st.linked).value;
            e.salesOrder == so && Candidate(so, po, st.linked) && Get(next.soPoMap, so.id) == Some(po.id))
      && (MapLink(sales, st.soPoMap, po).None? && FirstCandidate(sales, po, st.linked).None? ==>
            e == PlaceholderEntry(po) && next.soPoMap == st.soPoMap)
  {
    var next := MatchStep(sales, st, po);
    assert next.entries[..|st.entries|] == st.entries;
    if MapLink(sales, st.soPoMap, po).None? && FirstCandidate(sales, po, st.linked).Some? {
      var so := FirstCandidate(sales, po, st.linked).value;
      GetPut(st.soPoMap, so.id, po.id, so.id);
    }
  }

  /** The fallback search of `_match_existing_pos`: a loop with an early exit. */
  method FindCandidate(sales: seq<SalesOrder>, po: ProductionOrder, linked: set<string>) returns (r: Option<SalesOrder>)
    ensures r == FirstCandidate(sales, po, linked)
  {
    var i := 0;
    while i < |sales|
      invariant 0 <= i <= |sales|
      invariant FirstCandidate(sales, po, linked) == FirstCandidate(sales[i..], po, linked)
    {
      var so := sales[i];
      if so.id !in linked && ProductMatches(so, po) && so.line.quantity == po.quantity {
        return Some(so);
      }
      assert sales[i..][1..] == sales[i + 1..];
      i := i + 1;
    }
    return None;
  }

  /** `_match_existing_pos`: the dictionary argument is updated in place by
      the source; here the updated dictionary is returned. */
  method MatchExistingPos(pos: seq<ProductionOrder>, sales: seq<SalesOrder>, soPoMap: Dict<string, string>)
    returns (entries: seq<ScheduleEntry>, linked: set<string>, newMap: Dict<string, string>)
    ensures MatchState(entries, linked, newMap) == MatchUpTo(pos, sales, soPoMap, |pos|)
  {
    entries, linked, newMap := [], {}, soPoMap;
    var i := 0;
    while i < |pos|
      invariant 0 <= i <= |pos|
      invariant MatchState(entries, linked, newMap) == MatchUpTo(pos, sales, soPoMap, i)
    {
      var po := pos[i];
      ghost var expected := MatchStep(sales, MatchState(entries, linked, newMap), po);
      var matched := MapLink(sales, newMap, po);
      if matched.None? {
        matched := FindCandidate(sales, po, linked);
        if matched.Some? {
          newMap := Put(newMap, matched.value.id, po.id);
        }
      }
      if matched.Some? {
        linked := linked + {matched.value.id};
        entries := entries + [ExistingEntry(po, matched.value)];
      } else {
        entries := entries + [PlaceholderEntry(po)];
      }
      assert MatchState(entries, linked, newMap) == expected;
      assert MatchUpTo(pos, sales, soPoMap, i + 1) == expected;
      i := i + 1;
    }
  }

  // ---------------------------------------------------------------------
  // Active entries
  // ---------------------------------------------------------------------

  /** An entry is still relevant when its deadline or its production end is in the future. */
  predicate IsActive(now: Instant, e: ScheduleEntry) {
    e.deadline > now || e.plannedEnd > now
  }

  /** `_filter_active_entries`. */
  method FilterActiveEntries(entries: seq<ScheduleEntry>, now: Instant) returns (active: seq<ScheduleEntry>)
    ensures active == Filter(entries, e => IsActive(now, e))
    ensures forall e :: e in active <==> e in entries && IsActive(now, e)
  {
    active := [];
    var i := 0;
    while i < |entries|
      invariant 0 <= i <= |entries|
      invariant active == Filter(entries[..i], e => IsActive(now, e))
    {
      var e := entries[i];
      assert entries[..i + 1] == entries[..i] + [e];
      FilterAppend(entries[..i], [e], e => IsActive(now, e));
      if e.deadline > now || e.plannedEnd > now {
        active := active + [e];
      }
      i := i + 1;
    }
    assert entries[..i] == entries;
    forall e ensures e in active <==> e in entries && IsActive(now, e) {
      FilterMembership(entries, e => IsActive(now, e), e);
    }
  }
}

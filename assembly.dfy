/** The planning steps of `compute_schedule` (src/scheduler_logic/orchestrator.py):
    which unlinked sales orders are pending and which are skipped, the
    optional reorder hint spliced in front of the EDF order, the starting
    cursor of the line, the pass that dates each pending order, and the final
    schedule. The remote API (sales orders, production orders, product UUIDs,
    production-order creation), the clock and the schedule UUID are inputs. */
module Assembly {
  import opened Basics
  import opened ShiftCalendar
  import opened Models
  import opened Sorting
  import opened Planning
  import opened PhasePlanning
  import opened PyDict
  import opened Orchestrator

  // ---------------------------------------------------------------------
  // Pending and skipped sales orders
  // ---------------------------------------------------------------------

  predicate IsPending(linked: set<string>, now: Instant, so: SalesOrder) {
    so.id !in linked && so.deadline > now
  }

  predicate IsSkipped(linked: set<string>, now: Instant, so: SalesOrder) {
    so.id !in linked && so.deadline <= now
  }

  /** The `pending` comprehension. */
  function Pending(sales: seq<SalesOrder>, linked: set<string>, now: Instant): seq<SalesOrder> {
    Filter(sales, so => IsPending(linked, now, so))
  }

  /** The `skipped` comprehension. */
  function Skipped(sales: seq<SalesOrder>, linked: set<string>, now: Instant): seq<SalesOrder> {
    Filter(sales, so => IsSkipped(linked, now, so))
  }

  /** The sales orders without a production order split into those still
      due (pending) and those past their deadline (skipped): each is in
      exactly one of the two, and together they are the unlinked orders. */
  lemma PendingSkippedPartition(sales: seq<SalesOrder>, linked: set<string>, now: Instant)
    ensures multiset(Pending(sales, linked, now)) + multiset(Skipped(sales, linked, now))
         == multiset(Filter(sales, (so: SalesOrder) => so.id !in linked))
    ensures forall so :: so in Pending(sales, linked, now) <==> so in sales && so.id !in linked && so.deadline > now
    ensures forall so :: so in Skipped(sales, linked, now) <==> so in sales && so.id !in linked && so.deadline <= now
  {
    var unlinked := (so: SalesOrder) => so.id !in linked;
    var due := (so: SalesOrder) => so.deadline > now;
    var late := (so: SalesOrder) => so.deadline <= now;
    var u := Filter(sales, unlinked);
    FilterFilter(sales, unlinked, due, so => IsPending(linked, now, so));
    FilterFilter(sales, unlinked, late, so => IsSkipped(linked, now, so));
    FilterPartition(u, due, late);
    forall so ensures so in Pending(sales, linked, now) <==> so in sales && so.id !in linked && so.deadline > now {
      FilterMembership(sales, so => IsPending(linked, now, so), so);
    }
    forall so ensures so in Skipped(sales, linked, now) <==> so in sales && so.id !in linked && so.deadline <= now {
      FilterMembership(sales, so => IsSkipped(linked, now, so), so);
    }
  }

  // ---------------------------------------------------------------------
  // The reorder hint
  // ---------------------------------------------------------------------

  function Ids(s: seq<SalesOrder>): (r: seq<string>)
    ensures |r| == |s|
  {
    if s == [] then [] else [s[0].id] + Ids(s[1..])
  }

  predicate DistinctIds(s: seq<SalesOrder>) {
    forall i, j :: 0 <= i < j < |s| ==> s[i].id != s[j].id
  }

  /** `{so.id: so for so in pending}[id]`: a later order with the same id
      overwrites an earlier one. */
  function LastWithId(pending: seq<SalesOrder>, id: string): (r: Option<SalesOrder>)
    ensures r.Some? ==> r.value.id == id
  {
    if pending == [] then None
    else match LastWithId(pending[1..], id)
      case Some(so) => Some(so)
      case None => if pending[0].id == id then Some(pending[0]) else None
  }

  /** An id is found exactly when a pending order carries it, and what is
      found is a pending order. */
  lemma {:induction false} LastWithIdListed(pending: seq<SalesOrder>, id: string)
    ensures LastWithId(pending, id).Some? <==> id in Ids(pending)
    ensures LastWithId(pending, id).Some? ==> LastWithId(pending, id).value in pending
  {
    if pending != [] {
      LastWithIdListed(pending[1..], id);
      assert Ids(pending) == [pending[0].id] + Ids(pending[1..]);
    }
  }

  /** `[order_map[sid] for sid in ai_reorder if sid in order_map]`. */
  function HintPicks(pending: seq<SalesOrder>, hint: seq<string>): (r: seq<SalesOrder>)
    ensures |r| <= |hint|
  {
    if hint == [] then []
    else
      (match LastWithId(pending, hint[0])
       case Some(so) => [so]
       case None => []) + HintPicks(pending, hint[1..])
  }

  /** The reordering of `compute_schedule` as written: with a non-empty
      hint, the hinted pending orders in hint order, then the others in EDF
      order; without one, all of them in EDF order. */
  function SpliceHintAsWritten(pending: seq<SalesOrder>, hint: seq<string>): seq<SalesOrder> {
    if hint == [] then SortOrdersEdf(pending)
    else HintPicks(pending, hint) + SortOrdersEdf(Filter(pending, (so: SalesOrder) => so.id !in hint))
  }

  /** A sales order named twice in the hint is planned twice. */
  lemma SpliceHintAsWrittenDuplicates()
    ensures var a := SampleOrder("A", 20516 * MinutesInDay, 2);
      && SpliceHintAsWritten([a], ["A", "A"]) == [a, a]
      && |SpliceHintAsWritten([a], ["A", "A"])| > |[a]|
  {
    var a := SampleOrder("A", 20516 * MinutesInDay, 2);
    assert LastWithId([a], "A") == Some(a);
    assert HintPicks([a], ["A"]) == [a];
    assert HintPicks([a], ["A", "A"]) == [a, a];
    assert Filter([a], (so: SalesOrder) => so.id !in ["A", "A"]) == [];
  }

  /** The hint with repeated ids dropped, keeping first occurrences. */
  function Dedup(hint: seq<string>): (r: seq<string>)
    ensures forall x :: x in r <==> x in hint
    decreases |hint|
  {
    if hint == [] then []
    else
      var d := Dedup(Init(hint));
      assert hint == Init(hint) + [Last(hint)];
      if Last(hint) in d then d else d + [Last(hint)]
  }

  predicate DistinctStrings(s: seq<string>) {
    forall i, j :: 0 <= i < j < |s| ==> s[i] != s[j]
  }

  lemma {:induction false} DedupDistinct(hint: seq<string>)
    ensures DistinctStrings(Dedup(hint))
    decreases |hint|
  {
    if hint != [] {
      DedupDistinct(Init(hint));
    }
  }

  /** The splice `compute_schedule` evidently intends: each hinted id once. */
  function SpliceHint(pending: seq<SalesOrder>, hint: seq<string>): seq<SalesOrder> {
    SpliceHintAsWritten(pending, Dedup(hint))
  }

  /** With distinct order ids, the orders with a given id are the one
      `LastWithId` finds, or none. */
  lemma {:induction false} FilterIdIsLast(pending: seq<SalesOrder>, id: string)
    requires DistinctIds(pending)
    ensures Filter(pending, (so: SalesOrder) => so.id == id)
         == match LastWithId(pending, id) case Some(so) => [so] case None => []
  {
    if pending != [] {
      var rest := pending[1..];
      assert DistinctIds(rest) by {
        forall i, j | 0 <= i < j < |rest| ensures rest[i].id != rest[j].id {
          assert rest[i] == pending[i + 1] && rest[j] == pending[j + 1];
        }
      }
      FilterIdIsLast(rest, id);
      if pending[0].id == id {
        forall i | 0 <= i < |rest| ensures rest[i].id != id {
          assert rest[i] == pending[i + 1];
        }
        FilterNone(rest, (so: SalesOrder) => so.id == id);
        LastWithIdListed(rest, id);
      }
    }
  }

  /** With distinct order ids and a hint without repeats, the hinted picks
      are the pending orders whose id is hinted. */
  lemma {:induction false} HintPicksAreHinted(pending: seq<SalesOrder>, hint: seq<string>)
    requires DistinctIds(pending) && DistinctStrings(hint)
    ensures multiset(HintPicks(pending, hint)) == multiset(Filter(pending, (so: SalesOrder) => so.id in hint))
  {
    if hint == [] {
      FilterNone(pending, (so: SalesOrder) => so.id in hint);
    } else {
      var x := hint[0];
      var t := hint[1..];
      assert DistinctStrings(t) by {
        forall i, j | 0 <= i < j < |t| ensures t[i] != t[j] {
          assert t[i] == hint[i + 1] && t[j] == hint[j + 1];
        }
      }
      HintPicksAreHinted(pending, t);
      FilterIdIsLast(pending, x);
      assert x !in t by {
        forall j | 0 <= j < |t| ensures t[j] != x {
          assert t[j] == hint[j + 1];
        }
      }
      FilterDisjointUnion(pending, (so: SalesOrder) => so.id == x, (so: SalesOrder) => so.id in t, (so: SalesOrder) => so.id in hint);
    }
  }

  /** With distinct order ids the splice is a permutation of the pending
      orders: none is lost and none is planned twice. */
  lemma SpliceHintPermutation(pending: seq<SalesOrder>, hint: seq<string>)
    requires DistinctIds(pending)
    ensures multiset(SpliceHint(pending, hint)) == multiset(pending)
  {
    var h := Dedup(hint);
    DedupDistinct(hint);
    if h != [] {
      HintPicksAreHinted(pending, h);
      FilterPartition(pending, (so: SalesOrder) => so.id in h, (so: SalesOrder) => so.id !in h);
    }
  }

  /** The picks carry the hinted ids that are pending, in hint order; hint ids
      that are not pending are ignored. */
  lemma {:induction false} HintPicksIds(pending: seq<SalesOrder>, hint: seq<string>)
    ensures Ids(HintPicks(pending, hint)) == Filter(hint, id => id in Ids(pending))
  {
    if hint != [] {
      HintPicksIds(pending, hint[1..]);
      LastWithIdListed(pending, hint[0]);
      var head := match LastWithId(pending, hint[0]) case Some(so) => [so] case None => [];
      IdsAppend(head, HintPicks(pending, hint[1..]));
    }
  }

  lemma {:induction false} IdsAppend(a: seq<SalesOrder>, b: seq<SalesOrder>)
    ensures Ids(a + b) == Ids(a) + Ids(b)
  {
    if a != [] {
      IdsAppend(a[1..], b);
      assert (a + b)[1..] == a[1..] + b;
      assert Ids(a + b) == [a[0].id] + Ids(a[1..] + b);
      assert Ids(a) == [a[0].id] + Ids(a[1..]);
    } else {
      assert a + b == b;
    }
  }

  /** The spliced order: first the pending orders the hint names, once each
      and in hint order, then every other pending order in EDF order. */
  lemma SpliceHintOrder(pending: seq<SalesOrder>, hint: seq<string>)
    ensures var r := SpliceHint(pending, hint);
      var named := Filter(Dedup(hint), id => id in Ids(pending));
      && |named| <= |r|
      && Ids(r[..|named|]) == named
      && (forall so :: so in r[|named|..] <==> so in pending && so.id !in hint)
      && (forall i, j :: |named| <= i < j < |r| ==> PairLe(EdfKey(r[i]), EdfKey(r[j])))
  {
    var h := Dedup(hint);
    var r := SpliceHint(pending, hint);
    var named := Filter(h, id => id in Ids(pending));
    var rest := Filter(pending, (so: SalesOrder) => so.id !in h);
    if h == [] {
      FilterNone(h, id => id in Ids(pending));
      SortOrdersEdfSorted(pending);
      assert r[|named|..] == SortOrdersEdf(pending);
      forall so ensures so in r[|named|..] <==> so in pending && so.id !in hint {
        assert so in multiset(SortOrdersEdf(pending)) <==> so in multiset(pending);
      }
    } else {
      var picks := HintPicks(pending, h);
      HintPicksIds(pending, h);
      assert |picks| == |named|;
      assert r[..|named|] == picks;
      assert r[|named|..] == SortOrdersEdf(rest);
      SortOrdersEdfSorted(rest);
      forall so ensures so in r[|named|..] <==> so in pending && so.id !in hint {
        assert so in multiset(SortOrdersEdf(rest)) <==> so in multiset(rest);
        FilterMembership(pending, (so: SalesOrder) => so.id !in h, so);
      }
    }
  }

  // ---------------------------------------------------------------------
  // The starting cursor
  // ---------------------------------------------------------------------

  /** `max(po.ends_at for po in existing_pos)`. */
  function LatestEnd(pos: seq<ProductionOrder>): Instant
    requires pos != []
  {
    if |pos| == 1 then pos[0].endsAt else Max(pos[0].endsAt, LatestEnd(pos[1..]))
  }

  lemma {:induction false} LatestEndIsMax(pos: seq<ProductionOrder>)
    requires pos != []
    ensures forall i :: 0 <= i < |pos| ==> pos[i].endsAt <= LatestEnd(pos)
    ensures exists i :: 0 <= i < |pos| && pos[i].endsAt == LatestEnd(pos)
  {
    if |pos| > 1 {
      LatestEndIsMax(pos[1..]);
      var i :| 0 <= i < |pos[1..]| && pos[1..][i].endsAt == LatestEnd(pos[1..]);
      assert pos[i + 1] == pos[1..][i];
      if pos[0].endsAt < LatestEnd(pos[1..]) {
        assert pos[i + 1].endsAt == LatestEnd(pos);
      } else {
        assert pos[0].endsAt == LatestEnd(pos);
      }
      forall k | 1 <= k < |pos| ensures pos[k].endsAt <= LatestEnd(pos) {
        assert pos[k] == pos[1..][k - 1];
      }
    } else {
      assert pos[0].endsAt == LatestEnd(pos);
    }
  }

  /** Where the line is free: after every existing production order (even a
      finished one) and not before the snapped current time. */
  function InitialCursor(pos: seq<ProductionOrder>, now: Instant): Instant {
    if pos != [] then Max(LatestEnd(pos), SnapToWorkingHours(now)) else SnapToWorkingHours(now)
  }

  /** The starting cursor is no earlier than the snapped current time nor any
      existing production order's end, and it is one of those instants. */
  lemma InitialCursorBounds(pos: seq<ProductionOrder>, now: Instant)
    ensures InitialCursor(pos, now) >= SnapToWorkingHours(now) >= now
    ensures forall i :: 0 <= i < |pos| ==> pos[i].endsAt <= InitialCursor(pos, now)
    ensures InitialCursor(pos, now) == SnapToWorkingHours(now)
         || exists i :: 0 <= i < |pos| && pos[i].endsAt == InitialCursor(pos, now)
  {
    if pos != [] {
      LatestEndIsMax(pos);
    }
  }

  // ---------------------------------------------------------------------
  // The pass over the pending orders
  // ---------------------------------------------------------------------

  /** What the pass threads through its loop: the line cursor, the new
      entries and the client's sales-order to production-order map. */
  datatype PassState = PassState(cursor: Instant, entries: seq<ScheduleEntry>, soPoMap: Dict<string, string>)

  /** One iteration: plan the order at the cursor; a raised exception is
      logged and leaves everything as it was; a planned entry is kept and its
      link written into the map. `create(so, cursor)` is the production order
      the API creates and schedules for it, or `None` when a call raises. */
  function PassStep(uuids: map<string, string>, create: (SalesOrder, Instant) -> Option<ProductionOrder>,
                    st: PassState, so: SalesOrder): PassState
  {
    match SingleOrderPlan(so, uuids, st.cursor, create(so, st.cursor))
    case Raised => st
    case Planned(c, None) => PassState(c, st.entries, st.soPoMap)
    case Planned(c, Some(e)) => PassState(c, st.entries + [e], Put(st.soPoMap, so.id, e.productionOrder.id))
  }

  /** The pass over `orders`. */
  function PlanPass(uuids: map<string, string>, create: (SalesOrder, Instant) -> Option<ProductionOrder>,
                    start: PassState, orders: seq<SalesOrder>): PassState
    decreases |orders|
  {
    if orders == [] then start
    else PassStep(uuids, create, PlanPass(uuids, create, start, Init(orders)), Last(orders))
  }

  /** An order that is skipped or whose API calls raise leaves the cursor and
      the entries alone; a planned one appends an entry that starts at the
      cursor and ends where the cursor moves, for that sales order, new,
      with its on-time flag and slack agreeing with its end, and records its
      production order in the map. */
  lemma PassStepShape(uuids: map<string, string>, create: (SalesOrder, Instant) -> Option<ProductionOrder>,
                      st: PassState, so: SalesOrder)
    ensures var next := PassStep(uuids, create, st, so);
      && next.cursor >= st.cursor
      && (|next.entries| == |st.entries| ==> next.entries == st.entries && next.cursor == st.cursor && next.soPoMap == st.soPoMap)
      && (|next.entries| != |st.entries| ==>
            && |next.entries| == |st.entries| + 1
            && next.entries[..|st.entries|] == st.entries
            && var e := next.entries[|st.entries|];
            && e.plannedStart == st.cursor && e.plannedEnd == next.cursor
            && e.salesOrder == so && !e.isExisting && Consistent(e)
            && Get(next.soPoMap, so.id) == Some(e.productionOrder.id))
  {
    var out := SingleOrderPlan(so, uuids, st.cursor, create(so, st.cursor));
    if out.Planned? {
      SingleOrderPlanned(so, uuids, st.cursor, create(so, st.cursor));
      if out.entry.Some? {
        var e := out.entry.value;
        GetPut(st.soPoMap, so.id, e.productionOrder.id, so.id);
        var next := PassStep(uuids, create, st, so);
        assert next.entries[..|st.entries|] == st.entries;
      }
    }
  }

  /** New entries follow one another on the line: the first starts at the
      incoming cursor, each next one where the previous ended, and the last
      ends at the cursor the pass leaves. */
  ghost predicate BackToBack(es: seq<ScheduleEntry>, from: Instant, to: Instant) {
    && (es == [] ==> from == to)
    && (es != [] ==> es[0].plannedStart == from && es[|es| - 1].plannedEnd == to)
    && (forall k :: 0 <= k < |es| - 1 ==> es[k].plannedEnd == es[k + 1].plannedStart)
  }

  /** The pass dates its new entries back to back from the cursor it starts
      with, and the cursor never moves backwards. */
  lemma {:induction false} PlanPassBackToBack(uuids: map<string, string>, create: (SalesOrder, Instant) -> Option<ProductionOrder>,
                                              start: PassState, orders: seq<SalesOrder>)
    ensures var end := PlanPass(uuids, create, start, orders);
      && end.cursor >= start.cursor
      && |end.entries| >= |start.entries|
      && end.entries[..|start.entries|] == start.entries
      && BackToBack(end.entries[|start.entries|..], start.cursor, end.cursor)
    decreases |orders|
  {
    if orders != [] {
      var prev := PlanPass(uuids, create, start, Init(orders));
      PlanPassBackToBack(uuids, create, start, Init(orders));
      PassStepShape(uuids, create, prev, Last(orders));
      var end := PlanPass(uuids, create, start, orders);
      var n := |start.entries|;
      if |end.entries| != |prev.entries| {
        var e := end.entries[|prev.entries|];
        assert end.entries == prev.entries + [e];
        assert end.entries[n..] == prev.entries[n..] + [e];
        assert end.entries[..n] == prev.entries[..n];
        BackToBackSnoc(prev.entries[n..], e, start.cursor, prev.cursor, end.cursor);
      }
    }
  }

  lemma BackToBackSnoc(olds: seq<ScheduleEntry>, e: ScheduleEntry, from: Instant, mid: Instant, to: Instant)
    requires BackToBack(olds, from, mid) && e.plannedStart == mid && e.plannedEnd == to
    ensures BackToBack(olds + [e], from, to)
  {
    var news := olds + [e];
    forall k | 0 <= k < |news| - 1 ensures news[k].plannedEnd == news[k + 1].plannedStart {
      if k < |olds| - 1 {
        assert news[k] == olds[k] && news[k + 1] == olds[k + 1];
      }
    }
  }

  /** Every new entry of the pass is a new, consistent entry for one of the
      orders passed over. */
  lemma {:induction false} PlanPassEntry(uuids: map<string, string>, create: (SalesOrder, Instant) -> Option<ProductionOrder>,
                                         start: PassState, orders: seq<SalesOrder>, k: nat)
    requires |start.entries| <= k < |PlanPass(uuids, create, start, orders).entries|
    ensures var e := PlanPass(uuids, create, start, orders).entries[k];
      && e.salesOrder in orders && !e.isExisting && Consistent(e)
      && start.cursor <= e.plannedStart <= e.plannedEnd
    decreases |orders|
  {
    var prev := PlanPass(uuids, create, start, Init(orders));
    PassStepShape(uuids, create, prev, Last(orders));
    PlanPassBackToBack(uuids, create, start, Init(orders));
    assert orders == Init(orders) + [Last(orders)];
    if k < |prev.entries| {
      PlanPassEntry(uuids, create, start, Init(orders), k);
    }
  }

  /** The loop of `compute_schedule` over the pending orders. */
  method PlanPending(uuids: map<string, string>, create: (SalesOrder, Instant) -> Option<ProductionOrder>,
                     pending: seq<SalesOrder>, cursor: Instant, soPoMap: Dict<string, string>)
    returns (currentTime: Instant, newEntries: seq<ScheduleEntry>, newMap: Dict<string, string>)
    ensures PassState(currentTime, newEntries, newMap) == PlanPass(uuids, create, PassState(cursor, [], soPoMap), pending)
  {
    currentTime, newEntries, newMap := cursor, [], soPoMap;
    var i := 0;
    while i < |pending|
      invariant 0 <= i <= |pending|
      invariant PassState(currentTime, newEntries, newMap) == PlanPass(uuids, create, PassState(cursor, [], soPoMap), pending[..i])
    {
      var so := pending[i];
      assert Init(pending[..i + 1]) == pending[..i];
      ghost var expected := PassStep(uuids, create, PassState(currentTime, newEntries, newMap), so);
      var out := ScheduleSingleOrder(so, uuids, currentTime, create(so, currentTime));
      if out.Planned? {
        currentTime := out.cursor;
        if out.entry.Some? {
          var entry := out.entry.value;
          newEntries := newEntries + [entry];
          newMap := Put(newMap, so.id, entry.productionOrder.id);
        }
      }
      assert PassState(currentTime, newEntries, newMap) == expected;
      i := i + 1;
    }
    assert pending[..i] == pending;
  }

  // ---------------------------------------------------------------------
  // The schedule
  // ---------------------------------------------------------------------

  function StartKey(e: ScheduleEntry): (int, int) {
    (e.plannedStart, 0)
  }

  /** `all_entries.sort(key=lambda e: e.planned_start)`. */
  function SortByStart(es: seq<ScheduleEntry>): seq<ScheduleEntry> {
    SortStable(es, ByPairKey(StartKey))
  }

  /** What `compute_schedule` hands back: the schedule, and the client's map
      after the pass. */
  datatype Computed = Computed(schedule: Schedule, soPoMap: Dict<string, string>)

  /** The pending orders in the order they are planned. */
  function PlanOrder(sales: seq<SalesOrder>, pos: seq<ProductionOrder>, soPoMap: Dict<string, string>,
                     now: Instant, aiReorder: seq<string>): seq<SalesOrder>
  {
    SpliceHint(Pending(sales, MatchUpTo(pos, sales, soPoMap, |pos|).linked, now), aiReorder)
  }

  /** The pass over the pending orders, from the starting cursor and the map
      the matching left. */
  function Pass(sales: seq<SalesOrder>, pos: seq<ProductionOrder>, soPoMap: Dict<string, string>,
                now: Instant, uuids: map<string, string>,
                create: (SalesOrder, Instant) -> Option<ProductionOrder>, aiReorder: seq<string>): PassState
  {
    PlanPass(uuids, create, PassState(InitialCursor(pos, now), [], MatchUpTo(pos, sales, soPoMap, |pos|).soPoMap),
             PlanOrder(sales, pos, soPoMap, now, aiReorder))
  }

  /** The existing entries still active. */
  function ActiveExisting(sales: seq<SalesOrder>, pos: seq<ProductionOrder>, soPoMap: Dict<string, string>,
                          now: Instant): seq<ScheduleEntry>
  {
    Filter(MatchUpTo(pos, sales, soPoMap, |pos|).entries, e => IsActive(now, e))
  }

  /** `compute_schedule` as a function of the API state and its inputs. A
      missing or empty reorder hint and missing or empty AI conflicts behave
      alike, so both are sequences here. */
  function ComputeSchedulePlan(sales: seq<SalesOrder>, pos: seq<ProductionOrder>, soPoMap: Dict<string, string>,
                               now: Instant, uuids: map<string, string>,
                               create: (SalesOrder, Instant) -> Option<ProductionOrder>,
                               scheduleId: string, comment: string,
                               aiReorder: seq<string>, aiComment: string, aiConflicts: seq<string>): (r: Computed)
    ensures r.schedule.status == "proposed" && r.schedule.generatedAt == Some(now)
  {
    var pass := Pass(sales, pos, soPoMap, now, uuids, create, aiReorder);
    var notes := if aiComment != "" then aiComment else comment;
    Computed(Schedule(scheduleId, SortByStart(ActiveExisting(sales, pos, soPoMap, now) + pass.entries),
                      Some(now), "proposed", aiConflicts, notes),
             pass.soPoMap)
  }

  /** The schedule is proposed, stamped with the current time, carries the
      AI comment (or else the user's) and the AI conflicts, and its entries
      are ordered by planned start. */
  lemma ComputeScheduleSorted(sales: seq<SalesOrder>, pos: seq<ProductionOrder>, soPoMap: Dict<string, string>,
                              now: Instant, uuids: map<string, string>,
                              create: (SalesOrder, Instant) -> Option<ProductionOrder>,
                              scheduleId: string, comment: string,
                              aiReorder: seq<string>, aiComment: string, aiConflicts: seq<string>)
    ensures var c := ComputeSchedulePlan(sales, pos, soPoMap, now, uuids, create, scheduleId, comment, aiReorder, aiComment, aiConflicts);
      var es := c.schedule.entries;
      && c.schedule.status == "proposed" && c.schedule.generatedAt == Some(now)
      && c.schedule.notes == (if aiComment != "" then aiComment else comment)
      && c.schedule.conflicts == aiConflicts
      && (forall i, j :: 0 <= i < j < |es| ==> es[i].plannedStart <= es[j].plannedStart)
  {
    var all := ActiveExisting(sales, pos, soPoMap, now) + Pass(sales, pos, soPoMap, now, uuids, create, aiReorder).entries;
    ByPairKeyTotalPreorder(StartKey);
    SortStableSorted(all, ByPairKey(StartKey));
  }

  /** Every spliced order is a pending one. */
  lemma SpliceHintFromPending(pending: seq<SalesOrder>, hint: seq<string>, so: SalesOrder)
    requires so in SpliceHint(pending, hint)
    ensures so in pending
  {
    var h := Dedup(hint);
    if h == [] {
      assert so in multiset(SortOrdersEdf(pending));
    } else if so in HintPicks(pending, h) {
      HintPicksFromPending(pending, h, so);
    } else {
      var rest := Filter(pending, (so: SalesOrder) => so.id !in h);
      assert so in multiset(SortOrdersEdf(rest));
      FilterMembership(pending, (so: SalesOrder) => so.id !in h, so);
    }
  }

  lemma {:induction false} HintPicksFromPending(pending: seq<SalesOrder>, hint: seq<string>, so: SalesOrder)
    requires so in HintPicks(pending, hint)
    ensures so in pending
  {
    LastWithIdListed(pending, hint[0]);
    var head := match LastWithId(pending, hint[0]) case Some(x) => [x] case None => [];
    if so !in head {
      HintPicksFromPending(pending, hint[1..], so);
    }
  }

  /** An existing entry in the schedule is still active and belongs to a
      live production order. */
  lemma ActiveExistingEntry(sales: seq<SalesOrder>, pos: seq<ProductionOrder>, soPoMap: Dict<string, string>,
                            now: Instant, e: ScheduleEntry)
    requires e in ActiveExisting(sales, pos, soPoMap, now)
    ensures e.isExisting && IsActive(now, e) && e.productionOrder in pos
  {
    var matched := MatchUpTo(pos, sales, soPoMap, |pos|);
    FilterMembership(matched.entries, e => IsActive(now, e), e);
    var k :| 0 <= k < |matched.entries| && matched.entries[k] == e;
    MatchUpToLength(pos, sales, soPoMap, |pos|);
    MatchUpToEntry(pos, sales, soPoMap, |pos|, k);
  }

  /** A new entry is consistent, belongs to a sales order that was due and
      not linked, and starts after every live production order has ended. */
  lemma PassEntry(sales: seq<SalesOrder>, pos: seq<ProductionOrder>, soPoMap: Dict<string, string>,
                  now: Instant, uuids: map<string, string>,
                  create: (SalesOrder, Instant) -> Option<ProductionOrder>, aiReorder: seq<string>, e: ScheduleEntry)
    requires e in Pass(sales, pos, soPoMap, now, uuids, create, aiReorder).entries
    ensures && !e.isExisting && Consistent(e) && e.salesOrder in sales && e.salesOrder.deadline > now
            && e.salesOrder.id !in MatchUpTo(pos, sales, soPoMap, |pos|).linked
            && (forall i :: 0 <= i < |pos| ==> pos[i].endsAt <= e.plannedStart)
  {
    var matched := MatchUpTo(pos, sales, soPoMap, |pos|);
    var order := PlanOrder(sales, pos, soPoMap, now, aiReorder);
    var start := PassState(InitialCursor(pos, now), [], matched.soPoMap);
    var pass := PlanPass(uuids, create, start, order);
    var k :| 0 <= k < |pass.entries| && pass.entries[k] == e;
    PlanPassEntry(uuids, create, start, order, k);
    SpliceHintFromPending(Pending(sales, matched.linked, now), aiReorder, e.salesOrder);
    PendingSkippedPartition(sales, matched.linked, now);
    InitialCursorBounds(pos, now);
  }

  /** The schedule holds exactly the still-active existing entries and the
      new ones. */
  lemma ComputeScheduleEntries(sales: seq<SalesOrder>, pos: seq<ProductionOrder>, soPoMap: Dict<string, string>,
                               now: Instant, uuids: map<string, string>,
                               create: (SalesOrder, Instant) -> Option<ProductionOrder>,
                               scheduleId: string, comment: string,
                               aiReorder: seq<string>, aiComment: string, aiConflicts: seq<string>)
    ensures multiset(ComputeSchedulePlan(sales, pos, soPoMap, now, uuids, create, scheduleId, comment, aiReorder, aiComment, aiConflicts).schedule.entries)
         == multiset(ActiveExisting(sales, pos, soPoMap, now)) + multiset(Pass(sales, pos, soPoMap, now, uuids, create, aiReorder).entries)
  {
  }

  /** `compute_schedule`, with the API reads, the clock and the UUID as inputs. */
  method ComputeSchedule(sales: seq<SalesOrder>, pos: seq<ProductionOrder>, soPoMap: Dict<string, string>,
                         now: Instant, uuids: map<string, string>,
                         create: (SalesOrder, Instant) -> Option<ProductionOrder>,
                         scheduleId: string, comment: string,
                         aiReorder: seq<string>, aiComment: string, aiConflicts: seq<string>)
    returns (c: Computed)
    ensures c == ComputeSchedulePlan(sales, pos, soPoMap, now, uuids, create, scheduleId, comment, aiReorder, aiComment, aiConflicts)
  {
    var existingEntries, linked, linkedMap := MatchExistingPos(pos, sales, soPoMap);
    var pending := Pending(sales, linked, now);
    pending := SpliceHint(pending, aiReorder);
    var currentTime := InitialCursor(pos, now);
    var newEntries, newMap;
    currentTime, newEntries, newMap := PlanPending(uuids, create, pending, currentTime, linkedMap);
    var activeExisting := FilterActiveEntries(existingEntries, now);
    var allEntries := SortByStart(activeExisting + newEntries);
    var notes := if aiComment != "" then aiComment else comment;
    c := Computed(Schedule(scheduleId, allEntries, Some(now), "proposed", aiConflicts, notes), newMap);
  }

  /** What `build_existing_schedule` hands back: the schedule, if any, and
      the client's map after the matching wrote its links into it. */
  datatype Existing = Existing(schedule: Option<Schedule>, soPoMap: Dict<string, string>)

  /** `build_existing_schedule`: the accepted schedule of the live production
      orders alone, or nothing when there are none or none is still active.
      The links the matching finds stay in the client's map. */
  function ExistingSchedule(sales: seq<SalesOrder>, pos: seq<ProductionOrder>, soPoMap: Dict<string, string>,
                            now: Instant, scheduleId: string): (r: Existing)
    ensures r.schedule.Some? ==> r.schedule.value.status == "accepted" && r.schedule.value.entries != []
  {
    if pos == [] then Existing(None, soPoMap)
    else
      var entries := SortByStart(ActiveExisting(sales, pos, soPoMap, now));
      var schedule := if entries == [] then None else Some(Schedule(scheduleId, entries, Some(now), "accepted", [], ""));
      Existing(schedule, MatchUpTo(pos, sales, soPoMap, |pos|).soPoMap)
  }

  /** The existing schedule is accepted, holds exactly the active existing
      entries ordered by start, and is absent exactly when there are none. */
  lemma ExistingScheduleShape(sales: seq<SalesOrder>, pos: seq<ProductionOrder>, soPoMap: Dict<string, string>,
                              now: Instant, scheduleId: string)
    ensures var r := ExistingSchedule(sales, pos, soPoMap, now, scheduleId).schedule;
      && (r.None? <==> ActiveExisting(sales, pos, soPoMap, now) == [])
      && (r.Some? ==>
            && r.value.status == "accepted"
            && multiset(r.value.entries) == multiset(ActiveExisting(sales, pos, soPoMap, now))
            && forall i, j :: 0 <= i < j < |r.value.entries| ==> r.value.entries[i].plannedStart <= r.value.entries[j].plannedStart)
  {
    var active := ActiveExisting(sales, pos, soPoMap, now);
    ByPairKeyTotalPreorder(StartKey);
    SortStableSorted(active, ByPairKey(StartKey));
    if pos == [] {
      assert MatchUpTo(pos, sales, soPoMap, 0).entries == [];
    }
  }

  /** The client's map keeps one key per sales order, is left alone when
      there are no production orders, and afterwards records every sales
      order the matching linked against the id of a live production order
      whose entry carries it. */
  lemma ExistingScheduleLinks(sales: seq<SalesOrder>, pos: seq<ProductionOrder>, soPoMap: Dict<string, string>,
                              now: Instant, scheduleId: string, id: string)
    requires DistinctKeys(soPoMap)
    ensures var m := ExistingSchedule(sales, pos, soPoMap, now, scheduleId).soPoMap;
      && DistinctKeys(m)
      && (pos == [] ==> m == soPoMap)
      && (pos != [] && id in MatchUpTo(pos, sales, soPoMap, |pos|).linked ==>
            Get(m, id).Some?
            && exists k :: 0 <= k < |pos| && k < |MatchUpTo(pos, sales, soPoMap, |pos|).entries|
                           && pos[k].id == Get(m, id).value
                           && MatchUpTo(pos, sales, soPoMap, |pos|).entries[k].salesOrder.id == id)
  {
    if pos != [] {
      var matched := MatchUpTo(pos, sales, soPoMap, |pos|);
      MatchUpToDistinct(pos, sales, soPoMap, |pos|);
      if id in matched.linked {
        MatchUpToRecordsLink(pos, sales, soPoMap, |pos|, id);
        MatchUpToLength(pos, sales, soPoMap, |pos|);
        var k :| 0 <= k < |matched.entries| && matched.entries[k].salesOrder.id == id
                 && matched.entries[k].productionOrder.id == Get(matched.soPoMap, id).value;
        MatchUpToEntry(pos, sales, soPoMap, |pos|, k);
      }
    }
  }
}

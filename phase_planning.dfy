/** Dating the phases of one production order (`schedule_single_order` in
    src/scheduler_logic/scheduling.py). The remote API that creates the order
    and generates its phases is an input: `created` is the production order
    the API hands back, or `None` when one of its calls raises. */
module PhasePlanning {
  import opened Basics
  import opened ShiftCalendar
  import opened Models
  import opened Bom

  /** `next((p for p in phases if p.name == name), None)`. */
  function FirstNamed(phases: seq<ProductionPhase>, name: string): (r: Option<ProductionPhase>)
    ensures r.Some? ==> r.value in phases && r.value.name == name
    ensures r.None? ==> forall i :: 0 <= i < |phases| ==> phases[i].name != name
  {
    if phases == [] then None
    else if phases[0].name == name then Some(phases[0])
    else FirstNamed(phases[1..], name)
  }

  /** The phase found is the first one of that name. */
  lemma {:induction false} FirstNamedIsFirst(phases: seq<ProductionPhase>, name: string)
    requires FirstNamed(phases, name).Some?
    ensures exists i :: 0 <= i < |phases| && phases[i] == FirstNamed(phases, name).value
                        && forall j :: 0 <= j < i ==> phases[j].name != name
  {
    if phases[0].name != name {
      FirstNamedIsFirst(phases[1..], name);
      var i :| 0 <= i < |phases[1..]| && phases[1..][i] == FirstNamed(phases, name).value
               && forall j :: 0 <= j < i ==> phases[1..][j].name != name;
      assert phases[i + 1] == phases[1..][i];
      forall j | 0 <= j < i + 1 ensures phases[j].name != name {
        if j > 0 { assert phases[j] == phases[1..][j - 1]; }
      }
    }
  }

  /** A phase of `PHASES_ORDER` is dated when the product needs it (non-zero
      minutes per unit) and the API generated a phase of that name. */
  predicate Selected(product: Product, generated: seq<ProductionPhase>, ph: Phase) {
    PerUnit(product, ph) != 0 && FirstNamed(generated, PhaseName(ph)).Some?
  }

  /** The phases dated so far and the line cursor after them. */
  datatype Plan = Plan(phases: seq<ProductionPhase>, cursor: Instant)

  /** One iteration of the loop over `PHASES_ORDER`. */
  function PlanStep(product: Product, qty: int, generated: seq<ProductionPhase>, acc: Plan, ph: Phase): Plan {
    if !Selected(product, generated, ph) then acc
    else
      var matching := FirstNamed(generated, PhaseName(ph)).value;
      var total := PerUnit(product, ph) * qty;
      var end := WorkingEnd(acc.cursor, total);
      Plan(acc.phases + [ProductionPhase(matching.id, PhaseName(ph), matching.status, Some(acc.cursor), Some(end), total)], end)
  }

  /** The loop over the phase order `order` (`PHASES_ORDER`, or a prefix of it). */
  function PlanPhases(product: Product, qty: int, generated: seq<ProductionPhase>, cursor: Instant, order: seq<Phase>): Plan
    decreases |order|
  {
    if order == [] then Plan([], cursor)
    else PlanStep(product, qty, generated, PlanPhases(product, qty, generated, cursor, Init(order)), Last(order))
  }

  /** Phases are back to back: the first starts at `from`, each next one starts
      where the previous ended, and the last ends at `to` (`from == to` when
      there are none). */
  predicate Chained(ps: seq<ProductionPhase>, from: Instant, to: Instant) {
    (forall k :: 0 <= k < |ps| ==> ps[k].startsAt.Some? && ps[k].endsAt.Some?)
    && (ps == [] ==> from == to)
    && (ps != [] ==> ps[0].startsAt == Some(from) && ps[|ps| - 1].endsAt == Some(to))
    && (forall k :: 0 <= k < |ps| - 1 ==> ps[k].endsAt == ps[k + 1].startsAt)
  }

  /** A dated phase lasts its per-unit minutes times the quantity, in working time. */
  predicate PhaseWellTimed(product: Product, qty: int, p: ProductionPhase) {
    ParsePhase(p.name).Some?
    && p.durationMinutes == PerUnit(product, ParsePhase(p.name).value) * qty
    && p.startsAt.Some? && p.endsAt == Some(WorkingEnd(p.startsAt.value, p.durationMinutes))
  }

  function PhaseDuration(p: ProductionPhase): int {
    p.durationMinutes
  }

  lemma ChainedAppend(ps: seq<ProductionPhase>, from: Instant, to: Instant, p: ProductionPhase)
    requires Chained(ps, from, to) && p.startsAt == Some(to) && p.endsAt.Some?
    ensures Chained(ps + [p], from, p.endsAt.value)
  {
    var r := ps + [p];
    assert forall k :: 0 <= k < |ps| ==> r[k] == ps[k];
  }

  /** One step either leaves the plan alone or appends the phase, dated from
      the cursor, and moves the cursor to its end. */
  lemma PlanStepShape(product: Product, qty: int, generated: seq<ProductionPhase>, acc: Plan, ph: Phase)
    ensures var next := PlanStep(product, qty, generated, acc, ph);
      if Selected(product, generated, ph) then
        && |next.phases| == |acc.phases| + 1 && next.phases[..|acc.phases|] == acc.phases
        && var p := next.phases[|acc.phases|];
        && p.name == PhaseName(ph) && p.startsAt == Some(acc.cursor) && p.endsAt == Some(next.cursor)
        && PhaseWellTimed(product, qty, p)
      else next == acc
  {
    if Selected(product, generated, ph) {
      ParseNames(ph, product);
      var next := PlanStep(product, qty, generated, acc, ph);
      assert next.phases[..|acc.phases|] == acc.phases;
    }
  }

  /** The phases of `order` that get dated, in order. */
  function SelectedPhases(product: Product, generated: seq<ProductionPhase>, order: seq<Phase>): (r: seq<Phase>)
    ensures forall ph :: ph in r <==> ph in order && Selected(product, generated, ph)
    decreases |order|
  {
    if order == [] then []
    else
      var init := SelectedPhases(product, generated, Init(order));
      assert order == Init(order) + [Last(order)];
      if Selected(product, generated, Last(order)) then init + [Last(order)] else init
  }

  /** The dated phases are exactly the selected phases of the order, in
      that order. */
  lemma {:induction false} PlanPhasesNames(product: Product, qty: int, generated: seq<ProductionPhase>, cursor: Instant, order: seq<Phase>)
    ensures var plan := PlanPhases(product, qty, generated, cursor, order);
      var chosen := SelectedPhases(product, generated, order);
      && |plan.phases| == |chosen|
      && (forall k :: 0 <= k < |chosen| ==> plan.phases[k].name == PhaseName(chosen[k]))
  {
    if order != [] {
      var prev := PlanPhases(product, qty, generated, cursor, Init(order));
      PlanPhasesNames(product, qty, generated, cursor, Init(order));
      PlanStepShape(product, qty, generated, prev, Last(order));
    }
  }

  /** The dated phases run back to back from the incoming cursor to the
      current one; the cursor never moves backwards. */
  lemma {:induction false} PlanPhasesChained(product: Product, qty: int, generated: seq<ProductionPhase>, cursor: Instant, order: seq<Phase>)
    ensures var plan := PlanPhases(product, qty, generated, cursor, order);
      Chained(plan.phases, cursor, plan.cursor) && plan.cursor >= cursor
  {
    if order != [] {
      var prev := PlanPhases(product, qty, generated, cursor, Init(order));
      PlanPhasesChained(product, qty, generated, cursor, Init(order));
      PlanStepShape(product, qty, generated, prev, Last(order));
      var plan := PlanPhases(product, qty, generated, cursor, order);
      if Selected(product, generated, Last(order)) {
        var p := plan.phases[|prev.phases|];
        assert plan.phases == prev.phases + [p];
        ChainedAppend(prev.phases, cursor, prev.cursor, p);
      }
    }
  }

  /** Each dated phase lasts its BOM minutes times the quantity, in working time. */
  lemma {:induction false} PlanPhasesWellTimed(product: Product, qty: int, generated: seq<ProductionPhase>, cursor: Instant, order: seq<Phase>, k: nat)
    requires k < |PlanPhases(product, qty, generated, cursor, order).phases|
    ensures PhaseWellTimed(product, qty, PlanPhases(product, qty, generated, cursor, order).phases[k])
  {
    var prev := PlanPhases(product, qty, generated, cursor, Init(order));
    PlanStepShape(product, qty, generated, prev, Last(order));
    if k < |prev.phases| {
      PlanPhasesWellTimed(product, qty, generated, cursor, Init(order), k);
    }
  }

  /** From a cursor inside the shift (and a non-negative quantity) the line
      cursor stays inside the shift, and exactly the phases' minutes of
      working time pass. */
  lemma {:induction false} PlanPhasesWorkingTime(product: Product, qty: int, generated: seq<ProductionPhase>, cursor: Instant, order: seq<Phase>)
    requires InShift(cursor) && qty >= 0
    ensures var plan := PlanPhases(product, qty, generated, cursor, order);
      InShift(plan.cursor) && ShiftClock(plan.cursor) == ShiftClock(cursor) + Sum(plan.phases, PhaseDuration)
  {
    if order != [] {
      var prev := PlanPhases(product, qty, generated, cursor, Init(order));
      PlanPhasesWorkingTime(product, qty, generated, cursor, Init(order));
      var ph := Last(order);
      var plan := PlanStep(product, qty, generated, prev, ph);
      if Selected(product, generated, ph) {
        var total := PerUnit(product, ph) * qty;
        assert total >= 0 by {
          NonNegativeProduct(PerUnit(product, ph), qty);
        }
        var matching := FirstNamed(generated, PhaseName(ph)).value;
        var p := ProductionPhase(matching.id, PhaseName(ph), matching.status, Some(prev.cursor), Some(WorkingEnd(prev.cursor, total)), total);
        assert plan.phases == prev.phases + [p];
        WorkingEndKeepsShift(prev.cursor, total);
        SumAppend(prev.phases, [p], PhaseDuration);
        assert Sum([p], PhaseDuration) == total;
      }
    }
  }

  lemma NonNegativeProduct(a: nat, b: int)
    requires b >= 0
    ensures a * b >= 0
  {
  }

  /** What `schedule_single_order` hands back. */
  datatype Outcome =
    | Raised                                            // an API call raised
    | Planned(cursor: Instant, entry: Option<ScheduleEntry>)

  /** Python truthiness of a looked-up product UUID. */
  predicate HasUuid(uuids: map<string, string>, code: string) {
    code in uuids && uuids[code] != ""
  }

  /** `schedule_single_order` as a function of its inputs. */
  function SingleOrderPlan(so: SalesOrder, uuids: map<string, string>, cursor: Instant,
                           created: Option<ProductionOrder>): (r: Outcome)
    ensures r.Planned? && r.entry.None? ==> r.cursor == cursor
  {
    var code := so.line.productInternalId;
    if !HasUuid(uuids, code) then Planned(cursor, None)
    else match ParseProduct(code)
      case None => Planned(cursor, None)
      case Some(product) =>
        match created
        case None => Raised
        case Some(po) =>
          var plan := PlanPhases(product, so.line.quantity, po.phases, cursor, PhasesOrder);
          Planned(plan.cursor, Some(EntryFor(so, code, po, cursor, plan)))
  }

  /** The entry built from a finished plan. */
  function EntryFor(so: SalesOrder, code: string, po: ProductionOrder, cursor: Instant, plan: Plan): ScheduleEntry {
    var ps := plan.phases;
    var start := if ps != [] then ps[0].startsAt.GetOr(cursor) else cursor;
    var end := if ps != [] then ps[|ps| - 1].endsAt.GetOr(cursor) else cursor;
    var scheduled := ProductionOrder(po.id, po.internalId, po.productId,
                                     if po.productName != "" then po.productName else code,
                                     so.line.quantity, start, end, po.status, "", so.id, ps);
    ScheduleEntry(scheduled, so, start, end, so.deadline, end <= so.deadline, so.deadline - end, "", false)
  }

  /** Orders whose product has no UUID or no BOM entry are skipped: the cursor
      does not move and there is no entry. */
  lemma SingleOrderSkipped(so: SalesOrder, uuids: map<string, string>, cursor: Instant, created: Option<ProductionOrder>)
    requires !HasUuid(uuids, so.line.productInternalId) || ParseProduct(so.line.productInternalId).None?
    ensures SingleOrderPlan(so, uuids, cursor, created) == Planned(cursor, None)
  {
  }

  /** A planned order starts at the incoming cursor, ends where the cursor is
      left, is on time exactly when that end is by the deadline, and its
      phases are back to back in between. */
  lemma SingleOrderPlanned(so: SalesOrder, uuids: map<string, string>, cursor: Instant, created: Option<ProductionOrder>)
    requires SingleOrderPlan(so, uuids, cursor, created).Planned?
    ensures var out := SingleOrderPlan(so, uuids, cursor, created);
      out.cursor >= cursor
      && (out.entry.Some? ==>
        var e := out.entry.value;
        && e.plannedStart == cursor && e.plannedEnd == out.cursor
        && e.productionOrder.startsAt == cursor && e.productionOrder.endsAt == out.cursor
        && e.salesOrder == so && e.deadline == so.deadline && !e.isExisting
        && Consistent(e)
        && Chained(e.productionOrder.phases, cursor, out.cursor)
        && e.productionOrder.salesOrderId == so.id)
  {
    var code := so.line.productInternalId;
    if HasUuid(uuids, code) && ParseProduct(code).Some? {
      var product := ParseProduct(code).value;
      PlanPhasesChained(product, so.line.quantity, created.value.phases, cursor, PhasesOrder);
    }
  }

  /** `schedule_single_order`: the loop over `PHASES_ORDER` that advances the
      phase cursor and collects the dated phases. */
  method ScheduleSingleOrder(so: SalesOrder, uuids: map<string, string>, cursor: Instant,
                             created: Option<ProductionOrder>) returns (out: Outcome)
    ensures out == SingleOrderPlan(so, uuids, cursor, created)
  {
    var code := so.line.productInternalId;
    var quantity := so.line.quantity;
    if !HasUuid(uuids, code) {
      return Planned(cursor, None);
    }
    var bom := ParseProduct(code);
    if bom.None? {
      return Planned(cursor, None);
    }
    if created.None? {
      return Raised;
    }
    var product := bom.value;
    var po := created.value;
    var phaseCursor := cursor;
    var computed: seq<ProductionPhase> := [];
    var i := 0;
    while i < |PhasesOrder|
      invariant 0 <= i <= |PhasesOrder|
      invariant Plan(computed, phaseCursor) == PlanPhases(product, quantity, po.phases, cursor, PhasesOrder[..i])
    {
      var phase := PhasesOrder[i];
      assert Init(PhasesOrder[..i + 1]) == PhasesOrder[..i];
      var minsPerUnit := PerUnit(product, phase);
      var matching := FirstNamed(po.phases, PhaseName(phase));
      if minsPerUnit != 0 && matching.Some? {
        var totalMins := minsPerUnit * quantity;
        var phaseEnd := AddWorkingMinutes(phaseCursor, totalMins);
        computed := computed + [ProductionPhase(matching.value.id, PhaseName(phase), matching.value.status,
                                                Some(phaseCursor), Some(phaseEnd), totalMins)];
        phaseCursor := phaseEnd;
      }
      i := i + 1;
    }
    assert PhasesOrder[..i] == PhasesOrder;
    var entry := EntryFor(so, code, po, cursor, Plan(computed, phaseCursor));
    out := Planned(phaseCursor, Some(entry));
  }
}

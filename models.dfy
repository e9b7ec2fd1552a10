/** The domain records of the scheduler (src/shared/models.py): sales orders,
    production orders and their phases, schedule entries and schedules.
    Dates are instants in minutes; `slack_hours` is kept as whole minutes. */
module Models {
  import opened Basics
  import opened ShiftCalendar

  datatype Customer = Customer(id: string, name: string, address: string, country: string)

  datatype SalesOrderLine = SalesOrderLine(
    productId: string,
    productInternalId: string,
    productName: string,
    quantity: int,
    uom: string)

  datatype SalesOrder = SalesOrder(
    id: string,
    internalId: string,
    customer: Customer,
    line: SalesOrderLine,
    deadline: Instant,
    priority: int,
    status: string,
    notes: string,
    createdAt: Option<Instant>)

  datatype ProductionPhase = ProductionPhase(
    id: string,
    name: string,
    status: string,
    startsAt: Option<Instant>,
    endsAt: Option<Instant>,
    durationMinutes: int)

  datatype ProductionOrder = ProductionOrder(
    id: string,
    internalId: string,
    productId: string,
    productName: string,
    quantity: int,
    startsAt: Instant,
    endsAt: Instant,
    status: string,
    productInternalId: string,
    salesOrderId: string,
    phases: seq<ProductionPhase>)

  datatype ScheduleEntry = ScheduleEntry(
    productionOrder: ProductionOrder,
    salesOrder: SalesOrder,
    plannedStart: Instant,
    plannedEnd: Instant,
    deadline: Instant,
    onTime: bool,
    slackMinutes: int,
    conflictNote: string,
    isExisting: bool)

  datatype Schedule = Schedule(
    id: string,
    entries: seq<ScheduleEntry>,
    generatedAt: Option<Instant>,
    status: string,
    conflicts: seq<string>,
    notes: string)
  {
    /** `all_on_time`. */
    predicate AllOnTime() {
      forall i :: 0 <= i < |entries| ==> entries[i].onTime
    }

    /** `late_count`. */
    function LateCount(): nat {
      Count(entries, (e: ScheduleEntry) => !e.onTime)
    }
  }

  /** A `ScheduleEntry` built with its defaults: slack 0, no conflict note, not existing. */
  function NewScheduleEntry(po: ProductionOrder, so: SalesOrder, start: Instant, end: Instant,
                            deadline: Instant, onTime: bool): (e: ScheduleEntry)
    ensures e.slackMinutes == 0 && e.conflictNote == "" && !e.isExisting
    ensures e.productionOrder == po && e.salesOrder == so && e.onTime == onTime
    ensures e.plannedStart == start && e.plannedEnd == end && e.deadline == deadline
  {
    ScheduleEntry(po, so, start, end, deadline, onTime, 0, "", false)
  }

  /** A `Schedule` built with its defaults. */
  function NewSchedule(id: string): (s: Schedule)
    ensures s.status == "proposed" && s.entries == [] && s.conflicts == [] && s.notes == ""
    ensures s.generatedAt.None? && s.AllOnTime() && s.LateCount() == 0
  {
    Schedule(id, [], None, "proposed", [], "")
  }

  /** The flag and the slack of an entry agree with its dates: on time exactly
      when production ends by the deadline, slack the minutes in between. */
  predicate Consistent(e: ScheduleEntry) {
    e.onTime == (e.plannedEnd <= e.deadline) && e.slackMinutes == e.deadline - e.plannedEnd
  }

  lemma {:induction false} LateCountBounds(s: Schedule)
    ensures s.LateCount() <= |s.entries|
    ensures s.AllOnTime() <==> s.LateCount() == 0
  {
    var late := (e: ScheduleEntry) => !e.onTime;
    if s.AllOnTime() {
      FilterNone(s.entries, late);
    } else {
      var i :| 0 <= i < |s.entries| && !s.entries[i].onTime;
      FilterMembership(s.entries, late, s.entries[i]);
    }
  }

}

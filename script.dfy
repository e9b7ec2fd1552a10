/** The stand-alone scheduling script (src/step3_4_create_order_schedule.py):
    each sales order, in EDF order, becomes a production order whose phases
    are dated back to back in working time from a line cursor that starts
    at TODAY. The remote service is an input: `create` answers the
    production-order request with the new order's id and its detail record,
    or `None` when the request fails. */
module Script {
  import opened Basics
  import opened PyDict
  import opened ShiftCalendar
  import opened Sorting
  import opened Bom
  import opened JsonValues
  import PhaseRecords
  import opened PlanPolicy

  /** A `phase_log` item. */
  datatype PhaseLog = PhaseLog(name: string, start: Instant, end: Instant)

  /** A `schedule_log` item. */
  datatype LogEntry = LogEntry(
    soId: string,
    poId: Json,
    productId: string,
    quantity: int,
    customer: string,
    poStart: Instant,
    poEnd: Instant,
    deadline: Instant,
    priority: int,
    phases: seq<PhaseLog>,
    onTime: bool)

  /** `PHASE_DURATIONS.get(product_id, {}).get(phase_name, 0)`. */
  function PerUnitByName(productId: string, name: string): nat {
    match (ParseProduct(productId), ParsePhase(name))
    case (Some(p), Some(ph)) => PerUnit(p, ph)
    case _ => 0
  }

  /** `compute_total_minutes`. */
  function ComputeTotalMinutes(productId: string, quantity: int): (r: int)
    ensures ParseProduct(productId).None? ==> r == 0
  {
    match ParseProduct(productId)
    case Some(p) => Sum(PhasesOrder, ph => PerUnit(p, ph) * quantity)
    case None => 0
  }

  /** The total is the product's per-unit minutes times the quantity, and 0
      for a product the table does not know. */
  lemma ComputeTotalMinutesRate(productId: string, quantity: int)
    ensures ParseProduct(productId).Some? ==>
      ComputeTotalMinutes(productId, quantity) == MinsPerUnit(ParseProduct(productId).value) * quantity
    ensures ParseProduct(productId).None? ==> ComputeTotalMinutes(productId, quantity) == 0
  {
    if ParseProduct(productId).Some? {
      var p := ParseProduct(productId).value;
      SumScale(PhasesOrder, ph => PerUnit(p, ph), ph => PerUnit(p, ph) * quantity, quantity);
    }
  }

  /** `get_phase_name`: a present `phase: null` raises. */
  function GetPhaseName(p: Record): Result<Json> {
    PhaseRecords.PhaseName(p, PhaseRecords.GetDefault, "")
  }

  function PhaseNameText(p: Record): Option<string> {
    PhaseRecords.PhaseNameText(p, PhaseRecords.GetDefault, "")
  }

  /** The sort key: the `PHASES_ORDER` position of the name, 99 when it has none. */
  function PhaseKey(p: Record): int {
    match PhaseNameText(p)
    case Some(n) => PhaseOrderIndex(n)
    case None => 99
  }

  /** `sorted(phases_raw, key=...)`: the key reads every name, so one that raises aborts the sort. */
  function SortPhases(raw: seq<Record>): (r: Result<seq<Record>>)
    ensures r.Ok? ==> multiset(r.value) == multiset(raw)
    ensures r.Err? <==> exists i :: 0 <= i < |raw| && GetPhaseName(raw[i]).Err?
  {
    if exists i :: 0 <= i < |raw| && GetPhaseName(raw[i]).Err? then Err("AttributeError")
    else Ok(SortStable(raw, ByIntKey(PhaseKey)))
  }

  /** Sorted phases follow `PHASES_ORDER`, with unnamed and unknown phases last. */
  lemma SortPhasesOrdered(raw: seq<Record>)
    requires SortPhases(raw).Ok?
    ensures var s := SortPhases(raw).value;
      forall i, j :: 0 <= i < j < |s| ==> PhaseKey(s[i]) <= PhaseKey(s[j])
  {
    ByIntKeyTotalPreorder(PhaseKey);
    var le := ByIntKey(PhaseKey);
    SortStableSorted(raw, le);
    var s := SortPhases(raw).value;
    assert s == SortStable(raw, le);
    forall i, j | 0 <= i < j < |s| ensures PhaseKey(s[i]) <= PhaseKey(s[j]) {
      assert le(s[i], s[j]);
    }
  }

  /** `phase.get('id') or phase.get('phase_id')`. */
  function PhaseId(p: Record): Json {
    Or(GetOr(p, "id", JNull), GetOr(p, "phase_id", JNull))
  }

  /** A phase is dated when it has an id and a `PHASES_ORDER` name the
      product needs a non-zero number of minutes for; the rest are skipped. */
  predicate Plannable(productId: string, p: Record) {
    && Truthy(PhaseId(p))
    && PhaseNameText(p).Some?
    && PhaseNameText(p).value in PhaseNames()
    && PerUnitByName(productId, PhaseNameText(p).value) != 0
  }

  /** A name that is a list or a dict: looking it up in the minutes table
      raises TypeError, before the phase can be skipped. */
  predicate UnhashableName(p: Record) {
    var n := GetPhaseName(p);
    n.Ok? && (n.value.JList? || n.value.JObj?)
  }

  /** The loop of `create_and_schedule` over the sorted phases: the phase
      cursor after them and the phase log. */
  function DatePhases(productId: string, quantity: int, phases: seq<Record>, start: Instant): (r: (Instant, seq<PhaseLog>))
    ensures |r.1| <= |phases|
    decreases |phases|
  {
    if phases == [] then (start, [])
    else
      var (cursor, log) := DatePhases(productId, quantity, Init(phases), start);
      var p := Last(phases);
      if !Plannable(productId, p) then (cursor, log)
      else
        var name := PhaseNameText(p).value;
        var end := WorkingEnd(cursor, PerUnitByName(productId, name) * quantity);
        (end, log + [PhaseLog(name, cursor, end)])
  }

  /** Phases are back to back: the first starts at the incoming cursor, each
      next one where the previous ended, and the returned cursor is the last end. */
  lemma {:induction false} DatePhasesContiguous(productId: string, quantity: int, phases: seq<Record>, start: Instant)
    ensures var (end, log) := DatePhases(productId, quantity, phases, start);
      && (log == [] ==> end == start)
      && (log != [] ==> log[0].start == start && end == log[|log| - 1].end)
      && forall k :: 0 <= k < |log| - 1 ==> log[k + 1].start == log[k].end
    decreases |phases|
  {
    if phases != [] {
      DatePhasesContiguous(productId, quantity, Init(phases), start);
    }
  }

  /** Every logged phase is a `PHASES_ORDER` phase the product needs, and
      spans its per-unit minutes times the quantity of working time. */
  lemma {:induction false} DatePhasesDurations(productId: string, quantity: int, phases: seq<Record>, start: Instant, k: nat)
    requires k < |DatePhases(productId, quantity, phases, start).1|
    ensures var e := DatePhases(productId, quantity, phases, start).1[k];
      && e.name in PhaseNames() && PerUnitByName(productId, e.name) != 0
      && e.end == WorkingEnd(e.start, PerUnitByName(productId, e.name) * quantity)
    decreases |phases|
  {
    var prev := DatePhases(productId, quantity, Init(phases), start);
    if k < |prev.1| {
      DatePhasesDurations(productId, quantity, Init(phases), start, k);
    }
  }

  /** The dated phases are exactly the plannable ones, in order. */
  lemma {:induction false} DatePhasesNames(productId: string, quantity: int, phases: seq<Record>, start: Instant)
    ensures var log := DatePhases(productId, quantity, phases, start).1;
      var chosen := Filter(phases, p => Plannable(productId, p));
      && |log| == |chosen|
      && forall k :: 0 <= k < |chosen| ==> PhaseNameText(chosen[k]) == Some(log[k].name)
    decreases |phases|
  {
    if phases != [] {
      DatePhasesNames(productId, quantity, Init(phases), start);
      assert phases == Init(phases) + [Last(phases)];
      FilterAppend(Init(phases), [Last(phases)], p => Plannable(productId, p));
    }
  }

  /** The phase loop of `create_and_schedule`. */
  method DatePhasesLoop(productId: string, quantity: int, phases: seq<Record>, start: Instant)
    returns (cursor: Instant, log: seq<PhaseLog>)
    ensures (cursor, log) == DatePhases(productId, quantity, phases, start)
  {
    cursor, log := start, [];
    for i := 0 to |phases|
      invariant (cursor, log) == DatePhases(productId, quantity, phases[..i], start)
    {
      assert Init(phases[..i + 1]) == phases[..i] && Last(phases[..i + 1]) == phases[i];
      var phase := phases[i];
      if Plannable(productId, phase) {
        var name := PhaseNameText(phase).value;
        var phaseEnd := AddWorkingMinutes(cursor, PerUnitByName(productId, name) * quantity);
        log := log + [PhaseLog(name, cursor, phaseEnd)];
        cursor := phaseEnd;
      }
    }
    assert phases[..|phases|] == phases;
  }

  /** What the remote service hands back for a created production order. */
  datatype Created = Created(poId: Json, detail: Record)

  /** `detail.get('phases') or detail.get('production_phases') or detail.get('plan') or []`. */
  function RawPhases(detail: Record): Json {
    Or(Or(Or(GetOr(detail, "phases", JNull), GetOr(detail, "production_phases", JNull)),
          GetOr(detail, "plan", JNull)), JList([]))
  }

  /** `create_and_schedule` once the production order is created: its
      phases are read from the detail record, sorted and dated from `current`. */
  function ScheduleCreated(order: RawOrder, current: Instant, created: Created): Result<(Instant, Option<LogEntry>)>
  {
    var raw := AsRecords(RawPhases(created.detail));
    if raw.Err? then Err(raw.error)
    else
      var sorted := SortPhases(raw.value);
      if sorted.Err? then Err(sorted.error)
      else if exists i :: 0 <= i < |sorted.value| && UnhashableName(sorted.value[i]) then Err("TypeError")
      else
        var (end, log) := DatePhases(order.productId, order.quantity, sorted.value, current);
        Ok((end, Some(LogEntry(order.internalId, created.poId, order.productId, order.quantity, order.customerName,
                               current, end, order.deadline, order.priority, log, end <= order.deadline))))
  }

  /** `create_and_schedule`: the new cursor and the log entry, if any. */
  function CreateAndSchedule(order: RawOrder, current: Instant, productMap: Dict<string, string>,
                             create: (RawOrder, string, Instant) -> Option<Created>): (r: Result<(Instant, Option<LogEntry>)>)
    ensures r.Ok? && r.value.1.None? ==> r.value.0 == current
  {
    var uuid := Get(productMap, order.productId);
    if uuid.None? || uuid.value == "" then Ok((current, None))
    else
      match create(order, uuid.value, current)
      case None => Ok((current, None))
      case Some(created) => ScheduleCreated(order, current, created)
  }

  /** An order that cannot be created leaves the cursor where it was; one
      that is created starts at the cursor, ends at the returned cursor, and
      is on time exactly when it ends by its deadline. */
  lemma CreateAndScheduleCursor(order: RawOrder, current: Instant, productMap: Dict<string, string>,
                                create: (RawOrder, string, Instant) -> Option<Created>)
    requires CreateAndSchedule(order, current, productMap, create).Ok?
    ensures var (cursor, entry) := CreateAndSchedule(order, current, productMap, create).value;
      && (entry.None? ==> cursor == current)
      && (entry.Some? ==>
            && entry.value.poStart == current && entry.value.poEnd == cursor
            && (entry.value.onTime <==> cursor <= entry.value.deadline)
            && entry.value.soId == order.internalId)
      && (Get(productMap, order.productId).None? ==> entry.None?)
  {
  }

  /** `create_and_schedule` raises exactly when the created order's phases
      are not a list of dicts, when a phase's name look-up raises, or when a
      phase's name is a list or a dict; a missing product or a refused
      request is no error. */
  lemma CreateAndScheduleRaises(order: RawOrder, current: Instant, productMap: Dict<string, string>,
                                create: (RawOrder, string, Instant) -> Option<Created>)
    ensures var uuid := Get(productMap, order.productId);
      CreateAndSchedule(order, current, productMap, create).Err? <==>
        && uuid.Some? && uuid.value != ""
        && create(order, uuid.value, current).Some?
        && var raw := AsRecords(RawPhases(create(order, uuid.value, current).value.detail));
           || raw.Err?
           || (exists i :: 0 <= i < |raw.value| && GetPhaseName(raw.value[i]).Err?)
           || (exists i :: 0 <= i < |raw.value| && UnhashableName(raw.value[i]))
  {
    var uuid := Get(productMap, order.productId);
    if uuid.Some? && uuid.value != "" && create(order, uuid.value, current).Some? {
      var raw := AsRecords(RawPhases(create(order, uuid.value, current).value.detail));
      if raw.Ok? && SortPhases(raw.value).Ok? {
        UnhashableSorted(raw.value);
      }
    }
  }

  /** Sorting keeps the phases, so an unhashable name is among the sorted
      phases exactly when it is among the raw ones. */
  lemma UnhashableSorted(raw: seq<Record>)
    requires SortPhases(raw).Ok?
    ensures (exists j :: 0 <= j < |SortPhases(raw).value| && UnhashableName(SortPhases(raw).value[j]))
        <==> (exists i :: 0 <= i < |raw| && UnhashableName(raw[i]))
  {
    var sorted := SortPhases(raw).value;
    assert multiset(sorted) == multiset(raw);
    if exists i :: 0 <= i < |raw| && UnhashableName(raw[i]) {
      var i :| 0 <= i < |raw| && UnhashableName(raw[i]);
      assert raw[i] in multiset(sorted);
      var j :| 0 <= j < |sorted| && sorted[j] == raw[i];
    }
    if exists j :: 0 <= j < |sorted| && UnhashableName(sorted[j]) {
      var j :| 0 <= j < |sorted| && UnhashableName(sorted[j]);
      assert sorted[j] in multiset(raw);
      var i :| 0 <= i < |raw| && raw[i] == sorted[j];
    }
  }

  /** A phase named by a list, such as `{"id": "p", "name": ["SMT"]}`, makes
      the created order raise instead of being skipped. */
  lemma ListNameRaises(order: RawOrder, current: Instant, productMap: Dict<string, string>,
                       create: (RawOrder, string, Instant) -> Option<Created>, poId: Json)
    requires Get(productMap, order.productId).Some? && Get(productMap, order.productId).value != ""
    requires create(order, Get(productMap, order.productId).value, current)
          == Some(Created(poId, [("phases", JList([JObj([("id", JStr("p")), ("name", JList([JStr("SMT")]))])]))]))
    ensures CreateAndSchedule(order, current, productMap, create) == Err("TypeError")
  {
    var p: Record := [("id", JStr("p")), ("name", JList([JStr("SMT")]))];
    var detail: Record := [("phases", JList([JObj(p)]))];
    assert RawPhases(detail) == JList([JObj(p)]);
    var raw := AsRecords(RawPhases(detail));
    assert raw.Ok? && |raw.value| == 1 && JObj(raw.value[0]) == JObj(p);
    assert UnhashableName(raw.value[0]);
    assert SortPhases(raw.value).Ok?;
    UnhashableSorted(raw.value);
  }

  /** `schedule_all_orders`: the cursor threaded from TODAY and the log. */
  function ScheduleAll(orders: seq<RawOrder>, productMap: Dict<string, string>,
                       create: (RawOrder, string, Instant) -> Option<Created>): (r: Result<(Instant, seq<LogEntry>)>)
    ensures r.Ok? ==> |r.value.1| <= |orders|
    decreases |orders|
  {
    if orders == [] then Ok((Today, []))
    else
      var prev := ScheduleAll(Init(orders), productMap, create);
      if prev.Err? then prev
      else
        var step := CreateAndSchedule(Last(orders), prev.value.0, productMap, create);
        if step.Err? then Err(step.error)
        else if step.value.1.Some? then Ok((step.value.0, prev.value.1 + [step.value.1.value]))
        else Ok((step.value.0, prev.value.1))
  }

  /** The log holds one entry per created order, back to back from TODAY:
      each starts where the previous one ended. */
  lemma {:induction false} ScheduleAllBackToBack(orders: seq<RawOrder>, productMap: Dict<string, string>,
                                                 create: (RawOrder, string, Instant) -> Option<Created>)
    requires ScheduleAll(orders, productMap, create).Ok?
    ensures var (cursor, log) := ScheduleAll(orders, productMap, create).value;
      && (log == [] ==> cursor == Today)
      && (log != [] ==> log[0].poStart == Today && log[|log| - 1].poEnd == cursor)
      && (forall k :: 0 <= k < |log| - 1 ==> log[k + 1].poStart == log[k].poEnd)
      && |log| <= |orders|
    decreases |orders|
  {
    if orders != [] {
      ScheduleAllBackToBack(Init(orders), productMap, create);
      CreateAndScheduleCursor(Last(orders), ScheduleAll(Init(orders), productMap, create).value.0, productMap, create);
    }
  }

  /** `schedule_all_orders` as the loop it is. */
  method ScheduleAllOrders(orders: seq<RawOrder>, productMap: Dict<string, string>,
                           create: (RawOrder, string, Instant) -> Option<Created>)
    returns (r: Result<seq<LogEntry>>)
    ensures var spec := ScheduleAll(orders, productMap, create);
      (r.Ok? <==> spec.Ok?) && (r.Ok? ==> r.value == spec.value.1)
  {
    var currentTime := Today;
    var scheduleLog: seq<LogEntry> := [];
    for i := 0 to |orders|
      invariant ScheduleAll(orders[..i], productMap, create) == Ok((currentTime, scheduleLog))
    {
      assert Init(orders[..i + 1]) == orders[..i] && Last(orders[..i + 1]) == orders[i];
      var step := CreateAndSchedule(orders[i], currentTime, productMap, create);
      if step.Err? {
        r := Err(step.error);
        PrefixErrPersists(orders, productMap, create, i + 1);
        return;
      }
      currentTime := step.value.0;
      if step.value.1.Some? {
        scheduleLog := scheduleLog + [step.value.1.value];
      }
    }
    assert orders[..|orders|] == orders;
    r := Ok(scheduleLog);
  }

  /** Once a prefix raises, so does the whole run. */
  lemma {:induction false} PrefixErrPersists(orders: seq<RawOrder>, productMap: Dict<string, string>,
                                             create: (RawOrder, string, Instant) -> Option<Created>, n: nat)
    requires n <= |orders| && ScheduleAll(orders[..n], productMap, create).Err?
    ensures ScheduleAll(orders, productMap, create).Err?
    decreases |orders| - n
  {
    if n < |orders| {
      assert Init(orders[..n + 1]) == orders[..n];
      PrefixErrPersists(orders, productMap, create, n + 1);
    } else {
      assert orders[..n] == orders;
    }
  }
}

/** The record parsers of src/telegram_control/api_client.py, which turn the
    platform's raw JSON records into the domain records, and the client's
    tracking of the production orders it has seen. No request is made here:
    what the platform answers is a parameter (`fetch`, `accepted`,
    `deleteOk`), and so is `datetime.fromisoformat` (`iso`). A JSON value
    whose type does not fit the field it fills is refused with an error. */
module ApiClient {
  import opened Basics
  import opened PyDict
  import opened JsonValues
  import opened PhaseRecords
  import opened ShiftCalendar
  import opened Sorting
  import opened Models
  import Bom

  /** `datetime.fromisoformat(value.replace("Z", "+00:00"))`, with `None`
      where that raises `ValueError` or `TypeError`. */
  type IsoParser = string -> Option<Instant>

  /** `_parse_dt`: a falsy value is no date and a string goes to the ISO
      parser; any other value has no `replace`, and the `AttributeError`
      is not caught. */
  function ParseDt(v: Json, iso: IsoParser): Result<Option<Instant>> {
    if !Truthy(v) then Ok(None)
    else if v.JStr? then Ok(iso(v.s))
    else Err("AttributeError")
  }

  /** A value read into a `str` field. */
  function Str(j: Json): Result<string> {
    if j.JStr? then Ok(j.s) else Err("TypeError")
  }

  /** A value read into an `int` field. */
  function Int(j: Json): Result<int> {
    if j.JInt? then Ok(j.n) else Err("TypeError")
  }

  /** `d[key]`. */
  function Index(d: Record, key: string): Result<Json> {
    match Get(d, key)
    case Some(v) => Ok(v)
    case None => Err("KeyError")
  }

  /** `_parse_customer` of `d.get("customer_attr", {})`: calling `get` on
      anything but a dict raises. */
  function ParseCustomer(v: Json): (r: Result<Customer>)
    ensures r.Ok? ==> v.JObj?
    ensures v == JObj([]) ==> r == Ok(Customer("", "Unknown", "", ""))
  {
    var d :- if v.JObj? then Ok(v.fields) else Err("AttributeError");
    var id :- Str(GetOr(d, "id", JStr("")));
    var name :- Str(GetOr(d, "name", JStr("Unknown")));
    var address :- Str(GetOr(d, "address", JStr("")));
    var country :- Str(GetOr(d, "country", JStr("")));
    Ok(Customer(id, name, address, country))
  }

  /** The line of an order without products. */
  const NoLine: SalesOrderLine := SalesOrderLine("", "", "Unknown", 0, "pcs")

  /** The line read from one product record. */
  function LineOf(p: Record): Result<SalesOrderLine> {
    var pid :- Str(GetOr(p, "extra_id", JStr("")));
    var name :- Str(GetOr(p, "name", JStr(pid)));
    var quantity :- Int(GetOr(p, "quantity", JInt(0)));
    var uom :- Str(GetOr(p, "uom", JStr("pcs")));
    Ok(SalesOrderLine(pid, pid, name, quantity, uom))
  }

  /** `_parse_so_line`: no products give the "Unknown" line of quantity 0;
      otherwise only the first product is read, its `extra_id` serving as
      both product ids and as the name when there is none. Indexing
      anything but a list of dicts raises. */
  function ParseSoLine(products: Json): (r: Result<SalesOrderLine>)
    ensures !Truthy(products) ==> r == Ok(NoLine)
    ensures r.Ok? && Truthy(products) ==> products.JList? && products.items[0].JObj?
    ensures r.Ok? ==> r.value.productId == r.value.productInternalId
  {
    if !Truthy(products) then Ok(NoLine)
    else if products.JList? && products.items[0].JObj? then LineOf(products.items[0].fields)
    else Err("AttributeError")
  }

  /** Only the first product of an order counts. */
  lemma OnlyFirstLine(first: Json, rest: seq<Json>)
    ensures ParseSoLine(JList([first] + rest)) == ParseSoLine(JList([first]))
  {
  }

  /** A product without a name is named by its `extra_id`. */
  lemma LineNameDefaultsToId(p: Record)
    requires Get(p, "name").None? && LineOf(p).Ok?
    ensures LineOf(p).value.productName == LineOf(p).value.productId
  {
  }

  /** `_parse_sales_order`. */
  function ParseSalesOrder(d: Record, iso: IsoParser): (r: Result<SalesOrder>)
    ensures Get(d, "id").None? ==> r.Err?
    ensures r.Ok? ==> Get(d, "id") == Some(JStr(r.value.id))
    ensures r.Ok? ==> ParseSoLine(GetOr(d, "products", JNull)) == Ok(r.value.line)
    ensures r.Ok? && Get(d, "priority").None? ==> r.value.priority == 99
    ensures r.Ok? && !Truthy(GetOr(d, "expected_shipping_time", JNull)) ==> r.value.deadline == DtMin
  {
    var id :- Index(d, "id");
    var id :- Str(id);
    var internalId :- Str(GetOr(d, "internal_id", JStr("")));
    var customer :- ParseCustomer(GetOr(d, "customer_attr", JObj([])));
    var line :- ParseSoLine(GetOr(d, "products", JNull));
    var deadline :- ParseDt(GetOr(d, "expected_shipping_time", JNull), iso);
    var priority :- Int(GetOr(d, "priority", JInt(99)));
    var status :- Str(GetOr(d, "status", JStr("unknown")));
    var notes :- Str(GetOr(d, "notes", JStr("")));
    var createdAt :- ParseDt(GetOr(d, "time", JNull), iso);
    Ok(SalesOrder(id, internalId, customer, line, deadline.GetOr(DtMin), priority, status, notes, createdAt))
  }

  /** A record holding nothing but its id parses to the all-defaults order:
      no products, deadline `DT_MIN`, priority 99, status "unknown". */
  lemma BareSalesOrder(id: string, iso: IsoParser)
    ensures ParseSalesOrder([("id", JStr(id))], iso)
         == Ok(SalesOrder(id, "", Customer("", "Unknown", "", ""), NoLine, DtMin, 99, "unknown", "", None))
  {
    var d := [("id", JStr(id))];
    assert d[1..] == [];
    assert Get(d, "id") == Some(JStr(id));
    forall k | |k| != 2
      ensures Get(d, k).None?
    {
      assert k != "id";
    }
    assert GetOr(d, "customer_attr", JObj([])) == JObj([]);
    assert GetOr(d, "products", JNull) == JNull;
    assert GetOr(d, "expected_shipping_time", JNull) == JNull && GetOr(d, "time", JNull) == JNull;
    assert GetOr(d, "priority", JInt(99)) == JInt(99);
  }

  /** Parses every record, raising at the first that fails. */
  function ParseSalesOrders(raws: seq<Record>, iso: IsoParser): (r: Result<seq<SalesOrder>>)
    ensures r.Ok? ==> |r.value| == |raws|
    ensures r.Ok? ==> forall i :: 0 <= i < |raws| ==> ParseSalesOrder(raws[i], iso) == Ok(r.value[i])
  {
    if raws == [] then Ok([])
    else
      var so :- ParseSalesOrder(raws[0], iso);
      var rest :- ParseSalesOrders(raws[1..], iso);
      Ok([so] + rest)
  }

  /** The parsing fails exactly when some record does not parse. */
  lemma {:induction false} ParseSalesOrdersFails(raws: seq<Record>, iso: IsoParser)
    ensures ParseSalesOrders(raws, iso).Err? <==> exists i :: 0 <= i < |raws| && ParseSalesOrder(raws[i], iso).Err?
  {
    if raws != [] {
      ParseSalesOrdersFails(raws[1..], iso);
      if ParseSalesOrder(raws[0], iso).Ok? && ParseSalesOrders(raws[1..], iso).Err? {
        var i :| 0 <= i < |raws[1..]| && ParseSalesOrder(raws[1..][i], iso).Err?;
        assert raws[i + 1] == raws[1..][i];
      }
    }
  }

  /** The sort key of `get_sales_orders`. */
  function DeadlinePriority(so: SalesOrder): (int, int) {
    (so.deadline, so.priority)
  }

  /** `get_sales_orders` on the records the platform listed. */
  function GetSalesOrders(raws: seq<Record>, iso: IsoParser): Result<seq<SalesOrder>> {
    var orders :- ParseSalesOrders(raws, iso);
    Ok(SortStable(orders, ByPairKey(DeadlinePriority)))
  }

  /** The listed orders come back as a permutation of the parsed records,
      ordered by deadline and then by priority. */
  lemma SalesOrdersSorted(raws: seq<Record>, iso: IsoParser)
    requires GetSalesOrders(raws, iso).Ok?
    ensures var r := GetSalesOrders(raws, iso).value;
      && multiset(r) == multiset(ParseSalesOrders(raws, iso).value)
      && forall i, j :: 0 <= i < j < |r| ==> PairLe((r[i].deadline, r[i].priority), (r[j].deadline, r[j].priority))
  {
    ByPairKeyTotalPreorder(DeadlinePriority);
    SortStableSorted(ParseSalesOrders(raws, iso).value, ByPairKey(DeadlinePriority));
  }

  /** `_extract_phase_name`: the first truthy of `phase.name`, `name`,
      `phase_name` and `production_phase.name`, or "". */
  function ExtractPhaseName(p: Record): (r: Result<string>)
    ensures (&& Get(p, "phase").None? && Get(p, "name").None? && Get(p, "phase_name").None?
             && Get(p, "production_phase").None?) ==> r == Ok("")
  {
    var name :- PhaseName(p, OrEmpty, "");
    Str(name)
  }

  /** When the nested look-ups do not raise, the name follows the precedence
      `phase.name`, `name`, `phase_name`, `production_phase.name`. */
  lemma ExtractPhaseNamePrecedence(p: Record)
    requires NameUnder(p, "phase", OrEmpty).Ok? && NameUnder(p, "production_phase", OrEmpty).Ok?
    ensures ExtractPhaseName(p) == Str(FirstTruthy(
      [NameUnder(p, "phase", OrEmpty).value, GetOr(p, "name", JNull),
       GetOr(p, "phase_name", JNull), NameUnder(p, "production_phase", OrEmpty).value],
      JStr("")))
  {
    PhaseNamePrecedence(p, OrEmpty, "");
  }

  /** `_parse_phase`. */
  function ParsePhase(d: Record, iso: IsoParser): (r: Result<ProductionPhase>)
    ensures r.Ok? ==> ExtractPhaseName(d) == Ok(r.value.name)
    ensures r.Ok? && Truthy(GetOr(d, "id", JNull)) ==> GetOr(d, "id", JNull) == JStr(r.value.id)
    ensures r.Ok? && !Truthy(GetOr(d, "id", JNull)) ==> GetOr(d, "phase_id", JStr("")) == JStr(r.value.id)
    ensures r.Ok? && Get(d, "status").None? ==> r.value.status == "not_ready"
    ensures r.Ok? && Get(d, "duration").None? ==> r.value.durationMinutes == 0
  {
    var id :- Str(Or(GetOr(d, "id", JNull), GetOr(d, "phase_id", JStr(""))));
    var name :- ExtractPhaseName(d);
    var status :- Str(GetOr(d, "status", JStr("not_ready")));
    var startsAt :- ParseDt(GetOr(d, "starts_at", JNull), iso);
    var endsAt :- ParseDt(GetOr(d, "ends_at", JNull), iso);
    var duration :- Int(GetOr(d, "duration", JInt(0)));
    Ok(ProductionPhase(id, name, status, startsAt, endsAt, duration))
  }

  /** The raw phases have a name that is not empty. */
  predicate Named(p: Record) {
    ExtractPhaseName(p).Ok? && ExtractPhaseName(p).value != ""
  }

  /** `[self._parse_phase(p) for p in raw_phases if self._extract_phase_name(p)]`. */
  function NamedPhases(raws: seq<Record>, iso: IsoParser): (r: Result<seq<ProductionPhase>>)
    ensures r.Ok? ==> |r.value| <= |raws|
    ensures r.Ok? ==> forall i :: 0 <= i < |r.value| ==> r.value[i].name != ""
  {
    if raws == [] then Ok([])
    else
      var name :- ExtractPhaseName(raws[0]);
      if name == "" then NamedPhases(raws[1..], iso)
      else
        var phase :- ParsePhase(raws[0], iso);
        var rest :- NamedPhases(raws[1..], iso);
        Ok([phase] + rest)
  }

  /** Every named raw phase is parsed and kept, and every kept phase is the
      parse of a named raw phase. */
  lemma {:induction false} NamedPhasesKept(raws: seq<Record>, iso: IsoParser)
    requires NamedPhases(raws, iso).Ok?
    ensures forall k :: 0 <= k < |raws| && Named(raws[k]) ==>
      ParsePhase(raws[k], iso).Ok? && ParsePhase(raws[k], iso).value in NamedPhases(raws, iso).value
    ensures forall ph :: ph in NamedPhases(raws, iso).value ==>
      exists k :: 0 <= k < |raws| && Named(raws[k]) && ParsePhase(raws[k], iso) == Ok(ph)
  {
    if raws != [] {
      NamedPhasesKept(raws[1..], iso);
      var r := NamedPhases(raws, iso).value;
      var rest := NamedPhases(raws[1..], iso).value;
      assert forall k :: 1 <= k < |raws| ==> raws[k] == raws[1..][k - 1];
      forall ph | ph in r
        ensures exists k :: 0 <= k < |raws| && Named(raws[k]) && ParsePhase(raws[k], iso) == Ok(ph)
      {
        if ph in rest {
          var k :| 0 <= k < |raws[1..]| && Named(raws[1..][k]) && ParsePhase(raws[1..][k], iso) == Ok(ph);
          assert raws[k + 1] == raws[1..][k];
        } else {
          assert Named(raws[0]) && ParsePhase(raws[0], iso) == Ok(ph);
        }
      }
    }
  }

  /** The sort key of a phase: its position in `PHASE_ORDER`, 99 for a
      name not in it. */
  function PhaseKey(p: ProductionPhase): int {
    Bom.PhaseOrderIndex(p.name)
  }

  function SortPhases(ps: seq<ProductionPhase>): seq<ProductionPhase> {
    SortStable(ps, ByIntKey(PhaseKey))
  }

  /** The sorted phases are a permutation of the parsed ones, in
      `PHASE_ORDER` order, with the phases of unknown names last. */
  lemma SortPhasesOrder(ps: seq<ProductionPhase>)
    ensures var s := SortPhases(ps);
      && multiset(s) == multiset(ps)
      && (forall i, j :: 0 <= i < j < |s| ==> Bom.PhaseOrderIndex(s[i].name) <= Bom.PhaseOrderIndex(s[j].name))
      && (forall i, j :: 0 <= i < j < |s| && s[j].name in Bom.PhaseNames() ==> s[i].name in Bom.PhaseNames())
  {
    ByIntKeyTotalPreorder(PhaseKey);
    SortStableSorted(ps, ByIntKey(PhaseKey));
  }

  predicate IsDated(p: ProductionPhase) {
    p.startsAt.Some? && p.endsAt.Some?
  }

  /** `min(p.starts_at for p in dated_phases)`, or nothing without dated phases. */
  function EarliestStart(ps: seq<ProductionPhase>): Option<Instant> {
    if ps == [] then None
    else
      var rest := EarliestStart(ps[1..]);
      if !IsDated(ps[0]) then rest
      else if rest.None? || ps[0].startsAt.value <= rest.value then Some(ps[0].startsAt.value)
      else rest
  }

  /** `max(p.ends_at for p in dated_phases)`, or nothing without dated phases. */
  function LatestEnd(ps: seq<ProductionPhase>): Option<Instant> {
    if ps == [] then None
    else
      var rest := LatestEnd(ps[1..]);
      if !IsDated(ps[0]) then rest
      else if rest.None? || ps[0].endsAt.value >= rest.value then Some(ps[0].endsAt.value)
      else rest
  }

  /** The earliest start exists exactly when a phase is dated; it is then the
      start of a dated phase and no dated phase starts before it. */
  lemma {:induction false} EarliestStartIsMin(ps: seq<ProductionPhase>)
    ensures EarliestStart(ps).None? <==> forall i :: 0 <= i < |ps| ==> !IsDated(ps[i])
    ensures EarliestStart(ps).Some? ==>
      && (forall i :: 0 <= i < |ps| && IsDated(ps[i]) ==> EarliestStart(ps).value <= ps[i].startsAt.value)
      && exists i :: 0 <= i < |ps| && IsDated(ps[i]) && EarliestStart(ps).value == ps[i].startsAt.value
  {
    if ps != [] {
      EarliestStartIsMin(ps[1..]);
      assert forall i :: 1 <= i < |ps| ==> ps[i] == ps[1..][i - 1];
      var rest := EarliestStart(ps[1..]);
      if EarliestStart(ps) == rest && rest.Some? {
        var i :| 0 <= i < |ps[1..]| && IsDated(ps[1..][i]) && rest.value == ps[1..][i].startsAt.value;
        assert ps[i + 1] == ps[1..][i];
      }
    }
  }

  /** The latest end exists exactly when a phase is dated; it is then the
      end of a dated phase and no dated phase ends after it. */
  lemma {:induction false} LatestEndIsMax(ps: seq<ProductionPhase>)
    ensures LatestEnd(ps).None? <==> forall i :: 0 <= i < |ps| ==> !IsDated(ps[i])
    ensures LatestEnd(ps).Some? ==>
      && (forall i :: 0 <= i < |ps| && IsDated(ps[i]) ==> ps[i].endsAt.value <= LatestEnd(ps).value)
      && exists i :: 0 <= i < |ps| && IsDated(ps[i]) && LatestEnd(ps).value == ps[i].endsAt.value
  {
    if ps != [] {
      LatestEndIsMax(ps[1..]);
      assert forall i :: 1 <= i < |ps| ==> ps[i] == ps[1..][i - 1];
      var rest := LatestEnd(ps[1..]);
      if LatestEnd(ps) == rest && rest.Some? {
        var i :| 0 <= i < |ps[1..]| && IsDated(ps[1..][i]) && rest.value == ps[1..][i].endsAt.value;
        assert ps[i + 1] == ps[1..][i];
      }
    }
  }

  /** The dates of a production order: those of its dated phases when it
      has some, else the record's own, `DT_MIN` where missing. */
  function Span(phases: seq<ProductionPhase>, starts: Option<Instant>, ends: Option<Instant>): (Instant, Instant) {
    if EarliestStart(phases).Some? then (EarliestStart(phases).value, LatestEnd(phases).GetOr(DtMin))
    else (starts.GetOr(DtMin), ends.GetOr(DtMin))
  }

  /** With a dated phase, the span runs from the earliest dated start to
      the latest dated end; without one, it is the record's own dates. */
  lemma SpanOfPhases(phases: seq<ProductionPhase>, starts: Option<Instant>, ends: Option<Instant>)
    ensures var span := Span(phases, starts, ends);
      && ((exists i :: 0 <= i < |phases| && IsDated(phases[i])) ==>
            && (forall i :: 0 <= i < |phases| && IsDated(phases[i]) ==>
                  span.0 <= phases[i].startsAt.value && phases[i].endsAt.value <= span.1)
            && (exists i :: 0 <= i < |phases| && IsDated(phases[i]) && span.0 == phases[i].startsAt.value)
            && (exists i :: 0 <= i < |phases| && IsDated(phases[i]) && span.1 == phases[i].endsAt.value))
      && ((forall i :: 0 <= i < |phases| ==> !IsDated(phases[i])) ==>
            span == (starts.GetOr(DtMin), ends.GetOr(DtMin)))
  {
    EarliestStartIsMin(phases);
    LatestEndIsMax(phases);
  }

  /** `d.get("phases") or d.get("production_phases") or []`. */
  function RawPhases(d: Record): Json {
    Or(Or(GetOr(d, "phases", JNull), GetOr(d, "production_phases", JNull)), JList([]))
  }

  /** The plain fields of a production-order record. */
  datatype PoFields = PoFields(internalId: string, productId: string, productName: string,
                               quantity: int, status: string, productInternalId: string)

  /** The plain fields of the record with id `id`: `internal_id` is `lot`,
      else the first 12 characters of the id; the product name is
      `product_name`, else `product_internal_id`. */
  function ParsePoFields(d: Record, id: string): (r: Result<PoFields>)
    ensures r.Ok? && Get(d, "lot").None? ==> r.value.internalId == PyPrefix(id, 12)
    ensures r.Ok? && !Truthy(GetOr(d, "product_name", JNull)) ==> r.value.productName == r.value.productInternalId
    ensures r.Ok? && Get(d, "quantity").None? ==> r.value.quantity == 0
    ensures r.Ok? && Get(d, "status").None? ==> r.value.status == "unknown"
  {
    var internalId :- Str(GetOr(d, "lot", JStr(PyPrefix(id, 12))));
    var productId :- Str(GetOr(d, "product_id", JStr("")));
    var productName :- Str(Or(GetOr(d, "product_name", JNull), GetOr(d, "product_internal_id", JStr(""))));
    var quantity :- Int(GetOr(d, "quantity", JInt(0)));
    var status :- Str(GetOr(d, "status", JStr("unknown")));
    var productInternalId :- Str(GetOr(d, "product_internal_id", JStr("")));
    Ok(PoFields(internalId, productId, productName, quantity, status, productInternalId))
  }

  /** `_parse_production_order`, without the tracking of the id. */
  function ParseProductionOrder(d: Record, iso: IsoParser): (r: Result<ProductionOrder>)
    ensures Get(d, "id").None? ==> r.Err?
    ensures r.Ok? ==> Get(d, "id") == Some(JStr(r.value.id)) && r.value.salesOrderId == ""
    ensures r.Ok? ==> AsRecords(RawPhases(d)).Ok? && NamedPhases(AsRecords(RawPhases(d)).value, iso).Ok?
    ensures r.Ok? ==> r.value.phases == SortPhases(NamedPhases(AsRecords(RawPhases(d)).value, iso).value)
    ensures r.Ok? ==> ParseDt(GetOr(d, "starts_at", JNull), iso).Ok? && ParseDt(GetOr(d, "ends_at", JNull), iso).Ok?
    ensures r.Ok? ==>
      (r.value.startsAt, r.value.endsAt) == Span(r.value.phases, ParseDt(GetOr(d, "starts_at", JNull), iso).value,
                                                 ParseDt(GetOr(d, "ends_at", JNull), iso).value)
  {
    var raws :- AsRecords(RawPhases(d));
    var named :- NamedPhases(raws, iso);
    var starts :- ParseDt(GetOr(d, "starts_at", JNull), iso);
    var ends :- ParseDt(GetOr(d, "ends_at", JNull), iso);
    var id :- Index(d, "id");
    var id :- Str(id);
    var f :- ParsePoFields(d, id);
    var phases := SortPhases(named);
    var span := Span(phases, starts, ends);
    Ok(ProductionOrder(id, f.internalId, f.productId, f.productName, f.quantity, span.0, span.1,
                       f.status, f.productInternalId, "", phases))
  }

  /** The phases of a parsed production order all have names, are in
      `PHASE_ORDER` order with unknown names last, and are exactly the named
      raw phases. */
  lemma ProductionOrderPhases(d: Record, iso: IsoParser)
    requires ParseProductionOrder(d, iso).Ok?
    ensures var po := ParseProductionOrder(d, iso).value;
      var raws := AsRecords(RawPhases(d)).value;
      && (forall i :: 0 <= i < |po.phases| ==> po.phases[i].name != "")
      && (forall i, j :: 0 <= i < j < |po.phases| ==>
            Bom.PhaseOrderIndex(po.phases[i].name) <= Bom.PhaseOrderIndex(po.phases[j].name))
      && (forall k :: 0 <= k < |raws| && Named(raws[k]) ==>
            ParsePhase(raws[k], iso).Ok? && ParsePhase(raws[k], iso).value in po.phases)
      && (forall ph :: ph in po.phases ==>
            exists k :: 0 <= k < |raws| && Named(raws[k]) && ParsePhase(raws[k], iso) == Ok(ph))
  {
    var po := ParseProductionOrder(d, iso).value;
    var raws := AsRecords(RawPhases(d)).value;
    var named := NamedPhases(raws, iso).value;
    SortPhasesOrder(named);
    NamedPhasesKept(raws, iso);
    assert forall ph :: ph in po.phases <==> ph in named by {
      forall ph ensures ph in po.phases <==> ph in named {
        assert ph in po.phases <==> ph in multiset(po.phases);
        assert ph in named <==> ph in multiset(named);
      }
    }
    forall i | 0 <= i < |po.phases|
      ensures po.phases[i].name != ""
    {
      assert po.phases[i] in named;
    }
  }

  /** Fetching a production order and parsing it. `fetch(id)` is the record
      the platform returns, or `None` when it answers with an error status. */
  function Load(fetch: string -> Option<Record>, iso: IsoParser): string -> Option<Result<ProductionOrder>> {
    (id: string) => if fetch(id).Some? then Some(ParseProductionOrder(fetch(id).value, iso)) else None
  }

  /** The key `get_production_orders` sorts by. */
  function StartsAt(po: ProductionOrder): int {
    po.startsAt
  }

  /** What the loop of `get_production_orders` has gathered: the orders
      fetched and parsed, the ids whose fetch failed, the ids the parses
      tracked, and whether a parse raised (which ends the loop). */
  datatype SweepState = SweepState(orders: seq<ProductionOrder>, gone: set<string>, seen: set<string>, failed: bool)

  /** The loop of `get_production_orders` over the tracked ids, in the order
      they are listed. `load(id)` is the parse of the record the platform
      returns for `id`, or `None` when it answers with an error status. */
  function Sweep(ids: seq<string>, load: string -> Option<Result<ProductionOrder>>): SweepState {
    if ids == [] then SweepState([], {}, {}, false)
    else
      var st := Sweep(Init(ids), load);
      if st.failed then st
      else match load(Last(ids))
        case None => st.(gone := st.gone + {Last(ids)})
        case Some(Err(_)) => st.(failed := true)
        case Some(Ok(po)) => st.(orders := st.orders + [po], seen := st.seen + {po.id})
  }

  /** Once a parse has raised, the rest of the ids are not visited. */
  lemma {:induction false} SweepStopsAtFailure(ids: seq<string>, load: string -> Option<Result<ProductionOrder>>, n: nat)
    requires n <= |ids| && Sweep(ids[..n], load).failed
    ensures Sweep(ids, load) == Sweep(ids[..n], load)
    decreases |ids|
  {
    if n < |ids| {
      assert Init(ids)[..n] == ids[..n];
      SweepStopsAtFailure(Init(ids), load, n);
    } else {
      assert ids[..n] == ids;
    }
  }

  /** Without a failed parse, the ids given up on are exactly the listed
      ids whose fetch failed, and the ids tracked are those of the orders
      parsed. */
  lemma {:induction false} SweepSets(ids: seq<string>, load: string -> Option<Result<ProductionOrder>>)
    requires !Sweep(ids, load).failed
    ensures forall id :: id in Sweep(ids, load).gone <==> id in ids && load(id).None?
    ensures forall id :: id in Sweep(ids, load).seen <==>
      exists k :: 0 <= k < |Sweep(ids, load).orders| && Sweep(ids, load).orders[k].id == id
  {
    if ids != [] {
      var prev := Sweep(Init(ids), load);
      SweepSets(Init(ids), load);
      assert ids == Init(ids) + [Last(ids)];
      var st := Sweep(ids, load);
      if load(Last(ids)).None? {
        assert st.orders == prev.orders && st.seen == prev.seen;
      } else {
        var po := load(Last(ids)).value.value;
        assert st.orders == prev.orders + [po] && st.seen == prev.seen + {po.id};
        forall id ensures id in st.seen <==> exists k :: 0 <= k < |st.orders| && st.orders[k].id == id {
          if id in prev.seen {
            var k :| 0 <= k < |prev.orders| && prev.orders[k].id == id;
            assert st.orders[k] == prev.orders[k];
          } else if id == po.id {
            assert st.orders[|prev.orders|] == po;
          }
          if exists k :: 0 <= k < |st.orders| && st.orders[k].id == id {
            var k :| 0 <= k < |st.orders| && st.orders[k].id == id;
            if k < |prev.orders| {
              assert prev.orders[k] == st.orders[k];
            }
          }
        }
      }
    }
  }

  /** After a sweep without a failed parse, a previously tracked id stays
      tracked exactly when the platform still returns it. */
  lemma SweepTracking(known: set<string>, ids: seq<string>, load: string -> Option<Result<ProductionOrder>>)
    requires forall id :: id in ids <==> id in known
    requires !Sweep(ids, load).failed
    ensures var st := Sweep(ids, load);
      forall id :: id in known ==> (id in (known + st.seen) - st.gone <==> load(id).Some?)
  {
    SweepSets(ids, load);
  }

  /** `get_production_orders` returns its orders by start date. */
  lemma ProductionOrdersByStart(orders: seq<ProductionOrder>)
    ensures var r := SortStable(orders, ByIntKey(StartsAt));
      && multiset(r) == multiset(orders)
      && forall i, j :: 0 <= i < j < |r| ==> r[i].startsAt <= r[j].startsAt
  {
    ByIntKeyTotalPreorder(StartsAt);
    SortStableSorted(orders, ByIntKey(StartsAt));
  }

  /** The client's own state: the production orders it tracks (the platform
      has no endpoint listing them), the sales-order to production-order
      links, and the cached current schedule. */
  class ArkeClient {
    var knownPoIds: set<string>
    var soPoMap: Dict<string, string>
    var currentSchedule: Option<Schedule>

    constructor ()
      ensures knownPoIds == {} && soPoMap == [] && currentSchedule == None
    {
      knownPoIds := {};
      soPoMap := [];
      currentSchedule := None;
    }

    /** `_parse_production_order`: a parsed order's id becomes tracked. */
    method ParseAndTrack(d: Record, iso: IsoParser) returns (r: Result<ProductionOrder>)
      modifies this
      ensures r == ParseProductionOrder(d, iso)
      ensures knownPoIds == if r.Ok? then old(knownPoIds) + {r.value.id} else old(knownPoIds)
      ensures soPoMap == old(soPoMap) && currentSchedule == old(currentSchedule)
    {
      r := ParseProductionOrder(d, iso);
      if r.Ok? {
        knownPoIds := knownPoIds + {r.value.id};
      }
    }

    /** `get_production_orders`: every tracked id is fetched; the ids the
        platform no longer returns stop being tracked; the orders come back
        sorted by start. A record that does not parse raises at once. */
    method GetProductionOrders(ids: seq<string>, fetch: string -> Option<Record>, iso: IsoParser)
      returns (r: Result<seq<ProductionOrder>>)
      requires forall id :: id in ids <==> id in knownPoIds
      modifies this
      ensures var st := Sweep(ids, Load(fetch, iso));
        && (st.failed ==> r.Err? && knownPoIds == old(knownPoIds) + st.seen)
        && (!st.failed ==> r == Ok(SortStable(st.orders, ByIntKey(StartsAt)))
                           && knownPoIds == (old(knownPoIds) + st.seen) - st.gone)
      ensures soPoMap == old(soPoMap) && currentSchedule == old(currentSchedule)
    {
      var orders: seq<ProductionOrder> := [];
      var gone: set<string> := {};
      ghost var seen: set<string> := {};
      ghost var load := Load(fetch, iso);
      var i := 0;
      while i < |ids|
        invariant 0 <= i <= |ids|
        invariant Sweep(ids[..i], load) == SweepState(orders, gone, seen, false)
        invariant knownPoIds == old(knownPoIds) + seen
        invariant soPoMap == old(soPoMap) && currentSchedule == old(currentSchedule)
      {
        assert Init(ids[..i + 1]) == ids[..i] && Last(ids[..i + 1]) == ids[i];
        var raw := fetch(ids[i]);
        if raw.None? {
          gone := gone + {ids[i]};
        } else {
          var po := ParseAndTrack(raw.value, iso);
          assert load(ids[i]) == Some(po);
          if po.Err? {
            SweepStopsAtFailure(ids, load, i + 1);
            return Err(po.error);
          }
          orders := orders + [po.value];
          seen := seen + {po.value.id};
        }
        i := i + 1;
      }
      assert ids[..i] == ids;
      knownPoIds := knownPoIds - gone;
      r := Ok(SortStable(orders, ByIntKey(StartsAt)));
    }

    /** `delete_production_order`: once the platform accepts the deletion
        the id is no longer tracked; a refusal raises and changes nothing. */
    method DeleteProductionOrder(id: string, accepted: bool) returns (r: Result<bool>)
      modifies this
      ensures accepted ==> r == Ok(true) && knownPoIds == old(knownPoIds) - {id}
      ensures !accepted ==> r.Err? && knownPoIds == old(knownPoIds)
      ensures soPoMap == old(soPoMap) && currentSchedule == old(currentSchedule)
    {
      if !accepted {
        return Err("HTTPStatusError");
      }
      knownPoIds := knownPoIds - {id};
      r := Ok(true);
    }

    /** The clean-up `request_new_schedule` does before recomputing: every
        tracked order is deleted where the platform accepts it (a refusal is
        only logged), then the tracking, the links and the cached schedule
        are all dropped. Returns the ids actually deleted. */
    method ResetTracking(ids: seq<string>, deleteOk: string -> bool) returns (deleted: seq<string>)
      requires forall id :: id in ids <==> id in knownPoIds
      modifies this
      ensures deleted == Filter(ids, deleteOk)
      ensures knownPoIds == {} && soPoMap == [] && currentSchedule == None
    {
      deleted := [];
      var i := 0;
      while i < |ids|
        invariant 0 <= i <= |ids|
        invariant deleted == Filter(ids[..i], deleteOk)
      {
        var r := DeleteProductionOrder(ids[i], deleteOk(ids[i]));
        FilterAppend(ids[..i], [ids[i]], deleteOk);
        assert ids[..i + 1] == ids[..i] + [ids[i]];
        if r.Ok? {
          deleted := deleted + [ids[i]];
        }
        i := i + 1;
      }
      assert ids[..i] == ids;
      knownPoIds := {};
      soPoMap := [];
      currentSchedule := None;
    }
  }
}

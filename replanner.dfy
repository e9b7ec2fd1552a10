/** The structured exchange with the language-model replanner
    (src/ai_scheduler_helper/gemini_replanner.py): the input built from the
    schedule and the pending orders, and the validation of the answer, which
    is already decoded from JSON here (`None` when it was not valid JSON).
    The model call itself is not part of this model. */
module Replanner {
  import opened Basics
  import opened JsonValues
  import opened PyStrings
  import opened ShiftCalendar
  import opened Models

  /** `strftime("%Y-%m-%dT%H:%M:%SZ")`. */
  type Format = Instant -> string

  /** `AIScheduleOrderInput`. */
  datatype OrderInput = OrderInput(
    salesOrderId: string,
    salesOrderInternalId: string,
    productInternalId: string,
    qty: int,
    priority: int,
    deadline: string,
    customer: string,
    plannedStart: string,
    plannedEnd: string,
    isExisting: bool)

  /** `AIScheduleInput`. */
  datatype AiInput = AiInput(simNow: string, userFeedback: string,
                             currentSchedule: seq<OrderInput>, pendingOrders: seq<OrderInput>)

  /** `AIPriorityUpdate`. */
  datatype PriorityUpdate = PriorityUpdate(salesOrderId: string, newPriority: int, reason: string)

  /** `AIScheduleOutput`. */
  datatype AiOutput = AiOutput(reorderedSoIds: seq<string>, priorityUpdates: seq<PriorityUpdate>,
                               aiComment: string, conflicts: seq<string>)

  /** The record of an entry already in production. */
  function ExistingInput(e: ScheduleEntry, fmt: Format): OrderInput {
    var so := e.salesOrder;
    OrderInput(so.id, so.internalId, so.line.productInternalId, so.line.quantity, so.priority,
               fmt(e.deadline), so.customer.name, fmt(e.plannedStart), fmt(e.plannedEnd), true)
  }

  /** The record of an order still to be placed: no planned dates. */
  function PendingInput(so: SalesOrder, fmt: Format): OrderInput {
    OrderInput(so.id, so.internalId, so.line.productInternalId, so.line.quantity, so.priority,
               fmt(so.deadline), so.customer.name, "", "", false)
  }

  /** `build_ai_input`: one record per existing entry, marked existing and
      carrying its planned span, then one per pending order, unmarked and
      without dates; both lists keep the order they were given in. */
  function BuildAiInput(existing: seq<ScheduleEntry>, pending: seq<SalesOrder>, feedback: string,
                        simNow: Instant, fmt: Format): (r: AiInput)
    ensures r.simNow == fmt(simNow) && r.userFeedback == feedback
    ensures |r.currentSchedule| == |existing| && |r.pendingOrders| == |pending|
    ensures forall i :: 0 <= i < |existing| ==>
      var o := r.currentSchedule[i];
      && o.isExisting && o.salesOrderId == existing[i].salesOrder.id && o.priority == existing[i].salesOrder.priority
      && o.plannedStart == fmt(existing[i].plannedStart) && o.plannedEnd == fmt(existing[i].plannedEnd)
      && o.deadline == fmt(existing[i].deadline)
    ensures forall i :: 0 <= i < |pending| ==>
      var o := r.pendingOrders[i];
      && !o.isExisting && o.salesOrderId == pending[i].id && o.priority == pending[i].priority
      && o.plannedStart == "" && o.plannedEnd == "" && o.deadline == fmt(pending[i].deadline)
      && o.qty == pending[i].line.quantity
  {
    AiInput(fmt(simNow), feedback,
            seq(|existing|, i requires 0 <= i < |existing| => ExistingInput(existing[i], fmt)),
            seq(|pending|, i requires 0 <= i < |pending| => PendingInput(pending[i], fmt)))
  }

  /** `{o.sales_order_id for o in ai_input.pending_orders}`. */
  function PendingIds(input: AiInput): set<string> {
    set i | 0 <= i < |input.pendingOrders| :: input.pendingOrders[i].salesOrderId
  }

  /** The ids the answer is checked against are those of the pending orders
      the input was built from. */
  lemma PendingIdsOfOrders(existing: seq<ScheduleEntry>, pending: seq<SalesOrder>, feedback: string,
                           simNow: Instant, fmt: Format)
    ensures forall id :: id in PendingIds(BuildAiInput(existing, pending, feedback, simNow, fmt)) <==>
      exists i :: 0 <= i < |pending| && pending[i].id == id
  {
    var input := BuildAiInput(existing, pending, feedback, simNow, fmt);
    forall id | exists i :: 0 <= i < |pending| && pending[i].id == id
      ensures id in PendingIds(input)
    {
      var i :| 0 <= i < |pending| && pending[i].id == id;
      assert input.pendingOrders[i].salesOrderId == id;
    }
  }

  /** `str(v)`: a string is itself; `None`, booleans and integers are
      spelled as Python spells them; `repr` stands for the rendering of
      lists and dicts. */
  function PyStr(v: Json, repr: Json -> string): string {
    match v
    case JStr(s) => s
    case JNull => "None"
    case JBool(b) => if b then "True" else "False"
    case JInt(n) => if n < 0 then "-" + ShowNat(-n) else ShowNat(n)
    case _ => repr(v)
  }

  /** `[sid for sid in reordered if isinstance(sid, str) and sid in pending_ids]`. */
  function PendingStrings(items: seq<Json>, pending: set<string>): (r: seq<string>)
    ensures |r| <= |items|
    ensures forall x :: x in r <==> JStr(x) in items && x in pending
  {
    if items == [] then []
    else
      var rest := PendingStrings(items[1..], pending);
      assert forall x :: JStr(x) in items <==> JStr(x) == items[0] || JStr(x) in items[1..];
      if items[0].JStr? && items[0].s in pending then [items[0].s] + rest else rest
  }

  /** `reordered_so_ids`, which is dropped when it is not a list. */
  function ReorderedIds(v: Json, pending: set<string>): (r: seq<string>)
    ensures !v.JList? ==> r == []
    ensures forall x :: x in r ==> x in pending
  {
    if v.JList? then PendingStrings(v.items, pending) else []
  }

  /** The ids keep the relative order the answer gave them: a kept id that
      came before another in the answer still comes before it. */
  lemma {:induction false} PendingStringsInOrder(items: seq<Json>, pending: set<string>, j: nat, k: nat)
    requires j < k < |items| && items[j].JStr? && items[k].JStr?
    requires items[j].s in pending && items[k].s in pending
    ensures exists a, b ::
              && 0 <= a < b < |PendingStrings(items, pending)|
              && PendingStrings(items, pending)[a] == items[j].s && PendingStrings(items, pending)[b] == items[k].s
  {
    var r := PendingStrings(items, pending);
    var rest := PendingStrings(items[1..], pending);
    assert items[k] == items[1..][k - 1];
    if j == 0 {
      assert items[k].s in rest;
      var b :| 0 <= b < |rest| && rest[b] == items[k].s;
      assert r[0] == items[0].s && r[b + 1] == rest[b];
    } else {
      assert items[j] == items[1..][j - 1];
      PendingStringsInOrder(items[1..], pending, j - 1, k - 1);
      var a, b :| 0 <= a < b < |rest| && rest[a] == items[j].s && rest[b] == items[k].s;
      if items[0].JStr? && items[0].s in pending {
        assert r[a + 1] == rest[a] && r[b + 1] == rest[b];
      }
    }
  }

  /** `isinstance(pri, int)`, under which a boolean is the integer 0 or 1. */
  function AsPyInt(v: Json): Option<int> {
    match v
    case JInt(n) => Some(n)
    case JBool(b) => Some(if b then 1 else 0)
    case _ => None
  }

  /** The update one item of `priority_updates` gives: only a dict with a
      string `sales_order_id` and an integer `new_priority` from 1 to 4. */
  function UpdateOf(u: Json, repr: Json -> string): (r: Option<PriorityUpdate>)
    ensures r.Some? ==> 1 <= r.value.newPriority <= 4
    ensures r.Some? <==>
      && u.JObj?
      && GetOr(u.fields, "sales_order_id", JStr("")).JStr?
      && AsPyInt(GetOr(u.fields, "new_priority", JInt(0))).Some?
      && 1 <= AsPyInt(GetOr(u.fields, "new_priority", JInt(0))).value <= 4
  {
    if !u.JObj? then None
    else
      var sid := GetOr(u.fields, "sales_order_id", JStr(""));
      var pri := AsPyInt(GetOr(u.fields, "new_priority", JInt(0)));
      if sid.JStr? && pri.Some? && 1 <= pri.value <= 4
      then Some(PriorityUpdate(sid.s, pri.value, PyStr(GetOr(u.fields, "reason", JStr("")), repr)))
      else None
  }

  /** An answer of `true` for `new_priority` passes the check as priority 1. */
  lemma BooleanPriorityAccepted(repr: Json -> string)
    ensures UpdateOf(JObj([("sales_order_id", JStr("SO-1")), ("new_priority", JBool(true))]), repr)
         == Some(PriorityUpdate("SO-1", 1, ""))
  {
    var d := [("sales_order_id", JStr("SO-1")), ("new_priority", JBool(true))];
    assert d[1..][1..] == [];
    assert GetOr(d, "sales_order_id", JStr("")) == JStr("SO-1");
    assert GetOr(d, "new_priority", JInt(0)) == JBool(true);
    assert GetOr(d, "reason", JStr("")) == JStr("");
  }

  /** The updates the loop has kept after the items `raws`. */
  function ValidUpdates(raws: seq<Json>, repr: Json -> string): seq<PriorityUpdate> {
    if raws == [] then []
    else
      var kept := ValidUpdates(Init(raws), repr);
      match UpdateOf(Last(raws), repr)
      case Some(u) => kept + [u]
      case None => kept
  }

  /** Every kept update is the update of some item, and every item that
      gives an update has it kept; all kept priorities are from 1 to 4. */
  lemma {:induction false} ValidUpdatesKept(raws: seq<Json>, repr: Json -> string)
    ensures forall u :: u in ValidUpdates(raws, repr) ==>
      1 <= u.newPriority <= 4 && exists k :: 0 <= k < |raws| && UpdateOf(raws[k], repr) == Some(u)
    ensures forall k :: 0 <= k < |raws| && UpdateOf(raws[k], repr).Some? ==>
      UpdateOf(raws[k], repr).value in ValidUpdates(raws, repr)
  {
    if raws != [] {
      ValidUpdatesKept(Init(raws), repr);
      assert raws == Init(raws) + [Last(raws)];
      forall u | u in ValidUpdates(raws, repr)
        ensures exists k :: 0 <= k < |raws| && UpdateOf(raws[k], repr) == Some(u)
      {
        if u in ValidUpdates(Init(raws), repr) {
          var k :| 0 <= k < |Init(raws)| && UpdateOf(Init(raws)[k], repr) == Some(u);
          assert raws[k] == Init(raws)[k];
        } else {
          assert UpdateOf(raws[|raws| - 1], repr) == Some(u);
        }
      }
      forall k | 0 <= k < |raws| && UpdateOf(raws[k], repr).Some?
        ensures UpdateOf(raws[k], repr).value in ValidUpdates(raws, repr)
      {
        if k < |raws| - 1 {
          assert raws[k] == Init(raws)[k];
        }
      }
    }
  }

  /** The loop over `priority_updates`; anything but a list gives none. */
  method CollectPriorityUpdates(v: Json, repr: Json -> string) returns (updates: seq<PriorityUpdate>)
    ensures updates == if v.JList? then ValidUpdates(v.items, repr) else []
  {
    updates := [];
    if v.JList? {
      var i := 0;
      while i < |v.items|
        invariant 0 <= i <= |v.items|
        invariant updates == ValidUpdates(v.items[..i], repr)
      {
        assert Init(v.items[..i + 1]) == v.items[..i] && Last(v.items[..i + 1]) == v.items[i];
        var u := UpdateOf(v.items[i], repr);
        if u.Some? {
          updates := updates + [u.value];
        }
        i := i + 1;
      }
      assert v.items[..i] == v.items;
    }
  }

  /** `conflicts`, each item stringified; dropped when it is not a list. */
  function Conflicts(v: Json, repr: Json -> string): (r: seq<string>)
    ensures !v.JList? ==> r == []
    ensures v.JList? ==> |r| == |v.items| && forall i :: 0 <= i < |r| ==> r[i] == PyStr(v.items[i], repr)
  {
    if v.JList? then seq(|v.items|, i requires 0 <= i < |v.items| => PyStr(v.items[i], repr)) else []
  }

  const InvalidJsonComment: string := "AI response was not valid JSON. Using default EDF order."
  const FailedComment: string := "AI analysis failed. Falling back to default EDF scheduling."

  /** `_parse_ai_response` on the decoded answer: text that is not JSON
      gives an empty answer with a fixed comment; JSON that is not an
      object has no `get` and raises. */
  function AiResponse(decoded: Option<Json>, pending: set<string>, repr: Json -> string): (r: Result<AiOutput>)
    ensures decoded.None? ==> r == Ok(AiOutput([], [], InvalidJsonComment, []))
    ensures r.Err? <==> decoded.Some? && !decoded.value.JObj?
  {
    match decoded
    case None => Ok(AiOutput([], [], InvalidJsonComment, []))
    case Some(data) =>
      if !data.JObj? then Err("AttributeError")
      else
        var d := data.fields;
        var raw := GetOr(d, "priority_updates", JList([]));
        Ok(AiOutput(ReorderedIds(GetOr(d, "reordered_so_ids", JList([])), pending),
                    if raw.JList? then ValidUpdates(raw.items, repr) else [],
                    PyStr(GetOr(d, "ai_comment", JStr("")), repr),
                    Conflicts(GetOr(d, "conflicts", JList([])), repr)))
  }

  method ParseAiResponse(decoded: Option<Json>, pending: set<string>, repr: Json -> string)
    returns (r: Result<AiOutput>)
    ensures r == AiResponse(decoded, pending, repr)
  {
    if decoded.None? {
      return Ok(AiOutput([], [], InvalidJsonComment, []));
    }
    var data := decoded.value;
    if !data.JObj? {
      return Err("AttributeError");
    }
    var d := data.fields;
    var reordered := ReorderedIds(GetOr(d, "reordered_so_ids", JList([])), pending);
    var updates := CollectPriorityUpdates(GetOr(d, "priority_updates", JList([])), repr);
    var comment := PyStr(GetOr(d, "ai_comment", JStr("")), repr);
    var conflicts := Conflicts(GetOr(d, "conflicts", JList([])), repr);
    r := Ok(AiOutput(reordered, updates, comment, conflicts));
  }

  /** `propose_schedule_revision`: an exception becomes the fallback answer. */
  function Revision(decoded: Option<Json>, pending: set<string>, repr: Json -> string): AiOutput {
    match AiResponse(decoded, pending, repr)
    case Ok(out) => out
    case Err(_) => AiOutput([], [], FailedComment, [])
  }

  /** Whatever the model answers, the replanner passes on only ids of
      pending orders, and only priorities from 1 to 4. */
  lemma RevisionSafe(decoded: Option<Json>, pending: set<string>, repr: Json -> string)
    ensures var out := Revision(decoded, pending, repr);
      && (forall id :: id in out.reorderedSoIds ==> id in pending)
      && (forall u :: u in out.priorityUpdates ==> 1 <= u.newPriority <= 4)
  {
    if decoded.Some? && decoded.value.JObj? {
      var raw := GetOr(decoded.value.fields, "priority_updates", JList([]));
      if raw.JList? {
        ValidUpdatesKept(raw.items, repr);
      }
    }
  }
}

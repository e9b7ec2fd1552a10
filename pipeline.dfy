/** One step of the real-time execution of a production order
    (src/real_time/advance_pipleine.py): which phase failed, and what one
    call of `move_pipeline` does. The remote service is replaced by the
    fetched order record and the robot by whether it reports the phase complete. */
module Pipeline {
  import opened Basics
  import opened PyDict
  import opened PyStrings
  import opened JsonValues
  import opened PhaseRecords

  /** `STATUS_IN_PROGRESS`, `STATUS_DONE`, `STATUS_BROKEN`. */
  datatype PipelineStatus = InProgress | Done | Broken {
    function Code(): int {
      match this
      case InProgress => 0
      case Done => 1
      case Broken => 2
    }
  }

  /** `get_phase_name_from_phase`. */
  function PhaseNameFromPhase(phase: Record): Result<Json> {
    PhaseName(phase, GetDefault, "?")
  }

  /** `phase.get("status", "").lower()`: the phase must be a dict and its status a string. */
  function LoweredStatus(phase: Json): (r: Result<string>)
    ensures r.Ok? ==> phase.JObj?
  {
    if !phase.JObj? then Err("AttributeError")
    else
      var st := GetOr(phase.fields, "status", JStr(""));
      if st.JStr? then Ok(Lower(st.s)) else Err("AttributeError")
  }

  predicate IsActiveStatus(s: string) {
    s == "in_progress" || s == "running" || s == "failed"
  }

  /** The first phase, scanning forward, whose status is active. */
  function FirstActive(phases: seq<Json>): (r: Result<Option<Json>>)
    ensures r.Ok? && r.value.Some? ==> r.value.value.JObj?
  {
    if phases == [] then Ok(None)
    else
      var st := LoweredStatus(phases[0]);
      if st.Err? then Err(st.error)
      else if IsActiveStatus(st.value) then Ok(Some(phases[0]))
      else FirstActive(phases[1..])
  }

  /** The first phase, scanning backward, whose status is not "done". */
  function LastNotDone(phases: seq<Json>): (r: Result<Option<Json>>)
    ensures r.Ok? && r.value.Some? ==> r.value.value.JObj?
  {
    if phases == [] then Ok(None)
    else
      var st := LoweredStatus(Last(phases));
      if st.Err? then Err(st.error)
      else if st.value != "done" then Ok(Some(Last(phases)))
      else LastNotDone(Init(phases))
  }

  /** A found phase is the first active one. */
  lemma {:induction false} FirstActiveIsFirst(phases: seq<Json>)
    requires FirstActive(phases).Ok? && FirstActive(phases).value.Some?
    ensures exists k :: (&& 0 <= k < |phases| && phases[k] == FirstActive(phases).value.value
                         && LoweredStatus(phases[k]).Ok? && IsActiveStatus(LoweredStatus(phases[k]).value)
                         && forall i :: 0 <= i < k ==> LoweredStatus(phases[i]).Ok? && !IsActiveStatus(LoweredStatus(phases[i]).value))
  {
    var st := LoweredStatus(phases[0]);
    if !IsActiveStatus(st.value) {
      FirstActiveIsFirst(phases[1..]);
      var k :| 0 <= k < |phases[1..]| && phases[1..][k] == FirstActive(phases).value.value
        && LoweredStatus(phases[1..][k]).Ok? && IsActiveStatus(LoweredStatus(phases[1..][k]).value)
        && forall i :: 0 <= i < k ==> LoweredStatus(phases[1..][i]).Ok? && !IsActiveStatus(LoweredStatus(phases[1..][i]).value);
      assert phases[k + 1] == phases[1..][k];
      assert forall i :: 1 <= i < k + 1 ==> phases[i] == phases[1..][i - 1];
    } else {
      assert phases[0] == FirstActive(phases).value.value;
    }
  }

  /** No active phase is found only when every status reads and none is active. */
  lemma {:induction false} FirstActiveNone(phases: seq<Json>)
    requires FirstActive(phases) == Ok(None)
    ensures forall i :: 0 <= i < |phases| ==> LoweredStatus(phases[i]).Ok? && !IsActiveStatus(LoweredStatus(phases[i]).value)
  {
    if phases != [] {
      FirstActiveNone(phases[1..]);
      assert forall i :: 1 <= i < |phases| ==> phases[i] == phases[1..][i - 1];
    }
  }

  /** A found phase is the last one whose status is not "done". */
  lemma {:induction false} LastNotDoneIsLast(phases: seq<Json>)
    requires LastNotDone(phases).Ok? && LastNotDone(phases).value.Some?
    ensures exists k :: (&& 0 <= k < |phases| && phases[k] == LastNotDone(phases).value.value
                         && LoweredStatus(phases[k]) != Ok("done") && LoweredStatus(phases[k]).Ok?
                         && forall i :: k < i < |phases| ==> LoweredStatus(phases[i]) == Ok("done"))
  {
    var st := LoweredStatus(Last(phases));
    if st.value == "done" {
      LastNotDoneIsLast(Init(phases));
      var k :| 0 <= k < |Init(phases)| && Init(phases)[k] == LastNotDone(phases).value.value
        && LoweredStatus(Init(phases)[k]) != Ok("done") && LoweredStatus(Init(phases)[k]).Ok?
        && forall i :: k < i < |Init(phases)| ==> LoweredStatus(Init(phases)[i]) == Ok("done");
      assert phases[k] == Init(phases)[k];
      assert forall i :: k < i < |phases| - 1 ==> phases[i] == Init(phases)[i];
    } else {
      assert phases[|phases| - 1] == LastNotDone(phases).value.value;
    }
  }

  /** No such phase is found only when every status reads "done". */
  lemma {:induction false} LastNotDoneNone(phases: seq<Json>)
    requires LastNotDone(phases) == Ok(None)
    ensures forall i :: 0 <= i < |phases| ==> LoweredStatus(phases[i]) == Ok("done")
  {
    if phases != [] {
      LastNotDoneNone(Init(phases));
      assert forall i :: 0 <= i < |phases| - 1 ==> phases[i] == Init(phases)[i];
    }
  }

  /** `(phase.get('id') or phase.get('phase_id') or "unknown", get_phase_name_from_phase(phase))`. */
  function PhaseInfo(phase: Record): Result<(Json, Json)> {
    var id := Or(Or(GetOr(phase, "id", JNull), GetOr(phase, "phase_id", JNull)), JStr("unknown"));
    var name := PhaseNameFromPhase(phase);
    if name.Err? then Err(name.error) else Ok((id, name.value))
  }

  const UnknownPhase: (Json, Json) := (JStr("unknown"), JStr("Unknown Phase"))

  /** `extract_failed_phase_info`: iterating anything but a list of dicts, or a
      status that is not a string, raises. */
  function ExtractFailedPhaseInfo(order: Json): (r: Result<(Json, Json)>)
    ensures !order.JObj? ==> r == Ok(UnknownPhase)
  {
    if !order.JObj? then Ok(UnknownPhase)
    else
      var phases := GetOr(order.fields, "phases", JList([]));
      if !Truthy(phases) then Ok(UnknownPhase)
      else if !phases.JList? then Err("AttributeError")
      else
        var active := FirstActive(phases.items);
        if active.Err? then Err(active.error)
        else if active.value.Some? then PhaseInfo(active.value.value.fields)
        else
          var pending := LastNotDone(phases.items);
          if pending.Err? then Err(pending.error)
          else if pending.value.Some? then PhaseInfo(pending.value.value.fields)
          else
            LastNotDoneNone(phases.items);
            PhaseInfo(phases.items[0].fields)
  }

  /** Without a dict, or without phases, the failure is the unknown phase. */
  lemma ExtractUnknown(order: Json)
    requires !order.JObj? || !Truthy(GetOr(order.fields, "phases", JList([])))
    ensures ExtractFailedPhaseInfo(order) == Ok(UnknownPhase)
  {
  }

  /** With a list of phases, the reported phase is the first active one; failing
      that the last one not done; failing that (all done) the first one. */
  lemma ExtractPicksPhase(order: Json)
    requires order.JObj?
    requires var phases := GetOr(order.fields, "phases", JList([])); phases.JList? && phases.items != []
    requires ExtractFailedPhaseInfo(order).Ok?
    ensures var phases := GetOr(order.fields, "phases", JList([])).items;
      exists k :: 0 <= k < |phases| && phases[k].JObj? && ExtractFailedPhaseInfo(order) == PhaseInfo(phases[k].fields)
        && LoweredStatus(phases[k]).Ok?
        && (|| (IsActiveStatus(LoweredStatus(phases[k]).value)
                && forall i :: 0 <= i < k ==> LoweredStatus(phases[i]).Ok? && !IsActiveStatus(LoweredStatus(phases[i]).value))
            || (&& (forall i :: 0 <= i < |phases| ==> LoweredStatus(phases[i]).Ok? && !IsActiveStatus(LoweredStatus(phases[i]).value))
                && LoweredStatus(phases[k]) != Ok("done")
                && forall i :: k < i < |phases| ==> LoweredStatus(phases[i]) == Ok("done"))
            || (&& k == 0
                && forall i :: 0 <= i < |phases| ==> LoweredStatus(phases[i]) == Ok("done")))
  {
    var phases := GetOr(order.fields, "phases", JList([])).items;
    var active := FirstActive(phases);
    if active.value.Some? {
      FirstActiveIsFirst(phases);
    } else {
      FirstActiveNone(phases);
      var pending := LastNotDone(phases);
      if pending.value.Some? {
        LastNotDoneIsLast(phases);
      } else {
        LastNotDoneNone(phases);
        assert LoweredStatus(phases[0]).Ok?;
      }
    }
  }

  /** The remote calls `move_pipeline` makes on the order, in order. */
  datatype Action = StartPhase(phaseId: Json) | CompletePhase(phaseId: Json) | CompleteOrder

  /** What one `move_pipeline` call returns, with the calls it made. */
  datatype Move = Move(status: PipelineStatus, failedOrder: Option<Record>, actions: seq<Action>)

  /** What a `for` over a value visits: a list its items, a dict its keys, a
      string its characters; any other value is not iterable. */
  function Iterated(j: Json): (r: Result<seq<Json>>)
    ensures r.Ok? <==> j.JList? || j.JObj? || j.JStr?
    ensures j.JList? ==> r == Ok(j.items)
    ensures j.JObj? ==> r.Ok? && |r.value| == |j.fields| && forall i :: 0 <= i < |r.value| ==> r.value[i] == JStr(j.fields[i].0)
    ensures j.JStr? ==> r.Ok? && |r.value| == |j.s| && forall i :: 0 <= i < |r.value| ==> r.value[i] == JStr([j.s[i]])
  {
    match j
    case JList(items) => Ok(items)
    case JObj(fields) => Ok(seq(|fields|, i requires 0 <= i < |fields| => JStr(fields[i].0)))
    case JStr(s) => Ok(seq(|s|, i requires 0 <= i < |s| => JStr([s[i]])))
    case _ => Err("TypeError")
  }

  /** `p.get("status") == "ready"`, for a dict `p`. */
  predicate IsReady(p: Json) {
    p.JObj? && GetOr(p.fields, "status", JNull) == JStr("ready")
  }

  /** `p.get("status") == "done"`, for a dict `p`. */
  predicate IsDone(p: Json) {
    p.JObj? && GetOr(p.fields, "status", JNull) == JStr("done")
  }

  /** `next((p for p in phases if p.get("status") == "ready"), None)`, as an
      index: the scan stops at the first ready phase, and an item before it
      that is not a dict raises. */
  function FirstReady(phases: seq<Json>): (r: Result<Option<nat>>)
    ensures r.Ok? && r.value.Some? ==> r.value.value < |phases| && IsReady(phases[r.value.value])
  {
    if phases == [] then Ok(None)
    else if !phases[0].JObj? then Err("AttributeError")
    else if IsReady(phases[0]) then Ok(Some(0))
    else match FirstReady(phases[1..])
      case Err(e) => Err(e)
      case Ok(None) => Ok(None)
      case Ok(Some(k)) => Ok(Some(k + 1))
  }

  /** The scan finds the first ready phase, reads nothing after it, finds
      none only when every item is a dict that is not ready, and raises only
      on an item that is not a dict before any ready one. */
  lemma {:induction false} FirstReadyIsFirst(phases: seq<Json>)
    ensures FirstReady(phases) == Ok(None) <==> forall i :: 0 <= i < |phases| ==> phases[i].JObj? && !IsReady(phases[i])
    ensures FirstReady(phases).Ok? && FirstReady(phases).value.Some? ==>
      forall i :: 0 <= i < FirstReady(phases).value.value ==> phases[i].JObj? && !IsReady(phases[i])
    ensures FirstReady(phases).Err? <==>
      exists k :: 0 <= k < |phases| && !phases[k].JObj? && forall i :: 0 <= i < k ==> phases[i].JObj? && !IsReady(phases[i])
  {
    if phases != [] {
      FirstReadyIsFirst(phases[1..]);
      assert forall i :: 1 <= i < |phases| ==> phases[i] == phases[1..][i - 1];
      if phases[0].JObj? && !IsReady(phases[0]) && FirstReady(phases).Err? {
        var k :| 0 <= k < |phases[1..]| && !phases[1..][k].JObj?
          && forall i :: 0 <= i < k ==> phases[1..][i].JObj? && !IsReady(phases[1..][i]);
        assert !phases[k + 1].JObj?;
      }
      if FirstReady(phases).Ok? && phases[0].JObj? && !IsReady(phases[0]) {
        forall k | 1 <= k < |phases| && !phases[k].JObj?
          ensures exists i :: 0 <= i < k && !(phases[i].JObj? && !IsReady(phases[i]))
        {
          assert !phases[1..][k - 1].JObj?;
          var i :| 0 <= i < k - 1 && !(phases[1..][i].JObj? && !IsReady(phases[1..][i]));
          assert phases[i + 1] == phases[1..][i];
        }
      }
    }
  }

  /** `phases[-1]["id"]`: the last item must be a dict holding an id. */
  function LastId(phases: seq<Json>): Result<Json>
    requires phases != []
  {
    if !Last(phases).JObj? then Err("TypeError")
    else match Get(Last(phases).fields, "id")
      case Some(id) => Ok(id)
      case None => Err("KeyError")
  }

  /** `move_pipeline` on the order as fetched, given whether the robot reports
      the started phase complete. A ready phase without an `"id"` raises
      KeyError. */
  function MovePipeline(order: Record, robotComplete: bool): (r: Result<Move>)
    ensures r.Ok? && r.value.status == Broken ==> r.value.failedOrder == Some(order)
  {
    var items := Iterated(GetOr(order, "phases", JList([])));
    if items.Err? then Err(items.error)
    else
      var phases := items.value;
      var ready := FirstReady(phases);
      if ready.Err? then Err(ready.error)
      else match ready.value
      case None =>
        if (forall i :: 0 <= i < |phases| ==> IsDone(phases[i])) && phases != [] then Ok(Move(Done, None, []))
        else Ok(Move(Broken, Some(order), []))
      case Some(k) =>
        match Get(phases[k].fields, "id")
        case None => Err("KeyError")
        case Some(pid) =>
          var lastId := LastId(phases);
          if lastId.Err? then Err(lastId.error)
          else
            var start := [StartPhase(pid)];
            if !robotComplete then Ok(Move(Broken, Some(order), start))
            else if pid == lastId.value then Ok(Move(Done, None, start + [CompleteOrder]))
            else Ok(Move(InProgress, None, start + [CompletePhase(pid)]))
  }

  /** The failed order is handed back exactly when the step is broken. */
  lemma MovePipelineBrokenCarriesOrder(order: Record, robotComplete: bool)
    requires MovePipeline(order, robotComplete).Ok?
    ensures var m := MovePipeline(order, robotComplete).value;
      (m.status == Broken <==> m.failedOrder.Some?) && (m.failedOrder.Some? ==> m.failedOrder.value == order)
  {
  }

  /** A step starts at most one phase, the first ready one, and reports
      progress only after completing it; without a ready phase it calls nothing. */
  lemma MovePipelineStartsFirstReady(order: Record, robotComplete: bool)
    requires MovePipeline(order, robotComplete).Ok?
    ensures var m := MovePipeline(order, robotComplete).value;
      var phases := Iterated(GetOr(order, "phases", JList([]))).value;
      && FirstReady(phases).Ok?
      && (m.actions == [] <==> FirstReady(phases).value.None?)
      && (m.actions != [] ==>
            && m.actions[0] == StartPhase(Get(phases[FirstReady(phases).value.value].fields, "id").value)
            && (forall i :: 0 <= i < FirstReady(phases).value.value ==> !IsReady(phases[i]))
            && (|m.actions| == 1 <==> !robotComplete))
      && (m.status == InProgress ==> m.actions == [m.actions[0], CompletePhase(m.actions[0].phaseId)])
  {
    FirstReadyIsFirst(Iterated(GetOr(order, "phases", JList([]))).value);
  }

  /** DONE is reported only when every phase already was done, or when the
      robot finished the ready phase and it was the last one; a phase that is
      not the last never completes the order. */
  lemma MovePipelineDone(order: Record, robotComplete: bool)
    requires MovePipeline(order, robotComplete).Ok?
    ensures var m := MovePipeline(order, robotComplete).value;
      var phases := Iterated(GetOr(order, "phases", JList([]))).value;
      m.status == Done <==>
        || (phases != [] && forall i :: 0 <= i < |phases| ==> IsDone(phases[i]))
        || (&& FirstReady(phases).Ok? && FirstReady(phases).value.Some? && robotComplete
            && Get(phases[FirstReady(phases).value.value].fields, "id") == Get(Last(phases).fields, "id"))
  {
    var phases := Iterated(GetOr(order, "phases", JList([]))).value;
    FirstReadyIsFirst(phases);
    if phases != [] && forall i :: 0 <= i < |phases| ==> IsDone(phases[i]) {
      assert forall i :: 0 <= i < |phases| ==> phases[i].JObj? && !IsReady(phases[i]) by {
        forall i | 0 <= i < |phases| ensures phases[i].JObj? && !IsReady(phases[i]) { assert IsDone(phases[i]); }
      }
    }
  }

  /** A step fails with an exception exactly when `phases` is not iterable,
      when an item the ready scan reaches is not a dict, or when the ready
      phase or the last item has no id to read. */
  lemma MovePipelineRaises(order: Record, robotComplete: bool)
    ensures var items := Iterated(GetOr(order, "phases", JList([])));
      MovePipeline(order, robotComplete).Err? <==>
        || items.Err?
        || FirstReady(items.value).Err?
        || (&& FirstReady(items.value).value.Some?
            && (|| Get(items.value[FirstReady(items.value).value.value].fields, "id").None?
                || LastId(items.value).Err?))
  {
  }

  /** An empty dict or string of phases is iterated as no phases at all: no
      phase is ready and not all are done, so the order comes back broken. */
  lemma MovePipelineNoPhases(order: Record, robotComplete: bool)
    requires GetOr(order, "phases", JList([])) in {JObj([]), JStr(""), JList([])}
    ensures MovePipeline(order, robotComplete) == Ok(Move(Broken, Some(order), []))
  {
    assert Iterated(GetOr(order, "phases", JList([]))) == Ok([]);
  }

  /** Items after the ready phase are never scanned: only the last one's id
      is read, so an item between them that is not a dict does no harm. */
  lemma MovePipelineScansUpToReady(order: Record, ready: Record, other: Json, last: Record, robotComplete: bool)
    requires GetOr(ready, "status", JNull) == JStr("ready") && Get(ready, "id").Some?
    requires Get(last, "id").Some? && Get(last, "id") != Get(ready, "id")
    requires GetOr(order, "phases", JList([])) == JList([JObj(ready), other, JObj(last)])
    ensures MovePipeline(order, robotComplete).Ok?
    ensures MovePipeline(order, robotComplete).value.actions[0] == StartPhase(Get(ready, "id").value)
  {
    var phases := [JObj(ready), other, JObj(last)];
    assert IsReady(phases[0]);
    assert FirstReady(phases) == Ok(Some(0));
  }
}

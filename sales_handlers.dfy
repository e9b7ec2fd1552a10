/** Helpers of the sales-order handlers of the chat front end
    (src/telegram_control/handlers/sales_orders.py): the production status
    shown next to each sales order, and the reading of button data and typed
    quantities. */
module SalesHandlers {
  import opened Basics
  import opened PyDict
  import opened PyStrings
  import opened ShiftCalendar
  import opened Models
  import Formatters

  /** The status of a sales order whose production order is `po` (`None`
      when no known production order has the recorded id). The order's dates
      are always present: a missing date was already replaced when the order
      was read. */
  function ProductionStatus(po: Option<ProductionOrder>, now: Instant): (r: string)
    ensures r == "completed" <==> po.Some? && now >= po.value.endsAt
    ensures r == "in_progress" <==> po.Some? && po.value.startsAt <= now < po.value.endsAt
    ensures r == "scheduled" <==> po.None? || (now < po.value.startsAt && now < po.value.endsAt)
  {
    if po.None? then "scheduled"
    else if now >= po.value.endsAt then "completed"
    else if now >= po.value.startsAt then "in_progress"
    else "scheduled"
  }

  /** For an order whose span is not inverted, the status agrees with the
      execution state shown in the order's detail. */
  lemma ProductionStatusIsExecutionState(po: ProductionOrder, now: Instant)
    requires po.startsAt <= po.endsAt
    ensures var state := Formatters.ExecutionState(po.startsAt, po.endsAt, now);
      && (ProductionStatus(Some(po), now) == "completed" <==> state == Formatters.Completed)
      && (ProductionStatus(Some(po), now) == "in_progress" <==> state == Formatters.InProgress)
      && (ProductionStatus(Some(po), now) == "scheduled" <==> state == Formatters.Pending)
  {
  }

  /** `{po.id: po for po in pos}.get(id)`: a later order with the same id
      replaces an earlier one. */
  function PoById(pos: seq<ProductionOrder>, id: string): (r: Option<ProductionOrder>)
    ensures r.Some? ==> r.value in pos && r.value.id == id
    ensures r.None? <==> forall k :: 0 <= k < |pos| ==> pos[k].id != id
  {
    if pos == [] then None
    else if Last(pos).id == id then Some(Last(pos))
    else PoById(Init(pos), id)
  }

  /** The last order with the id is the one found. */
  lemma {:induction false} PoByIdLastWins(pos: seq<ProductionOrder>, k: nat)
    requires k < |pos|
    requires forall j :: k < j < |pos| ==> pos[j].id != pos[k].id
    ensures PoById(pos, pos[k].id) == Some(pos[k])
  {
    if k < |pos| - 1 {
      PoByIdLastWins(Init(pos), k);
    }
  }

  /** The status of each sales order with a production order, in the
      order of `so_po_map`. */
  function StatusMap(soPoMap: Dict<string, string>, pos: seq<ProductionOrder>, now: Instant): Dict<string, string> {
    if soPoMap == [] then []
    else
      var entry := Last(soPoMap);
      Put(StatusMap(Init(soPoMap), pos, now), entry.0, ProductionStatus(PoById(pos, entry.1), now))
  }

  /** `_build_so_status_map`, with the production orders and the simulated
      clock given. */
  method BuildSoStatusMap(soPoMap: Dict<string, string>, pos: seq<ProductionOrder>, now: Instant)
    returns (result: Dict<string, string>)
    ensures result == StatusMap(soPoMap, pos, now)
  {
    if soPoMap == [] {
      return [];
    }
    result := [];
    for i := 0 to |soPoMap|
      invariant result == StatusMap(soPoMap[..i], pos, now)
    {
      assert Init(soPoMap[..i + 1]) == soPoMap[..i] && Last(soPoMap[..i + 1]) == soPoMap[i];
      var (soId, poId) := soPoMap[i];
      var po := PoById(pos, poId);
      var status: string;
      if po.Some? {
        if now >= po.value.endsAt {
          status := "completed";
        } else if now >= po.value.startsAt {
          status := "in_progress";
        } else {
          status := "scheduled";
        }
      } else {
        status := "scheduled";
      }
      result := Put(result, soId, status);
    }
    assert soPoMap[..|soPoMap|] == soPoMap;
  }

  /** The map has exactly the sales orders of `so_po_map`, in its order,
      and keeps them distinct. */
  lemma {:induction false} StatusMapKeys(soPoMap: Dict<string, string>, pos: seq<ProductionOrder>, now: Instant)
    requires DistinctKeys(soPoMap)
    ensures Keys(StatusMap(soPoMap, pos, now)) == Keys(soPoMap)
    ensures DistinctKeys(StatusMap(soPoMap, pos, now))
  {
    if soPoMap != [] {
      var init := Init(soPoMap);
      var entry := Last(soPoMap);
      assert soPoMap == init + [entry];
      StatusMapKeys(init, pos, now);
      var before := StatusMap(init, pos, now);
      var v := ProductionStatus(PoById(pos, entry.1), now);
      assert entry.0 !in Keys(init) by {
        forall j | 0 <= j < |init|
          ensures init[j].0 != entry.0
        {
          assert init[j] == soPoMap[j];
        }
      }
      PutKeys(before, entry.0, v);
      PutDistinct(before, entry.0, v);
      assert Keys(soPoMap) == Keys(init) + [entry.0];
    }
  }

  /** Looking up a sales order gives the status of its production order,
      and nothing for a sales order without one. */
  lemma {:induction false} StatusMapGet(soPoMap: Dict<string, string>, pos: seq<ProductionOrder>, now: Instant, soId: string)
    requires DistinctKeys(soPoMap)
    ensures Get(StatusMap(soPoMap, pos, now), soId)
         == if Get(soPoMap, soId).None? then None else Some(ProductionStatus(PoById(pos, Get(soPoMap, soId).value), now))
  {
    if soPoMap != [] {
      var init := Init(soPoMap);
      var entry := Last(soPoMap);
      assert soPoMap == init + [entry];
      assert DistinctKeys(init);
      StatusMapGet(init, pos, now, soId);
      GetPut(StatusMap(init, pos, now), entry.0, ProductionStatus(PoById(pos, entry.1), now), soId);
      GetAppend(init, entry.0, entry.1, soId);
      if soId == entry.0 {
        GetKeys(init, soId);
        assert entry.0 !in Keys(init) by {
          forall j | 0 <= j < |init|
            ensures init[j].0 != entry.0
          {
            assert init[j] == soPoMap[j];
          }
        }
      }
    }
  }

  /** `_get_so_status`. */
  function SoStatus(statusMap: Dict<string, string>, soId: string): (r: Option<string>)
    ensures r.Some? <==> soId in Keys(statusMap)
  {
    GetKeys(statusMap, soId);
    Get(statusMap, soId)
  }

  /** `_page_from_data`: the number after the last colon of the button
      data, or 0 when it is not a number. */
  function PageFromData(data: string): int {
    match PyInt(Last(Split(data, ':')))
    case Some(n) => n
    case None => 0
  }

  /** The last piece of a split is what follows the last separator. */
  lemma {:induction false} SplitLast(s: string, sep: char, tail: string)
    requires sep !in tail
    ensures |Split(s + [sep] + tail, sep)| >= 2
    ensures Last(Split(s + [sep] + tail, sep)) == tail
  {
    var t := s + [sep] + tail;
    if s == [] {
      assert t == [sep] + tail && t[1..] == tail;
      SplitNoSeparator(tail, sep);
    } else {
      assert t[1..] == s[1..] + [sep] + tail;
      SplitLast(s[1..], sep, tail);
    }
  }

  /** A string without the separator splits into itself. */
  lemma {:induction false} SplitNoSeparator(s: string, sep: char)
    requires sep !in s
    ensures Split(s, sep) == [s]
  {
    if s != [] {
      assert sep !in s[1..];
      SplitNoSeparator(s[1..], sep);
      assert [s[0]] + s[1..] == s;
    }
  }

  /** The page number a list button carries is read back; a button whose
      data ends with a colon reads as page 0. */
  lemma PageFromDataRoundTrip(prefix: string, page: nat)
    ensures PageFromData(prefix + ":" + ShowNat(page)) == page
    ensures PageFromData(prefix + ":") == 0
  {
    var digits := ShowNat(page);
    assert ':' !in digits;
    SplitLast(prefix, ':', digits);
    PyIntShowNat(page);
    SplitLast(prefix, ':', "");
    assert prefix + ":" == prefix + [':'] + "";
  }

  /** `_id_from_data`: everything after the second colon of the button
      data, colons included. */
  function IdFromData(data: string): string {
    Join(PySuffix(Split(data, ':'), 2), ':')
  }

  /** The id a detail button carries is read back whole, even when it holds
      colons itself; data with a single colon gives the empty id. */
  lemma IdFromDataRoundTrip(kind: string, action: string, id: string)
    requires ':' !in kind && ':' !in action
    ensures IdFromData(kind + ":" + action + ":" + id) == id
    ensures IdFromData(kind + ":" + action) == ""
  {
    SplitAfterPiece(action, ':', id);
    SplitAfterPiece(kind, ':', action + ":" + id);
    assert kind + ":" + action + ":" + id == kind + [':'] + (action + ":" + id);
    assert action + ":" + id == action + [':'] + id;
    var parts := Split(kind + ":" + action + ":" + id, ':');
    assert parts == [kind, action] + Split(id, ':');
    assert PySuffix(parts, 2) == Split(id, ':');
    JoinSplit(id, ':');
    SplitAfterPiece(kind, ':', action);
    SplitNoSeparator(action, ':');
    assert kind + ":" + action == kind + [':'] + action;
  }

  /** `handle_quantity_input`'s check: the stripped text must be digits
      reading as at least 1; the quantity is then their value. */
  function QuantityInput(text: string): (r: Option<int>)
    ensures r.Some? <==> AllDigits(Strip(text)) && DigitsValue(Strip(text)) >= 1
    ensures r.Some? ==> r.value == DigitsValue(Strip(text)) && r.value >= 1
  {
    var t := Strip(text);
    if !AllDigits(t) then None
    else
      PyIntDigits(t);
      var q := PyInt(t).value;
      if q < 1 then None else Some(q)
  }

  /** Every positive quantity typed as its decimal digits is accepted as
      itself, and 0 is refused. */
  lemma QuantityInputShowNat(n: nat)
    ensures QuantityInput(ShowNat(n)) == if n >= 1 then Some(n) else None
  {
    var s := ShowNat(n);
    NoSpaceNoStrip(s);
    ShowNatValue(n);
  }
}

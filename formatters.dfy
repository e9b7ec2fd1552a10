/** Text helpers of the chat front end (src/telegram_control/formatters.py):
    cutting a long message into pieces the messaging service accepts, the
    execution state of a production order, the production line of a sales
    order in the list, and the paging of order lists. */
module Formatters {
  import opened Basics
  import opened PyDict
  import opened PyStrings
  import opened ShiftCalendar

  /** `MAX_MESSAGE_LEN`: the longest text one message may carry. */
  const MaxMessageLen: nat := 4096
  /** `ORDERS_PER_PAGE`. */
  const OrdersPerPage: nat := 5

  /** Where `split_message` cuts a text that is too long. As written, the cut
      is at the last newline before the limit, or at the limit when there is
      none; a newline at index 0 gives an empty piece. The corrected rule
      treats a newline at index 0 like no newline at all. */
  datatype CutRule = AsWritten | NoEmptyPiece

  /** `text.rfind("\n", 0, MAX_MESSAGE_LEN)`, with -1 (or 0, under the
      corrected rule) replaced by the limit. */
  function CutAt(text: string, rule: CutRule): (r: nat)
    requires |text| > MaxMessageLen
    ensures r <= MaxMessageLen
    ensures r < MaxMessageLen ==> text[r] == '\n'
    ensures rule == NoEmptyPiece ==> r > 0
  {
    var c := RFindBefore(text, '\n', MaxMessageLen);
    if c == -1 || (rule == NoEmptyPiece && c == 0) then MaxMessageLen else c
  }

  /** The cut is at the last newline before the limit; when it is at the
      limit there is no newline before it (none after index 0, under the
      corrected rule). */
  lemma CutAtLastNewline(text: string, rule: CutRule)
    requires |text| > MaxMessageLen
    ensures var r := CutAt(text, rule);
      && (r < MaxMessageLen ==> forall j :: r < j < MaxMessageLen ==> text[j] != '\n')
      && (r == MaxMessageLen ==> forall j :: (if rule == AsWritten then 0 else 1) <= j < MaxMessageLen ==> text[j] != '\n')
  {
  }

  /** `text[cut:].lstrip("\n")`: what is left to send after a cut. It is
      shorter than the text, even when the cut is at index 0, because the
      newline there is stripped. */
  function Next(text: string, rule: CutRule): (r: string)
    requires |text| > MaxMessageLen
    ensures |r| <= |text| - CutAt(text, rule) && |r| < |text|
    ensures r == text[|text| - |r|..]
    ensures r == [] || r[0] != '\n'
  {
    var rest := text[CutAt(text, rule)..];
    LStripNewlinesRun(rest);
    LStripNewlines(rest)
  }

  predicate AllNewlines(s: string) {
    forall i :: 0 <= i < |s| ==> s[i] == '\n'
  }

  /** The newlines dropped after a cut. */
  function Gap(text: string, rule: CutRule): string
    requires |text| > MaxMessageLen
  {
    text[CutAt(text, rule)..|text| - |Next(text, rule)|]
  }

  /** The piece, the newlines after it and what is left make up the text. */
  lemma GapSplit(text: string, rule: CutRule)
    requires |text| > MaxMessageLen
    ensures text == text[..CutAt(text, rule)] + Gap(text, rule) + Next(text, rule)
    ensures AllNewlines(Gap(text, rule))
  {
    var cut := CutAt(text, rule);
    var rest := text[cut..];
    LStripNewlinesRun(rest);
    var m := |text| - |Next(text, rule)|;
    forall k | cut <= k < m
      ensures text[k] == '\n'
    {
      assert text[k] == rest[k - cut];
    }
    SliceThree(text, cut, m);
  }

  lemma SliceThree(s: string, i: nat, j: nat)
    requires i <= j <= |s|
    ensures s == s[..i] + s[i..j] + s[j..]
    ensures (forall k :: i <= k < j ==> s[k] == '\n') ==> AllNewlines(s[i..j])
  {
    assert s == s[..i] + s[i..];
    assert s[i..] == s[i..j] + s[j..];
  }

  /** The pieces of `text`, each with the newlines dropped after it. */
  function Pieces(text: string, rule: CutRule): seq<(string, string)>
    decreases |text|
  {
    if text == [] then []
    else if |text| <= MaxMessageLen then [(text, "")]
    else [(text[..CutAt(text, rule)], Gap(text, rule))] + Pieces(Next(text, rule), rule)
  }

  /** The messages themselves: the pieces without what is dropped after
      them. */
  function Firsts(ps: seq<(string, string)>): (r: seq<string>)
    ensures |r| == |ps|
  {
    if ps == [] then [] else [ps[0].0] + Firsts(ps[1..])
  }

  lemma {:induction false} FirstsAt(ps: seq<(string, string)>, i: nat)
    requires i < |ps|
    ensures Firsts(ps)[i] == ps[i].0
  {
    if i > 0 {
      FirstsAt(ps[1..], i - 1);
    }
  }

  function Chunks(text: string, rule: CutRule): seq<string> {
    Firsts(Pieces(text, rule))
  }

  /** `split_message`: a text within the limit is sent whole. */
  function SplitMessageSpec(text: string, rule: CutRule): seq<string> {
    if |text| <= MaxMessageLen then [text] else Chunks(text, rule)
  }

  /** One step of the cutting: the first piece, then the pieces of what is
      left once the newlines after the cut are stripped. */
  lemma ChunksStep(text: string, rule: CutRule)
    requires |text| > MaxMessageLen
    ensures Chunks(text, rule) == [text[..CutAt(text, rule)]] + Chunks(Next(text, rule), rule)
  {
    assert Pieces(text, rule)[1..] == Pieces(Next(text, rule), rule);
  }

  /** The chunks and the newlines dropped between them, put back together. */
  function Joined(ps: seq<(string, string)>): string {
    if ps == [] then "" else ps[0].0 + ps[0].1 + Joined(ps[1..])
  }

  /** Nothing is lost but newlines: the pieces with the newlines dropped
      after each give back the text. */
  lemma {:induction false} PiecesJoin(text: string, rule: CutRule)
    ensures Joined(Pieces(text, rule)) == text
    decreases |text|
  {
    if |text| > MaxMessageLen {
      var ps := Pieces(text, rule);
      GapSplit(text, rule);
      PiecesJoin(Next(text, rule), rule);
      assert ps[1..] == Pieces(Next(text, rule), rule);
    }
  }

  /** Every piece fits in one message, and only newlines are dropped
      after it. */
  predicate Fit(ps: seq<(string, string)>) {
    forall i :: 0 <= i < |ps| ==> |ps[i].0| <= MaxMessageLen && AllNewlines(ps[i].1)
  }

  lemma {:induction false} PiecesFit(text: string, rule: CutRule)
    ensures Fit(Pieces(text, rule))
    decreases |text|
  {
    if |text| > MaxMessageLen {
      GapSplit(text, rule);
      PiecesFit(Next(text, rule), rule);
      FitCons((text[..CutAt(text, rule)], Gap(text, rule)), Pieces(Next(text, rule), rule));
    }
  }

  lemma FitCons(p: (string, string), ps: seq<(string, string)>)
    requires |p.0| <= MaxMessageLen && AllNewlines(p.1) && Fit(ps)
    ensures Fit([p] + ps)
  {
    forall i | 0 < i < |[p] + ps|
      ensures |([p] + ps)[i].0| <= MaxMessageLen && AllNewlines(([p] + ps)[i].1)
    {
      assert ([p] + ps)[i] == ps[i - 1];
    }
  }

  /** Every piece holds something that does not start with a newline. */
  predicate Clean(ps: seq<(string, string)>) {
    forall i :: 0 <= i < |ps| ==> ps[i].0 != [] && ps[i].0[0] != '\n'
  }

  /** The pieces of a text that does not start with a newline all hold
      something and do not start with a newline. */
  lemma {:induction false} NotNewlineFirst(text: string, rule: CutRule)
    requires text == [] || text[0] != '\n'
    ensures Clean(Pieces(text, rule))
    decreases |text|
  {
    var ps := Pieces(text, rule);
    if |text| > MaxMessageLen {
      NotNewlineFirst(Next(text, rule), rule);
      assert CutAt(text, rule) != 0;
      assert ps[0].0[0] == text[0];
      assert ps == [ps[0]] + Pieces(Next(text, rule), rule);
    } else if text != [] {
      assert ps == [(text, "")];
    }
  }

  /** Every piece but the first holds something that does not start with
      a newline. */
  lemma PiecesClean(text: string, rule: CutRule)
    ensures Pieces(text, rule) == [] || Clean(Pieces(text, rule)[1..])
  {
    if |text| > MaxMessageLen {
      NotNewlineFirst(Next(text, rule), rule);
      assert Pieces(text, rule)[1..] == Pieces(Next(text, rule), rule);
    }
  }

  /** Under the corrected rule every piece of a text too long for one
      message holds something. */
  lemma NoEmptyPieces(text: string)
    requires |text| > MaxMessageLen
    ensures forall i :: 0 <= i < |Chunks(text, NoEmptyPiece)| ==> Chunks(text, NoEmptyPiece)[i] != ""
  {
    var ps := Pieces(text, NoEmptyPiece);
    PiecesClean(text, NoEmptyPiece);
    forall i | 0 <= i < |ps|
      ensures Chunks(text, NoEmptyPiece)[i] != ""
    {
      FirstsAt(ps, i);
      if i > 0 {
        assert ps[i] == ps[1..][i - 1];
      }
    }
  }

  /** Every message sent fits the limit, and a text within it is sent whole. */
  lemma SplitMessageFits(text: string, rule: CutRule)
    ensures |text| <= MaxMessageLen ==> SplitMessageSpec(text, rule) == [text]
    ensures forall i :: 0 <= i < |SplitMessageSpec(text, rule)| ==> |SplitMessageSpec(text, rule)[i]| <= MaxMessageLen
  {
    PiecesFit(text, rule);
    if |text| > MaxMessageLen {
      var ps := Pieces(text, rule);
      forall i | 0 <= i < |ps|
        ensures |Chunks(text, rule)[i]| <= MaxMessageLen
      {
        FirstsAt(ps, i);
      }
    }
  }

  /** As written, a long text that starts with a newline and has no other
      newline before the limit is sent as an empty message first; under the
      corrected rule it is sent as a full message. */
  lemma EmptyPieceAsWritten(text: string)
    requires |text| > MaxMessageLen && text[0] == '\n'
    requires forall j :: 0 < j < MaxMessageLen ==> text[j] != '\n'
    ensures Chunks(text, AsWritten)[0] == ""
    ensures Chunks(text, NoEmptyPiece)[0] == text[..MaxMessageLen]
  {
    var c := RFindBefore(text, '\n', MaxMessageLen);
    assert c == 0;
    FirstsAt(Pieces(text, AsWritten), 0);
    FirstsAt(Pieces(text, NoEmptyPiece), 0);
  }

  /** For instance a newline followed by 4096 letters is sent as an empty
      message and then the letters. */
  lemma EmptyPieceExample()
    ensures var text := "\n" + seq(MaxMessageLen, _ => 'a');
      Chunks(text, AsWritten)[0] == ""
  {
    var text := "\n" + seq(MaxMessageLen, _ => 'a');
    assert forall j :: 0 < j < |text| ==> text[j] == 'a';
    EmptyPieceAsWritten(text);
  }

  /** The loop of `split_message`, as written. */
  method SplitMessage(text: string) returns (parts: seq<string>)
    ensures parts == SplitMessageSpec(text, AsWritten)
  {
    if |text| <= MaxMessageLen {
      return [text];
    }
    parts := [];
    var rest := text;
    while rest != []
      invariant parts + Chunks(rest, AsWritten) == Chunks(text, AsWritten)
      decreases |rest|
    {
      if |rest| <= MaxMessageLen {
        assert Pieces(rest, AsWritten) == [(rest, "")];
        assert Chunks(rest, AsWritten) == [rest];
        parts := parts + [rest];
        break;
      }
      var cut := RFindBefore(rest, '\n', MaxMessageLen);
      if cut == -1 {
        cut := MaxMessageLen;
      }
      assert cut == CutAt(rest, AsWritten);
      ChunksStep(rest, AsWritten);
      var next := Next(rest, AsWritten);
      assert (parts + [rest[..cut]]) + Chunks(next, AsWritten) == parts + Chunks(rest, AsWritten);
      parts := parts + [rest[..cut]];
      rest := next;
    }
  }

  /** The lifecycle of a production order at a given instant. */
  datatype ExecState = Pending | InProgress | Completed {
    /** The label `_execution_state` shows. */
    function Label(): string {
      match this
      case Pending => "\U{23f3} Pending"
      case InProgress => "\U{25b6}\U{fe0f} In Progress"
      case Completed => "\U{2705} Completed"
    }

    function Rank(): nat {
      match this
      case Pending => 0
      case InProgress => 1
      case Completed => 2
    }
  }

  /** `_execution_state`: pending before the start, completed from the end
      on, in progress in between. */
  function ExecutionState(startsAt: Instant, endsAt: Instant, now: Instant): (r: ExecState)
    ensures r == Pending <==> now < startsAt
    ensures r == Completed <==> startsAt <= now && endsAt <= now
    ensures r == InProgress <==> startsAt <= now < endsAt
  {
    if now < startsAt then Pending
    else if now >= endsAt then Completed
    else InProgress
  }

  /** Time only moves an order forward: pending, then in progress, then
      completed. */
  lemma ExecutionStateMonotone(startsAt: Instant, endsAt: Instant, now: Instant, later: Instant)
    requires startsAt <= endsAt && now <= later
    ensures ExecutionState(startsAt, endsAt, now).Rank() <= ExecutionState(startsAt, endsAt, later).Rank()
  {
  }

  const CompletedLabel: string := "\U{2705} <i>Completed</i>"
  const InProgressLabel: string := "\U{25b6}\U{fe0f} <i>In progress</i>"
  const ScheduledLabel: string := "\U{1f3ed} <i>Scheduled for production</i>"
  const MissedLine: string := "     \U{274c} <i>Deadline missed</i>"

  /** `_SO_PROD_STATUS_LABEL[prod]`: a status it does not know raises. */
  function StatusLabel(prod: string): (r: Result<string>)
    ensures r.Ok? <==> prod in {"completed", "in_progress", "scheduled"}
  {
    if prod == "completed" then Ok(CompletedLabel)
    else if prod == "in_progress" then Ok(InProgressLabel)
    else if prod == "scheduled" then Ok(ScheduledLabel)
    else Err("KeyError")
  }

  /** `_so_production_line`: the label of the order's production status
      when it has one; otherwise the missed-deadline line when the deadline
      has passed; otherwise nothing. */
  function SoProductionLine(soId: string, soStatus: Dict<string, string>,
                            now: Option<Instant>, deadline: Option<Instant>): (r: Result<Option<string>>)
    ensures var prod := Get(soStatus, soId);
      && (prod.Some? && prod.value != "" ==>
            (r.Ok? <==> StatusLabel(prod.value).Ok?)
            && (r.Ok? ==> r.value == Some("     " + StatusLabel(prod.value).value)))
      && (!(prod.Some? && prod.value != "") ==>
            && r.Ok?
            && (r.value == Some(MissedLine) <==> now.Some? && deadline.Some? && deadline.value <= now.value)
            && (r.value != Some(MissedLine) ==> r.value.None?))
  {
    var prod := Get(soStatus, soId);
    if prod.Some? && prod.value != "" then
      var shown :- StatusLabel(prod.value);
      Ok(Some("     " + shown))
    else if now.Some? && deadline.Some? && deadline.value <= now.value then Ok(Some(MissedLine))
    else Ok(None)
  }

  /** `max(1, math.ceil(total / ORDERS_PER_PAGE))`. */
  function TotalPages(total: nat): (r: nat)
    ensures r >= 1
  {
    Max(1, (total + OrdersPerPage - 1) / OrdersPerPage)
  }

  function Min(a: int, b: int): int {
    if a < b then a else b
  }

  /** `orders[start : start + ORDERS_PER_PAGE]` with `start = page * ORDERS_PER_PAGE`. */
  function PageOrders<T>(orders: seq<T>, page: int): seq<T> {
    PySlice(orders, page * OrdersPerPage, page * OrdersPerPage + OrdersPerPage)
  }

  /** There are just enough pages for the orders: the last page is not
      empty, and the pages before it are full. */
  lemma TotalPagesFit(total: nat)
    ensures total > 0 ==> (TotalPages(total) - 1) * OrdersPerPage < total <= TotalPages(total) * OrdersPerPage
    ensures total == 0 ==> TotalPages(total) == 1
  {
  }

  /** A page shows at most five orders, those from `page * 5` on; the
      order at index `i` is shown on page `i / 5`, at place `i % 5`; and
      every page from 0 to the last but one is full. */
  lemma {:induction false} PageContents<T>(orders: seq<T>, page: int)
    requires page >= 0
    ensures |PageOrders(orders, page)| <= OrdersPerPage
    ensures page * OrdersPerPage <= |orders| ==>
      PageOrders(orders, page) == orders[page * OrdersPerPage..Min(page * OrdersPerPage + OrdersPerPage, |orders|)]
    ensures page * OrdersPerPage >= |orders| ==> PageOrders(orders, page) == []
    ensures page + 1 < TotalPages(|orders|) ==> |PageOrders(orders, page)| == OrdersPerPage
    ensures forall i :: 0 <= i < |PageOrders(orders, page)| ==>
      PageOrders(orders, page)[i] == orders[page * OrdersPerPage + i]
  {
  }

  /** Every order appears on its own page. */
  lemma OrderOnItsPage<T>(orders: seq<T>, i: nat)
    requires i < |orders|
    ensures i / OrdersPerPage < TotalPages(|orders|)
    ensures |PageOrders(orders, i / OrdersPerPage)| > i % OrdersPerPage
    ensures PageOrders(orders, i / OrdersPerPage)[i % OrdersPerPage] == orders[i]
  {
    PageContents(orders, i / OrdersPerPage);
  }
}

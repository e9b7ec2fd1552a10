/** Recovering from a failed production order (src/real_time/reschedule.py):
    the operator's skip-or-restart choice and the surgery on the schedule
    log. The two replanners the module imports are not part of this model;
    they are inputs: `replan(entries, t)` re-dates entries from `t`, and
    `restart(entry, t)` re-dates one order from phase 1 at `t`, returning
    its new end and entry. The clock is the input `now`. Log entries are
    of any type `E`: the surgery moves them around without looking inside. */
module Recovery {
  import opened Basics
  import opened PyStrings
  import opened ShiftCalendar

  /** The payload written to the failure file. */
  datatype FailureRecord<E> = FailureRecord(
    scheduleIndex: int,
    logEntry: E,
    failedPhaseId: string,
    failedPhaseName: string,
    failedAt: Instant)

  /** One typed answer to the prompt: "1"/"skip" and "2"/"restart", ignoring
      surrounding space and case; anything else asks again. */
  function ParseChoice(line: string): (r: Option<string>)
    ensures r.Some? ==> r.value == "skip" || r.value == "restart"
  {
    ChoiceOf(Lower(Strip(line)))
  }

  /** Reading an answer that is already stripped and lower-case. */
  function ChoiceOf(c: string): (r: Option<string>) {
    if c == "1" || c == "skip" then Some("skip")
    else if c == "2" || c == "restart" then Some("restart")
    else None
  }

  lemma StripPaddedDigit()
    ensures Strip(" 1 ") == "1"
  {
    assert " 1 "[1..] == "1 ";
    assert LStripBy("1 ", IsSpace) == "1 ";
    assert LStripBy(" 1 ", IsSpace) == "1 ";
    assert "1 "[..1] == "1";
    assert RStripBy("1", IsSpace) == "1";
  }

  lemma LowerRestart()
    ensures Lower("Restart") == "restart"
  {
    LowerChars("Restart");
    assert Lower("Restart")[0] == LowerChar('R') == 'r';
  }

  /** A padded digit is accepted. */
  lemma ParseChoicePaddedDigit()
    ensures ParseChoice(" 1 ") == Some("skip")
  {
    StripPaddedDigit();
    assert Lower("1") == "1";
  }

  /** A capitalised word is accepted. */
  lemma ParseChoiceCapitalised()
    ensures ParseChoice("Restart") == Some("restart")
  {
    NoSpaceNoStrip("Restart");
    LowerRestart();
  }

  /** An answer outside the four accepted ones is refused. */
  lemma ParseChoiceRefuses()
    ensures ParseChoice("3") == None
  {
    NoSpaceNoStrip("3");
    assert Lower("3") == "3";
  }

  /** The first line `parse` accepts, with the number of lines read up to
      it; none when the input ends first. */
  function FirstParsed(lines: seq<string>, parse: string -> Option<string>): (r: Option<(string, nat)>)
    ensures r.Some? ==> 1 <= r.value.1 <= |lines| && parse(lines[r.value.1 - 1]) == Some(r.value.0)
  {
    if lines == [] then None
    else match parse(lines[0])
      case Some(c) => Some((c, 1))
      case None =>
        match FirstParsed(lines[1..], parse)
        case Some((c, n)) => Some((c, n + 1))
        case None => None
  }

  /** The result comes from the first line that parses; every earlier line was
      rejected; none means no line parses. */
  lemma {:induction false} FirstParsedIsFirst(lines: seq<string>, parse: string -> Option<string>)
    ensures FirstParsed(lines, parse).None? <==> forall j :: 0 <= j < |lines| ==> parse(lines[j]).None?
    ensures FirstParsed(lines, parse).Some? ==>
      var (c, n) := FirstParsed(lines, parse).value;
      && parse(lines[n - 1]) == Some(c)
      && forall j :: 0 <= j < n - 1 ==> parse(lines[j]).None?
  {
    if lines != [] && parse(lines[0]).None? {
      FirstParsedIsFirst(lines[1..], parse);
      assert forall j :: 1 <= j < |lines| ==> lines[j] == lines[1..][j - 1];
    }
  }

  /** The choice the prompt loop settles on for the lines the operator types. */
  function AskChoice(lines: seq<string>): (r: Option<(string, nat)>)
    ensures r.Some? ==> r.value.0 == "skip" || r.value.0 == "restart"
  {
    FirstParsed(lines, ParseChoice)
  }

  /** The prompt loop: lines are read until `parse` accepts one. */
  method ReadUntilParsed(lines: seq<string>, parse: string -> Option<string>) returns (choice: Option<string>, read: nat)
    ensures match FirstParsed(lines, parse)
      case Some((c, n)) => choice == Some(c) && read == n
      case None => choice == None && read == |lines|
  {
    FirstParsedIsFirst(lines, parse);
    var i := 0;
    while i < |lines|
      invariant 0 <= i <= |lines|
      invariant forall j :: 0 <= j < i ==> parse(lines[j]).None?
    {
      var c := parse(lines[i]);
      if c.Some? {
        return c, i + 1;
      }
      i := i + 1;
    }
    return None, |lines|;
  }

  /** `ask_user_skip_or_restart`. A reply from `promptFn` is returned as it
      is; otherwise lines are read until one parses. `None` stands for the
      end of input, where `input()` raises. */
  method AskUserSkipOrRestart(promptReply: Option<string>, lines: seq<string>) returns (choice: Option<string>, read: nat)
    ensures promptReply.Some? ==> choice == promptReply && read == 0
    ensures promptReply.None? ==>
      match AskChoice(lines)
      case Some((c, n)) => choice == Some(c) && read == n
      case None => choice == None && read == |lines|
  {
    if promptReply.Some? {
      return promptReply, 0;
    }
    choice, read := ReadUntilParsed(lines, ParseChoice);
  }

  /** `reschedule_after_failure`: the schedule log after the order at `idx`
      failed; a choice other than "skip" or "restart" raises ValueError. */
  function RescheduleAfterFailure<E>(log: seq<E>, idx: int, failed: E, choice: string, now: Instant,
                                  replan: (seq<E>, Instant) -> seq<E>,
                                  restart: (E, Instant) -> (Instant, E)): (r: Result<seq<E>>)
    ensures r.Ok? ==> PyPrefix(log, idx) <= r.value
  {
    var before := PyPrefix(log, idx);
    var after := PySuffix(log, idx + 1);
    if choice == "skip" then
      if after == [] then Ok(before) else Ok(before + replan(after, now))
    else if choice == "restart" then
      var (endAfterFailed, updated) := restart(failed, now);
      if after == [] then Ok(before + [updated])
      else Ok(before + [updated] + replan(after, endAfterFailed))
    else Err("ValueError")
  }

  /** Only the two choices are accepted. */
  lemma RescheduleChoices<E>(log: seq<E>, idx: int, failed: E, choice: string, now: Instant,
                          replan: (seq<E>, Instant) -> seq<E>,
                          restart: (E, Instant) -> (Instant, E))
    ensures RescheduleAfterFailure(log, idx, failed, choice, now, replan, restart).Ok? <==> choice == "skip" || choice == "restart"
  {
  }

  /** Skip drops the failed entry, keeps the entries before it, and re-dates
      the later ones from `now`; with a length-preserving replanner the log
      is one shorter. */
  lemma SkipShape<E>(log: seq<E>, idx: int, failed: E, now: Instant,
                  replan: (seq<E>, Instant) -> seq<E>,
                  restart: (E, Instant) -> (Instant, E))
    requires 0 <= idx < |log|
    ensures var r := RescheduleAfterFailure(log, idx, failed, "skip", now, replan, restart).value;
      && |r| >= idx && r[..idx] == log[..idx]
      && (idx + 1 < |log| ==> r[idx..] == replan(log[idx + 1..], now))
      && (idx + 1 == |log| ==> r == log[..idx])
      && ((forall s, t :: |replan(s, t)| == |s|) ==> |r| == |log| - 1)
  {
    var r := RescheduleAfterFailure(log, idx, failed, "skip", now, replan, restart).value;
    if idx + 1 < |log| {
      assert r == log[..idx] + replan(log[idx + 1..], now);
    }
  }

  /** Restart keeps the entries before the failed one, puts the restarted
      order at the same index, and re-dates the later ones from its new end;
      with a length-preserving replanner the length is unchanged. */
  lemma RestartShape<E>(log: seq<E>, idx: int, failed: E, now: Instant,
                     replan: (seq<E>, Instant) -> seq<E>,
                     restart: (E, Instant) -> (Instant, E))
    requires 0 <= idx < |log|
    ensures var r := RescheduleAfterFailure(log, idx, failed, "restart", now, replan, restart).value;
      && |r| > idx && r[..idx] == log[..idx] && r[idx] == restart(failed, now).1
      && (idx + 1 < |log| ==> r[idx + 1..] == replan(log[idx + 1..], restart(failed, now).0))
      && ((forall s, t :: |replan(s, t)| == |s|) ==> |r| == |log|)
  {
    var r := RescheduleAfterFailure(log, idx, failed, "restart", now, replan, restart).value;
    var updated := restart(failed, now).1;
    if idx + 1 < |log| {
      assert r == log[..idx] + [updated] + replan(log[idx + 1..], restart(failed, now).0);
      assert r[idx + 1..] == replan(log[idx + 1..], restart(failed, now).0);
    } else {
      assert r == log[..idx] + [updated];
    }
  }
}

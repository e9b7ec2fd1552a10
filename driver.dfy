/** The real-time driver loop of src/main.py (lines 96-144): the schedule
    log is worked through by index; each order is advanced by repeated
    pipeline steps until it is done or breaks; a broken order is recorded,
    the operator chooses skip or restart, and the log is replaced by the
    rescheduled one (`reschedule_after_failure`).
    The factory, the operator and the clock are inputs: `outcomes` are the
    statuses successive pipeline steps report, `lines` what the operator
    types, `ask` how an answer is read from those lines (main.py uses
    `ask_user_skip_or_restart`, that is `Recovery.AskChoice`), `clock(n)`
    the n-th reading of the clock (the k-th failure reads it twice: at
    `2*k` when the record is saved, at `2*k+1` once the operator has
    answered), `replan` and `restart` the re-dating of the orders after a
    failure. The run ends when the log is worked
    through, when the outcomes run out, or when the input ends at a prompt
    (where `input()` raises). Log entries are of any type `E`: the loop
    never looks inside them.
    The loop is stated for any handler of the BROKEN branch that behaves
    as main.py's does (`ValidHandler`); `MainHandler` is main.py's own. */
module Driver {
  import opened Basics
  import opened ShiftCalendar
  import opened Pipeline
  import opened Recovery

  /** The loop's variables: the log, the index, the two counters, the
      operator input still unread and the failure records saved so far. */
  datatype Run<E> = Run(log: seq<E>, i: nat, errors: nat, correct: nat, input: seq<string>, failures: seq<FailureRecord<E>>)

  datatype Stop = Finished | OutOfOutcomes | InputEnded

  /** Where a run ended: its last state, why it stopped, and how many
      outcomes had been read by then. */
  datatype Final<E> = Final(run: Run<E>, stop: Stop, read: nat)

  /** How an answer is read from the operator's lines: the choice made and
      how many lines it took, or nothing when the input ends first. */
  type Ask = seq<string> -> Option<(string, nat)>

  /** A reader that only ever answers "skip" or "restart", after reading at
      least one and at most all of the lines. */
  ghost predicate ValidAsk(ask: Ask) {
    forall lines :: ask(lines).Some? ==>
      && (ask(lines).value.0 == "skip" || ask(lines).value.0 == "restart")
      && 1 <= ask(lines).value.1 <= |lines|
  }

  /** The prompt of src/real_time/reschedule.py is such a reader. */
  lemma AskChoiceValid()
    ensures ValidAsk(AskChoice)
  {
  }

  /** The BROKEN branch of the inner loop (main.py lines 107-134): count the
      error, save the failure record with the placeholder phase, stamped
      with the clock read before the prompt, ask the operator, and replace
      the log by the one rescheduled from a second reading taken after the
      answer; the loop goes on unless the input ends at the prompt. */
  function HandleBroken<E>(st: Run<E>, ask: Ask, clock: nat -> Instant,
                           replan: (seq<E>, Instant) -> seq<E>,
                           restart: (E, Instant) -> (Instant, E)): (r: (Run<E>, bool))
    requires st.i < |st.log| && ValidAsk(ask)
    ensures r.0.i == st.i && r.0.correct == st.correct && r.0.errors == st.errors + 1
    ensures r.0.failures == st.failures + [FailureRecord(st.i, st.log[st.i], "unknown", "Unknown Phase", clock(2 * st.errors))]
    ensures r.0.i <= |r.0.log| && r.0.log[..st.i] == st.log[..st.i]
    ensures !r.1 <==> ask(st.input).None?
    ensures !r.1 ==> r.0.log == st.log && r.0.input == st.input
    ensures r.1 ==> Ok(r.0.log) == RescheduleAfterFailure(st.log, st.i, st.log[st.i], ask(st.input).value.0,
                                                          clock(2 * st.errors + 1), replan, restart)
  {
    var failedAt := clock(2 * st.errors);
    var failed := st.log[st.i];
    var recorded := st.(errors := st.errors + 1,
                        failures := st.failures + [FailureRecord(st.i, failed, "unknown", "Unknown Phase", failedAt)]);
    match ask(st.input)
    case None => (recorded, false)
    case Some((choice, read)) =>
      var now := clock(2 * st.errors + 1);
      RescheduleChoices(st.log, st.i, failed, choice, now, replan, restart);
      var newLog := RescheduleAfterFailure(st.log, st.i, failed, choice, now, replan, restart).value;
      assert newLog[..st.i] == st.log[..st.i] && st.i <= |newLog| by {
        if choice == "skip" {
          SkipShape(st.log, st.i, failed, now, replan, restart);
        } else {
          RestartShape(st.log, st.i, failed, now, replan, restart);
        }
      }
      (recorded.(log := newLog, input := st.input[read..]), true)
  }

  /** A handler of the BROKEN branch, for a state whose index is in the log. */
  type Handler<!E> = Run<E> --> (Run<E>, bool)

  /** main.py's handler. */
  function MainHandler<E>(ask: Ask, clock: nat -> Instant,
                          replan: (seq<E>, Instant) -> seq<E>,
                          restart: (E, Instant) -> (Instant, E)): Handler<E>
    requires ValidAsk(ask)
  {
    (st: Run<E>) requires st.i < |st.log| => HandleBroken(st, ask, clock, replan, restart)
  }

  /** What the loop relies on: the handler counts one error and one failure
      record, leaves the index and the correct count alone, keeps the index
      within the log, and stops only with the order still in the log. */
  ghost predicate ValidHandler<E(!new)>(onBroken: Handler<E>) {
    forall st: Run<E> | st.i < |st.log| ::
      && onBroken.requires(st)
      && onBroken(st).0.i == st.i
      && onBroken(st).0.correct == st.correct
      && onBroken(st).0.errors == st.errors + 1
      && |onBroken(st).0.failures| == |st.failures| + 1
      && onBroken(st).0.i <= |onBroken(st).0.log|
      && (!onBroken(st).1 ==> onBroken(st).0.i < |onBroken(st).0.log|)
  }

  /** main.py's handler behaves so. */
  lemma MainHandlerValid<E(!new)>(ask: Ask, clock: nat -> Instant,
                            replan: (seq<E>, Instant) -> seq<E>,
                            restart: (E, Instant) -> (Instant, E))
    requires ValidAsk(ask)
    ensures ValidHandler(MainHandler(ask, clock, replan, restart))
  {
  }

  /** The effect of one pipeline outcome on the order at index `i`, and
      whether the run goes on. */
  function Step<E(!new)>(st: Run<E>, o: PipelineStatus, onBroken: Handler<E>): (Run<E>, bool)
    requires st.i < |st.log| && ValidHandler(onBroken)
  {
    match o
    case InProgress => (st, true)
    case Done => (st.(i := st.i + 1, correct := st.correct + 1), true)
    case Broken => onBroken(st)
  }

  /** The loop from state `st`, reading the outcomes from position `k` on. */
  function Drive<E(!new)>(st: Run<E>, os: seq<PipelineStatus>, k: nat, onBroken: Handler<E>): (r: Final<E>)
    requires k <= |os| && ValidHandler(onBroken)
    ensures k <= r.read <= |os|
    decreases |os| - k
  {
    if st.i >= |st.log| then Final(st, Finished, k)
    else if k == |os| then Final(st, OutOfOutcomes, k)
    else
      var r := Step(st, os[k], onBroken);
      if !r.1 then Final(r.0, InputEnded, k + 1)
      else Drive(r.0, os, k + 1, onBroken)
  }

  predicate IsDoneOutcome(o: PipelineStatus) { o == Done }

  predicate IsBrokenOutcome(o: PipelineStatus) { o == Broken }

  lemma CountFrom(os: seq<PipelineStatus>, k: nat, n: nat, p: PipelineStatus -> bool)
    requires k < n <= |os|
    ensures Count(os[k..n], p) == (if p(os[k]) then 1 else 0) + Count(os[k + 1..n], p)
  {
    assert os[k..n] == [os[k]] + os[k + 1..n];
    FilterAppend([os[k]], os[k + 1..n], p);
  }

  /** Over a run: the outcomes read are counted exactly (DONE as correct,
      BROKEN as errors, one failure record each); the index advances once per
      DONE, so it always equals the number of orders completed; and it never
      passes the end of the log. */
  lemma {:induction false} DriveCounts<E(!new)>(st: Run<E>, os: seq<PipelineStatus>, k: nat, onBroken: Handler<E>)
    requires st.i <= |st.log| && k <= |os| && ValidHandler(onBroken)
    ensures var f := Drive(st, os, k, onBroken);
      && k <= f.read <= |os|
      && f.run.correct == st.correct + Count(os[k..f.read], IsDoneOutcome)
      && f.run.errors == st.errors + Count(os[k..f.read], IsBrokenOutcome)
      && |f.run.failures| == |st.failures| + Count(os[k..f.read], IsBrokenOutcome)
      && f.run.i == st.i + Count(os[k..f.read], IsDoneOutcome)
      && f.run.i <= |f.run.log|
    decreases |os| - k
  {
    var f := Drive(st, os, k, onBroken);
    if st.i < |st.log| && k < |os| {
      var r := Step(st, os[k], onBroken);
      if r.1 {
        DriveCounts(r.0, os, k + 1, onBroken);
      } else {
        assert os[k + 1..f.read] == [];
      }
      CountFrom(os, k, f.read, IsDoneOutcome);
      CountFrom(os, k, f.read, IsBrokenOutcome);
    }
  }

  /** The run stops only at the end of the log, at the end of the outcomes,
      or right after a BROKEN outcome whose prompt the input cannot answer. */
  lemma {:induction false} DriveStops<E(!new)>(st: Run<E>, os: seq<PipelineStatus>, k: nat, onBroken: Handler<E>)
    requires st.i <= |st.log| && k <= |os| && ValidHandler(onBroken)
    ensures var f := Drive(st, os, k, onBroken);
      && (f.stop == Finished <==> f.run.i == |f.run.log|)
      && (f.stop == OutOfOutcomes ==> f.read == |os|)
      && (f.stop == InputEnded ==> k < f.read <= |os| && os[f.read - 1] == Broken)
    decreases |os| - k
  {
    if st.i < |st.log| && k < |os| {
      var r := Step(st, os[k], onBroken);
      if r.1 {
        DriveStops(r.0, os, k + 1, onBroken);
      }
    }
  }

  function Initial<E>(log: seq<E>, lines: seq<string>): Run<E> {
    Run(log, 0, 0, 0, lines, [])
  }

  /** From the start: `correct` equals the index and counts the DONE
      outcomes, `errors` counts the BROKEN ones and the failure records; a
      finished run has gone through every order of the final log. */
  lemma RealTimeCounts<E(!new)>(log: seq<E>, lines: seq<string>, os: seq<PipelineStatus>, onBroken: Handler<E>)
    requires ValidHandler(onBroken)
    ensures var f := Drive(Initial(log, lines), os, 0, onBroken);
      && f.read <= |os|
      && f.run.correct == f.run.i == Count(os[..f.read], IsDoneOutcome)
      && f.run.errors == |f.run.failures| == Count(os[..f.read], IsBrokenOutcome)
      && f.run.i <= |f.run.log|
      && (f.stop == Finished ==> f.run.i == |f.run.log|)
  {
    var f := Drive(Initial(log, lines), os, 0, onBroken);
    DriveCounts(Initial(log, lines), os, 0, onBroken);
    DriveStops(Initial(log, lines), os, 0, onBroken);
    assert os[0..f.read] == os[..f.read];
  }

  /** The inner loop: pipeline steps on the order at index `i`, reading
      outcomes from `k` on, until it is done or breaks (the run goes on from
      `st'` and `k'`), or until the outcomes or the input run out (`stop`). */
  method AdvanceOrder<E(!new)>(st: Run<E>, outcomes: seq<PipelineStatus>, k: nat, onBroken: Handler<E>)
    returns (st': Run<E>, k': nat, stop: Option<Stop>)
    requires st.i < |st.log| && k <= |outcomes| && ValidHandler(onBroken)
    ensures k' <= |outcomes|
    ensures stop.None? ==> k' > k && Drive(st, outcomes, k, onBroken) == Drive(st', outcomes, k', onBroken)
    ensures stop.Some? ==> Drive(st, outcomes, k, onBroken) == Final(st', stop.value, k')
  {
    st', k' := st, k;
    var status := InProgress;
    while status == InProgress
      invariant k <= k' <= |outcomes| && st'.i < |st'.log| && (status != InProgress ==> k' > k)
      invariant status != Broken
      invariant status == InProgress ==> Drive(st, outcomes, k, onBroken) == Drive(st', outcomes, k', onBroken)
      invariant status == Done ==> Drive(st, outcomes, k, onBroken) == Drive(st'.(i := st'.i + 1), outcomes, k', onBroken)
      decreases |outcomes| - k'
    {
      if k' == |outcomes| {
        return st', k', Some(OutOfOutcomes);
      }
      status := outcomes[k'];
      k' := k' + 1;
      if status == Broken {
        var r := onBroken(st');
        st' := r.0;
        if !r.1 {
          return st', k', Some(InputEnded);
        }
        return st', k', None;
      }
      if status == Done {
        st' := st'.(correct := st'.correct + 1);
      }
    }
    st' := st'.(i := st'.i + 1);
    stop := None;
  }

  /** The loop as written: an outer loop over the index and an inner loop of
      pipeline steps on one order. */
  method RealTime<E(!new)>(log: seq<E>, lines: seq<string>, outcomes: seq<PipelineStatus>, onBroken: Handler<E>)
    returns (f: Final<E>)
    requires ValidHandler(onBroken)
    ensures f == Drive(Initial(log, lines), outcomes, 0, onBroken)
  {
    var st := Initial(log, lines);
    var k := 0;
    while st.i < |st.log|
      invariant k <= |outcomes|
      invariant Drive(Initial(log, lines), outcomes, 0, onBroken) == Drive(st, outcomes, k, onBroken)
      decreases |outcomes| - k
    {
      var stop;
      st, k, stop := AdvanceOrder(st, outcomes, k, onBroken);
      if stop.Some? {
        return Final(st, stop.value, k);
      }
    }
    f := Final(st, Finished, k);
  }

  /** main.py as a whole, with its own failure handling: the counters it
      prints at the end are the DONE and BROKEN outcomes it read, one failure
      record is saved per error, and a run that finishes has completed every
      order of the final log. */
  lemma MainCounts<E(!new)>(log: seq<E>, lines: seq<string>, os: seq<PipelineStatus>, ask: Ask, clock: nat -> Instant,
                      replan: (seq<E>, Instant) -> seq<E>,
                      restart: (E, Instant) -> (Instant, E))
    requires ValidAsk(ask)
    ensures ValidHandler(MainHandler(ask, clock, replan, restart))
    ensures var f := Drive(Initial(log, lines), os, 0, MainHandler(ask, clock, replan, restart));
      && f.read <= |os|
      && f.run.correct == f.run.i == Count(os[..f.read], IsDoneOutcome)
      && f.run.errors == |f.run.failures| == Count(os[..f.read], IsBrokenOutcome)
      && (f.stop == Finished ==> f.run.i == |f.run.log|)
  {
    MainHandlerValid(ask, clock, replan, restart);
    RealTimeCounts(log, lines, os, MainHandler(ask, clock, replan, restart));
  }
}

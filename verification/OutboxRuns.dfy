/** Runs in which retries and dismissals of one dead-letter row overlap, and its event is handled twice. */
module OutboxRuns {
  import opened Domain
  import opened Outbox
  import opened OutboxProtocol

  predicate Reaches(steps: seq<Step>, b: Box) {
    After(steps) == Some(b)
  }

  lemma Then(steps: seq<Step>, b: Box, step: Step, b': Box)
    requires Reaches(steps, b) && Enabled(b, step) && Fire(b, step) == b'
    ensures Reaches(steps + [step], b')
  {
    RunsOn(steps, step);
  }

  /** A table of one row, nothing enqueued or dismissed, and the processor as given. */
  function OneRow(row: Row, proc: Proc): Box {
    Box([row], multiset{}, multiset{}, map[], {}, map[], {}, proc)
  }

  /** The processor at the row, which it fetched with k attempts. */
  function At(event: Event, k: nat, phase: Phase): Proc {
    Polling([Row(event, PENDING, k)], [0], 0, phase, [])
  }

  lemma OneRowBatch(row: Row)
    requires row.status == PENDING
    ensures Batch([row]) == [0]
  {
    assert PendingFrom([row], 1, BATCH - 1) == [];
  }

  /** A poll that the queue refuses, up to the settling of its entry. */
  function Refusal(steps: seq<Step>): seq<Step> {
    steps + [Tick] + [Mark] + [Push(false)]
  }

  lemma RefusalRuns(steps: seq<Step>, event: Event, k: nat)
    requires Reaches(steps, OneRow(Row(event, PENDING, k), Idle))
    ensures Reaches(Refusal(steps), OneRow(Row(event, PROCESSING, k + 1), At(event, k, OutboxProtocol.Refused)))
  {
    hide After, Reaches;
    var pending, marked := Row(event, PENDING, k), Row(event, PROCESSING, k + 1);
    OneRowBatch(pending);
    Then(steps, OneRow(pending, Idle), Tick, OneRow(pending, At(event, k, Ready)));
    Then(steps + [Tick], OneRow(pending, At(event, k, Ready)), Mark, OneRow(marked, At(event, k, Marked)));
    Then(steps + [Tick] + [Mark], OneRow(marked, At(event, k, Marked)), Push(false),
         OneRow(marked, At(event, k, OutboxProtocol.Refused)));
  }

  /** Below five attempts the row returns to pending. */
  lemma RetryLater(steps: seq<Step>, event: Event, k: nat)
    requires k < 4 && Reaches(steps, OneRow(Row(event, PENDING, k), Idle))
    ensures Reaches(Refusal(steps) + [Settle] + [Finish], OneRow(Row(event, PENDING, k + 1), Idle))
  {
    hide After, Reaches;
    RefusalRuns(steps, event, k);
    var settled := Polling([Row(event, PENDING, k)], [0], 1, Ready, [false]);
    assert NextEntry(At(event, k, OutboxProtocol.Refused), false) == settled;
    assert [Row(event, PROCESSING, k + 1)][0 := Row(event, PENDING, k + 1)] == [Row(event, PENDING, k + 1)];
    Then(Refusal(steps), OneRow(Row(event, PROCESSING, k + 1), At(event, k, OutboxProtocol.Refused)), Settle,
         OneRow(Row(event, PENDING, k + 1), settled));
    Then(Refusal(steps) + [Settle], OneRow(Row(event, PENDING, k + 1), settled), Finish, OneRow(Row(event, PENDING, k + 1), Idle));
  }

  /** The first n polls of the event, all refused. */
  function Refusals(event: Event, n: nat): seq<Step> {
    if n == 0 then [Emit(event)] else Refusal(Refusals(event, n - 1)) + [Settle] + [Finish]
  }

  lemma {:induction false} RefusalsRun(event: Event, n: nat)
    requires n <= 4
    ensures Reaches(Refusals(event, n), OneRow(Row(event, PENDING, n), Idle))
  {
    if n == 0 {
      Then([], Start(), Emit(event), OneRow(NewRow(event), Idle));
      assert [] + [Emit(event)] == [Emit(event)];
    } else {
      RefusalsRun(event, n - 1);
      RetryLater(Refusals(event, n - 1), event, n - 1);
    }
  }

  /** The fifth refusal moves the event to the dead-letter table. */
  function Burial(event: Event): seq<Step> {
    Refusal(Refusals(event, 4)) + [Settle] + [Bury(1)] + [Finish]
  }

  function Buried(event: Event): Box {
    Box([Row(event, FAILED, 5)], multiset{}, multiset{}, map[1 := Failure(0, 5)], {1}, map[], {}, Idle)
  }

  lemma BurialRuns(event: Event)
    ensures Reaches(Burial(event), Buried(event))
  {
    hide After, Reaches, Refusals;
    RefusalsRun(event, 4);
    RefusalRuns(Refusals(event, 4), event, 4);
    var p := Refusal(Refusals(event, 4));
    var failed := Row(event, FAILED, 5);
    var settled := Buried(event).(proc := Polling([Row(event, PENDING, 4)], [0], 1, Ready, [false]));
    assert NextEntry(At(event, 4, Burying), false) == settled.proc;
    Then(p, OneRow(Row(event, PROCESSING, 5), At(event, 4, OutboxProtocol.Refused)), Settle, OneRow(failed, At(event, 4, Burying)));
    Then(p + [Settle], OneRow(failed, At(event, 4, Burying)), Bury(1), settled);
    Then(p + [Settle] + [Bury(1)], settled, Finish, Buried(event));
  }

  // ---------- overlaps ----------

  /** A retry, or two of them, that have read the row. */
  function Reading(event: Event, copies: map<nat, Copy>): Box {
    Buried(event).(copies := copies)
  }

  function TheCopy(): Copy { Copy(1, Failure(0, 5)) }

  function OneReader(event: Event): seq<Step> { Burial(event) + [RetryFind(1, 1)] }

  function TwoReaders(event: Event): seq<Step> { OneReader(event) + [RetryFind(2, 1)] }

  lemma OneReaderRuns(event: Event)
    ensures Reaches(OneReader(event), Reading(event, map[1 := TheCopy()]))
  {
    hide After, Reaches, Burial;
    BurialRuns(event);
    Then(Burial(event), Buried(event), RetryFind(1, 1), Reading(event, map[1 := TheCopy()]));
  }

  lemma TwoReadersRun(event: Event)
    ensures Reaches(TwoReaders(event), Reading(event, map[1 := TheCopy(), 2 := TheCopy()]))
  {
    hide After, Reaches, Burial;
    OneReaderRuns(event);
    Then(OneReader(event), Reading(event, map[1 := TheCopy()]), RetryFind(2, 1), Reading(event, map[1 := TheCopy(), 2 := TheCopy()]));
  }

  /** Two retries overlap: five refused polls, and the event is enqueued twice. */
  lemma OverlappingRetriesDuplicate(event: Event)
    ensures var end := After(TwoReaders(event) + [RetryPush(1, true)] + [RetryPush(2, true)] + [RetryDelete(1)]);
            end.Some? && end.value.enqueued[0] == 2 && end.value.dismissed[0] == 0 && end.value.dlq == map[]
  {
    hide After, Burial;
    TwoReadersRun(event);
    var p := TwoReaders(event);
    var b := Reading(event, map[1 := TheCopy(), 2 := TheCopy()]);
    var once := b.(enqueued := multiset{0}, retrying := {1}, copies := map[2 := TheCopy()]);
    var twice := b.(enqueued := multiset{0, 0}, retrying := {1}, copies := map[]);
    Then(p, b, RetryPush(1, true), once);
    Then(p + [RetryPush(1, true)], once, RetryPush(2, true), twice);
    Then(p + [RetryPush(1, true)] + [RetryPush(2, true)], twice, RetryDelete(1), twice.(dlq := map[], retrying := {}));
  }

  /** The second retry has only read the row when the first one enqueues and deletes it; no retry is half done when the
      second enqueues its copy. */
  lemma StaleRetryDuplicates(event: Event)
    ensures var end := After(TwoReaders(event) + [RetryPush(1, true)] + [RetryDelete(1)] + [RetryPush(2, true)]);
            end.Some? && end.value.enqueued[0] == 2 && end.value.dismissed[0] == 0 && end.value.dlq == map[]
  {
    hide After, Burial;
    TwoReadersRun(event);
    var p := TwoReaders(event);
    var b := Reading(event, map[1 := TheCopy(), 2 := TheCopy()]);
    var once := b.(enqueued := multiset{0}, retrying := {1}, copies := map[2 := TheCopy()]);
    var gone := once.(dlq := map[], retrying := {});
    Then(p, b, RetryPush(1, true), once);
    Then(p + [RetryPush(1, true)], once, RetryDelete(1), gone);
    Then(p + [RetryPush(1, true)] + [RetryDelete(1)], gone, RetryPush(2, true),
         gone.(enqueued := multiset{0, 0}, retrying := {1}, copies := map[]));
  }

  /** A dismissal falls between the push and the delete of a retry: the event is dismissed, and enqueued all the same. */
  lemma OverlappingDismissalEnqueues(event: Event)
    ensures var end := After(OneReader(event) + [RetryPush(1, true)] + [Dismiss(1)]);
            end.Some? && end.value.enqueued[0] == 1 && end.value.dismissed[0] == 1 && end.value.dlq == map[]
  {
    hide After, Burial;
    OneReaderRuns(event);
    var p := OneReader(event);
    var b := Reading(event, map[1 := TheCopy()]);
    var once := b.(enqueued := multiset{0}, retrying := {1}, copies := map[]);
    Then(p, b, RetryPush(1, true), once);
    Then(p + [RetryPush(1, true)], once, Dismiss(1), once.(dlq := map[], dismissed := multiset{0}));
  }

  /** A dismissal falls between the read and the push of a retry, with the same outcome. */
  lemma DismissedCopyIsEnqueued(event: Event)
    ensures var end := After(OneReader(event) + [Dismiss(1)] + [RetryPush(1, true)]);
            end.Some? && end.value.enqueued[0] == 1 && end.value.dismissed[0] == 1 && end.value.dlq == map[]
  {
    hide After, Burial;
    OneReaderRuns(event);
    var p := OneReader(event);
    var b := Reading(event, map[1 := TheCopy()]);
    var gone := b.(dlq := map[], dismissed := multiset{0});
    Then(p, b, Dismiss(1), gone);
    Then(p + [Dismiss(1)], gone, RetryPush(1, true), gone.(enqueued := multiset{0}, retrying := {1}, copies := map[]));
  }
}

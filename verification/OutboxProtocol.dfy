/** The outbox at the grain of single statements: polls, new events, retries and dismissals interleaved. */
module OutboxProtocol {
  import opened Domain
  import opened Outbox

  type FailureId = nat

  /** Where the processor is with the current entry of its batch. */
  datatype Phase = Ready | Marked | Pushed | Refused | Burying

  /** `start` is what findMany saw, `oks` the outcomes for the entries done so far. */
  datatype Proc = Idle | Polling(start: seq<Row>, batch: seq<nat>, done: nat, phase: Phase, oks: seq<bool>)

  /** A dead-letter row as a retry has read it. */
  datatype Copy = Copy(id: FailureId, failure: Failure)

  /** The outbox table; the jobs ever enqueued and the events ever dismissed, by row; the dead-letter table, and the ids
      ever used in it; the copies held by retries that have read their row and not yet enqueued it; the rows that some
      retry has enqueued and not yet deleted; and the processor. */
  datatype Box = Box(rows: seq<Row>, enqueued: multiset<nat>, dismissed: multiset<nat>, dlq: map<FailureId, Failure>,
                     buried: set<FailureId>, copies: map<nat, Copy>, retrying: set<FailureId>, proc: Proc)

  datatype Step =
    | Emit(event: Event)                    // a ledger operation commits
    | Tick                                  // the cron job fires
    | Mark
    | Push(ok: bool)                        // queue.add
    | Settle
    | Bury(id: FailureId)                   // webhookFailure.create
    | Finish
    | RetryFind(r: nat, id: FailureId)      // webhookFailure.findUnique of manual retry r
    | RetryPush(r: nat, ok: bool)           // its queue.add
    | RetryDelete(id: FailureId)            // webhookFailure.delete of a retry that enqueued the row
    | Dismiss(id: FailureId)                // webhookFailure.delete of a dismissal

  predicate Busy(b: Box) {
    b.proc.Polling? && b.proc.done < |b.proc.batch| && b.proc.batch[b.proc.done] < |b.rows|
    && b.proc.batch[b.proc.done] < |b.proc.start|
  }

  /** The row being processed. */
  function Current(b: Box): nat
    requires Busy(b)
  {
    b.proc.batch[b.proc.done]
  }

  predicate Enabled(b: Box, step: Step) {
    match step
    case Emit(_) => true
    case Tick => true
    case Mark => Busy(b) && b.proc.phase == Ready
    case Push(_) => Busy(b) && b.proc.phase == Marked
    case Settle => Busy(b) && (b.proc.phase == Pushed || b.proc.phase == Refused)
    case Bury(id) => Busy(b) && b.proc.phase == Burying && id !in b.buried
    case Finish => b.proc.Polling? && b.proc.done == |b.proc.batch|
    case RetryFind(r, id) => r !in b.copies && id in b.dlq
    case RetryPush(r, _) => r in b.copies
    case RetryDelete(id) => id in b.retrying
    case Dismiss(id) => id in b.buried
  }

  function SetStatus(rows: seq<Row>, i: nat, status: Status): seq<Row>
    requires i < |rows|
  {
    rows[i := rows[i].(status := status)]
  }

  function NextEntry(p: Proc, ok: bool): Proc
    requires p.Polling?
  {
    p.(done := p.done + 1, phase := Ready, oks := p.oks + [ok])
  }

  function Fire(b: Box, step: Step): Box
    requires Enabled(b, step)
  {
    match step
    case Emit(event) => b.(rows := b.rows + [NewRow(event)])
    case Tick =>
      if b.proc.Polling? || Batch(b.rows) == [] then b
      else b.(proc := Polling(b.rows, Batch(b.rows), 0, Ready, []))
    case Mark =>
      var row := b.rows[Current(b)];
      b.(rows := b.rows[Current(b) := row.(status := PROCESSING, attempts := row.attempts + 1)], proc := b.proc.(phase := Marked))
    case Push(ok) =>
      if ok then b.(enqueued := b.enqueued + multiset{Current(b)}, proc := b.proc.(phase := Pushed))
      else b.(proc := b.proc.(phase := Refused))
    case Settle =>
      if b.proc.phase == Pushed then b.(rows := SetStatus(b.rows, Current(b), COMPLETED), proc := NextEntry(b.proc, true))
      else if b.proc.start[Current(b)].attempts + 1 >= MAX_ATTEMPTS
      then b.(rows := SetStatus(b.rows, Current(b), FAILED), proc := b.proc.(phase := Burying))
      else b.(rows := SetStatus(b.rows, Current(b), PENDING), proc := NextEntry(b.proc, false))
    case Bury(id) =>
      b.(dlq := b.dlq[id := Failure(Current(b), b.proc.start[Current(b)].attempts + 1)], buried := b.buried + {id},
           proc := NextEntry(b.proc, false))
    case Finish => b.(proc := Idle)
    case RetryFind(r, id) => b.(copies := b.copies[r := Copy(id, b.dlq[id])])
    case RetryPush(r, ok) =>
      var c := b.copies[r];
      if ok then b.(enqueued := b.enqueued + multiset{c.failure.row}, retrying := b.retrying + {c.id}, copies := b.copies - {r})
      else b.(copies := b.copies - {r})
    case RetryDelete(id) => b.(dlq := b.dlq - {id}, retrying := b.retrying - {id})
    case Dismiss(id) =>
      if id in b.dlq then b.(dlq := b.dlq - {id}, dismissed := b.dismissed + multiset{b.dlq[id].row})
      else b
  }

  /** A retry enqueues its copy only while the row is still there and nobody is in the middle of retrying it, and a row in
      the middle of its retry is not dismissed. */
  predicate Apart(b: Box, step: Step) {
    match step
    case RetryPush(r, ok) => ok && r in b.copies ==> b.copies[r].id in b.dlq && b.copies[r].id !in b.retrying
    case Dismiss(id) => id in b.dlq ==> id !in b.retrying
    case _ => true
  }

  function Start(): Box {
    Box([], multiset{}, multiset{}, map[], {}, map[], {}, Idle)
  }

  /** The state after a run, if every step was possible when taken. */
  function After(steps: seq<Step>): Option<Box> {
    if steps == [] then Some(Start())
    else
      match After(steps[..|steps| - 1])
      case None => None
      case Some(b) =>
        var step := steps[|steps| - 1];
        if Enabled(b, step) then Some(Fire(b, step)) else None
  }

  /** Every step of the run met that condition. */
  predicate RunApart(steps: seq<Step>)
    requires After(steps).Some?
  {
    steps != [] ==> RunApart(steps[..|steps| - 1]) && Apart(After(steps[..|steps| - 1]).value, steps[|steps| - 1])
  }

  // ---------- the invariant ----------

  ghost predicate Dead(b: Box, i: nat) {
    exists id :: id in b.dlq && b.dlq[id].row == i
  }

  ghost predicate DeadAndRetrying(b: Box, i: nat) {
    exists id :: id in b.dlq && id in b.retrying && b.dlq[id].row == i
  }

  predicate IsCurrent(b: Box, i: nat) {
    Busy(b) && Current(b) == i
  }

  /** What the status of row i says about its attempts and the dead-letter table. */
  ghost predicate RowCore(b: Box, i: nat) {
    if i >= |b.rows| then !Dead(b, i)
    else match b.rows[i].status
      case PENDING => b.rows[i].attempts < MAX_ATTEMPTS && !Dead(b, i)
      case PROCESSING =>
        && IsCurrent(b, i) && (b.proc.phase == Marked || b.proc.phase == Pushed || b.proc.phase == Refused) && !Dead(b, i)
      case COMPLETED => !Dead(b, i)
      case FAILED => b.rows[i].attempts == MAX_ATTEMPTS && (IsCurrent(b, i) && b.proc.phase == Burying ==> !Dead(b, i))
  }

  /** How often the event of row i was enqueued and dismissed, by the status of the row. */
  ghost predicate Placed(b: Box, i: nat) {
    if i >= |b.rows| then b.enqueued[i] == b.dismissed[i] == 0
    else match b.rows[i].status
      case PENDING => b.enqueued[i] == b.dismissed[i] == 0
      case PROCESSING => b.enqueued[i] == (if b.proc.Polling? && b.proc.phase == Pushed then 1 else 0) && b.dismissed[i] == 0
      case COMPLETED => b.enqueued[i] == 1 && b.dismissed[i] == 0
      case FAILED =>
        if IsCurrent(b, i) && b.proc.phase == Burying then b.enqueued[i] == b.dismissed[i] == 0
        else if Dead(b, i) then b.dismissed[i] == 0 && b.enqueued[i] == if DeadAndRetrying(b, i) then 1 else 0
        else b.enqueued[i] + b.dismissed[i] == 1
  }

  ghost predicate RowInv(b: Box, i: nat) {
    RowCore(b, i) && Placed(b, i)
  }

  /** Dead-letter rows stand for different outbox rows and record five attempts. */
  ghost predicate DlqCore(b: Box) {
    && b.dlq.Keys <= b.buried
    && (forall id :: id in b.dlq ==> b.dlq[id].retries == MAX_ATTEMPTS)
    && (forall f, g :: f in b.dlq && g in b.dlq && f != g ==> b.dlq[f].row != b.dlq[g].row)
  }

  ghost predicate DlqInv(b: Box) {
    b.retrying <= b.dlq.Keys && DlqCore(b)
  }

  /** A retry's copy is of a failed row, and equal to its dead-letter row unless that is gone for good. */
  ghost predicate CopyInv(b: Box, r: nat) {
    r in b.copies ==>
      var c := b.copies[r]; var i := c.failure.row;
      && c.id in b.buried && i < |b.rows| && b.rows[i].status == FAILED && !(IsCurrent(b, i) && b.proc.phase == Burying)
      && if c.id in b.dlq then b.dlq[c.id] == c.failure else !Dead(b, i)
  }

  /** The current row, by phase. */
  function InPhase(row: Row, phase: Phase): Row {
    match phase
    case Ready => row
    case Burying => row.(status := FAILED, attempts := row.attempts + 1)
    case _ => row.(status := PROCESSING, attempts := row.attempts + 1)
  }

  /** In mid-poll the table is the one the poll found, with the entries so far attempted, the current one in its phase,
      and new rows at the end. */
  ghost predicate PollInv(b: Box) {
    b.proc.Polling? ==>
      var p := b.proc;
      && p.batch == Batch(p.start) && Fresh(p.start)
      && p.done <= |p.batch| && |p.oks| == p.done && |p.start| <= |b.rows|
      && (p.done == |p.batch| ==> p.phase == Ready)
      && (p.phase == Burying ==> p.start[p.batch[p.done]].attempts + 1 == MAX_ATTEMPTS)
      && b.rows[..|p.start|] == SoFar(p)
      && AllNew(b.rows[|p.start|..])
  }

  /** The fetched table with the first entries attempted and the current one in its phase. */
  function SoFar(p: Proc): (rows: seq<Row>)
    requires p.Polling? && p.batch == Batch(p.start) && p.done <= |p.batch| && |p.oks| == p.done
    ensures |rows| == |p.start|
  {
    var polled := Polled(p.start, p.batch[..p.done], p.oks);
    if p.done < |p.batch| then polled[p.batch[p.done] := InPhase(p.start[p.batch[p.done]], p.phase)] else polled
  }

  /** What holds of every run, whatever is done to rows in the middle of a retry. */
  ghost predicate Core(b: Box) {
    && (forall i :: RowCore(b, i))
    && DlqCore(b)
    && PollInv(b)
  }

  ghost predicate CopiesInv(b: Box) {
    forall r :: CopyInv(b, r)
  }

  /** Every event is where the status of its row says. */
  ghost predicate AllPlaced(b: Box) {
    && (forall i :: RowInv(b, i))
    && DlqInv(b)
    && PollInv(b)
  }

  ghost predicate Inv(b: Box) {
    AllPlaced(b) && CopiesInv(b)
  }

  // ---------- every step keeps the invariant ----------

  lemma CurrentRow(b: Box)
    requires PollInv(b) && b.proc.Polling? && b.proc.done < |b.proc.batch|
    ensures Busy(b)
    ensures var row := b.proc.start[Current(b)];
            b.rows[Current(b)] == InPhase(row, b.proc.phase) && row.status == PENDING && row.attempts < MAX_ATTEMPTS
  {
    var c := b.proc.batch[b.proc.done];
    assert b.rows[..|b.proc.start|][c] == b.rows[c];
  }

  lemma EmitKeepsPoll(b: Box, event: Event)
    requires PollInv(b)
    ensures PollInv(Fire(b, Emit(event)))
  {
    var b' := Fire(b, Emit(event));
    if b.proc.Polling? {
      var n := |b.proc.start|;
      assert b'.rows[..n] == b.rows[..n] && b'.rows[n..] == b.rows[n..] + [NewRow(event)];
    }
  }

  lemma TickKeepsPoll(b: Box)
    requires PollInv(b) && forall i :: RowCore(b, i)
    ensures PollInv(Fire(b, Tick))
  {
    var b' := Fire(b, Tick);
    if b'.proc != b.proc {
      assert Fresh(b.rows) by {
        forall i | 0 <= i < |b.rows| && b.rows[i].status == PENDING ensures b.rows[i].attempts < MAX_ATTEMPTS {
          assert RowCore(b, i);
        }
      }
      var c := Batch(b.rows)[0];
      assert SoFar(b'.proc) == b.rows[c := b.rows[c]] == b.rows;
      assert b.rows[..|b.rows|] == b.rows;
    }
  }

  lemma EmitKeeps(b: Box, event: Event)
    requires AllPlaced(b)
    ensures AllPlaced(Fire(b, Emit(event)))
  {
    var b' := Fire(b, Emit(event));
    EmitKeepsPoll(b, event);
    forall i ensures RowInv(b', i) {
      assert RowInv(b, i);
    }
  }

  lemma TickKeeps(b: Box)
    requires AllPlaced(b)
    ensures AllPlaced(Fire(b, Tick))
  {
    var b' := Fire(b, Tick);
    forall i ensures RowInv(b', i) {
      assert RowInv(b, i);
    }
    forall i ensures RowCore(b, i) { assert RowInv(b, i); }
    TickKeepsPoll(b);
  }

  /** A change of the current row's phase, in the table and in the processor alike. */
  lemma PhaseKeepsPoll(b: Box, b': Box, phase: Phase)
    requires PollInv(b) && Busy(b) && b'.proc == b.proc.(phase := phase)
    requires b'.rows == b.rows[Current(b) := InPhase(b.proc.start[Current(b)], phase)]
    requires phase == Burying ==> b.proc.start[Current(b)].attempts + 1 == MAX_ATTEMPTS
    ensures PollInv(b')
  {
    var n, c := |b.proc.start|, Current(b);
    assert b'.rows[..n] == b.rows[..n][c := InPhase(b.proc.start[c], phase)];
    assert b'.rows[n..] == b.rows[n..];
  }

  lemma MarkKeeps(b: Box)
    requires AllPlaced(b) && Enabled(b, Mark)
    ensures AllPlaced(Fire(b, Mark))
  {
    var b' := Fire(b, Mark);
    CurrentRow(b);
    PhaseKeepsPoll(b, b', Marked);
    forall i ensures RowInv(b', i) {
      assert RowInv(b, i);
    }
  }

  lemma PushKeeps(b: Box, ok: bool)
    requires AllPlaced(b) && Enabled(b, Push(ok))
    ensures AllPlaced(Fire(b, Push(ok)))
  {
    var b' := Fire(b, Push(ok));
    CurrentRow(b);
    assert b'.rows == b.rows[Current(b) := b.rows[Current(b)]];
    PhaseKeepsPoll(b, b', if ok then Pushed else Refused);
    forall i ensures RowInv(b', i) {
      assert RowInv(b, i);
    }
  }

  /** With one more entry done, the fetched table is the one polled so far: the next entry is still as it was. */
  lemma SoFarNext(p: Proc, ok: bool)
    requires p.Polling? && p.batch == Batch(p.start) && p.done < |p.batch| && |p.oks| == p.done
    ensures SoFar(NextEntry(p, ok)) == Polled(p.start, p.batch[..p.done + 1], p.oks + [ok])
  {
    if p.done + 1 < |p.batch| {
      var d := p.batch[p.done + 1];
      var polled := Polled(p.start, p.batch[..p.done + 1], p.oks + [ok]);
      assert Ascending(p.batch[..p.done + 1]) && d !in p.batch[..p.done + 1];
      PolledAt(p.start, p.batch[..p.done + 1], p.oks + [ok], d);
      assert polled[d := polled[d]] == polled;
    }
  }

  /** Attempting the current entry, on top of those before it. */
  lemma PolledNext(p: Proc, ok: bool)
    requires p.Polling? && p.batch == Batch(p.start) && p.done < |p.batch| && |p.oks| == p.done
    ensures var c := p.batch[p.done];
            Polled(p.start, p.batch[..p.done + 1], p.oks + [ok]) == SoFar(p)[c := Attempt(p.start[c], ok)]
  {
    var c := p.batch[p.done];
    assert Ascending(p.batch[..p.done]) && c !in p.batch[..p.done];
    PolledSnoc(p.start, p.batch[..p.done], p.oks, c, ok);
    PolledAt(p.start, p.batch[..p.done], p.oks, c);
    assert p.batch[..p.done] + [c] == p.batch[..p.done + 1];
  }

  /** The current entry is done. */
  lemma NextKeepsPoll(b: Box, b': Box, ok: bool)
    requires PollInv(b) && Busy(b) && b'.proc == NextEntry(b.proc, ok)
    requires b'.rows == b.rows[Current(b) := Attempt(b.proc.start[Current(b)], ok)]
    ensures PollInv(b')
  {
    hide Polled, Attempt;
    var n, c := |b.proc.start|, Current(b);
    SoFarNext(b.proc, ok);
    PolledNext(b.proc, ok);
    assert b'.rows[..n] == b.rows[..n][c := Attempt(b.proc.start[c], ok)] == SoFar(b'.proc);
    assert b'.rows[n..] == b.rows[n..];
  }

  lemma SettleKeeps(b: Box)
    requires AllPlaced(b) && Enabled(b, Settle)
    ensures AllPlaced(Fire(b, Settle))
  {
    hide SoFar, Polled, Batch;
    var b' := Fire(b, Settle);
    CurrentRow(b);
    if b'.proc.phase == Burying {
      PhaseKeepsPoll(b, b', Burying);
    } else {
      NextKeepsPoll(b, b', b.proc.phase == Pushed);
    }
    forall i ensures RowInv(b', i) {
      assert RowInv(b, i) && RowInv(b, Current(b));
    }
  }

  lemma BuryKeeps(b: Box, id: FailureId)
    requires AllPlaced(b) && Enabled(b, Bury(id))
    ensures AllPlaced(Fire(b, Bury(id)))
  {
    hide SoFar, Polled, Batch;
    var b' := Fire(b, Bury(id));
    var c := Current(b);
    CurrentRow(b);
    assert b'.rows == b.rows[c := b.rows[c]];
    NextKeepsPoll(b, b', false);
    assert RowInv(b, c);
    assert b'.dlq[id].row == c;
    forall i ensures RowInv(b', i) {
      assert RowInv(b, i);
      if i != c {
        assert forall f :: f in b'.dlq && b'.dlq[f].row == i ==> f in b.dlq && b.dlq[f].row == i;
        assert forall f :: f in b.dlq ==> f in b'.dlq && b'.dlq[f] == b.dlq[f];
      }
    }
    forall f | f in b.dlq ensures b.dlq[f].row != c {
      assert Dead(b, b.dlq[f].row);
    }
  }

  lemma FinishKeeps(b: Box)
    requires AllPlaced(b) && Enabled(b, Finish)
    ensures AllPlaced(Fire(b, Finish))
  {
    var b' := Fire(b, Finish);
    forall i ensures RowInv(b', i) {
      assert RowInv(b, i);
    }
  }

  /** Dead rows are failed rows of the table, and not the one being buried. */
  lemma DeadAreFailed(b: Box, id: FailureId)
    requires AllPlaced(b) && id in b.dlq
    ensures var i := b.dlq[id].row;
            && Dead(b, i) && i < |b.rows| && b.rows[i].status == FAILED && !(IsCurrent(b, i) && b.proc.phase == Burying)
            && (DeadAndRetrying(b, i) <==> id in b.retrying)
  {
    var i := b.dlq[id].row;
    assert Dead(b, i) && RowInv(b, i);
  }

  lemma RetryPushKeeps(b: Box, r: nat, ok: bool)
    requires Inv(b) && Enabled(b, RetryPush(r, ok)) && Apart(b, RetryPush(r, ok))
    ensures AllPlaced(Fire(b, RetryPush(r, ok)))
  {
    var b' := Fire(b, RetryPush(r, ok));
    var id := b.copies[r].id;
    assert CopyInv(b, r);
    if ok {
      DeadAreFailed(b, id);
    }
    forall i ensures RowInv(b', i) {
      assert RowInv(b, i);
      if ok && i == b.dlq[id].row {
        assert id in b'.dlq && id in b'.retrying;
        assert DeadAndRetrying(b', i);
      } else {
        assert DeadAndRetrying(b', i) <==> DeadAndRetrying(b, i);
      }
      assert Dead(b', i) <==> Dead(b, i);
    }
  }

  /** The row leaves the dead-letter table: after a retry, or dismissed. */
  lemma RemoveKeeps(b: Box, step: Step)
    requires AllPlaced(b) && (step.RetryDelete? || step.Dismiss?) && Enabled(b, step) && Apart(b, step)
    ensures AllPlaced(Fire(b, step))
  {
    var b' := Fire(b, step);
    var id := step.id;
    if id !in b.dlq { return; }
    DeadAreFailed(b, id);
    forall i ensures RowInv(b', i) {
      assert RowInv(b, i);
      if i == b.dlq[id].row {
        assert !Dead(b', i);
      } else {
        assert Dead(b', i) <==> Dead(b, i) by {
          assert forall f :: f in b.dlq && b.dlq[f].row == i ==> f in b'.dlq && b'.dlq[f] == b.dlq[f];
        }
        assert DeadAndRetrying(b', i) <==> DeadAndRetrying(b, i) by {
          assert forall f :: f in b.dlq && b.dlq[f].row == i ==> f in b'.dlq && b'.dlq[f] == b.dlq[f];
        }
      }
    }
  }

  lemma RetryFindKeeps(b: Box, r: nat, id: FailureId)
    requires AllPlaced(b) && Enabled(b, RetryFind(r, id))
    ensures AllPlaced(Fire(b, RetryFind(r, id)))
  {
    var b' := Fire(b, RetryFind(r, id));
    forall i ensures RowInv(b', i) {
      assert RowInv(b, i);
    }
  }

  /** Copies stay copies of failed rows, whatever is done to half-done retries. */
  lemma CopiesKeep(b: Box, step: Step)
    requires Core(b) && CopiesInv(b) && Enabled(b, step)
    ensures CopiesInv(Fire(b, step))
  {
    hide SoFar, Polled, Batch, PollInv;
    var b' := Fire(b, step);
    forall r | r in b'.copies ensures CopyInv(b', r) {
      assert CopyInv(b, r);
      if r in b.copies {
        CopyKeeps(b, step, r);
      } else {
        assert Dead(b, b.dlq[step.id].row) && RowCore(b, b.dlq[step.id].row);
      }
    }
  }

  /** A failed row that is not being buried is left alone. */
  lemma FailedStays(b: Box, step: Step, i: nat)
    requires PollInv(b) && Enabled(b, step) && i < |b.rows| && b.rows[i].status == FAILED
    requires !(IsCurrent(b, i) && b.proc.phase == Burying)
    ensures var b' := Fire(b, step);
            && i < |b'.rows| && b'.rows[i] == b.rows[i] && !(IsCurrent(b', i) && b'.proc.phase == Burying)
            && (step.Bury? ==> Current(b) != i)
  {
    if b.proc.Polling? && b.proc.done < |b.proc.batch| {
      CurrentRow(b);
    }
    hide SoFar, Polled, Batch, PollInv;
  }

  /** A step adds at most the row being buried to the dead-letter table, under a new id, and changes no row or copy. */
  lemma DlqChange(b: Box, step: Step)
    requires Enabled(b, step)
    ensures var b' := Fire(b, step);
            && b.buried <= b'.buried
            && (forall id :: id in b'.dlq ==>
                  if step.Bury? && id == step.id then id !in b.buried && b'.dlq[id].row == Current(b)
                  else id in b.dlq && b'.dlq[id] == b.dlq[id])
            && (forall r :: r in b'.copies && r in b.copies ==> b'.copies[r] == b.copies[r])
  {
  }

  lemma CopyKeeps(b: Box, step: Step, r: nat)
    requires Core(b) && CopyInv(b, r) && Enabled(b, step) && r in b.copies
    ensures CopyInv(Fire(b, step), r)
  {
    var c := b.copies[r]; var i := c.failure.row;
    var b' := Fire(b, step);
    FailedStays(b, step, i);
    DlqChange(b, step);
    hide Fire, PollInv, RowCore, IsCurrent;
    if c.id !in b'.dlq {
      assert forall f :: f in b'.dlq && b'.dlq[f].row == i ==> f in b.dlq && b.dlq[f].row == i;
      assert !Dead(b', i);
    }
  }

  lemma StepKeeps(b: Box, step: Step)
    requires Inv(b) && Enabled(b, step) && Apart(b, step)
    ensures Inv(Fire(b, step))
  {
    hide AllPlaced, CopiesInv, Apart;
    PlacedKeeps(b, step);
    PlacedIsCore(b);
    CopiesKeep(b, step);
  }

  lemma PlacedIsCore(b: Box)
    requires AllPlaced(b)
    ensures Core(b)
  {
    forall i ensures RowCore(b, i) {
      assert RowInv(b, i);
    }
  }

  lemma PlacedKeeps(b: Box, step: Step)
    requires Inv(b) && Enabled(b, step) && Apart(b, step)
    ensures AllPlaced(Fire(b, step))
  {
    hide AllPlaced, CopiesInv, Fire;
    match step
    case Emit(event) => EmitKeeps(b, event);
    case Tick => TickKeeps(b);
    case Mark => MarkKeeps(b);
    case Push(ok) => PushKeeps(b, ok);
    case Settle => SettleKeeps(b);
    case Bury(id) => BuryKeeps(b, id);
    case Finish => FinishKeeps(b);
    case RetryFind(r, id) => RetryFindKeeps(b, r, id);
    case RetryPush(r, ok) => RetryPushKeeps(b, r, ok);
    case RetryDelete(id) => RemoveKeeps(b, step);
    case Dismiss(id) => RemoveKeeps(b, step);
  }

  // ---------- and its core, whatever is done to half-done retries ----------

  /** Statements of the poll. */
  lemma PollKeepsCore(b: Box, step: Step)
    requires Core(b) && Enabled(b, step) && (step.Mark? || step.Push? || step.Settle?)
    ensures Core(Fire(b, step))
  {
    var b' := Fire(b, step);
    assert DlqCore(b');
    StatementKeepsPoll(b, step);
    assert RowCore(b, Current(b));
    hide PollInv, RowCore, Fire;
    forall i ensures RowCore(b', i) {
      StatementKeepsRow(b, step, i);
    }
  }

  lemma SameDead(b: Box, b': Box, i: nat)
    requires b'.dlq == b.dlq
    ensures Dead(b', i) <==> Dead(b, i)
  {
  }

  lemma StatementKeepsRow(b: Box, step: Step, i: nat)
    requires RowCore(b, i) && PollInv(b) && Enabled(b, step) && (step.Mark? || step.Push? || step.Settle?)
    requires !Dead(b, Current(b)) || b.rows[Current(b)].status == FAILED
    ensures RowCore(Fire(b, step), i)
  {
    hide SoFar, Polled, Batch;
    var b' := Fire(b, step);
    CurrentRow(b);
    hide PollInv, Dead;
    assert b'.dlq == b.dlq;
    SameDead(b, b', i);
    assert i != Current(b) && i < |b.rows| ==> b'.rows[i] == b.rows[i];
  }

  lemma StatementKeepsPoll(b: Box, step: Step)
    requires PollInv(b) && Enabled(b, step) && (step.Mark? || step.Push? || step.Settle?)
    ensures PollInv(Fire(b, step))
  {
    hide SoFar, Polled, Batch;
    var b' := Fire(b, step);
    var c := Current(b);
    CurrentRow(b);
    hide PollInv;
    assert step.Push? ==> b'.rows == b.rows[c := b.rows[c]];
    if step.Settle? && b'.proc.phase != Burying {
      NextKeepsPoll(b, b', b.proc.phase == Pushed);
    } else {
      PhaseKeepsPoll(b, b', b'.proc.phase);
    }
  }

  lemma BuryKeepsCore(b: Box, id: FailureId)
    requires Core(b) && Enabled(b, Bury(id))
    ensures Core(Fire(b, Bury(id)))
  {
    hide SoFar, Polled, Batch;
    var b' := Fire(b, Bury(id));
    var c := Current(b);
    CurrentRow(b);
    assert b'.rows == b.rows[c := b.rows[c]];
    NextKeepsPoll(b, b', false);
    assert RowCore(b, c);
    forall i ensures RowCore(b', i) {
      assert RowCore(b, i);
      if i != c {
        assert forall f :: f in b'.dlq && b'.dlq[f].row == i ==> f in b.dlq && b.dlq[f].row == i;
      }
    }
    forall f | f in b.dlq ensures b.dlq[f].row != c {
      assert Dead(b, b.dlq[f].row);
    }
  }

  /** Steps that leave the fetched rows and the processor's place in them alone. */
  lemma RestKeepsCore(b: Box, step: Step)
    requires Core(b) && Enabled(b, step)
    requires step.Finish? || step.RetryFind? || step.RetryPush? || step.RetryDelete? || step.Dismiss?
    ensures Core(Fire(b, step))
  {
    hide SoFar, Polled, Batch;
    var b' := Fire(b, step);
    forall i ensures RowCore(b', i) {
      assert RowCore(b, i);
      assert Dead(b', i) ==> Dead(b, i);
    }
  }

  lemma ArrivalKeepsCore(b: Box, step: Step)
    requires Core(b) && (step.Emit? || step.Tick?)
    ensures Core(Fire(b, step))
  {
    hide SoFar, Polled, Batch, PollInv;
    var b' := Fire(b, step);
    if step.Emit? {
      EmitKeepsPoll(b, step.event);
    } else {
      TickKeepsPoll(b);
    }
    forall i ensures RowCore(b', i) {
      assert RowCore(b, i);
    }
  }

  lemma CoreKeeps(b: Box, step: Step)
    requires Core(b) && Enabled(b, step)
    ensures Core(Fire(b, step))
  {
    hide Core, Fire;
    match step
    case Mark => PollKeepsCore(b, step);
    case Push(_) => PollKeepsCore(b, step);
    case Settle => PollKeepsCore(b, step);
    case Bury(id) => BuryKeepsCore(b, id);
    case Emit(_) => ArrivalKeepsCore(b, step);
    case Tick => ArrivalKeepsCore(b, step);
    case _ => RestKeepsCore(b, step);
  }

  lemma {:induction false} ReachableCore(steps: seq<Step>)
    requires After(steps).Some?
    ensures Core(After(steps).value)
  {
    if steps == [] {
      assert forall i :: RowCore(Start(), i);
    } else {
      ReachableCore(steps[..|steps| - 1]);
      CoreKeeps(After(steps[..|steps| - 1]).value, steps[|steps| - 1]);
    }
  }

  lemma {:induction false} ReachableInv(steps: seq<Step>)
    requires After(steps).Some? && RunApart(steps)
    ensures Inv(After(steps).value)
  {
    if steps == [] {
      assert forall i :: RowInv(Start(), i);
    } else {
      ReachableInv(steps[..|steps| - 1]);
      StepKeeps(After(steps[..|steps| - 1]).value, steps[|steps| - 1]);
    }
  }

  // ---------- the theorems ----------

  function One(c: bool): nat {
    if c then 1 else 0
  }

  /** Event conservation: whenever the processor is idle and no retry is half done, every event written to the outbox is
      in exactly one place: still pending, enqueued once, in the dead-letter table, or dismissed. */
  lemma EveryEventHasOnePlace(steps: seq<Step>, i: nat)
    requires After(steps).Some? && RunApart(steps) && After(steps).value.proc.Idle? && After(steps).value.retrying == {}
    requires i < |After(steps).value.rows|
    ensures var b := After(steps).value;
            One(b.rows[i].status == PENDING) + b.enqueued[i] + One(Dead(b, i)) + b.dismissed[i] == 1
  {
    ReachableInv(steps);
    assert RowInv(After(steps).value, i);
  }

  /** Attempts are bounded at every moment: a pending row has at most four, a failed row exactly five and at most one
      dead-letter row, which records five. */
  lemma AttemptsAreBounded(steps: seq<Step>, i: nat)
    requires After(steps).Some? && i < |After(steps).value.rows|
    ensures var b := After(steps).value;
            && (b.rows[i].status == PENDING ==> b.rows[i].attempts <= 4)
            && (b.rows[i].status == FAILED ==> b.rows[i].attempts == 5)
            && (forall f, g :: f in b.dlq && g in b.dlq && b.dlq[f].row == i && b.dlq[g].row == i ==> f == g)
            && (forall f :: f in b.dlq && b.dlq[f].row == i ==> b.rows[i].status == FAILED && b.dlq[f].retries == 5)
  {
    ReachableCore(steps);
    var b := After(steps).value;
    assert RowCore(b, i);
    forall f | f in b.dlq && b.dlq[f].row == i ensures b.rows[i].status == FAILED {
      assert Dead(b, i);
    }
  }

  // ---------- the condition is exact ----------

  /** No event was enqueued twice, dismissed twice, or both. */
  ghost predicate AtMostOnce(b: Box) {
    forall i: nat :: b.enqueued[i] + b.dismissed[i] <= 1
  }

  /** A step keeps the invariant, and every event at most once, exactly when it meets the condition on retries and
      dismissals. */
  lemma StepKeepsIff(b: Box, step: Step)
    requires Inv(b) && Enabled(b, step)
    ensures Inv(Fire(b, step)) <==> Apart(b, step)
    ensures AtMostOnce(Fire(b, step)) <==> Apart(b, step)
  {
    var b' := Fire(b, step);
    if Apart(b, step) {
      StepKeeps(b, step);
      InvIsAtMostOnce(b');
    } else {
      var i := if step.RetryPush? then b.copies[step.r].failure.row else b.dlq[step.id].row;
      assert step.RetryPush? ==> CopyInv(b, step.r);
      var id := if step.RetryPush? then b.copies[step.r].id else step.id;
      if id in b.dlq {
        DeadAreFailed(b, id);
      }
      assert RowInv(b, i);
      assert b.enqueued[i] + b.dismissed[i] == 1;
      assert b'.enqueued[i] + b'.dismissed[i] == 2;
      assert !AtMostOnce(b');
    }
    if Inv(b') {
      InvIsAtMostOnce(b');
    }
  }

  lemma InvIsAtMostOnce(b: Box)
    requires Inv(b)
    ensures AtMostOnce(b)
  {
    forall i: nat ensures b.enqueued[i] + b.dismissed[i] <= 1 {
      assert RowInv(b, i);
    }
  }

  /** Over whole runs: every event was enqueued or dismissed at most once if and only if every retry enqueued its copy
      while the row was still there and not in the middle of another retry, and no row was dismissed in the middle of one. */
  lemma {:induction false} AtMostOnceIff(steps: seq<Step>)
    requires After(steps).Some?
    ensures AtMostOnce(After(steps).value) <==> RunApart(steps)
  {
    if steps == [] {
    } else {
      var before := steps[..|steps| - 1];
      var b := After(before).value;
      AtMostOnceIff(before);
      if RunApart(before) {
        ReachableInv(before);
        StepKeepsIff(b, steps[|steps| - 1]);
      } else {
        var i: nat :| b.enqueued[i] + b.dismissed[i] > 1;
        NothingIsTakenBack(b, steps[|steps| - 1], i);
      }
    }
  }

  lemma NothingIsTakenBack(b: Box, step: Step, i: nat)
    requires Enabled(b, step)
    ensures Fire(b, step).enqueued[i] >= b.enqueued[i] && Fire(b, step).dismissed[i] >= b.dismissed[i]
  {
  }

  // ---------- the statements of a poll make one round ----------

  function Finishes(steps: seq<Step>): nat {
    if steps == [] then 0 else Finishes(steps[..|steps| - 1]) + One(steps[|steps| - 1].Finish?)
  }

  /** The table as of the last moment the processor was idle. */
  function Settled(b: Box): seq<Row> {
    if b.proc.Idle? then b.rows else b.proc.start
  }

  /** The rows of `all` beyond `base` are new. */
  ghost predicate Extends(base: seq<Row>, all: seq<Row>) {
    base <= all && AllNew(all[|base|..])
  }

  lemma FinishIsARound(b: Box, base: seq<Row>)
    requires PollInv(b) && Enabled(b, Finish) && Extends(base, b.proc.start)
    ensures var round := Round(b.proc.start[|base|..], b.proc.oks);
            Possible(base, round) && Extends(AfterRound(base, round), b.rows)
  {
    var p := b.proc;
    assert base + p.start[|base|..] == p.start;
    assert p.batch[..p.done] == p.batch;
    assert b.rows[..|p.start|] == Polled(p.start, p.batch, p.oks);
  }

  lemma SettledGrows(b: Box, step: Step, base: seq<Row>)
    requires PollInv(b) && Enabled(b, step) && !step.Finish? && Extends(base, Settled(b))
    ensures Extends(base, Settled(Fire(b, step)))
  {
    if step.Emit? && b.proc.Idle? {
      assert (b.rows + [NewRow(step.event)])[|base|..] == b.rows[|base|..] + [NewRow(step.event)];
    }
  }

  /** From a state at rest on, whatever is interleaved, the completed polls act on the table as rounds. */
  lemma {:induction false} RunIsRounds(steps: seq<Step>, more: seq<Step>) returns (rounds: seq<Round>)
    requires After(steps).Some? && After(steps).value.proc.Idle? && After(steps + more).Some?
    ensures |rounds| == Finishes(more) && AllPossible(After(steps).value.rows, rounds)
    ensures Extends(AfterRounds(After(steps).value.rows, rounds), Settled(After(steps + more).value))
  {
    if more == [] {
      rounds := [];
      assert steps + more == steps;
    } else {
      var rest, step := more[..|more| - 1], more[|more| - 1];
      assert (steps + more)[..|steps + more| - 1] == steps + rest;
      rounds := RunIsRounds(steps, rest);
      var b := After(steps + rest).value;
      var base := AfterRounds(After(steps).value.rows, rounds);
      ReachableCore(steps + rest);
      if step.Finish? {
        FinishIsARound(b, base);
        RoundsSnoc(After(steps).value.rows, rounds, Round(b.proc.start[|base|..], b.proc.oks));
        rounds := rounds + [Round(b.proc.start[|base|..], b.proc.oks)];
      } else {
        SettledGrows(b, step, base);
      }
    }
  }

  /** A row that was terminal when the poll began is untouched by it. */
  lemma TerminalIsUntouched(b: Box, j: nat)
    requires PollInv(b) && j < |Settled(b)| && Terminal(Settled(b)[j])
    ensures j < |b.rows| && b.rows[j] == Settled(b)[j]
  {
    if b.proc.Polling? {
      var p := b.proc;
      PolledAt(p.start, p.batch[..p.done], p.oks, j);
      assert b.rows[..|p.start|][j] == b.rows[j];
    }
  }

  /** No starvation, at the grain of statements: take a moment at which the processor is idle and a new row has k older
      pending rows; once floor(k/10) + 5 polls have completed, the row is completed or failed, whatever else happened. */
  lemma EveryRowSettles(steps: seq<Step>, more: seq<Step>, j: nat)
    requires After(steps).Some? && After(steps).value.proc.Idle? && After(steps + more).Some?
    requires var rows := After(steps).value.rows;
             j < |rows| && New(rows[j]) && Finishes(more) >= OlderPending(rows, j) / 10 + 5
    ensures var rows := After(steps + more).value.rows; j < |rows| && (rows[j].status == COMPLETED || rows[j].status == FAILED)
  {
    var rows := After(steps).value.rows;
    var end := After(steps + more).value;
    ReachableCore(steps);
    ReachableCore(steps + more);
    assert Fresh(rows) by {
      forall i | 0 <= i < |rows| && rows[i].status == PENDING ensures rows[i].attempts < MAX_ATTEMPTS {
        assert RowCore(After(steps).value, i);
      }
    }
    var rounds := RunIsRounds(steps, more);
    NoStarvation(rows, rounds, j);
    assert Settled(end)[j] == AfterRounds(rows, rounds)[j];
    TerminalIsUntouched(end, j);
  }

  lemma RunsOn(steps: seq<Step>, step: Step)
    requires After(steps).Some? && Enabled(After(steps).value, step)
    ensures After(steps + [step]) == Some(Fire(After(steps).value, step))
  {
    assert (steps + [step])[..|steps + [step]| - 1] == steps;
  }
}

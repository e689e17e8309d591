/** A run of the cron job is a run of the protocol: what the processor leaves behind is what its single statements do. */
module OutboxPoll {
  import opened Domain
  import opened Outbox
  import opened OutboxProtocol

  /** Statements of a poll. */
  predicate PollStep(step: Step) {
    step.Tick? || step.Mark? || step.Push? || step.Settle? || step.Bury? || step.Finish?
  }

  predicate AllPolls(more: seq<Step>) {
    forall i :: 0 <= i < |more| ==> PollStep(more[i])
  }

  /** The dead-letter table with rows for some further failures, under new ids. */
  ghost predicate DlqGrown(b: Box, e: Box, added: seq<Failure>) {
    && b.buried <= e.buried
    && (forall id :: id in b.dlq ==> id in e.dlq && e.dlq[id] == b.dlq[id])
    && (forall id :: id in e.dlq && id !in b.dlq ==> id !in b.buried && e.dlq[id] in added)
    && (forall f :: f in added ==> exists id :: id in e.dlq && id !in b.dlq && e.dlq[id] == f)
  }

  /** Only the table, the queue, the dead-letter table and the processor have changed. */
  predicate Untouched(b: Box, e: Box) {
    e.dismissed == b.dismissed && e.copies == b.copies && e.retrying == b.retrying
  }

  /** The state after the first k entries of a poll that began in b. */
  ghost predicate Reached(b: Box, e: Box, oks: seq<bool>, k: nat)
    requires k <= |Batch(b.rows)| == |oks|
  {
    var batch := Batch(b.rows);
    && e.proc == Polling(b.rows, batch, k, Ready, oks[..k])
    && e.rows == Polled(b.rows, batch[..k], oks[..k])
    && e.enqueued == b.enqueued + multiset(Accepted(batch[..k], oks[..k]))
    && DlqGrown(b, e, Buried(b.rows, batch[..k], oks[..k]))
    && Untouched(b, e)
  }

  /** The effect of the statements for one entry. */
  ghost predicate EntryDone(e: Box, e': Box, ok: bool)
    requires Busy(e)
  {
    var c := Current(e); var entry := e.proc.start[c];
    && e'.proc == NextEntry(e.proc, ok)
    && e'.rows == e.rows[c := Attempt(entry, ok)]
    && e'.enqueued == (if ok then e.enqueued + multiset{c} else e.enqueued)
    && DlqGrown(e, e', if Attempt(entry, ok).status == FAILED then [Failure(c, entry.attempts + 1)] else [])
    && Untouched(e, e')
  }

  /** An entry about to be attempted, as it was fetched. */
  ghost predicate Fetched(e: Box) {
    Busy(e) && e.proc.phase == Ready && e.rows[Current(e)] == e.proc.start[Current(e)] && e.dlq.Keys <= e.buried
  }

  lemma EntryMarked(e: Box, ok: bool)
    requires Fetched(e)
    ensures var c := Current(e); var entry := e.proc.start[c];
            && Enabled(e, Mark) && Enabled(Fire(e, Mark), Push(ok)) && Enabled(Fire(Fire(e, Mark), Push(ok)), Settle)
            && Fire(Fire(e, Mark), Push(ok)) ==
               e.(rows := e.rows[c := entry.(status := PROCESSING, attempts := entry.attempts + 1)],
                  enqueued := if ok then e.enqueued + multiset{c} else e.enqueued,
                  proc := e.proc.(phase := if ok then Pushed else Refused))
  {
  }

  lemma EntrySettled(e: Box, ok: bool)
    requires Fetched(e) && (ok || e.proc.start[Current(e)].attempts + 1 < MAX_ATTEMPTS)
    ensures Enabled(Fire(e, Mark), Push(ok)) && Enabled(Fire(Fire(e, Mark), Push(ok)), Settle)
    ensures EntryDone(e, Fire(Fire(Fire(e, Mark), Push(ok)), Settle), ok)
  {
    EntryMarked(e, ok);
    var c := Current(e); var entry := e.proc.start[c];
    var e2 := Fire(Fire(e, Mark), Push(ok));
    assert e2.rows[c := Attempt(entry, ok)] == e.rows[c := Attempt(entry, ok)];
  }

  lemma EntryBuried(e: Box, id: FailureId)
    requires Fetched(e) && id !in e.buried && e.proc.start[Current(e)].attempts + 1 >= MAX_ATTEMPTS
    ensures Enabled(Fire(e, Mark), Push(false)) && Enabled(Fire(Fire(e, Mark), Push(false)), Settle)
    ensures var e3 := Fire(Fire(Fire(e, Mark), Push(false)), Settle);
            Enabled(e3, Bury(id)) && EntryDone(e, Fire(e3, Bury(id)), false)
  {
    EntryMarked(e, false);
    var c := Current(e); var entry := e.proc.start[c];
    var e2 := Fire(Fire(e, Mark), Push(false));
    var e3 := Fire(e2, Settle);
    assert e3.rows == e.rows[c := Attempt(entry, false)];
    var e' := Fire(e3, Bury(id));
    assert e'.dlq == e.dlq[id := Failure(c, entry.attempts + 1)] && id !in e.dlq;
  }

  /** The statements for one entry. */
  lemma EntryRuns(steps: seq<Step>, ok: bool) returns (more: seq<Step>)
    requires After(steps).Some? && Fetched(After(steps).value)
    ensures AllPolls(more) && After(steps + more).Some?
    ensures EntryDone(After(steps).value, After(steps + more).value, ok)
  {
    hide Fire, Enabled, After, EntryDone;
    var e := After(steps).value;
    EntryMarked(e, ok);
    RunsOn(steps, Mark);
    RunsOn(steps + [Mark], Push(ok));
    RunsOn(steps + [Mark] + [Push(ok)], Settle);
    if !ok && e.proc.start[Current(e)].attempts + 1 >= MAX_ATTEMPTS {
      var id := UnusedIdExists(e.buried);
      EntryBuried(e, id);
      RunsOn(steps + [Mark] + [Push(ok)] + [Settle], Bury(id));
      more := [Mark, Push(ok), Settle, Bury(id)];
      assert steps + more == steps + [Mark] + [Push(ok)] + [Settle] + [Bury(id)];
    } else {
      EntrySettled(e, ok);
      more := [Mark, Push(ok), Settle];
      assert steps + more == steps + [Mark] + [Push(ok)] + [Settle];
    }
  }

  /** One more entry takes the poll one entry further. */
  lemma ReachedNext(b: Box, e: Box, e': Box, oks: seq<bool>, k: nat)
    requires k < |Batch(b.rows)| == |oks| && Reached(b, e, oks, k) && Busy(e) && EntryDone(e, e', oks[k])
    ensures Reached(b, e', oks, k + 1)
  {
    hide Polled, Accepted, Buried, DlqGrown, Attempt, Batch;
    var batch := Batch(b.rows);
    assert Current(e) == batch[k];
    BatchAscends(b.rows);
    OneMore(b.rows, batch, oks, k);
    assert oks[..k] + [oks[k]] == oks[..k + 1];
    var before := Buried(b.rows, batch[..k], oks[..k]);
    var more := if Attempt(b.rows[batch[k]], oks[k]).status == FAILED then [Failure(batch[k], b.rows[batch[k]].attempts + 1)] else [];
    assert Buried(b.rows, batch[..k + 1], oks[..k + 1]) == before + more;
    DlqGrowsOn(b, e, e', before, more);
  }

  lemma BatchAscends(rows: seq<Row>)
    ensures InRange(rows, Batch(rows)) && Ascending(Batch(rows))
  {
  }

  lemma DlqGrowsOn(b: Box, e: Box, e': Box, first: seq<Failure>, second: seq<Failure>)
    requires DlqGrown(b, e, first) && DlqGrown(e, e', second)
    ensures DlqGrown(b, e', first + second)
  {
    forall f | f in first + second ensures exists id :: id in e'.dlq && id !in b.dlq && e'.dlq[id] == f {
      if f in first {
        var id :| id in e.dlq && id !in b.dlq && e.dlq[id] == f;
        assert id in e'.dlq && e'.dlq[id] == f;
      } else {
        var id :| id in e'.dlq && id !in e.dlq && e'.dlq[id] == f;
        assert id !in b.dlq;
      }
    }
  }

  lemma {:induction false} EntriesRun(b: Box, steps: seq<Step>, oks: seq<bool>, k: nat) returns (more: seq<Step>)
    requires After(steps).Some? && k <= |Batch(b.rows)| == |oks| && Reached(b, After(steps).value, oks, k)
    ensures AllPolls(more) && After(steps + more).Some? && Reached(b, After(steps + more).value, oks, |oks|)
    decreases |oks| - k
  {
    hide Reached, EntryDone, After, Core;
    if k == |oks| {
      more := [];
      assert steps + [] == steps;
    } else {
      ReachableCore(steps);
      ReachedIsFetched(b, After(steps).value, oks, k);
      var entry := EntryRuns(steps, oks[k]);
      ReachedNext(b, After(steps).value, After(steps + entry).value, oks, k);
      var rest := EntriesRun(b, steps + entry, oks, k + 1);
      more := entry + rest;
      assert steps + entry + rest == steps + more;
    }
  }

  lemma ReachedIsFetched(b: Box, e: Box, oks: seq<bool>, k: nat)
    requires k < |Batch(b.rows)| == |oks| && Reached(b, e, oks, k) && Core(e)
    ensures Fetched(e)
  {
    CurrentRow(e);
  }

  lemma PollStarts(b: Box, oks: seq<bool>)
    requires b.proc.Idle? && Batch(b.rows) != [] && |oks| == |Batch(b.rows)|
    ensures Enabled(b, Tick)
    ensures Reached(b, Fire(b, Tick), oks, 0)
  {
    assert Batch(b.rows)[..0] == [] && oks[..0] == [];
  }

  lemma PollEnds(b: Box, e: Box, oks: seq<bool>)
    requires |oks| == |Batch(b.rows)| && Reached(b, e, oks, |oks|)
    ensures Enabled(e, Finish)
    ensures var batch := Batch(b.rows); var e' := Fire(e, Finish);
            && e'.proc.Idle? && e'.rows == Polled(b.rows, batch, oks)
            && e'.enqueued == b.enqueued + multiset(Accepted(batch, oks))
            && DlqGrown(b, e', Buried(b.rows, batch, oks)) && Untouched(b, e')
  {
    assert oks[..|oks|] == oks && Batch(b.rows)[..|oks|] == Batch(b.rows);
  }

  /** Whatever the outcomes of its pushes, a poll from rest runs to the end, and then the table, the jobs and the
      dead-letter rows are those that the processor as it is written leaves. */
  lemma PollIsARun(steps: seq<Step>, oks: seq<bool>) returns (more: seq<Step>)
    requires After(steps).Some? && After(steps).value.proc.Idle? && |oks| == |Batch(After(steps).value.rows)|
    ensures AllPolls(more) && After(steps + more).Some?
    ensures var b, e := After(steps).value, After(steps + more).value;
            var batch := Batch(b.rows);
            && e.proc.Idle?
            && e.rows == Polled(b.rows, batch, oks)
            && e.enqueued == b.enqueued + multiset(Accepted(batch, oks))
            && DlqGrown(b, e, Buried(b.rows, batch, oks))
            && Untouched(b, e)
  {
    hide After, DlqGrown, Polled, Accepted, Buried;
    var b := After(steps).value;
    if Batch(b.rows) == [] {
      more := [];
      assert steps + [] == steps;
      NothingToPoll(b, oks);
    } else {
      more := FullPoll(steps, oks);
    }
  }

  lemma FullPoll(steps: seq<Step>, oks: seq<bool>) returns (more: seq<Step>)
    requires After(steps).Some? && After(steps).value.proc.Idle?
    requires |oks| == |Batch(After(steps).value.rows)| && Batch(After(steps).value.rows) != []
    ensures AllPolls(more) && After(steps + more).Some?
    ensures var b, e := After(steps).value, After(steps + more).value;
            var batch := Batch(b.rows);
            && e.proc.Idle? && e.rows == Polled(b.rows, batch, oks)
            && e.enqueued == b.enqueued + multiset(Accepted(batch, oks))
            && DlqGrown(b, e, Buried(b.rows, batch, oks)) && Untouched(b, e)
  {
    hide After, Fire, Enabled, Reached, Polled, DlqGrown, Accepted, Buried, Untouched;
    var b := After(steps).value;
    PollStarts(b, oks);
    RunsOn(steps, Tick);
    var entries := EntriesRun(b, steps + [Tick], oks, 0);
    PollEnds(b, After(steps + [Tick] + entries).value, oks);
    RunsOn(steps + [Tick] + entries, Finish);
    more := [Tick] + entries + [Finish];
    assert steps + more == steps + [Tick] + entries + [Finish];
  }

  lemma NothingToPoll(b: Box, oks: seq<bool>)
    requires Batch(b.rows) == [] && oks == []
    ensures Polled(b.rows, Batch(b.rows), oks) == b.rows && Accepted(Batch(b.rows), oks) == []
    ensures DlqGrown(b, b, Buried(b.rows, Batch(b.rows), oks))
  {
  }

  /** Statements of a poll never violate the condition on retries and dismissals, so polls keep every event at most once. */
  lemma {:induction false} PollsStayApart(steps: seq<Step>, more: seq<Step>)
    requires After(steps).Some? && After(steps + more).Some? && RunApart(steps) && AllPolls(more)
    ensures RunApart(steps + more) && AtMostOnce(After(steps + more).value)
  {
    if more == [] {
      assert steps + more == steps;
    } else {
      assert (steps + more)[..|steps + more| - 1] == steps + more[..|more| - 1];
      PollsStayApart(steps, more[..|more| - 1]);
    }
    AtMostOnceIff(steps + more);
  }
}

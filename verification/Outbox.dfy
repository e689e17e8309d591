/** The outbox poll: what one run of the processor does to the table, the queue and the dead-letter table, and how long
    a row can wait. */
module Outbox {
  import opened Domain

  datatype Status = PENDING | PROCESSING | COMPLETED | FAILED

  /** A row is identified by its place in the table, which is ordered by creation time. */
  datatype Row = Row(event: Event, status: Status, attempts: nat)

  const BATCH: nat := 50
  const MAX_ATTEMPTS: nat := 5

  function NewRow(event: Event): Row {
    Row(event, PENDING, 0)
  }

  // ---------- one poll ----------

  /** The oldest pending rows from index i on, at most `limit` of them: findMany with take and orderBy. */
  function PendingFrom(rows: seq<Row>, i: nat, limit: nat): (batch: seq<nat>)
    requires i <= |rows|
    ensures |batch| <= limit
    ensures forall k :: 0 <= k < |batch| ==> i <= batch[k] < |rows| && rows[batch[k]].status == PENDING
    ensures forall k, l :: 0 <= k < l < |batch| ==> batch[k] < batch[l]
    ensures forall j :: i <= j < |rows| && rows[j].status == PENDING && j !in batch ==>
              |batch| == limit && forall k :: 0 <= k < |batch| ==> batch[k] < j
    decreases |rows| - i
  {
    if i == |rows| || limit == 0 then []
    else if rows[i].status == PENDING then [i] + PendingFrom(rows, i + 1, limit - 1)
    else PendingFrom(rows, i + 1, limit)
  }

  /** At most fifty rows, all of them pending, and all the pending ones if there are fewer than fifty. */
  function Batch(rows: seq<Row>): (batch: seq<nat>)
    ensures |batch| <= 50
    ensures |batch| < 50 ==> forall i :: 0 <= i < |rows| && rows[i].status == PENDING ==> i in batch
  {
    PendingFrom(rows, 0, BATCH)
  }

  /** A row after one attempt to enqueue it. */
  function Attempt(row: Row, ok: bool): Row {
    row.(attempts := row.attempts + 1,
         status := if ok then COMPLETED else if row.attempts + 1 >= MAX_ATTEMPTS then FAILED else PENDING)
  }

  predicate InRange(rows: seq<Row>, batch: seq<nat>) {
    forall k :: 0 <= k < |batch| ==> batch[k] < |rows|
  }

  /** The table after the batch has been attempted, with the given outcomes of `queue.add`. */
  function Polled(rows: seq<Row>, batch: seq<nat>, oks: seq<bool>): (r: seq<Row>)
    requires InRange(rows, batch) && |oks| == |batch|
    ensures |r| == |rows|
    decreases |batch|
  {
    if batch == [] then rows
    else Polled(rows[batch[0] := Attempt(rows[batch[0]], oks[0])], batch[1..], oks[1..])
  }

  ghost predicate Ascending(batch: seq<nat>) {
    forall k, l :: 0 <= k < l < |batch| ==> batch[k] < batch[l]
  }

  /** A poll attempts each row of the batch once and leaves every other row alone. */
  lemma {:induction false} PolledAt(rows: seq<Row>, batch: seq<nat>, oks: seq<bool>, i: nat)
    requires InRange(rows, batch) && |oks| == |batch| && Ascending(batch) && i < |rows|
    ensures i !in batch ==> Polled(rows, batch, oks)[i] == rows[i]
    ensures forall k :: 0 <= k < |batch| && batch[k] == i ==> Polled(rows, batch, oks)[i] == Attempt(rows[i], oks[k])
    decreases |batch|
  {
    if batch != [] {
      var rows' := rows[batch[0] := Attempt(rows[batch[0]], oks[0])];
      PolledAt(rows', batch[1..], oks[1..], i);
      forall k | 0 <= k < |batch| && batch[k] == i ensures Polled(rows, batch, oks)[i] == Attempt(rows[i], oks[k]) {
        if k > 0 {
          assert batch[1..][k - 1] == i;
        } else {
          assert i !in batch[1..];
        }
      }
      assert i !in batch ==> i !in batch[1..];
    }
  }

  lemma {:induction false} PolledSnoc(rows: seq<Row>, batch: seq<nat>, oks: seq<bool>, b: nat, ok: bool)
    requires InRange(rows, batch) && |oks| == |batch| && b < |rows|
    ensures InRange(rows, batch + [b])
    ensures Polled(rows, batch + [b], oks + [ok]) ==
            Polled(rows, batch, oks)[b := Attempt(Polled(rows, batch, oks)[b], ok)]
    decreases |batch|
  {
    if batch == [] {
      assert batch + [b] == [b] && oks + [ok] == [ok];
    } else {
      assert (batch + [b])[1..] == batch[1..] + [b] && (oks + [ok])[1..] == oks[1..] + [ok];
      PolledSnoc(rows[batch[0] := Attempt(rows[batch[0]], oks[0])], batch[1..], oks[1..], b, ok);
    }
  }

  // ---------- how long a row can wait ----------

  /** How many more attempts a row can take part in. */
  function Left(row: Row): nat {
    if row.status == PENDING && row.attempts < MAX_ATTEMPTS then MAX_ATTEMPTS - row.attempts else 0
  }

  /** The attempts that rows older than j can still use up. */
  function Work(rows: seq<Row>, j: nat): nat
    requires j <= |rows|
  {
    if j == 0 then 0 else Work(rows, j - 1) + Left(rows[j - 1])
  }

  /** Pending rows have attempts left. */
  ghost predicate Fresh(rows: seq<Row>) {
    forall i :: 0 <= i < |rows| && rows[i].status == PENDING ==> rows[i].attempts < MAX_ATTEMPTS
  }

  function OlderPending(rows: seq<Row>, j: nat): nat
    requires j <= |rows|
  {
    if j == 0 then 0 else OlderPending(rows, j - 1) + if rows[j - 1].status == PENDING then 1 else 0
  }

  lemma {:induction false} WorkUpdate(rows: seq<Row>, b: nat, row: Row, j: nat)
    requires b < |rows| && j <= |rows|
    ensures Work(rows[b := row], j) == Work(rows, j) - (if b < j then Left(rows[b]) - Left(row) else 0)
  {
    if j > 0 {
      WorkUpdate(rows, b, row, j - 1);
    }
  }

  lemma {:induction false} WorkAppend(rows: seq<Row>, more: seq<Row>, j: nat)
    requires j <= |rows|
    ensures Work(rows + more, j) == Work(rows, j)
  {
    if j > 0 {
      WorkAppend(rows, more, j - 1);
    }
  }

  lemma {:induction false} WorkIsBounded(rows: seq<Row>, j: nat)
    requires j <= |rows|
    ensures Work(rows, j) <= MAX_ATTEMPTS * OlderPending(rows, j)
  {
    if j > 0 {
      WorkIsBounded(rows, j - 1);
    }
  }

  /** Every attempt on an older row uses up work. */
  lemma {:induction false} PollUsesWork(rows: seq<Row>, batch: seq<nat>, oks: seq<bool>, j: nat)
    requires InRange(rows, batch) && |oks| == |batch| && Ascending(batch) && j <= |rows|
    requires forall k :: 0 <= k < |batch| ==> Left(rows[batch[k]]) > 0
    ensures Work(Polled(rows, batch, oks), j) <= Work(rows, j)
    ensures (forall k :: 0 <= k < |batch| ==> batch[k] < j) ==> Work(Polled(rows, batch, oks), j) + |batch| <= Work(rows, j)
    decreases |batch|
  {
    if batch != [] {
      var rows' := rows[batch[0] := Attempt(rows[batch[0]], oks[0])];
      WorkUpdate(rows, batch[0], Attempt(rows[batch[0]], oks[0]), j);
      forall k | 0 <= k < |batch[1..]| ensures Left(rows'[batch[1..][k]]) > 0 {
        assert batch[1..][k] == batch[k + 1];
      }
      PollUsesWork(rows', batch[1..], oks[1..], j);
      assert (forall k :: 0 <= k < |batch| ==> batch[k] < j) ==> forall k :: 0 <= k < |batch[1..]| ==> batch[1..][k] < j;
    }
  }

  predicate New(row: Row) {
    row.status == PENDING && row.attempts == 0
  }

  predicate AllNew(rows: seq<Row>) {
    forall i :: 0 <= i < |rows| ==> New(rows[i])
  }

  /** One round: the rows that arrived since the last poll, and the outcomes of the next one. */
  datatype Round = Round(arrivals: seq<Row>, oks: seq<bool>)

  predicate Possible(rows: seq<Row>, round: Round) {
    |round.oks| == |Batch(rows + round.arrivals)| && AllNew(round.arrivals)
  }

  function AfterRound(rows: seq<Row>, round: Round): (r: seq<Row>)
    requires Possible(rows, round)
    ensures |r| == |rows| + |round.arrivals|
  {
    Polled(rows + round.arrivals, Batch(rows + round.arrivals), round.oks)
  }

  lemma PollKeepsFresh(rows: seq<Row>, oks: seq<bool>)
    requires Fresh(rows) && |oks| == |Batch(rows)|
    ensures Fresh(Polled(rows, Batch(rows), oks))
  {
    var polled := Polled(rows, Batch(rows), oks);
    forall i | 0 <= i < |rows| && polled[i].status == PENDING ensures polled[i].attempts < MAX_ATTEMPTS {
      PolledAt(rows, Batch(rows), oks, i);
      if i in Batch(rows) {
        var k :| 0 <= k < |Batch(rows)| && Batch(rows)[k] == i;
      }
    }
  }

  /** A poll either attempts a pending row or spends a full batch of attempts on older ones. */
  lemma PollMovesRow(rows: seq<Row>, oks: seq<bool>, j: nat)
    requires Fresh(rows) && |oks| == |Batch(rows)| && j < |rows| && rows[j].status == PENDING
    ensures var rows' := Polled(rows, Batch(rows), oks);
            && Work(rows', j) <= Work(rows, j)
            && ((rows'[j] == rows[j] && Work(rows', j) + BATCH <= Work(rows, j))
                || rows'[j] == Attempt(rows[j], true) || rows'[j] == Attempt(rows[j], false))
  {
    var batch := Batch(rows);
    PolledAt(rows, batch, oks, j);
    PollUsesWork(rows, batch, oks, j);
    if j in batch {
      var k :| 0 <= k < |batch| && batch[k] == j;
      assert Polled(rows, batch, oks)[j] == Attempt(rows[j], oks[k]);
    }
  }

  /** The table after a series of rounds. */
  predicate AllPossible(rows: seq<Row>, rounds: seq<Round>)
    decreases |rounds|
  {
    rounds != [] ==> Possible(rows, rounds[0]) && AllPossible(AfterRound(rows, rounds[0]), rounds[1..])
  }

  function AfterRounds(rows: seq<Row>, rounds: seq<Round>): seq<Row>
    requires AllPossible(rows, rounds)
    decreases |rounds|
  {
    if rounds == [] then rows else AfterRounds(AfterRound(rows, rounds[0]), rounds[1..])
  }

  lemma {:induction false} RoundsSnoc(rows: seq<Row>, rounds: seq<Round>, round: Round)
    requires AllPossible(rows, rounds) && Possible(AfterRounds(rows, rounds), round)
    ensures AllPossible(rows, rounds + [round])
    ensures AfterRounds(rows, rounds + [round]) == AfterRound(AfterRounds(rows, rounds), round)
    decreases |rounds|
  {
    if rounds == [] {
      assert [] + [round] == [round];
    } else {
      assert (rounds + [round])[1..] == rounds[1..] + [round];
      RoundsSnoc(AfterRound(rows, rounds[0]), rounds[1..], round);
    }
  }

  predicate Terminal(row: Row) {
    row.status == COMPLETED || row.status == FAILED
  }

  /** While a row is pending, each round counts: it costs the row an attempt or older rows a batch of attempts. */
  lemma {:induction false} WaitingIsPaidFor(rows: seq<Row>, rounds: seq<Round>, j: nat)
    requires Fresh(rows) && AllPossible(rows, rounds) && j < |rows|
    requires rows[j].status == PENDING || Terminal(rows[j])
    ensures var end := AfterRounds(rows, rounds);
            && j < |end|
            && (Terminal(end[j]) ||
                 (end[j].status == PENDING && end[j].attempts < MAX_ATTEMPTS && rows[j].status == PENDING
                  && BATCH * (|rounds| - (end[j].attempts - rows[j].attempts)) <= Work(rows, j)))
    decreases |rounds|
  {
    if rounds != [] {
      var all := rows + rounds[0].arrivals;
      WorkAppend(rows, rounds[0].arrivals, j);
      PollKeepsFresh(all, rounds[0].oks);
      PolledAt(all, Batch(all), rounds[0].oks, j);
      if !Terminal(rows[j]) {
        PollMovesRow(all, rounds[0].oks, j);
      }
      WaitingIsPaidFor(AfterRound(rows, rounds[0]), rounds[1..], j);
    }
  }

  /** No starvation: a new row with k older pending rows is completed or failed after floor(k/10) + 5 polls, whatever the
      outcomes of the queue and whatever arrives later. */
  lemma NoStarvation(rows: seq<Row>, rounds: seq<Round>, j: nat)
    requires Fresh(rows) && AllPossible(rows, rounds) && j < |rows| && New(rows[j])
    requires |rounds| >= OlderPending(rows, j) / 10 + 5
    ensures j < |AfterRounds(rows, rounds)|
    ensures AfterRounds(rows, rounds)[j].status == COMPLETED || AfterRounds(rows, rounds)[j].status == FAILED
  {
    WaitingIsPaidFor(rows, rounds, j);
    WorkIsBounded(rows, j);
  }

  // ---------- the processor as it is written ----------

  datatype Failure = Failure(row: nat, retries: nat)

  class Processor {
    var isProcessing: bool
    var outbox: seq<Row>
    var enqueued: seq<nat>       // the rows whose jobs went into the queue, in order
    var failures: seq<Failure>   // the dead-letter rows created, in order

    constructor (rows: seq<Row>)
      ensures !isProcessing && outbox == rows && enqueued == [] && failures == []
    {
      isProcessing, outbox, enqueued, failures := false, rows, [], [];
    }

    /** The body of the loop: mark, push, and settle one fetched entry. */
    method AttemptEntry(id: nat, entry: Row, ok: bool)
      requires id < |outbox| && outbox[id] == entry
      modifies this`outbox, this`enqueued, this`failures
      ensures outbox == old(outbox)[id := Attempt(entry, ok)]
      ensures enqueued == old(enqueued) + if ok then [id] else []
      ensures failures == old(failures) + if Attempt(entry, ok).status == FAILED then [Failure(id, entry.attempts + 1)] else []
    {
      outbox := outbox[id := outbox[id].(status := PROCESSING, attempts := outbox[id].attempts + 1)];
      if ok {
        enqueued := enqueued + [id];
        outbox := outbox[id := outbox[id].(status := COMPLETED)];
      } else {
        var newAttempts := entry.attempts + 1;
        if newAttempts >= MAX_ATTEMPTS {
          outbox := outbox[id := outbox[id].(status := FAILED)];
          failures := failures + [Failure(id, newAttempts)];
        } else {
          outbox := outbox[id := outbox[id].(status := PENDING)];
        }
      }
    }

    /** One run of the cron job; `adds` are the outcomes of its `queue.add` calls. While another run is under way the
        call does nothing. */
    method ProcessPendingOutbox(adds: seq<bool>)
      requires |adds| >= |Batch(outbox)|
      modifies this
      ensures isProcessing == old(isProcessing)
      ensures old(isProcessing) ==> outbox == old(outbox) && enqueued == old(enqueued) && failures == old(failures)
      ensures !old(isProcessing) ==>
                var batch := Batch(old(outbox)); var oks := adds[..|batch|];
                && outbox == Polled(old(outbox), batch, oks)
                && enqueued == old(enqueued) + Accepted(batch, oks)
                && failures == old(failures) + Buried(old(outbox), batch, oks)
      ensures !old(isProcessing) ==>
                var batch := Batch(old(outbox));
                && old(enqueued) <= enqueued && old(failures) <= failures
                && Rising(enqueued[|old(enqueued)|..])
                && (forall i :: i in enqueued[|old(enqueued)|..] <==> exists k :: PushedAt(batch, adds, i, k))
                && (forall f :: f in failures[|old(failures)|..] <==> exists k :: FailedAt(old(outbox), batch, adds, f, k))
    {
      if isProcessing { return; }
      isProcessing := true;
      var pendingEntries := Batch(outbox);
      AcceptedAre(pendingEntries, adds[..|pendingEntries|]);
      BuriedAre(outbox, pendingEntries, adds[..|pendingEntries|]);
      SameOutcomes(outbox, pendingEntries, adds);
      AttemptAll(outbox, pendingEntries, adds[..|pendingEntries|]);
      isProcessing := false;
    }

    /** The loop over the fetched entries. */
    method AttemptAll(fetched: seq<Row>, pendingEntries: seq<nat>, adds: seq<bool>)
      requires outbox == fetched && InRange(fetched, pendingEntries) && Ascending(pendingEntries) && |adds| == |pendingEntries|
      modifies this`outbox, this`enqueued, this`failures
      ensures outbox == Polled(fetched, pendingEntries, adds)
      ensures enqueued == old(enqueued) + Accepted(pendingEntries, adds)
      ensures failures == old(failures) + Buried(fetched, pendingEntries, adds)
    {
      var i := 0;
      while i < |pendingEntries|
        invariant 0 <= i <= |pendingEntries|
        invariant outbox == Polled(fetched, pendingEntries[..i], adds[..i])
        invariant enqueued == old(enqueued) + Accepted(pendingEntries[..i], adds[..i])
        invariant failures == old(failures) + Buried(fetched, pendingEntries[..i], adds[..i])
      {
        OneMore(fetched, pendingEntries, adds, i);
        AttemptEntry(pendingEntries[i], fetched[pendingEntries[i]], adds[i]);
        i := i + 1;
      }
      assert pendingEntries[..i] == pendingEntries && adds[..i] == adds;
    }
  }

  /** The rows of the batch whose `queue.add` succeeded. */
  function Accepted(batch: seq<nat>, oks: seq<bool>): seq<nat>
    requires |oks| == |batch|
  {
    if batch == [] then []
    else Accepted(batch[..|batch| - 1], oks[..|batch| - 1]) + if oks[|batch| - 1] then [batch[|batch| - 1]] else []
  }

  /** The dead-letter rows of the batch: those refused for the fifth time. */
  function Buried(rows: seq<Row>, batch: seq<nat>, oks: seq<bool>): seq<Failure>
    requires |oks| == |batch| && InRange(rows, batch)
  {
    if batch == [] then []
    else
      var n := |batch| - 1;
      Buried(rows, batch[..n], oks[..n])
      + if Attempt(rows[batch[n]], oks[n]).status == FAILED then [Failure(batch[n], rows[batch[n]].attempts + 1)] else []
  }

  ghost predicate Rising(s: seq<nat>) {
    forall k, l :: 0 <= k < l < |s| ==> s[k] < s[l]
  }

  /** Entry k of the batch is row i, and its push succeeded. */
  predicate PushedAt(batch: seq<nat>, oks: seq<bool>, i: nat, k: nat) {
    k < |batch| && k < |oks| && batch[k] == i && oks[k]
  }

  /** Entry k of the batch was refused for the fifth time or later, and f says so. */
  predicate FailedAt(rows: seq<Row>, batch: seq<nat>, oks: seq<bool>, f: Failure, k: nat) {
    && k < |batch| && k < |oks| && batch[k] < |rows| && !oks[k] && rows[batch[k]].attempts >= 4
    && f == Failure(batch[k], rows[batch[k]].attempts + 1)
  }

  /** The outcomes beyond the batch do not matter. */
  lemma SameOutcomes(rows: seq<Row>, batch: seq<nat>, oks: seq<bool>)
    requires |oks| >= |batch|
    ensures forall i, k :: PushedAt(batch, oks[..|batch|], i, k) <==> PushedAt(batch, oks, i, k)
    ensures forall f, k :: FailedAt(rows, batch, oks[..|batch|], f, k) <==> FailedAt(rows, batch, oks, f, k)
  {
  }

  /** The entries whose push succeeded, each once, in order. */
  lemma {:induction false} AcceptedAre(batch: seq<nat>, oks: seq<bool>)
    requires |oks| == |batch| && Ascending(batch)
    ensures Rising(Accepted(batch, oks))
    ensures forall i :: i in Accepted(batch, oks) <==> exists k :: PushedAt(batch, oks, i, k)
  {
    if batch != [] {
      var n := |batch| - 1;
      AcceptedAre(batch[..n], oks[..n]);
      var before := Accepted(batch[..n], oks[..n]);
      forall i | i in before ensures i < batch[n] && exists k :: PushedAt(batch, oks, i, k) {
        var k :| PushedAt(batch[..n], oks[..n], i, k);
        assert PushedAt(batch, oks, i, k);
      }
      RisesOn(before, batch[n]);
      assert oks[n] ==> PushedAt(batch, oks, batch[n], n);
      forall i: nat, k: nat | PushedAt(batch, oks, i, k) ensures i in Accepted(batch, oks) {
        if k < n {
          assert PushedAt(batch[..n], oks[..n], i, k);
        }
      }
    }
  }

  lemma RisesOn(s: seq<nat>, i: nat)
    requires Rising(s) && forall x :: x in s ==> x < i
    ensures Rising(s + [i])
  {
    forall k | 0 <= k < |s| ensures s[k] < i {
      assert s[k] in s;
    }
  }

  /** The entries refused for the fifth time or later, and how often. */
  lemma {:induction false} BuriedAre(rows: seq<Row>, batch: seq<nat>, oks: seq<bool>)
    requires |oks| == |batch| && InRange(rows, batch)
    ensures forall f :: f in Buried(rows, batch, oks) <==> exists k :: FailedAt(rows, batch, oks, f, k)
  {
    if batch != [] {
      var n := |batch| - 1;
      BuriedAre(rows, batch[..n], oks[..n]);
      forall f | f in Buried(rows, batch[..n], oks[..n]) ensures exists k :: FailedAt(rows, batch, oks, f, k) {
        var k :| FailedAt(rows, batch[..n], oks[..n], f, k);
        assert FailedAt(rows, batch, oks, f, k);
      }
      var last := Failure(batch[n], rows[batch[n]].attempts + 1);
      assert !oks[n] && rows[batch[n]].attempts >= 4 ==> FailedAt(rows, batch, oks, last, n);
      forall f: Failure, k: nat | FailedAt(rows, batch, oks, f, k) ensures f in Buried(rows, batch, oks) {
        if k < n {
          assert FailedAt(rows, batch[..n], oks[..n], f, k);
        }
      }
    }
  }

  lemma AcceptedSnoc(batch: seq<nat>, oks: seq<bool>, b: nat, ok: bool)
    requires |oks| == |batch|
    ensures Accepted(batch + [b], oks + [ok]) == Accepted(batch, oks) + if ok then [b] else []
  {
    assert (batch + [b])[..|batch|] == batch && (oks + [ok])[..|batch|] == oks;
  }

  lemma BuriedSnoc(rows: seq<Row>, batch: seq<nat>, oks: seq<bool>, b: nat, ok: bool)
    requires |oks| == |batch| && InRange(rows, batch) && b < |rows|
    ensures Buried(rows, batch + [b], oks + [ok]) ==
            Buried(rows, batch, oks)
            + if Attempt(rows[b], ok).status == FAILED then [Failure(b, rows[b].attempts + 1)] else []
  {
    assert (batch + [b])[..|batch|] == batch && (oks + [ok])[..|batch|] == oks;
  }

  /** Attempting the next entry of the batch extends all three results by one. */
  lemma OneMore(rows: seq<Row>, batch: seq<nat>, oks: seq<bool>, i: nat)
    requires InRange(rows, batch) && Ascending(batch) && |oks| >= |batch| && i < |batch|
    ensures var before := Polled(rows, batch[..i], oks[..i]);
            && before[batch[i]] == rows[batch[i]]
            && Polled(rows, batch[..i + 1], oks[..i + 1]) == before[batch[i] := Attempt(rows[batch[i]], oks[i])]
    ensures Accepted(batch[..i + 1], oks[..i + 1]) == Accepted(batch[..i], oks[..i]) + if oks[i] then [batch[i]] else []
    ensures Buried(rows, batch[..i + 1], oks[..i + 1]) == Buried(rows, batch[..i], oks[..i])
            + if Attempt(rows[batch[i]], oks[i]).status == FAILED then [Failure(batch[i], rows[batch[i]].attempts + 1)] else []
  {
    assert batch[..i] + [batch[i]] == batch[..i + 1] && oks[..i] + [oks[i]] == oks[..i + 1];
    PolledAt(rows, batch[..i], oks[..i], batch[i]);
    PolledSnoc(rows, batch[..i], oks[..i], batch[i], oks[i]);
    AcceptedSnoc(batch[..i], oks[..i], batch[i], oks[i]);
    BuriedSnoc(rows, batch[..i], oks[..i], batch[i], oks[i]);
  }
}

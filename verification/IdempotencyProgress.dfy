/** Keyed requests get answered: what the ledger grants is committed and reported, and a client that keeps retrying gets
    its request executed once. */
module IdempotencyProgress {
  import opened Domain
  import opened AtomicLedger
  import opened Idempotency

  /** The ledger operation of a session whose handler draws txn and uses that revenue account. */
  function OpOf(tenant: Id, body: Body, txn: Id, revenue: Revenue): Op {
    Do(ToRequest(tenant, body, txn), revenue)
  }

  lemma LedgerGrows(tenants: map<Id, FeePlan>, log: seq<Tagged>, t: Tagged)
    ensures Exec(tenants, Ops(log + [t])) == Next(Exec(tenants, Ops(log)), t.op)
  {
    hide Next;
    assert Ops(log + [t]) == Ops(log) + [t.op];
    ExecAppend(tenants, Ops(log), t.op);
  }

  /** A handler commits and reports success exactly when the ledger as it stands grants its request. */
  lemma HandlerAnswers(tenants: map<Id, FeePlan>, s: Sys, r: nat, txn: Id, revenue: Revenue)
    requires Enabled(s, Handle(r, txn, revenue))
    ensures var q := s.sessions[r]; var op := OpOf(q.tenant, q.body, txn, revenue);
            var s' := Fire(tenants, s, Handle(r, txn, revenue));
            && s'.records == s.records
            && (Apply(Ledger(tenants, s), op).Ok? ==>
                  && s'.answers == s.answers[r := Success(201, txn)]
                  && s'.log == s.log + [Tagged(Some(q.key), op)]
                  && s'.sessions == s.sessions[r := q.(stage := Succeeded(txn))])
            && (Apply(Ledger(tenants, s), op).Err? ==>
                  && s'.answers == s.answers[r := Rejected]
                  && s'.log == s.log
                  && s'.sessions == s.sessions[r := q.(stage := Failed)])
            && Ledger(tenants, s') == Next(Ledger(tenants, s), op)
  {
    hide Apply;
    var q := s.sessions[r]; var op := OpOf(q.tenant, q.body, txn, revenue);
    LedgerGrows(tenants, s.log, Tagged(Some(q.key), op));
  }

  // ---------- answers stand, and every commit is answered ----------

  /** Only a request past its handler, or answered from the record, has an answer. */
  predicate Answerable(s: Sys, r: nat) {
    r in s.answers ==>
      r in s.sessions && !s.sessions[r].stage.New? && !s.sessions[r].stage.Refused? && !s.sessions[r].stage.Handling?
  }

  lemma {:induction false} AnswersComeLast(tenants: map<Id, FeePlan>, steps: seq<Step>, r: nat)
    requires After(tenants, steps).Some?
    ensures Answerable(After(tenants, steps).value, r)
  {
    hide Fire, Enabled;
    if steps != [] {
      AnswersComeLast(tenants, steps[..|steps| - 1], r);
      AnswerableStays(tenants, After(tenants, steps[..|steps| - 1]).value, steps[|steps| - 1], r);
    }
  }

  lemma AnswerableStays(tenants: map<Id, FeePlan>, s: Sys, step: Step, r: nat)
    requires Answerable(s, r) && Enabled(s, step)
    ensures Answerable(Fire(tenants, s, step), r)
  {
    hide Apply, Ledger, ToRequest, OnStore, OnDelete, OnSetNx;
  }

  /** On every run: a request is never answered twice, and keeps its tenant, key and body. */
  lemma AnswersStand(tenants: map<Id, FeePlan>, steps: seq<Step>, step: Step, r: nat)
    requires After(tenants, steps).Some? && Enabled(After(tenants, steps).value, step)
    ensures var s := After(tenants, steps).value; var s' := Fire(tenants, s, step);
            && (r in s.answers ==> r in s'.answers && s'.answers[r] == s.answers[r])
            && (r in s.sessions ==> r in s'.sessions && s'.sessions[r] == s.sessions[r].(stage := s'.sessions[r].stage))
  {
    hide Apply, After, Ledger, ToRequest, OnStore, OnDelete, OnSetNx;
    AnswersComeLast(tenants, steps, r);
  }

  /** The commit is of request r, which was told so. */
  predicate Reported(s: Sys, t: Tagged, r: nat) {
    && r in s.sessions && t.key == Some(s.sessions[r].key)
    && t.op.Do? && t.op.req == ToRequest(s.sessions[r].tenant, s.sessions[r].body, t.op.req.txn)
    && r in s.answers && s.answers[r] == Success(201, t.op.req.txn)
  }

  lemma RequestTxn(tenant: Id, body: Body, txn: Id)
    ensures ToRequest(tenant, body, txn).txn == txn
  {
  }

  /** On every run, harmless or not, each keyed commit was reported as a success to a request for it. */
  lemma {:induction false} EveryCommitIsAnswered(tenants: map<Id, FeePlan>, steps: seq<Step>, i: nat)
    requires After(tenants, steps).Some? && i < |After(tenants, steps).value.log|
    requires After(tenants, steps).value.log[i].key.Some?
    ensures var s := After(tenants, steps).value; exists r :: Reported(s, s.log[i], r)
  {
    hide Apply, ToRequest;
    var before, step := steps[..|steps| - 1], steps[|steps| - 1];
    var s := After(tenants, before).value; var s' := After(tenants, steps).value;
    if i < |s.log| {
      LogGrows(tenants, s, step);
      EveryCommitIsAnswered(tenants, before, i);
      var r :| Reported(s, s.log[i], r);
      AnswersStand(tenants, before, step, r);
      assert Reported(s', s'.log[i], r);
    } else {
      assert step.Handle?;
      var q := s.sessions[step.r];
      RequestTxn(q.tenant, q.body, step.txn);
      assert Reported(s', s'.log[i], step.r);
    }
  }

  // ---------- one request after another ----------

  /** The steps of a request that finds its key free, up to its SET or DEL. */
  function FirstSteps(r: nat, tenant: Id, key: Key, body: Body, txn: Id, revenue: Revenue, granted: bool): seq<Step> {
    [Arrive(r, tenant, key, body)] + [SetNx(r)] + [Handle(r, txn, revenue)] + [if granted then Store(r) else Delete(r)]
  }

  /** The steps of a request that finds its key taken. */
  function RepeatSteps(r: nat, tenant: Id, key: Key, body: Body): seq<Step> {
    [Arrive(r, tenant, key, body)] + [SetNx(r)] + [Get(r)]
  }

  lemma ThreeRun(tenants: map<Id, FeePlan>, steps: seq<Step>, a: Step, b: Step, c: Step)
    requires After(tenants, steps).Some? && Enabled(After(tenants, steps).value, a)
    requires var s1 := Fire(tenants, After(tenants, steps).value, a);
             Enabled(s1, b) && Enabled(Fire(tenants, s1, b), c)
    ensures After(tenants, steps + ([a] + [b] + [c])) ==
            Some(Fire(tenants, Fire(tenants, Fire(tenants, After(tenants, steps).value, a), b), c))
  {
    hide Fire, After, Enabled;
    RunsOn(tenants, steps, a);
    RunsOn(tenants, steps + [a], b);
    RunsOn(tenants, steps + [a] + [b], c);
    assert steps + ([a] + [b] + [c]) == steps + [a] + [b] + [c];
  }

  /** A new request with a free key: it is executed and reported as a success exactly when the ledger grants it, and then
      its reply is on record; otherwise it is rejected and the key is free again. Nothing else changes. */
  lemma RequestRuns(tenants: map<Id, FeePlan>, steps: seq<Step>, r: nat, tenant: Id, key: Key, body: Body, txn: Id, revenue: Revenue)
    requires After(tenants, steps).Some?
    requires r !in After(tenants, steps).value.sessions && key !in After(tenants, steps).value.records
    ensures var s := After(tenants, steps).value; var op := OpOf(tenant, body, txn, revenue);
            var granted := Apply(Ledger(tenants, s), op).Ok?;
            var end := After(tenants, steps + FirstSteps(r, tenant, key, body, txn, revenue, granted));
            && end.Some?
            && var e := end.value;
            && e.answers == s.answers[r := if granted then Success(201, txn) else Rejected]
            && e.log == s.log + (if granted then [Tagged(Some(key), op)] else [])
            && e.records == (if granted then s.records[key := Completed(body, 201, txn)] else s.records)
            && e.sessions == s.sessions[r := Session(tenant, key, body, Closed)]
            && Ledger(tenants, e) == Next(Ledger(tenants, s), op)
  {
    hide Apply, ToRequest, After, Ledger, Fire, Enabled, Next;
    var s := After(tenants, steps).value; var op := OpOf(tenant, body, txn, revenue);
    var granted := Apply(Ledger(tenants, s), op).Ok?;
    RequestFires(tenants, s, r, tenant, key, body, txn, revenue);
    var a, b, c := Arrive(r, tenant, key, body), SetNx(r), Handle(r, txn, revenue);
    ThreeRun(tenants, steps, a, b, c);
    var last := if granted then Store(r) else Delete(r);
    RunsOn(tenants, steps + ([a] + [b] + [c]), last);
    assert steps + ([a] + [b] + [c]) + [last] == steps + FirstSteps(r, tenant, key, body, txn, revenue, granted);
  }

  lemma RequestFires(tenants: map<Id, FeePlan>, s: Sys, r: nat, tenant: Id, key: Key, body: Body, txn: Id, revenue: Revenue)
    requires r !in s.sessions && key !in s.records
    ensures var op := OpOf(tenant, body, txn, revenue); var granted := Apply(Ledger(tenants, s), op).Ok?;
            var last := if granted then Store(r) else Delete(r);
            && Enabled(s, Arrive(r, tenant, key, body))
            && var s1 := Fire(tenants, s, Arrive(r, tenant, key, body));
            && Enabled(s1, SetNx(r))
            && var s2 := Fire(tenants, s1, SetNx(r));
            && Enabled(s2, Handle(r, txn, revenue))
            && var s3 := Fire(tenants, s2, Handle(r, txn, revenue));
            && Enabled(s3, last)
            && var e := Fire(tenants, s3, last);
            && e.answers == s.answers[r := if granted then Success(201, txn) else Rejected]
            && e.log == s.log + (if granted then [Tagged(Some(key), op)] else [])
            && e.records == (if granted then s.records[key := Completed(body, 201, txn)] else s.records)
            && e.sessions == s.sessions[r := Session(tenant, key, body, Closed)]
            && Ledger(tenants, e) == Next(Ledger(tenants, s), op)
  {
    hide Apply, ToRequest, Ledger, Next, Fire, Enabled;
    KeyTaken(tenants, s, r, tenant, key, body);
    var s2 := Taking(s, r, tenant, key, body);
    HandlerAnswers(tenants, s2, r, txn, revenue);
    SameLedger(tenants, s, s2);
    var s3 := Fire(tenants, s2, Handle(r, txn, revenue));
    var granted := Apply(Ledger(tenants, s), OpOf(tenant, body, txn, revenue)).Ok?;
    KeyLeft(tenants, s, s3, r, Session(tenant, key, body, if granted then Succeeded(txn) else Failed));
    SameLedger(tenants, s3, Fire(tenants, s3, if granted then Store(r) else Delete(r)));
    assert s.log + [] == s.log;
  }

  /** The state when the handler begins. */
  function Taking(s: Sys, r: nat, tenant: Id, key: Key, body: Body): Sys {
    s.(records := s.records[key := InProgress(body)], sessions := s.sessions[r := Session(tenant, key, body, Handling)])
  }

  lemma KeyTaken(tenants: map<Id, FeePlan>, s: Sys, r: nat, tenant: Id, key: Key, body: Body)
    requires r !in s.sessions && key !in s.records
    ensures Enabled(s, Arrive(r, tenant, key, body))
    ensures var s1 := Fire(tenants, s, Arrive(r, tenant, key, body));
            Enabled(s1, SetNx(r)) && Fire(tenants, s1, SetNx(r)) == Taking(s, r, tenant, key, body)
    ensures forall txn, revenue :: Enabled(Taking(s, r, tenant, key, body), Handle(r, txn, revenue))
  {
    var s1 := Fire(tenants, s, Arrive(r, tenant, key, body));
    var s2 := Fire(tenants, s1, SetNx(r));
    assert s2.sessions == Taking(s, r, tenant, key, body).sessions;
  }

  lemma KeyLeft(tenants: map<Id, FeePlan>, s: Sys, s3: Sys, r: nat, q: Session)
    requires s3.records == s.records[q.key := InProgress(q.body)] && q.key !in s.records
    requires s3.sessions == s.sessions[r := q.(stage := Handling)][r := q]
    requires q.stage.Succeeded? || q.stage == Failed
    ensures var last := if q.stage.Succeeded? then Store(r) else Delete(r);
            && Enabled(s3, last)
            && var e := Fire(tenants, s3, last);
            && e.answers == s3.answers && e.log == s3.log
            && e.records == (if q.stage.Succeeded? then s.records[q.key := Completed(q.body, 201, q.stage.txn)] else s.records)
            && e.sessions == s.sessions[r := q.(stage := Closed)]
  {
    assert s.records[q.key := InProgress(q.body)] - {q.key} == s.records;
  }

  lemma SameLedger(tenants: map<Id, FeePlan>, s: Sys, s': Sys)
    requires s.log == s'.log
    ensures Ledger(tenants, s) == Ledger(tenants, s')
  {
  }

  /** A repeat of a completed request executes nothing, and gets the stored reply exactly when its body is the same. */
  lemma RepeatRuns(tenants: map<Id, FeePlan>, steps: seq<Step>, r: nat, tenant: Id, key: Key, body: Body)
    requires After(tenants, steps).Some?
    requires var s := After(tenants, steps).value; r !in s.sessions && key in s.records && s.records[key].Completed?
    ensures var s := After(tenants, steps).value; var record := s.records[key];
            var end := After(tenants, steps + RepeatSteps(r, tenant, key, body));
            && end.Some?
            && var e := end.value;
            && e.answers == s.answers[r := if body == record.hash then Success(record.status, record.txn) else Mismatch]
            && e.log == s.log && e.records == s.records
            && e.sessions == s.sessions[r := Session(tenant, key, body, Closed)]
  {
    hide After;
    ThreeRun(tenants, steps, Arrive(r, tenant, key, body), SetNx(r), Get(r));
  }

  // ---------- a client that keeps trying ----------

  /** One try: a new request, with the transaction id and revenue account its handler would use. */
  datatype Try = Try(r: nat, txn: Id, revenue: Revenue)

  predicate Fresh(s: Sys, tries: seq<Try>) {
    && (forall i :: 0 <= i < |tries| ==> tries[i].r !in s.sessions)
    && (forall i, j :: 0 <= i < j < |tries| ==> tries[i].r != tries[j].r)
  }

  predicate Grants(db: Db, tenant: Id, body: Body, t: Try) {
    Apply(db, OpOf(tenant, body, t.txn, t.revenue)).Ok?
  }

  /** The first try that the ledger grants, or their number. */
  function FirstGranted(db: Db, tenant: Id, body: Body, tries: seq<Try>): (k: nat)
    ensures k <= |tries|
  {
    if tries == [] then 0
    else
      var n := |tries| - 1;
      var k := FirstGranted(db, tenant, body, tries[..n]);
      if k < n then k else if Grants(db, tenant, body, tries[n]) then n else n + 1
  }

  lemma {:induction false} FirstGrantedIs(db: Db, tenant: Id, body: Body, tries: seq<Try>)
    ensures var k := FirstGranted(db, tenant, body, tries);
            && (forall i :: 0 <= i < k ==> !Grants(db, tenant, body, tries[i]))
            && (k < |tries| ==> Grants(db, tenant, body, tries[k]))
  {
    hide Grants;
    if tries != [] {
      FirstGrantedIs(db, tenant, body, tries[..|tries| - 1]);
    }
  }

  /** What the tries leave behind, when their first granted one is k: it alone is committed, those before are rejected,
      and all from it on get its reply. */
  ghost predicate Tried(s: Sys, e: Sys, tenant: Id, key: Key, body: Body, tries: seq<Try>, k: nat)
    requires k <= |tries|
  {
    && e.log == s.log + (if k < |tries| then [Tagged(Some(key), OpOf(tenant, body, tries[k].txn, tries[k].revenue))] else [])
    && (k == |tries| ==> key !in e.records)
    && (k < |tries| ==> key in e.records && e.records[key] == Completed(body, 201, tries[k].txn))
    && (forall i :: 0 <= i < |tries| ==>
          tries[i].r in e.answers && e.answers[tries[i].r] == if i < k then Rejected else Success(201, tries[k].txn))
    && (forall o :: o in e.sessions <==> o in s.sessions || exists i :: 0 <= i < |tries| && tries[i].r == o)
  }

  /** Exactly once, at least and at most: a client that repeats a request under a free key, one try after another, has the
      first try that the ledger grants executed, no other, and is told so by that try and every later one. */
  lemma {:induction false} RetriesExecuteOnce(tenants: map<Id, FeePlan>, steps: seq<Step>, tenant: Id, key: Key, body: Body, tries: seq<Try>)
    returns (more: seq<Step>)
    requires After(tenants, steps).Some? && key !in After(tenants, steps).value.records
    requires Fresh(After(tenants, steps).value, tries)
    ensures After(tenants, steps + more).Some?
    ensures var s, e := After(tenants, steps).value, After(tenants, steps + more).value;
            Tried(s, e, tenant, key, body, tries, FirstGranted(Ledger(tenants, s), tenant, body, tries))
  {
    hide After, Tried, Fresh, FirstGranted;
    var s := After(tenants, steps).value;
    if tries == [] {
      more := [];
      assert steps + [] == steps;
      NothingTried(s, tenant, key, body, FirstGranted(Ledger(tenants, s), tenant, body, []));
    } else {
      FreshPrefix(s, tries);
      var first := RetriesExecuteOnce(tenants, steps, tenant, key, body, tries[..|tries| - 1]);
      var second := NextTry(tenants, steps + first, s, tenant, key, body, tries);
      more := first + second;
      assert steps + first + second == steps + more;
    }
  }

  lemma FreshPrefix(s: Sys, tries: seq<Try>)
    requires tries != [] && Fresh(s, tries)
    ensures Fresh(s, tries[..|tries| - 1])
  {
  }

  lemma NothingTried(s: Sys, tenant: Id, key: Key, body: Body, k: nat)
    requires k == 0 && key !in s.records
    ensures Tried(s, s, tenant, key, body, [], k)
  {
    assert s.log + [] == s.log;
  }

  lemma NextTry(tenants: map<Id, FeePlan>, run: seq<Step>, s: Sys, tenant: Id, key: Key, body: Body, tries: seq<Try>)
    returns (second: seq<Step>)
    requires After(tenants, run).Some? && tries != [] && Fresh(s, tries)
    requires var rest := tries[..|tries| - 1];
             Tried(s, After(tenants, run).value, tenant, key, body, rest, FirstGranted(Ledger(tenants, s), tenant, body, rest))
    ensures After(tenants, run + second).Some?
    ensures Tried(s, After(tenants, run + second).value, tenant, key, body, tries,
                  FirstGranted(Ledger(tenants, s), tenant, body, tries))
  {
    hide After, Apply, Ledger, Next;
    var m := After(tenants, run).value;
    var n := |tries| - 1;
    var last := tries[n];
    var k := FirstGranted(Ledger(tenants, s), tenant, body, tries[..n]);
    if k < n {
      second := RepeatSteps(last.r, tenant, key, body);
      RepeatRuns(tenants, run, last.r, tenant, key, body);
    } else {
      assert m.log == s.log;
      SameLedger(tenants, s, m);
      second := FirstSteps(last.r, tenant, key, body, last.txn, last.revenue, Grants(Ledger(tenants, m), tenant, body, last));
      RequestRuns(tenants, run, last.r, tenant, key, body, last.txn, last.revenue);
    }
    TriedNext(s, m, After(tenants, run + second).value, tenant, key, body, tries, k,
              FirstGranted(Ledger(tenants, s), tenant, body, tries));
  }

  lemma TriedNext(s: Sys, m: Sys, e: Sys, tenant: Id, key: Key, body: Body, tries: seq<Try>, before: nat, k: nat)
    requires tries != [] && before < |tries| && k <= |tries|
    requires var n := |tries| - 1; Fresh(s, tries) && Tried(s, m, tenant, key, body, tries[..n], before)
    requires if before < |tries| - 1 then k == before else k >= before
    requires var last := tries[|tries| - 1];
             && e.sessions == m.sessions[last.r := Session(tenant, key, body, Closed)]
             && e.answers == m.answers[last.r := if k < |tries| then Success(201, tries[k].txn) else Rejected]
    requires var n := |tries| - 1;
             if before < n then e.log == m.log && e.records == m.records
             else && e.log == m.log + (if k == n then [Tagged(Some(key), OpOf(tenant, body, tries[n].txn, tries[n].revenue))] else [])
                  && (k < |tries| ==> e.records == m.records[key := Completed(body, 201, tries[n].txn)])
                  && (k == |tries| ==> e.records == m.records)
    ensures Tried(s, e, tenant, key, body, tries, k)
  {
    var n := |tries| - 1;
    assert forall i :: 0 <= i < n ==> tries[..n][i] == tries[i];
    assert m.log + [] == m.log && s.log + [] == s.log;
    forall i | 0 <= i < |tries|
      ensures tries[i].r in e.answers && e.answers[tries[i].r] == if i < k then Rejected else Success(201, tries[k].txn)
    {
      if i < n {
        assert tries[..n][i].r in m.answers;
      }
    }
    forall o ensures o in e.sessions <==> o in s.sessions || exists i :: 0 <= i < |tries| && tries[i].r == o {
      if o in m.sessions && o !in s.sessions {
        var i :| 0 <= i < n && tries[..n][i].r == o;
        assert tries[i].r == o;
      }
      if i: int :| 0 <= i < n && tries[i].r == o {
        assert tries[..n][i].r == o;
      }
      if o == tries[n].r {
        assert o in e.sessions;
      }
    }
  }
}

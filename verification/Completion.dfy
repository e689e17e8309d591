/** What the ledger grants gets committed: a transaction ends without a commit only when the atomic operation refuses it. */
module Completion {
  import opened Domain
  import opened AtomicLedger
  import opened Transactions
  import opened Concurrency
  import opened Serialisability
  import opened Deadlock

  /** The operation a transaction is performing, once it has made its lookups. */
  function OpOf(tx: Tx): Op
    requires tx.Running?
  {
    Do(tx.req, tx.revenue)
  }

  /** Who leaves, step by step: a call that arrives is in flight; a lookup or a statement ends its transaction only if
      the atomic operation at that moment is an error; a commit ends it and is logged; an abort ends its own transaction.
      No step touches another transaction. */
  lemma GrantedStay(tenants: map<Id, FeePlan>, steps: seq<Step>, step: Step)
    requires After(tenants, steps).Some? && Enabled(After(tenants, steps).value, step)
    ensures var s := After(tenants, steps).value; var s' := Fire(s, step);
            match step
            case Arrive(t, req) => s'.txs == s.txs[t := Begun(req)] && s'.log == s.log
            case Lookup(t, revenue) =>
              var op := Do(s.txs[t].req, revenue);
              && s'.log == s.log
              && (Apply(s.db, op).Ok? ==> t in s'.txs && s'.txs[t].Running? && OpOf(s'.txs[t]) == op)
              && (t !in s'.txs ==> Apply(s.db, op).Err?)
            case Advance(t) =>
              var op := OpOf(s.txs[t]);
              && s'.log == s.log
              && (Apply(s.db, op).Ok? ==> t in s'.txs && s'.txs[t].Running? && OpOf(s'.txs[t]) == op)
              && (t !in s'.txs ==> Apply(s.db, op).Err?)
            case CommitTx(t) => t !in s'.txs && s'.log == s.log + [OpOf(s.txs[t])] && Apply(s.db, OpOf(s.txs[t])) == Ok(s'.db)
            case Abort(t) => t !in s'.txs && s'.log == s.log
            case OpenAccount(_, _, _, _) => s'.txs == s.txs
    ensures var s := After(tenants, steps).value; var s' := Fire(s, step);
            forall u :: u in s.txs && (step.OpenAccount? || u != step.t) ==> u in s'.txs && s'.txs[u] == s.txs[u]
  {
    hide Plan, Program, Exec1, Apply;
    var s := After(tenants, steps).value;
    if step.Lookup? || step.Advance? {
      RefusalsAreAtomic(tenants, steps, step);
    }
    if step.Lookup? {
      GrantedIsPlanned(s.db, s.txs[step.t].req, step.revenue);
    }
    if step.CommitTx? {
      StepsAreAtomic(tenants, steps, step);
    }
  }

  lemma GrantedIsPlanned(db: Db, req: Request, revenue: Revenue)
    ensures Apply(db, Do(req, revenue)).Ok? ==> Plan(db, req, revenue).Ok?
  {
  }

  // ---------- a transaction that steps alone ----------

  /** All steps are t's own, the first its lookup. */
  predicate Alone(more: seq<Step>, t: nat, revenue: Revenue) {
    && more != [] && more[0] == Lookup(t, revenue)
    && forall i :: 0 <= i < |more| ==> OwnStep(more[i]) && more[i].t == t
  }

  /** Where t stands after stepping alone: in flight with nothing committed, or ended with the outcome of the operation. */
  ghost predicate Outcome(s: Sys, e: Sys, t: nat, op: Op) {
    if t in e.txs then
      e.txs[t].Running? && OpOf(e.txs[t]) == op && e.db == s.db && e.log == s.log
    else
      e.db == Next(s.db, op) && e.log == s.log + (if Apply(s.db, op).Ok? then [op] else [])
  }

  lemma OutcomeNext(tenants: map<Id, FeePlan>, steps: seq<Step>, s: Sys, t: nat, op: Op, step: Step)
    requires After(tenants, steps).Some? && Enabled(After(tenants, steps).value, step)
    requires OwnStep(step) && step.t == t && !step.Lookup?
    requires Outcome(s, After(tenants, steps).value, t, op)
    ensures Outcome(s, Fire(After(tenants, steps).value, step), t, op)
  {
    hide Apply, After;
    GrantedStay(tenants, steps, step);
    StepsAreAtomic(tenants, steps, step);
    var e := After(tenants, steps).value;
    var e' := Fire(e, step);
    if step.Advance? {
      AdvanceKeepsOp(e, t);
    }
    assert s.log + [] == s.log;
  }

  lemma AdvanceKeepsOp(s: Sys, t: nat)
    requires Enabled(s, Advance(t))
    ensures var s' := Fire(s, Advance(t)); t in s'.txs ==> s'.txs[t].Running? && OpOf(s'.txs[t]) == OpOf(s.txs[t])
  {
    hide Exec1, Program;
  }

  lemma {:induction false} AloneOutcome(tenants: map<Id, FeePlan>, steps: seq<Step>, more: seq<Step>, t: nat, revenue: Revenue)
    requires After(tenants, steps).Some? && After(tenants, steps + more).Some? && Alone(more, t, revenue)
    ensures var s := After(tenants, steps).value;
            t in s.txs && s.txs[t].Begun? && Outcome(s, After(tenants, steps + more).value, t, Do(s.txs[t].req, revenue))
  {
    hide Fire, Apply;
    var rest, step := more[..|more| - 1], more[|more| - 1];
    assert (steps + more)[..|steps + more| - 1] == steps + rest;
    var s := After(tenants, steps).value;
    var e := After(tenants, steps + rest).value;
    if rest == [] {
      assert steps + rest == steps;
      GrantedStay(tenants, steps, step);
      StepsAreAtomic(tenants, steps, step);
      LookupOutcome(s, t, revenue);
    } else {
      AloneOutcome(tenants, steps, rest, t, revenue);
      OutcomeNext(tenants, steps + rest, s, t, Do(s.txs[t].req, revenue), step);
    }
  }

  lemma LookupOutcome(s: Sys, t: nat, revenue: Revenue)
    requires Enabled(s, Lookup(t, revenue))
    ensures Outcome(s, Fire(s, Lookup(t, revenue)), t, Do(s.txs[t].req, revenue))
  {
    hide Program;
    var s' := Fire(s, Lookup(t, revenue));
    assert t in s'.txs <==> Plan(s.db, s.txs[t].req, revenue).Ok?;
    assert s.log + [] == s.log;
  }

  /** A transaction that steps alone from its lookup until it ends commits exactly when the atomic operation grants it,
      and leaves what that operation leaves. */
  lemma AloneCommitsIff(tenants: map<Id, FeePlan>, steps: seq<Step>, more: seq<Step>, t: nat, revenue: Revenue)
    requires After(tenants, steps).Some? && After(tenants, steps + more).Some? && Alone(more, t, revenue)
    requires t !in After(tenants, steps + more).value.txs
    ensures var s, e := After(tenants, steps).value, After(tenants, steps + more).value;
            && t in s.txs
            && var op := Do(s.txs[t].req, revenue);
               && (Apply(s.db, op).Ok? <==> e.log == s.log + [op])
               && (Apply(s.db, op).Ok? ==> e.db == Apply(s.db, op).value)
               && (Apply(s.db, op).Err? <==> e.log == s.log)
               && (Apply(s.db, op).Err? ==> e.db == s.db)
  {
    hide After, Apply;
    AloneOutcome(tenants, steps, more, t, revenue);
    var s := After(tenants, steps).value;
    assert |s.log + [Do(s.txs[t].req, revenue)]| == |s.log| + 1;
    assert s.log + [] == s.log;
  }

  /** Nobody else holds a lock that t needs. */
  ghost predicate Unhindered(s: Sys, t: nat) {
    t in s.txs && s.txs[t].Running? &&
    forall id :: id in s.txs[t].script.locks && id in s.owner ==> s.owner[id] == t
  }

  lemma LocksAreTheScripts(script: Script, i: nat)
    requires i < |Program(script)| && Program(script)[i].Lock?
    ensures Program(script)[i].id in script.locks
  {
  }

  lemma UnhinderedStays(s: Sys, t: nat, step: Step)
    requires Unhindered(s, t) && Enabled(s, step) && OwnStep(step) && step.t == t
    ensures t in Fire(s, step).txs ==> Unhindered(Fire(s, step), t) && step.Advance?
    ensures t in Fire(s, step).txs ==> Rank(Fire(s, step).txs[t]) < Rank(s.txs[t])
  {
    hide Exec1, Program;
  }

  /** Unhindered, it can step on its own until it has ended. */
  lemma {:induction false} FinishAlone(tenants: map<Id, FeePlan>, steps: seq<Step>, t: nat) returns (more: seq<Step>)
    requires After(tenants, steps).Some? && Unhindered(After(tenants, steps).value, t)
    ensures forall i :: 0 <= i < |more| ==> OwnStep(more[i]) && more[i].t == t
    ensures After(tenants, steps + more).Some? && t !in After(tenants, steps + more).value.txs
    decreases Rank(After(tenants, steps).value.txs[t])
  {
    hide Program, Exec1, After, Fire;
    var s := After(tenants, steps).value;
    ReachableInv(tenants, steps);
    RankIsPositive(s, t);
    if Blocked(s, t) {
      LocksAreTheScripts(s.txs[t].script, s.txs[t].pc);
    }
    var step := UnblockedCanStep(s, t);
    AfterAppend(tenants, steps, step);
    UnhinderedStays(s, t, step);
    if t in Fire(s, step).txs {
      ReachableInv(tenants, steps + [step]);
      RankIsPositive(Fire(s, step), t);
      var rest := FinishAlone(tenants, steps + [step], t);
      more := [step] + rest;
      assert steps + [step] + rest == steps + more;
    } else {
      more := [step];
    }
  }

  lemma RankIsPositive(s: Sys, t: nat)
    requires SysInv(s) && t in s.txs
    ensures Rank(s.txs[t]) > 0
  {
    RanksArePositive(s);
    assert Ranks(s)[t] > 0;
  }

  /** The rows an operation would lock are free. */
  predicate Free(s: Sys, req: Request, revenue: Revenue) {
    Plan(s.db, req, revenue).Ok? ==> forall id :: id in Plan(s.db, req, revenue).value.locks ==> id !in s.owner
  }

  /** Progress of one call: if the rows it needs are free, a transaction about to make its lookup can end by stepping
      alone, with a commit exactly when the atomic operation grants it. */
  lemma CallCanRun(tenants: map<Id, FeePlan>, steps: seq<Step>, t: nat, revenue: Revenue) returns (more: seq<Step>)
    requires After(tenants, steps).Some? && Enabled(After(tenants, steps).value, Lookup(t, revenue))
    requires var s := After(tenants, steps).value; Free(s, s.txs[t].req, revenue)
    ensures Alone(more, t, revenue) && After(tenants, steps + more).Some?
    ensures var s, e := After(tenants, steps).value, After(tenants, steps + more).value;
            var op := Do(s.txs[t].req, revenue);
            && t !in e.txs && e.db == Next(s.db, op)
            && e.log == s.log + (if Apply(s.db, op).Ok? then [op] else [])
  {
    hide After, Fire, Apply, Plan;
    var s := After(tenants, steps).value;
    var look := Lookup(t, revenue);
    AfterAppend(tenants, steps, look);
    LookupIsUnhindered(s, t, revenue);
    if t in Fire(s, look).txs {
      var rest := FinishAlone(tenants, steps + [look], t);
      more := [look] + rest;
      assert steps + [look] + rest == steps + more;
    } else {
      more := [look];
    }
    AloneOutcome(tenants, steps, more, t, revenue);
  }

  lemma LookupIsUnhindered(s: Sys, t: nat, revenue: Revenue)
    requires Enabled(s, Lookup(t, revenue)) && Free(s, s.txs[t].req, revenue)
    ensures t in Fire(s, Lookup(t, revenue)).txs ==> Unhindered(Fire(s, Lookup(t, revenue)), t)
  {
    hide Plan, Program;
  }

  // ---------- every sequential run is an interleaving ----------

  /** The system at rest but for one call. */
  function OneCall(db: Db, req: Request): Sys {
    Sys(db, map[0 := Begun(req)], map[], [])
  }

  /** Each request uses the revenue account that find-or-create can yield when it is made. */
  ghost predicate Callable(tenants: map<Id, FeePlan>, ops: seq<Op>) {
    ops != [] ==>
      var before, op := ops[..|ops| - 1], ops[|ops| - 1];
      Callable(tenants, before) && (op.Do? ==> MayFind(OneCall(Exec(tenants, before), op.req), op.req, op.revenue))
  }

  /** Nothing is lost on the way down: the database of every sequential run of calls, granted and refused, is the
      committed database of an interleaving that leaves nobody in flight. */
  lemma {:induction false} RunsAreInterleavings(tenants: map<Id, FeePlan>, ops: seq<Op>) returns (steps: seq<Step>)
    requires Callable(tenants, ops)
    ensures After(tenants, steps).Some?
    ensures var e := After(tenants, steps).value; e.db == Exec(tenants, ops) && e.txs == map[] && e.owner == map[]
  {
    if ops == [] {
      steps := [];
    } else {
      var before, op := ops[..|ops| - 1], ops[|ops| - 1];
      var first := RunsAreInterleavings(tenants, before);
      var more := OneMoreCall(tenants, first, op);
      steps := first + more;
    }
  }

  lemma OneMoreCall(tenants: map<Id, FeePlan>, steps: seq<Step>, op: Op) returns (more: seq<Step>)
    requires After(tenants, steps).Some?
    requires After(tenants, steps).value.txs == map[] && After(tenants, steps).value.owner == map[]
    requires op.Do? ==> MayFind(OneCall(After(tenants, steps).value.db, op.req), op.req, op.revenue)
    ensures After(tenants, steps + more).Some?
    ensures var s, e := After(tenants, steps).value, After(tenants, steps + more).value;
            e.db == Next(s.db, op) && e.txs == map[] && e.owner == map[]
  {
    hide After, Exec;
    var s := After(tenants, steps).value;
    match op
    case Open(id, tenant, kind, opening) =>
      if id in s.db.accounts {
        more := [];
        assert steps + [] == steps;
      } else {
        more := [OpenAccount(id, tenant, kind, opening)];
        AfterAppend(tenants, steps, more[0]);
      }
    case Do(req, revenue) => more := OneMoreRequest(tenants, steps, req, revenue);
  }

  lemma OneMoreRequest(tenants: map<Id, FeePlan>, steps: seq<Step>, req: Request, revenue: Revenue) returns (more: seq<Step>)
    requires After(tenants, steps).Some?
    requires After(tenants, steps).value.txs == map[] && After(tenants, steps).value.owner == map[]
    requires MayFind(OneCall(After(tenants, steps).value.db, req), req, revenue)
    ensures After(tenants, steps + more).Some?
    ensures var s, e := After(tenants, steps).value, After(tenants, steps + more).value;
            e.db == Next(s.db, Do(req, revenue)) && e.txs == map[] && e.owner == map[]
  {
    hide After, Exec, Apply, Plan;
    var s := After(tenants, steps).value;
    var arrive := Arrive(0, req);
    AfterAppend(tenants, steps, arrive);
    var s1 := Fire(s, arrive);
    assert s1.txs == OneCall(s.db, req).txs;
    SameFind(s1, OneCall(s.db, req), req, revenue);
    hide Fire, MayFind;
    var rest := CallCanRun(tenants, steps + [arrive], 0, revenue);
    more := [arrive] + rest;
    assert steps + [arrive] + rest == steps + more;
    OnlyOneLeaves(tenants, steps + [arrive], rest, 0);
    var e := After(tenants, steps + more).value;
    assert s1.txs - {0} == map[];
    assert e.txs == e.txs - {0};
    ReachableInv(tenants, steps + more);
    NobodyOwns(e);
  }

  lemma SameFind(s: Sys, s': Sys, req: Request, revenue: Revenue)
    requires s.db == s'.db && s.txs == s'.txs
    ensures MayFind(s, req, revenue) <==> MayFind(s', req, revenue)
  {
    assert Used(s) == Used(s');
  }

  /** Stepping alone, t leaves every other transaction where it was. */
  lemma {:induction false} OnlyOneLeaves(tenants: map<Id, FeePlan>, steps: seq<Step>, more: seq<Step>, t: nat)
    requires After(tenants, steps).Some? && After(tenants, steps + more).Some?
    requires forall i :: 0 <= i < |more| ==> OwnStep(more[i]) && more[i].t == t
    ensures After(tenants, steps + more).value.txs - {t} == After(tenants, steps).value.txs - {t}
  {
    hide Fire, Enabled;
    if more == [] {
      assert steps + more == steps;
    } else {
      var rest, step := more[..|more| - 1], more[|more| - 1];
      assert (steps + more)[..|steps + more| - 1] == steps + rest;
      LastStep(tenants, steps + more);
      OnlyOneLeaves(tenants, steps, rest, t);
      OneStepLeaves(tenants, steps + rest, step);
    }
  }

  lemma OneStepLeaves(tenants: map<Id, FeePlan>, steps: seq<Step>, step: Step)
    requires After(tenants, steps).Some? && Enabled(After(tenants, steps).value, step) && OwnStep(step)
    ensures Fire(After(tenants, steps).value, step).txs - {step.t} == After(tenants, steps).value.txs - {step.t}
  {
    hide Fire, Enabled, After;
    var s := After(tenants, steps).value;
    ReachableInv(tenants, steps);
    StepMovesOne(s, step);
    OneLeft(s, Fire(s, step), step.t);
  }

  lemma LastStep(tenants: map<Id, FeePlan>, steps: seq<Step>)
    requires steps != [] && After(tenants, steps).Some?
    ensures var before, step := After(tenants, steps[..|steps| - 1]), steps[|steps| - 1];
            before.Some? && Enabled(before.value, step) && After(tenants, steps) == Some(Fire(before.value, step))
  {
    hide Fire, Enabled;
  }

  lemma OneLeft(s: Sys, s': Sys, t: nat)
    requires s'.txs == s.txs - {t} || (t in s'.txs && s'.txs == s.txs[t := s'.txs[t]])
    ensures s'.txs - {t} == s.txs - {t}
  {
  }

  lemma NobodyOwns(s: Sys)
    requires SysInv(s) && s.txs == map[]
    ensures s.owner == map[]
  {
    forall id ensures id !in s.owner {
      assert LockInv(s, id);
    }
  }
}

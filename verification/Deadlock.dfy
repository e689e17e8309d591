/** No deadlock, and progress until every transaction has finished. */
module Deadlock {
  import opened Domain
  import opened AtomicLedger
  import opened Sums
  import opened LedgerLaws
  import opened Transactions
  import opened Concurrency
  import opened Serialisability
  import Operations

  /** The row a blocked transaction waits for. */
  function Wanted(s: Sys, t: nat): Id
    requires Blocked(s, t)
  {
    Code(s.txs[t])[s.txs[t].pc].id
  }

  /** t waits for a lock that u holds. */
  predicate WaitsFor(s: Sys, t: nat, u: nat) {
    Blocked(s, t) && s.owner[Wanted(s, t)] == u
  }

  /** A waiting transaction waits for an id greater than every id it holds. */
  lemma WaitsForGreater(s: Sys, t: nat, held: Id)
    requires SysInv(s) && Blocked(s, t) && Owns(s.owner, t, held)
    ensures held < Wanted(s, t)
  {
    var tx := s.txs[t];
    assert LockInv(s, held) && TxInv(s.db, s.owner, t, tx);
    var i :| 0 <= i < tx.pc && Code(tx)[i].Lock? && Code(tx)[i].id == held;
    PlansAreDisciplined(s.db, tx.req, tx.revenue);
    LocksIncrease(tx.script, i, tx.pc);
  }

  /** A chain of waiting transactions, each waiting for the next. */
  ghost predicate Chain(s: Sys, ts: seq<nat>) {
    forall i :: 0 <= i < |ts| - 1 ==> WaitsFor(s, ts[i], ts[i + 1])
  }

  lemma {:induction false} ChainsClimb(s: Sys, ts: seq<nat>)
    requires SysInv(s) && |ts| >= 2 && Chain(s, ts) && Blocked(s, ts[0]) && Blocked(s, ts[|ts| - 1])
    ensures Wanted(s, ts[0]) < Wanted(s, ts[|ts| - 1])
  {
    assert WaitsFor(s, ts[0], ts[1]);
    if |ts| == 2 {
      WaitsForGreater(s, ts[1], Wanted(s, ts[0]));
    } else {
      assert WaitsFor(s, ts[1], ts[2]);
      WaitsForGreater(s, ts[1], Wanted(s, ts[0]));
      assert Chain(s, ts[1..]) by {
        forall i | 0 <= i < |ts[1..]| - 1 ensures WaitsFor(s, ts[1..][i], ts[1..][i + 1]) {
          assert WaitsFor(s, ts[i + 1], ts[i + 2]);
        }
      }
      ChainsClimb(s, ts[1..]);
    }
  }

  /** Deadlock freedom: in no reachable state do transactions wait for one another in a circle. */
  lemma NoCircularWait(tenants: map<Id, FeePlan>, steps: seq<Step>, ts: seq<nat>)
    requires After(tenants, steps).Some? && |ts| >= 2 && Chain(After(tenants, steps).value, ts)
    ensures ts[0] != ts[|ts| - 1]
  {
    ReachableInv(tenants, steps);
    var s := After(tenants, steps).value;
    assert WaitsFor(s, ts[0], ts[1]);
    if ts[0] == ts[|ts| - 1] {
      ChainsClimb(s, ts);
    }
  }

  // ---------- progress ----------

  /** Steps by which a transaction gets on with its own work. */
  predicate OwnStep(step: Step) {
    step.Lookup? || step.Advance? || step.CommitTx?
  }

  lemma LookupIsPossible(s: Sys, t: nat) returns (revenue: Revenue)
    requires t in s.txs && s.txs[t].Begun?
    ensures Enabled(s, Lookup(t, revenue))
  {
    var req := s.txs[t].req;
    if req.Transfer? && req.tenant in s.db.tenants && Operations.FeeOf(s.db, req) > 0 {
      if id :| id in s.db.accounts && IsRevenue(s.db.accounts, id, req.tenant) {
        revenue := Found(id);
      } else {
        var id := UnusedIdExists(Used(s));
        revenue := Opened(id);
      }
    } else {
      revenue := NoFee;
    }
  }

  /** A transaction that is not blocked can take its next step. */
  lemma UnblockedCanStep(s: Sys, t: nat) returns (step: Step)
    requires SysInv(s) && t in s.txs && !Blocked(s, t)
    ensures OwnStep(step) && step.t == t && Enabled(s, step)
  {
    assert TxInv(s.db, s.owner, t, s.txs[t]);
    if s.txs[t].Begun? {
      var revenue := LookupIsPossible(s, t);
      step := Lookup(t, revenue);
    } else if s.txs[t].pc < |Code(s.txs[t])| {
      step := Advance(t);
    } else {
      step := CommitTx(t);
    }
  }

  /** Following the owners of the wanted rows upwards ends at a transaction that is not blocked. */
  lemma {:induction false} SomeoneIsUnblocked(s: Sys, t: nat, above: set<nat>) returns (u: nat)
    requires SysInv(s) && Blocked(s, t)
    requires forall v :: v in s.txs && v !in above ==> Blocked(s, v) && Wanted(s, v) <= Wanted(s, t)
    ensures u in s.txs && !Blocked(s, u)
    decreases above
  {
    var v := s.owner[Wanted(s, t)];
    assert LockInv(s, Wanted(s, t));
    if !Blocked(s, v) {
      u := v;
    } else {
      WaitsForGreater(s, v, Wanted(s, t));
      assert v in above;
      var left := set x | x in above && (!Blocked(s, x) || Wanted(s, x) > Wanted(s, v));
      assert v !in left;
      u := SomeoneIsUnblocked(s, v, left);
    }
  }

  /** Progress: while transactions are in flight, one of them can get on with its own work. */
  lemma SomeoneCanStep(tenants: map<Id, FeePlan>, steps: seq<Step>) returns (step: Step)
    requires After(tenants, steps).Some? && After(tenants, steps).value.txs != map[]
    ensures OwnStep(step) && Enabled(After(tenants, steps).value, step)
  {
    ReachableInv(tenants, steps);
    var s := After(tenants, steps).value;
    var t :| t in s.txs;
    var u := t;
    if Blocked(s, t) {
      u := SomeoneAbove(s, t);
    }
    step := UnblockedCanStep(s, u);
  }

  lemma SomeoneAbove(s: Sys, t: nat) returns (u: nat)
    requires SysInv(s) && Blocked(s, t)
    ensures u in s.txs && !Blocked(s, u)
  {
    var below := set x | x in s.txs && Blocked(s, x) && Wanted(s, x) <= Wanted(s, t);
    u := SomeoneIsUnblocked(s, t, s.txs.Keys - below);
  }

  // ---------- termination ----------

  const LONGEST := 15

  lemma PlansAreShort(db: Db, req: Request, revenue: Revenue)
    requires Plan(db, req, revenue).Ok?
    ensures |Program(Plan(db, req, revenue).value)| <= LONGEST
  {
  }

  /** How many more steps of its own a transaction can take. */
  function Rank(tx: Tx): int {
    match tx
    case Begun(_) => LONGEST + 2
    case Running(_, _, _, pc, _) => |Code(tx)| - pc + 1
  }

  function Ranks(s: Sys): map<nat, int> {
    map t | t in s.txs :: Rank(s.txs[t])
  }

  ghost function Remaining(s: Sys): int {
    Sum(Ranks(s))
  }

  lemma RanksArePositive(s: Sys)
    requires SysInv(s)
    ensures forall t :: t in Ranks(s) ==> Ranks(s)[t] > 0
  {
    forall t | t in s.txs ensures Rank(s.txs[t]) > 0 {
      assert TxInv(s.db, s.owner, t, s.txs[t]);
    }
  }

  /** A step of one transaction ends it or leaves it with less to do, and touches no other. */
  lemma StepMovesOne(s: Sys, step: Step)
    requires SysInv(s) && Enabled(s, step) && (OwnStep(step) || step.Abort?)
    ensures var s' := Fire(s, step); var t := step.t;
            && t in s.txs
            && (s'.txs == s.txs - {t} || (t in s'.txs && s'.txs == s.txs[t := s'.txs[t]] && Rank(s'.txs[t]) < Rank(s.txs[t])))
  {
    if step.Lookup? && Plan(s.db, s.txs[step.t].req, step.revenue).Ok? {
      PlansAreShort(s.db, s.txs[step.t].req, step.revenue);
    }
  }

  /** Every step a transaction takes, and every abort, lowers the number of steps left. */
  lemma StepsLower(s: Sys, step: Step)
    requires SysInv(s) && Enabled(s, step) && (OwnStep(step) || step.Abort?)
    ensures Remaining(Fire(s, step)) < Remaining(s)
  {
    StepMovesOne(s, step);
    RanksArePositive(s);
    Lowered(s, Fire(s, step), step.t);
  }

  lemma Lowered(s: Sys, s': Sys, t: nat)
    requires t in s.txs && Rank(s.txs[t]) > 0
    requires s'.txs == s.txs - {t} || (t in s'.txs && s'.txs == s.txs[t := s'.txs[t]] && Rank(s'.txs[t]) < Rank(s.txs[t]))
    ensures Remaining(s') < Remaining(s)
  {
    if s'.txs == s.txs - {t} {
      assert Ranks(s') == Ranks(s) - {t};
      SumSplit(Ranks(s), t);
    } else {
      assert Ranks(s') == Ranks(s)[t := Rank(s'.txs[t])];
      SumUpdate(Ranks(s), t, Rank(s'.txs[t]));
    }
  }

  lemma AfterAppend(tenants: map<Id, FeePlan>, steps: seq<Step>, step: Step)
    requires After(tenants, steps).Some? && Enabled(After(tenants, steps).value, step)
    ensures After(tenants, steps + [step]) == Some(Fire(After(tenants, steps).value, step))
  {
    assert (steps + [step])[..|steps + [step]| - 1] == steps;
  }

  /** However they interleave, the transactions in flight can take no more steps than they have left: every run without
      new arrivals comes to an end. */
  lemma {:induction false} RunsAreShort(tenants: map<Id, FeePlan>, steps: seq<Step>, more: seq<Step>)
    requires After(tenants, steps + more).Some? && After(tenants, steps).Some?
    requires forall i :: 0 <= i < |more| ==> OwnStep(more[i]) || more[i].Abort?
    ensures |more| + Remaining(After(tenants, steps + more).value) <= Remaining(After(tenants, steps).value)
  {
    if more == [] {
      assert steps + more == steps;
    } else {
      var rest, step := more[..|more| - 1], more[|more| - 1];
      assert (steps + more)[..|steps + more| - 1] == steps + rest;
      RunsAreShort(tenants, steps, rest);
      ReachableInv(tenants, steps + rest);
      StepsLower(After(tenants, steps + rest).value, step);
    }
  }

  lemma {:induction false} NothingLeft(m: map<nat, int>)
    requires forall t :: t in m ==> m[t] > 0
    ensures Sum(m) >= 0 && (m != map[] ==> Sum(m) > 0)
  {
    if m != map[] {
      var t :| t in m && Sum(m) == m[t] + Sum(m - {t});
      NothingLeft(m - {t});
    }
  }

  lemma OneStepFurther(tenants: map<Id, FeePlan>, steps: seq<Step>) returns (step: Step)
    requires After(tenants, steps).Some? && After(tenants, steps).value.txs != map[]
    ensures OwnStep(step) && After(tenants, steps + [step]).Some?
    ensures 0 <= Remaining(After(tenants, steps + [step]).value) < Remaining(After(tenants, steps).value)
  {
    ReachableInv(tenants, steps);
    step := SomeoneCanStep(tenants, steps);
    AfterAppend(tenants, steps, step);
    StepsLower(After(tenants, steps).value, step);
    ReachableInv(tenants, steps + [step]);
    RanksArePositive(After(tenants, steps + [step]).value);
    NothingLeft(Ranks(After(tenants, steps + [step]).value));
  }

  /** From every reachable state the transactions in flight can all finish by their own steps. */
  lemma {:induction false} EveryoneCanFinish(tenants: map<Id, FeePlan>, steps: seq<Step>) returns (more: seq<Step>)
    requires After(tenants, steps).Some?
    ensures forall i :: 0 <= i < |more| ==> OwnStep(more[i])
    ensures After(tenants, steps + more).Some? && After(tenants, steps + more).value.txs == map[]
    decreases Remaining(After(tenants, steps).value)
  {
    if After(tenants, steps).value.txs == map[] {
      more := [];
      assert steps + [] == steps;
    } else {
      var step := OneStepFurther(tenants, steps);
      var rest := EveryoneCanFinish(tenants, steps + [step]);
      more := [step] + rest;
      assert steps + [step] + rest == steps + more;
    }
  }
}

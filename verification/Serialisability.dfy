/** Every interleaving of transactions commits as if the operations ran one at a time, in commit order. */
module Serialisability {
  import opened Domain
  import opened AtomicLedger
  import opened Sums
  import opened LedgerLaws
  import opened Transactions
  import opened Concurrency
  import Operations

  // ---------- the invariant ----------

  ghost predicate Owns(owner: map<Id, nat>, t: nat, id: Id) {
    id in owner && owner[id] == t
  }

  /** At every moment the private buffer is what the statements so far would produce, run at once on the rows committed
      now; every locked row is still locked; and the buffer only holds versions of locked rows and its own new rows. */
  ghost predicate TxInv(db: Db, owner: map<Id, nat>, t: nat, tx: Tx) {
    tx.Running? ==>
      && Plan(db, tx.req, tx.revenue) == Ok(tx.script)
      && tx.pc <= |Code(tx)|
      && RunAll(db.accounts, NoWork(), Code(tx)[..tx.pc]) == Ok(tx.work)
      && (forall id :: id in Locked(Code(tx), tx.pc) && id in db.accounts ==> Owns(owner, t, id))
      && (forall id :: id in tx.work.rows ==> id in tx.script.inserts || Owns(owner, t, id))
  }

  /** A lock is owned by a transaction that took it, on a committed row. */
  ghost predicate LockInv(s: Sys, id: Id) {
    id in s.owner ==>
      && id in s.db.accounts && s.owner[id] in s.txs
      && var tx := s.txs[s.owner[id]];
         tx.Running? && tx.pc <= |Code(tx)| && id in Locked(Code(tx), tx.pc)
  }

  ghost predicate SysInv(s: Sys) {
    && s.db == Exec(s.db.tenants, s.log)
    && Sound(s.db)
    && (forall t :: t in s.txs ==> TxInv(s.db, s.owner, t, s.txs[t]))
    && (forall id :: LockInv(s, id))
    && (forall t, u :: t in s.txs && u in s.txs && t != u ==> Private(s.txs[t]) !! Names(s.txs[u]))
  }

  // ---------- how the committed database grows ----------

  ghost predicate Grows(db: Db, db': Db) {
    && db'.tenants == db.tenants
    && db.ledger <= db'.ledger
    && forall id :: id in db.accounts ==>
         id in db'.accounts && db'.accounts[id].tenant == db.accounts[id].tenant && db'.accounts[id].kind == db.accounts[id].kind
  }

  lemma ApplyGrows(db: Db, op: Op)
    requires Apply(db, op).Ok?
    ensures Grows(db, Apply(db, op).value)
  {
  }

  lemma HoldStaysFound(db: Db, db': Db, holdId: Id, tenant: Id)
    requires db.ledger <= db'.ledger && FindHold(db.ledger, holdId, tenant).Some?
    ensures FindHold(db'.ledger, holdId, tenant) == FindHold(db.ledger, holdId, tenant)
  {
    assert db'.ledger == db.ledger + db'.ledger[|db.ledger|..];
    Operations.FindAppended(db.ledger, db'.ledger[|db.ledger|..], holdId, tenant);
  }

  /** A plan made earlier is the plan that would be made now. */
  lemma PlanIsStable(db: Db, db': Db, req: Request, revenue: Revenue)
    requires Plan(db, req, revenue).Ok? && Grows(db, db')
    requires forall id :: id in Plan(db, req, revenue).value.inserts ==> id !in db'.accounts
    ensures Plan(db', req, revenue) == Plan(db, req, revenue)
  {
    match req
    case Transfer(_, _, _, _, _) =>
      assert revenue.Opened? ==> revenue.id in Plan(db, req, revenue).value.inserts;
    case Hold(_, _, _, _) =>
    case Capture(_, holdId, _, _, _) => HoldStaysFound(db, db', holdId, req.tenant);
    case Release(_, holdId, _, _) => HoldStaysFound(db, db', holdId, req.tenant);
  }

  lemma PlanInsertsUnused(db: Db, req: Request, revenue: Revenue)
    requires Plan(db, req, revenue).Ok?
    ensures forall id :: id in Plan(db, req, revenue).value.inserts ==> id !in db.accounts && revenue == Opened(id)
  {
  }

  // ---------- reads under lock are stable ----------

  /** The committed rows agree on an id. */
  ghost predicate SameRow(accounts: map<Id, Account>, accounts': map<Id, Account>, id: Id) {
    (id in accounts <==> id in accounts') && (id in accounts ==> accounts[id] == accounts'[id])
  }

  lemma StatementIsStable(accounts: map<Id, Account>, accounts': map<Id, Account>, w: Work, st: Statement)
    requires accounts.Keys <= accounts'.Keys
    requires st.Read? ==> st.guard.check.Exists? || forall id :: id in CheckIds(st.guard.check) ==> SameRow(accounts, accounts', id)
    requires st.Update? ==> SameRow(accounts, accounts', st.posting.id)
    ensures Exec1(accounts, w, st).Ok? ==> Exec1(accounts', w, st) == Exec1(accounts, w, st)
  {
    var view, view' := accounts + w.rows, accounts' + w.rows;
    forall id | SameRow(accounts, accounts', id) ensures SameRow(view, view', id) {
    }
    if st.Read? {
      match st.guard.check
      case AtMost(_, _) =>
      case Exists(_) =>
      case OfTenant(id, _) => assert id in CheckIds(st.guard.check) && SameRow(accounts, accounts', id);
      case BalanceAtLeast(id, _) => assert id in CheckIds(st.guard.check) && SameRow(accounts, accounts', id);
      case HoldAtLeast(id, _) => assert id in CheckIds(st.guard.check) && SameRow(accounts, accounts', id);
    }
  }

  /** What the first n statements produced does not change while the rows they locked do not. */
  lemma {:induction false} PrefixIsStable(accounts: map<Id, Account>, accounts': map<Id, Account>, script: Script, n: nat)
    requires Disciplined(script) && n <= |Program(script)|
    requires accounts.Keys <= accounts'.Keys
    requires forall id :: id in Locked(Program(script), n) ==> SameRow(accounts, accounts', id)
    requires RunAll(accounts, NoWork(), Program(script)[..n]).Ok?
    ensures RunAll(accounts', NoWork(), Program(script)[..n]) == RunAll(accounts, NoWork(), Program(script)[..n])
  {
    var prog := Program(script);
    if n > 0 {
      assert prog[..n] == prog[..n - 1] + [prog[n - 1]];
      RunConcat(accounts, NoWork(), prog[..n - 1], [prog[n - 1]]);
      RunConcat(accounts', NoWork(), prog[..n - 1], [prog[n - 1]]);
      assert Locked(prog, n - 1) <= Locked(prog, n);
      PrefixIsStable(accounts, accounts', script, n - 1);
      var w := RunAll(accounts, NoWork(), prog[..n - 1]).value;
      RunOne(accounts, w, prog[n - 1]);
      RunOne(accounts', w, prog[n - 1]);
      LocksComeFirst(script, n - 1);
      StatementIsStable(accounts, accounts', w, prog[n - 1]);
    }
  }

  lemma LockedAreNamed(tx: Tx)
    requires tx.Running? && Disciplined(tx.script) && tx.pc <= |Code(tx)|
    ensures Locked(Code(tx), tx.pc) <= Names(tx)
  {
    forall id | id in Locked(Code(tx), tx.pc) ensures id in Names(tx) {
      var i :| 0 <= i < tx.pc && Code(tx)[i].Lock? && Code(tx)[i].id == id;
      LocksComeFirst(tx.script, i);
    }
  }

  /** A transaction's invariant survives whatever others commit, as long as its own locked rows are left alone and no
      row it has named springs up. */
  lemma TxIsFramed(db: Db, db': Db, owner: map<Id, nat>, owner': map<Id, nat>, t: nat, tx: Tx)
    requires TxInv(db, owner, t, tx) && Grows(db, db')
    requires forall id :: id in Names(tx) && id in db'.accounts ==> id in db.accounts
    requires forall id :: Owns(owner, t, id) ==> Owns(owner', t, id) && SameRow(db.accounts, db'.accounts, id)
    ensures TxInv(db', owner', t, tx)
  {
    if tx.Running? {
      PlansAreDisciplined(db, tx.req, tx.revenue);
      PlanInsertsUnused(db, tx.req, tx.revenue);
      PlanIsStable(db, db', tx.req, tx.revenue);
      LockedAreNamed(tx);
      forall id | id in Locked(Code(tx), tx.pc) ensures SameRow(db.accounts, db'.accounts, id) {
        assert id in Names(tx);
      }
      PrefixIsStable(db.accounts, db'.accounts, tx.script, tx.pc);
    }
  }

  // ---------- a commit is the atomic operation ----------

  lemma VerdictDecides(db: Db, req: Request, revenue: Revenue)
    requires Plan(db, req, revenue).Ok?
    ensures var script := Plan(db, req, revenue).value;
            Decide(db, req, revenue) == match Verdict(db.accounts, script) case Some(e) => Err(e) case None => Ok(script)
  {
  }

  /** The whole program, run on the rows committed now, gives the outcome of the atomic operation now. */
  lemma ProgramIsAtomic(db: Db, req: Request, revenue: Revenue)
    requires Ledgered(db) && Plan(db, req, revenue).Ok?
    ensures Apply(db, Do(req, revenue)) ==
            match RunAll(db.accounts, NoWork(), Program(Plan(db, req, revenue).value))
            case Err(e) => Err(e)
            case Ok(w) => Ok(Publish(db, w))
  {
    var script := Plan(db, req, revenue).value;
    VerdictDecides(db, req, revenue);
    if Verdict(db.accounts, script).None? {
      Granted(db, req, revenue);
    }
    ProgramMeans(db.accounts, script);
  }

  /** A statement that fails fails the atomic operation, with the same error. */
  lemma FailureIsAtomic(db: Db, tx: Tx, e: Error)
    requires Ledgered(db) && tx.Running? && Plan(db, tx.req, tx.revenue) == Ok(tx.script) && tx.pc < |Code(tx)|
    requires RunAll(db.accounts, NoWork(), Code(tx)[..tx.pc]) == Ok(tx.work)
    requires Exec1(db.accounts, tx.work, Code(tx)[tx.pc]) == Err(e)
    ensures Apply(db, Do(tx.req, tx.revenue)) == Err(e)
  {
    hide Apply, Plan, Program, Exec1;
    FailureStops(db.accounts, Code(tx), tx.pc, tx.work, e);
    ProgramIsAtomic(db, tx.req, tx.revenue);
  }

  lemma FailureStops(accounts: map<Id, Account>, prog: seq<Statement>, pc: nat, w: Work, e: Error)
    requires pc < |prog| && RunAll(accounts, NoWork(), prog[..pc]) == Ok(w) && Exec1(accounts, w, prog[pc]) == Err(e)
    ensures RunAll(accounts, NoWork(), prog) == Err(e)
  {
    hide Exec1;
    assert prog == prog[..pc] + prog[pc..];
    RunConcat(accounts, NoWork(), prog[..pc], prog[pc..]);
  }

  lemma CommitIsAtomic(s: Sys, t: nat)
    requires SysInv(s) && Enabled(s, CommitTx(t))
    ensures Apply(s.db, Do(s.txs[t].req, s.txs[t].revenue)) == Ok(Fire(s, CommitTx(t)).db)
  {
    var tx := s.txs[t];
    assert TxInv(s.db, s.owner, t, tx);
    assert Code(tx)[..tx.pc] == Code(tx);
    ProgramIsAtomic(s.db, tx.req, tx.revenue);
  }

  // ---------- every step keeps the invariant ----------

  lemma DropKeeps(s: Sys, t: nat)
    requires SysInv(s) && t in s.txs
    ensures SysInv(Drop(s, t))
  {
    var s' := Drop(s, t);
    forall u | u in s'.txs ensures TxInv(s'.db, s'.owner, u, s'.txs[u]) {
      assert TxInv(s.db, s.owner, u, s.txs[u]);
    }
    forall id ensures LockInv(s', id) {
      assert LockInv(s, id);
    }
  }

  lemma ArriveKeeps(s: Sys, t: nat, req: Request)
    requires SysInv(s) && Enabled(s, Arrive(t, req))
    ensures SysInv(Fire(s, Arrive(t, req)))
  {
    var s' := Fire(s, Arrive(t, req));
    forall u | u in s'.txs ensures TxInv(s'.db, s'.owner, u, s'.txs[u]) {
      assert u != t ==> TxInv(s.db, s.owner, u, s.txs[u]);
    }
    forall id ensures LockInv(s', id) {
      assert LockInv(s, id);
    }
  }

  lemma PlanNames(db: Db, req: Request, revenue: Revenue)
    requires Ledgered(db) && Plan(db, req, revenue).Ok?
    ensures var script := Plan(db, req, revenue).value;
            forall id :: id in script.locks ==> id in RequestIds(req) || id in db.accounts || id in script.inserts
  {
    match req
    case Transfer(_, _, _, _, _) =>
    case Hold(_, _, _, _) =>
    case Capture(_, holdId, _, _, _) => FoundHold(db.ledger, holdId, req.tenant);
    case Release(_, holdId, _, _) => FoundHold(db.ledger, holdId, req.tenant);
  }

  lemma LookupKeeps(s: Sys, t: nat, revenue: Revenue)
    requires SysInv(s) && Enabled(s, Lookup(t, revenue))
    ensures SysInv(Fire(s, Lookup(t, revenue)))
  {
    hide Plan, Program;
    var req := s.txs[t].req;
    var s' := Fire(s, Lookup(t, revenue));
    if Plan(s.db, req, revenue).Ok? {
      var script := Plan(s.db, req, revenue).value;
      PlanNames(s.db, req, revenue);
      PlanInsertsUnused(s.db, req, revenue);
      forall u | u in s'.txs ensures TxInv(s'.db, s'.owner, u, s'.txs[u]) {
        assert u != t ==> TxInv(s.db, s.owner, u, s.txs[u]);
      }
      forall id ensures LockInv(s', id) {
        assert LockInv(s, id);
      }
      forall u | u in s.txs && u != t
        ensures Private(s'.txs[t]) !! Names(s.txs[u]) && Private(s.txs[u]) !! Names(s'.txs[t])
      {
        assert TxInv(s.db, s.owner, u, s.txs[u]);
        if s.txs[u].Running? {
          PlanInsertsUnused(s.db, s.txs[u].req, s.txs[u].revenue);
        }
        assert Private(s.txs[u]) <= Names(s.txs[u]);
        assert Private(s.txs[u]) !! Names(s.txs[t]);
      }
    } else {
      DropKeeps(s, t);
    }
  }

  lemma PrefixGrows(accounts: map<Id, Account>, prog: seq<Statement>, pc: nat, w: Work)
    requires pc < |prog| && RunAll(accounts, NoWork(), prog[..pc]) == Ok(w)
    ensures RunAll(accounts, NoWork(), prog[..pc + 1]) == Exec1(accounts, w, prog[pc])
    ensures Locked(prog, pc + 1) == Locked(prog, pc) + if prog[pc].Lock? then {prog[pc].id} else {}
  {
    assert prog[..pc + 1] == prog[..pc] + [prog[pc]];
    RunConcat(accounts, NoWork(), prog[..pc], [prog[pc]]);
    RunOne(accounts, w, prog[pc]);
  }

  /** A statement adds to the buffer only its own new rows or versions of rows it has locked. */
  lemma BufferStaysOwn(s: Sys, t: nat, w: Work)
    requires t in s.txs && s.txs[t].Running? && s.txs[t].pc < |Code(s.txs[t])| && TxInv(s.db, s.owner, t, s.txs[t])
    requires Exec1(s.db.accounts, s.txs[t].work, Code(s.txs[t])[s.txs[t].pc]) == Ok(w)
    ensures forall id :: id in w.rows ==> id in s.txs[t].script.inserts || Owns(s.owner, t, id)
  {
    var tx := s.txs[t];
    PlansAreDisciplined(s.db, tx.req, tx.revenue);
    LocksComeFirst(tx.script, tx.pc);
  }

  /** The transaction's own invariant after one more statement. */
  lemma AdvanceKeepsOwn(s: Sys, t: nat, w: Work)
    requires SysInv(s) && Enabled(s, Advance(t))
    requires Exec1(s.db.accounts, s.txs[t].work, Code(s.txs[t])[s.txs[t].pc]) == Ok(w)
    ensures var s' := Fire(s, Advance(t));
            t in s'.txs && TxInv(s'.db, s'.owner, t, s'.txs[t])
  {
    hide Plan, Program, Exec1;
    var tx := s.txs[t];
    assert TxInv(s.db, s.owner, t, tx);
    BufferStaysOwn(s, t, w);
    PrefixGrows(s.db.accounts, Code(tx), tx.pc, tx.work);
  }

  lemma AdvanceKeepsLocks(s: Sys, t: nat, id: Id)
    requires SysInv(s) && Enabled(s, Advance(t))
    requires Exec1(s.db.accounts, s.txs[t].work, Code(s.txs[t])[s.txs[t].pc]).Ok?
    ensures LockInv(Fire(s, Advance(t)), id)
  {
    var tx := s.txs[t];
    assert LockInv(s, id) && TxInv(s.db, s.owner, t, tx);
    PrefixGrows(s.db.accounts, Code(tx), tx.pc, tx.work);
  }

  lemma AdvanceFramesOthers(s: Sys, t: nat, u: nat)
    requires SysInv(s) && Enabled(s, Advance(t)) && u in s.txs && u != t
    requires Exec1(s.db.accounts, s.txs[t].work, Code(s.txs[t])[s.txs[t].pc]).Ok?
    ensures var s' := Fire(s, Advance(t));
            u in s'.txs && s'.txs[u] == s.txs[u] && TxInv(s'.db, s'.owner, u, s.txs[u])
  {
    assert TxInv(s.db, s.owner, u, s.txs[u]);
  }

  lemma AdvanceKeeps(s: Sys, t: nat)
    requires SysInv(s) && Enabled(s, Advance(t))
    ensures SysInv(Fire(s, Advance(t)))
  {
    var tx := s.txs[t];
    match Exec1(s.db.accounts, tx.work, Code(tx)[tx.pc])
    case Err(_) => DropKeeps(s, t);
    case Ok(w) =>
      var s' := Fire(s, Advance(t));
      AdvanceKeepsOwn(s, t, w);
      forall u | u in s.txs && u != t ensures TxInv(s'.db, s'.owner, u, s'.txs[u]) {
        AdvanceFramesOthers(s, t, u);
      }
      forall id ensures LockInv(s', id) {
        AdvanceKeepsLocks(s, t, id);
      }
  }

  /** What another transaction sees of a commit: its own locked rows are untouched, and no row it named appears. */
  lemma CommitFramesOthers(s: Sys, t: nat, u: nat)
    requires SysInv(s) && Enabled(s, CommitTx(t)) && u in s.txs && u != t
    ensures var s' := Fire(s, CommitTx(t));
            TxInv(s'.db, s'.owner, u, s.txs[u])
  {
    hide Plan, Program, RunAll, Apply;
    var tx := s.txs[t];
    var s' := Fire(s, CommitTx(t));
    CommitIsAtomic(s, t);
    ApplyGrows(s.db, Do(tx.req, tx.revenue));
    assert TxInv(s.db, s.owner, t, tx) && TxInv(s.db, s.owner, u, s.txs[u]);
    PlanInsertsUnused(s.db, tx.req, tx.revenue);
    assert Private(tx) !! Names(s.txs[u]);
    forall id | id in Names(s.txs[u]) && id in s'.db.accounts ensures id in s.db.accounts {
      assert LockInv(s, id);
    }
    forall id | Owns(s.owner, u, id) ensures Owns(s'.owner, u, id) && SameRow(s.db.accounts, s'.db.accounts, id) {
      assert LockInv(s, id);
    }
    TxIsFramed(s.db, s'.db, s.owner, s'.owner, u, s.txs[u]);
  }

  lemma CommitKeeps(s: Sys, t: nat)
    requires SysInv(s) && Enabled(s, CommitTx(t))
    ensures SysInv(Fire(s, CommitTx(t)))
  {
    var tx := s.txs[t];
    var op := Do(tx.req, tx.revenue);
    var s' := Fire(s, CommitTx(t));
    CommitIsAtomic(s, t);
    ApplyGrows(s.db, op);
    ExecAppend(s.db.tenants, s.log, op);
    ApplyKeepsLaws(s.db, op);
    forall u | u in s'.txs ensures TxInv(s'.db, s'.owner, u, s'.txs[u]) {
      CommitFramesOthers(s, t, u);
    }
    forall id ensures LockInv(s', id) {
      assert LockInv(s, id);
    }
  }

  lemma OpenFramesOthers(s: Sys, step: Step, u: nat)
    requires SysInv(s) && step.OpenAccount? && Enabled(s, step) && u in s.txs
    ensures TxInv(Fire(s, step).db, s.owner, u, s.txs[u])
  {
    var op := Open(step.id, step.tenant, step.kind, step.opening);
    var db' := Fire(s, step).db;
    assert TxInv(s.db, s.owner, u, s.txs[u]);
    if Apply(s.db, op).Ok? {
      ApplyGrows(s.db, op);
      forall id | Owns(s.owner, u, id) ensures SameRow(s.db.accounts, db'.accounts, id) {
        assert LockInv(s, id);
      }
      TxIsFramed(s.db, db', s.owner, s.owner, u, s.txs[u]);
    }
  }

  lemma OpenKeeps(s: Sys, step: Step)
    requires SysInv(s) && step.OpenAccount? && Enabled(s, step)
    ensures SysInv(Fire(s, step))
  {
    var op := Open(step.id, step.tenant, step.kind, step.opening);
    var s' := Fire(s, step);
    if Apply(s.db, op).Ok? {
      ExecAppend(s.db.tenants, s.log, op);
      ApplyKeepsLaws(s.db, op);
      ApplyGrows(s.db, op);
      forall u | u in s'.txs ensures TxInv(s'.db, s'.owner, u, s'.txs[u]) {
        OpenFramesOthers(s, step, u);
      }
      forall id ensures LockInv(s', id) {
        assert LockInv(s, id);
      }
    }
  }

  lemma StepKeeps(s: Sys, step: Step)
    requires SysInv(s) && Enabled(s, step)
    ensures SysInv(Fire(s, step))
  {
    match step
    case Arrive(t, req) => ArriveKeeps(s, t, req);
    case Lookup(t, revenue) => LookupKeeps(s, t, revenue);
    case Advance(t) => AdvanceKeeps(s, t);
    case CommitTx(t) => CommitKeeps(s, t);
    case Abort(t) => DropKeeps(s, t);
    case OpenAccount(_, _, _, _) => OpenKeeps(s, step);
  }

  lemma {:induction false} ReachableInv(tenants: map<Id, FeePlan>, steps: seq<Step>)
    requires After(tenants, steps).Some?
    ensures SysInv(After(tenants, steps).value) && After(tenants, steps).value.db.tenants == tenants
  {
    if steps == [] {
      EveryRunIsSound(tenants, []);
    } else {
      var rest, step := steps[..|steps| - 1], steps[|steps| - 1];
      ReachableInv(tenants, rest);
      StepKeeps(After(tenants, rest).value, step);
    }
  }

  // ---------- the theorems ----------

  /** Serialisability, step by step: in every reachable state a commit changes the committed database exactly as the
      atomic operation applied to it at that moment, and no other step of a transaction changes it at all. */
  lemma StepsAreAtomic(tenants: map<Id, FeePlan>, steps: seq<Step>, step: Step)
    requires After(tenants, steps).Some? && Enabled(After(tenants, steps).value, step)
    ensures var s := After(tenants, steps).value; var s' := Fire(s, step);
            match step
            case CommitTx(t) => Apply(s.db, Do(s.txs[t].req, s.txs[t].revenue)) == Ok(s'.db)
            case OpenAccount(id, tenant, kind, opening) => s'.db == Next(s.db, Open(id, tenant, kind, opening))
            case _ => s'.db == s.db
  {
    ReachableInv(tenants, steps);
    if step.CommitTx? {
      CommitIsAtomic(After(tenants, steps).value, step.t);
    }
  }

  /** Serialisability of whole interleavings: the committed database is the one the committed operations leave behind
      when run one after another. */
  lemma InterleavingsAreSerial(tenants: map<Id, FeePlan>, steps: seq<Step>)
    requires After(tenants, steps).Some?
    ensures After(tenants, steps).value.db == Exec(tenants, After(tenants, steps).value.log)
  {
    ReachableInv(tenants, steps);
  }

  /** A transaction that a lookup or a statement refuses is refused with the error of the atomic operation at that moment. */
  lemma RefusalsAreAtomic(tenants: map<Id, FeePlan>, steps: seq<Step>, step: Step)
    requires After(tenants, steps).Some? && Enabled(After(tenants, steps).value, step)
    ensures var s := After(tenants, steps).value;
            match step
            case Lookup(t, revenue) =>
              var req := s.txs[t].req;
              Plan(s.db, req, revenue).Err? ==>
                Fire(s, step) == Drop(s, t) && Apply(s.db, Do(req, revenue)) == Err(Plan(s.db, req, revenue).error)
            case Advance(t) =>
              var tx := s.txs[t];
              var r := Exec1(s.db.accounts, tx.work, Code(tx)[tx.pc]);
              r.Err? ==> Fire(s, step) == Drop(s, t) && Apply(s.db, Do(tx.req, tx.revenue)) == Err(r.error)
            case _ => true
  {
    if step.Advance? {
      StatementRefusal(tenants, steps, step.t);
    }
  }

  lemma StatementRefusal(tenants: map<Id, FeePlan>, steps: seq<Step>, t: nat)
    requires After(tenants, steps).Some? && Enabled(After(tenants, steps).value, Advance(t))
    ensures var s := After(tenants, steps).value; var tx := s.txs[t];
            Exec1(s.db.accounts, tx.work, Code(tx)[tx.pc]).Err? ==>
              Apply(s.db, Do(tx.req, tx.revenue)) == Err(Exec1(s.db.accounts, tx.work, Code(tx)[tx.pc]).error)
  {
    ReachableInv(tenants, steps);
    var s := After(tenants, steps).value;
    var tx := s.txs[t];
    assert TxInv(s.db, s.owner, t, tx);
    match Exec1(s.db.accounts, tx.work, Code(tx)[tx.pc])
    case Err(e) => FailureIsAtomic(s.db, tx, e);
    case Ok(_) =>
  }

  /** Every accounting law of the sequential runs holds in every state of every interleaving. */
  lemma InterleavingsAreSound(tenants: map<Id, FeePlan>, steps: seq<Step>)
    requires After(tenants, steps).Some?
    ensures Sound(After(tenants, steps).value.db)
  {
    ReachableInv(tenants, steps);
  }

  lemma CommitSparesLockedRows(s: Sys, t: nat, u: nat, id: Id)
    requires SysInv(s) && Enabled(s, CommitTx(t)) && Owns(s.owner, u, id) && u != t
    ensures SameRow(s.db.accounts, Fire(s, CommitTx(t)).db.accounts, id)
  {
    assert LockInv(s, id) && TxInv(s.db, s.owner, t, s.txs[t]);
    PlanInsertsUnused(s.db, s.txs[t].req, s.txs[t].revenue);
  }

  lemma OpenSparesRows(s: Sys, step: Step, id: Id)
    requires SysInv(s) && step.OpenAccount? && Enabled(s, step) && id in s.db.accounts
    ensures SameRow(s.db.accounts, Fire(s, step).db.accounts, id)
  {
  }

  lemma LocksStay(s: Sys, step: Step, t: nat, id: Id)
    requires Enabled(s, step) && Owns(s.owner, t, id) && t in Fire(s, step).txs
    ensures Owns(Fire(s, step).owner, t, id)
  {
  }

  /** A row under lock keeps its committed value until its owner finishes, whatever step anyone takes. */
  lemma LockedRowsStay(tenants: map<Id, FeePlan>, steps: seq<Step>, step: Step, t: nat, id: Id)
    requires After(tenants, steps).Some? && Enabled(After(tenants, steps).value, step)
    requires Owns(After(tenants, steps).value.owner, t, id) && t in Fire(After(tenants, steps).value, step).txs
    ensures var s := After(tenants, steps).value; var s' := Fire(s, step);
            Owns(s'.owner, t, id) && SameRow(s.db.accounts, s'.db.accounts, id)
  {
    ReachableInv(tenants, steps);
    var s := After(tenants, steps).value;
    assert LockInv(s, id);
    LocksStay(s, step, t, id);
    match step
    case CommitTx(u) => CommitSparesLockedRows(s, u, t, id);
    case OpenAccount(_, _, _, _) => OpenSparesRows(s, step, id);
    case _ => StepsAreAtomic(tenants, steps, step);
  }

  /** What find-or-create yields, in terms of the rows: an existing platform revenue account of the tenant if there is one,
      and a new one only if there is none. */
  lemma RevenueIsFound(s: Sys, t: nat, revenue: Revenue)
    requires Enabled(s, Lookup(t, revenue))
    ensures var req := s.txs[t].req;
            match revenue
            case NoFee => req.Transfer? && req.tenant in s.db.tenants ==> Operations.FeeOf(s.db, req) == 0
            case Found(id) => id in s.db.accounts && s.db.accounts[id].tenant == req.tenant && s.db.accounts[id].kind == PlatformRevenue
            case Opened(id) =>
              id !in s.db.accounts &&
              forall other :: other in s.db.accounts && s.db.accounts[other].tenant == req.tenant ==>
                s.db.accounts[other].kind != PlatformRevenue
  {
    if revenue.Opened? {
      forall other | other in s.db.accounts && s.db.accounts[other].tenant == s.txs[t].req.tenant
        ensures s.db.accounts[other].kind != PlatformRevenue
      {
        assert !IsRevenue(s.db.accounts, other, s.txs[t].req.tenant);
      }
    }
  }

  /** In every state of every interleaving, every fee went to a platform revenue account of its tenant. */
  lemma InterleavedFeesGoToRevenue(tenants: map<Id, FeePlan>, steps: seq<Step>)
    requires After(tenants, steps).Some?
    ensures Operations.FeesAreRevenue(After(tenants, steps).value.db)
  {
    InterleavingsAreSerial(tenants, steps);
    Operations.FeesGoToRevenue(tenants, After(tenants, steps).value.log);
  }
}

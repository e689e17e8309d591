/** Many transactions of the transfer service in flight at once, one statement at a time, under row locks. */
module Concurrency {
  import opened Domain
  import opened AtomicLedger
  import opened Sums
  import opened LedgerLaws
  import opened Transactions
  import Fees
  import Operations

  /** A transaction that has not made its lookups, or one that is running the statements of its script. */
  datatype Tx =
    | Begun(req: Request)
    | Running(req: Request, revenue: Revenue, script: Script, pc: nat, work: Work)

  /** The committed database, the transactions in flight, the owner of each row lock, and the history of commits. */
  datatype Sys = Sys(db: Db, txs: map<nat, Tx>, owner: map<Id, nat>, log: seq<Op>)

  datatype Step =
    | Arrive(t: nat, req: Request)
    | Lookup(t: nat, revenue: Revenue)     // tenant, revenue account or hold entry; validation
    | Advance(t: nat)                      // the next statement
    | CommitTx(t: nat)
    | Abort(t: nat)                        // any failure, at any point
    | OpenAccount(id: Id, tenant: Id, kind: AccountType, opening: int)

  // ---------- ids ----------

  function RequestIds(req: Request): set<Id> {
    match req
    case Transfer(_, sender, receiver, _, _) => {sender, receiver}
    case Hold(_, account, _, _) => {account}
    case Capture(_, _, receiver, _, _) => {receiver}
    case Release(_, _, _, _) => {}
  }

  /** The account ids a transaction has been given or has drawn. */
  function Names(tx: Tx): set<Id> {
    match tx
    case Begun(req) => RequestIds(req)
    case Running(req, _, script, _, _) => RequestIds(req) + (set id | id in script.locks) + script.inserts.Keys
  }

  /** The ids of rows it has inserted or is about to insert, visible to no one else. */
  function Private(tx: Tx): set<Id> {
    match tx
    case Begun(_) => {}
    case Running(_, _, script, _, _) => script.inserts.Keys
  }

  function Used(s: Sys): set<Id> {
    s.db.accounts.Keys + set t, id | t in s.txs && id in Names(s.txs[t]) :: id
  }

  // ---------- steps ----------

  function Code(tx: Tx): seq<Statement>
    requires tx.Running?
  {
    Program(tx.script)
  }

  /** The row the transaction waits for, if its next statement is a lock that another transaction holds. */
  predicate Blocked(s: Sys, t: nat) {
    && t in s.txs && s.txs[t].Running? && s.txs[t].pc < |Code(s.txs[t])|
    && var st := Code(s.txs[t])[s.txs[t].pc];
       st.Lock? && st.id in s.owner && s.owner[st.id] != t
  }

  /** What find-or-create may yield: nothing without a fee, a committed revenue account if one is visible, else a new
      row under an unused id. */
  predicate MayFind(s: Sys, req: Request, revenue: Revenue) {
    if req.Transfer? && req.tenant in s.db.tenants && Operations.FeeOf(s.db, req) > 0 then
      if exists id :: id in s.db.accounts && IsRevenue(s.db.accounts, id, req.tenant)
      then revenue.Found? && IsRevenue(s.db.accounts, revenue.id, req.tenant)
      else revenue.Opened? && revenue.id !in Used(s)
    else revenue.NoFee?
  }

  /** Random ids are not guessed: a request never names a row that is still private to another transaction, and new
      rows get ids that nobody has named. */
  predicate Enabled(s: Sys, step: Step) {
    match step
    case Arrive(t, req) => t !in s.txs && forall u :: u in s.txs ==> RequestIds(req) !! Private(s.txs[u])
    case Lookup(t, revenue) => t in s.txs && s.txs[t].Begun? && MayFind(s, s.txs[t].req, revenue)
    case Advance(t) => t in s.txs && s.txs[t].Running? && s.txs[t].pc < |Code(s.txs[t])| && !Blocked(s, t)
    case CommitTx(t) => t in s.txs && s.txs[t].Running? && s.txs[t].pc == |Code(s.txs[t])|
    case Abort(t) => t in s.txs
    case OpenAccount(id, _, _, _) => id !in Used(s)
  }

  /** The transaction ends: its buffer is gone and its locks are free. */
  function Drop(s: Sys, t: nat): Sys {
    s.(txs := s.txs - {t}, owner := map id | id in s.owner && s.owner[id] != t :: s.owner[id])
  }

  function Publish(db: Db, w: Work): Db {
    db.(accounts := db.accounts + w.rows, ledger := db.ledger + w.entries, outbox := db.outbox + w.events)
  }

  function DoLookup(s: Sys, t: nat, revenue: Revenue): Sys
    requires t in s.txs
  {
    var req := s.txs[t].req;
    match Plan(s.db, req, revenue)
    case Err(_) => Drop(s, t)
    case Ok(script) => s.(txs := s.txs[t := Running(req, revenue, script, 0, NoWork())])
  }

  /** A lock statement takes the lock of a committed row and finds nothing to lock otherwise. */
  function DoAdvance(s: Sys, t: nat): Sys
    requires t in s.txs && s.txs[t].Running? && s.txs[t].pc < |Code(s.txs[t])|
  {
    var tx := s.txs[t];
    var st := Code(tx)[tx.pc];
    match Exec1(s.db.accounts, tx.work, st)
    case Err(_) => Drop(s, t)
    case Ok(w) =>
      s.(txs := s.txs[t := tx.(pc := tx.pc + 1, work := w)],
         owner := if st.Lock? && st.id in s.db.accounts then s.owner[st.id := t] else s.owner)
  }

  function DoCommit(s: Sys, t: nat): Sys
    requires t in s.txs && s.txs[t].Running?
  {
    var tx := s.txs[t];
    Drop(s.(db := Publish(s.db, tx.work), log := s.log + [Do(tx.req, tx.revenue)]), t)
  }

  function Fire(s: Sys, step: Step): Sys
    requires Enabled(s, step)
  {
    match step
    case Arrive(t, req) => s.(txs := s.txs[t := Begun(req)])
    case Lookup(t, revenue) => DoLookup(s, t, revenue)
    case Advance(t) => DoAdvance(s, t)
    case CommitTx(t) => DoCommit(s, t)
    case Abort(t) => Drop(s, t)
    case OpenAccount(id, tenant, kind, opening) =>
      var op := Open(id, tenant, kind, opening);
      match Apply(s.db, op)
      case Err(_) => s
      case Ok(db) => s.(db := db, log := s.log + [op])
  }

  function Start(tenants: map<Id, FeePlan>): Sys {
    Sys(Genesis(tenants), map[], map[], [])
  }

  /** The state after an interleaving, if each of its steps was possible when it was taken. */
  function After(tenants: map<Id, FeePlan>, steps: seq<Step>): Option<Sys> {
    if steps == [] then Some(Start(tenants))
    else
      match After(tenants, steps[..|steps| - 1])
      case None => None
      case Some(s) => if Enabled(s, steps[|steps| - 1]) then Some(Fire(s, steps[|steps| - 1])) else None
  }

  // ---------- the lock discipline of the programs ----------

  function CheckIds(c: Check): set<Id> {
    match c
    case AtMost(_, _) => {}
    case Exists(id) => {id}
    case OfTenant(id, _) => {id}
    case BalanceAtLeast(id, _) => {id}
    case HoldAtLeast(id, _) => {id}
  }

  /** The rows a script checks and updates are among those it locks, in increasing order; before locking it only tests
      that rows exist. */
  ghost predicate Disciplined(script: Script) {
    && Increasing(script.locks)
    && (forall g :: g in script.before ==> g.check.Exists?)
    && (forall g, id :: g in script.checks && id in CheckIds(g.check) ==> id in script.locks)
    && (forall p :: p in script.postings ==> p.id in script.locks)
  }

  lemma TransfersAreDisciplined(req: Request, fee: int, revenue: Revenue)
    requires req.Transfer?
    ensures Disciplined(TransferScript(req, fee, revenue))
  {
    var script := TransferScript(req, fee, revenue);
    assert req.sender in [req.sender, req.receiver] && req.receiver in [req.sender, req.receiver];
    assert req.sender in script.locks && req.receiver in script.locks;
    assert !revenue.NoFee? ==> revenue.id in [revenue.id] && revenue.id in script.locks;
    forall g, id | g in script.checks && id in CheckIds(g.check) ensures id in script.locks {
      assert id == req.sender || id == req.receiver;
    }
  }

  lemma CapturesAreDisciplined(req: Request, sender: Id, held: int)
    requires req.Capture?
    ensures Disciplined(CaptureScript(req, sender, held))
  {
    var script := CaptureScript(req, sender, held);
    assert sender in [sender, req.receiver] && req.receiver in [sender, req.receiver];
    assert sender in script.locks && req.receiver in script.locks;
    forall g, id | g in script.checks && id in CheckIds(g.check) ensures id in script.locks {
      assert id == sender || id == req.receiver;
    }
  }

  lemma PlansAreDisciplined(db: Db, req: Request, revenue: Revenue)
    requires Plan(db, req, revenue).Ok?
    ensures Disciplined(Plan(db, req, revenue).value)
  {
    match req
    case Transfer(_, _, _, _, _) => TransfersAreDisciplined(req, Operations.FeeOf(db, req), revenue);
    case Hold(_, _, _, _) =>
    case Capture(_, holdId, _, _, _) =>
      var entry := FindHold(db.ledger, holdId, req.tenant).value;
      CapturesAreDisciplined(req, entry.account, Abs(entry.amount));
    case Release(_, _, _, _) =>
  }

  /** The lock statements among the first n. */
  function Locked(stmts: seq<Statement>, n: nat): set<Id>
    requires n <= |stmts|
  {
    set i | 0 <= i < n && stmts[i].Lock? :: stmts[i].id
  }

  /** Every statement of a program that depends on the contents of a row comes after the lock of that row. */
  lemma LocksComeFirst(script: Script, i: nat)
    requires Disciplined(script) && i < |Program(script)|
    ensures var st := Program(script)[i];
            && (st.Read? ==> st.guard.check.Exists? || CheckIds(st.guard.check) <= Locked(Program(script), i))
            && (st.Update? ==> st.posting.id in Locked(Program(script), i))
            && (st.Lock? ==> st.id in script.locks)
            && (st.Insert? ==> st.rows == script.inserts)
  {
    var prog := Program(script);
    var a := |Prologue(script)|;
    var b := a + |script.locks|;
    if b <= i {
      forall id | id in script.locks ensures id in Locked(prog, i) {
        var k :| 0 <= k < |script.locks| && script.locks[k] == id;
        assert prog[a + k] == Lock(id);
      }
      var c := b + |script.checks|;
      if i < c {
        assert prog[i] == Read(script.checks[i - b]) && script.checks[i - b] in script.checks;
      } else if i < c + |script.postings| {
        assert prog[i] == Update(script.postings[i - c]) && script.postings[i - c] in script.postings;
      }
    } else if a <= i {
      assert prog[i] == Lock(script.locks[i - a]);
    } else if i < |script.before| {
      assert prog[i] == Read(script.before[i]) && script.before[i] in script.before;
    }
  }

  /** Locks are taken in strictly increasing order. */
  lemma LocksIncrease(script: Script, i: nat, j: nat)
    requires Disciplined(script) && i < j < |Program(script)| && Program(script)[i].Lock? && Program(script)[j].Lock?
    ensures Program(script)[i].id < Program(script)[j].id
  {
    var a := |Prologue(script)|;
    assert forall k :: 0 <= k < |Program(script)| && Program(script)[k].Lock? ==>
             a <= k < a + |script.locks| && Program(script)[k] == Lock(script.locks[k - a]);
  }
}

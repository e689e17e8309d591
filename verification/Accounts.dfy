/** Account creation and the tenant-wide balance check. */
module Accounts {
  import opened Domain
  import opened AtomicLedger
  import opened Sums
  import opened LedgerLaws
  import opened Operations
  import opened Tables
  import Rounding

  /** Cents as the decimal amount the services compare. */
  function Units(cents: int): real {
    cents as real / 100.0
  }

  datatype Report = Report(isBalanced: bool, totalLedgerSum: int, totalAccounts: nat)

  /** The accounts of a tenant. */
  function IdsOf(accounts: map<Id, Account>, t: Id): set<Id> {
    set id | id in accounts && accounts[id].tenant == t
  }

  /** The tolerance of a tenth of a cent accepts exactly zero. */
  function TenantReport(db: Db, tenant: Id): (report: Report)
    ensures report.isBalanced <==> EntrySum(db.ledger, EntriesOf(tenant)) == 0
  {
    var totalSum := EntrySum(db.ledger, EntriesOf(tenant));
    Report(Rounding.Abs(Units(totalSum)) < 0.001, totalSum, |IdsOf(db.accounts, tenant)|)
  }

  class AccountsService {
    const db: Database

    constructor (db: Database)
      ensures this.db == db
    {
      this.db := db;
    }

    method CreateAccount(tenantId: Id, userId: Id, kind: Option<AccountType>, initialBalance: int, newId: Id)
      returns (r: Result<Id>)
      requires newId !in db.accounts
      modifies db
      ensures userId == NO_ID || kind.None? ==> r == Err(FieldRequired) && db.Contents() == old(db.Contents())
      ensures r.Ok? ==>
                && r.value == newId && kind.Some? && initialBalance >= 0
                && db.accounts == old(db.accounts)[newId := Account(tenantId, kind.value, initialBalance, initialBalance, 0)]
                && db.ledger == old(db.ledger) && db.outbox == old(db.outbox)
      ensures userId != NO_ID && kind.Some? ==>
                match Apply(old(db.Contents()), Open(newId, tenantId, kind.value, initialBalance))
                case Ok(after) => r == Ok(newId) && db.Contents() == after
                case Err(e) => r == Err(e) && db.Contents() == old(db.Contents())
    {
      if tenantId == NO_ID || userId == NO_ID || kind.None? { return Err(FieldRequired); }
      if initialBalance < 0 { return Err(InvalidOpening); }
      if tenantId !in db.tenants { return Err(TenantNotFound); }
      db.CreateAccount(newId, Account(tenantId, kind.value, initialBalance, initialBalance, 0));
      r := Ok(newId);
    }

    /** The aggregate is one pass over the ledger. */
    method ReconcileTenantBalance(tenantId: Id) returns (report: Report)
      ensures report == TenantReport(db.Contents(), tenantId)
    {
      var totalSum := 0;
      var i := 0;
      while i < |db.ledger|
        invariant 0 <= i <= |db.ledger|
        invariant totalSum == EntrySum(db.ledger[..i], EntriesOf(tenantId))
      {
        assert db.ledger[..i + 1][..i] == db.ledger[..i];
        if db.ledger[i].tenant == tenantId {
          totalSum := totalSum + db.ledger[i].amount;
        }
        i := i + 1;
      }
      assert db.ledger[..i] == db.ledger;
      var accounts := set id | id in db.accounts && db.accounts[id].tenant == tenantId;
      assert accounts == IdsOf(db.accounts, tenantId);
      report := Report(Rounding.Abs(Units(totalSum)) < 0.001, totalSum, |accounts|);
    }
  }

  /** What the tenant check measures: on every run the tenant's ledger sum is minus the money on hold and the money
      ever captured, and the tenant is reported balanced exactly when these cancel. */
  lemma TenantVerdict(tenants: map<Id, FeePlan>, ops: seq<Op>, t: Id)
    ensures var db := Exec(tenants, ops); var report := TenantReport(db, t);
            var outstanding := ColumnSum(db.accounts, t, Held) + Tally(db.outbox, CapturedIn(t));
            report.totalLedgerSum == -outstanding && (report.isBalanced <==> outstanding == 0)
  {
    EveryRunIsSound(tenants, ops);
    assert TenantLaws(Exec(tenants, ops), t);
  }

  predicate TransfersOnly(ops: seq<Op>) {
    forall i :: 0 <= i < |ops| ==> ops[i].Open? || ops[i].req.Transfer?
  }

  lemma TransferHoldsNothing(db: Db, req: Request, revenue: Revenue, t: Id)
    requires req.Transfer? && Apply(db, Do(req, revenue)).Ok?
    requires forall id :: id in db.accounts ==> db.accounts[id].hold == 0
    ensures var db' := Apply(db, Do(req, revenue)).value;
            && Tally(db'.outbox, CapturedIn(t)) == Tally(db.outbox, CapturedIn(t))
            && forall id :: id in db'.accounts ==> db'.accounts[id].hold == 0
  {
    hide Apply;
    TransferEffect(db, req, revenue);
    TallyAppend(db.outbox, Apply(db, Do(req, revenue)).value.outbox[|db.outbox|], CapturedIn(t));
  }

  lemma {:induction false} TransfersHoldNothing(tenants: map<Id, FeePlan>, ops: seq<Op>, t: Id)
    requires TransfersOnly(ops)
    ensures var db := Exec(tenants, ops);
            Tally(db.outbox, CapturedIn(t)) == 0 && forall id :: id in db.accounts ==> db.accounts[id].hold == 0
  {
    if ops != [] {
      var rest, op := ops[..|ops| - 1], ops[|ops| - 1];
      TransfersHoldNothing(tenants, rest, t);
      hide Decide;
      var db := Exec(tenants, rest);
      if op.Do? && Apply(db, op).Ok? {
        TransferHoldsNothing(db, op.req, op.revenue, t);
      }
    }
  }

  lemma {:induction false} SumOfZeros(m: map<Id, int>)
    requires forall k :: k in m ==> m[k] == 0
    ensures Sum(m) == 0
  {
    if m != map[] {
      var k :| k in m && Sum(m) == m[k] + Sum(m - {k});
      SumOfZeros(m - {k});
    }
  }

  /** A run of openings and transfers only is always reported balanced. */
  lemma TransfersAreBalanced(tenants: map<Id, FeePlan>, ops: seq<Op>, t: Id)
    requires TransfersOnly(ops)
    ensures TenantReport(Exec(tenants, ops), t).isBalanced
  {
    TenantVerdict(tenants, ops, t);
    TransfersHoldNothing(tenants, ops, t);
    SumOfZeros(Column(Exec(tenants, ops).accounts, t, Held));
  }

  /** One hold is enough to have the tenant reported unbalanced. */
  lemma HoldIsReported(tenants: map<Id, FeePlan>, id: Id, tenant: Id, kind: AccountType, opening: int, held: int, txn: Id)
    requires tenant in tenants && tenant != NO_ID && 0 < held <= opening
    ensures var report := TenantReport(Exec(tenants, [Open(id, tenant, kind, opening), Do(Hold(tenant, id, held, txn), NoFee)]), tenant);
            !report.isBalanced && report.totalLedgerSum == -held
  {
    hide Apply;
    var open, hold := Open(id, tenant, kind, opening), Do(Hold(tenant, id, held, txn), NoFee);
    ExecOpening(tenants, id, tenant, kind, opening);
    var db := Exec(tenants, [open]);
    ExecAppend(tenants, [open], hold);
    assert [open] + [hold] == [open, hold];
    HoldGrantedIff(db, hold.req);
    HoldEffect(db, hold.req);
    SingleEntry(Entry(tenant, txn, id, -held, HoldEntry), EntriesOf(tenant));
  }

  // ---------- the number of accounts ----------

  /** How many accounts a run opened for a tenant, by request or as a revenue account of a committed transfer. */
  function Openings(tenants: map<Id, FeePlan>, ops: seq<Op>, t: Id): nat {
    if ops == [] then 0
    else
      var before, op := ops[..|ops| - 1], ops[|ops| - 1];
      Openings(tenants, before, t) + (if Apply(Exec(tenants, before), op).Ok? && Opens(op, t) then 1 else 0)
  }

  predicate Opens(op: Op, t: Id) {
    match op
    case Open(_, tenant, _, _) => tenant == t
    case Do(req, revenue) => req.Transfer? && revenue.Opened? && req.tenant == t
  }

  lemma IdsGrow(before: map<Id, Account>, after: map<Id, Account>, id: Id, t: Id)
    requires id !in before && after.Keys == before.Keys + {id}
    requires forall x :: x in before ==> after[x].tenant == before[x].tenant
    ensures |IdsOf(after, t)| == |IdsOf(before, t)| + if after[id].tenant == t then 1 else 0
  {
    if after[id].tenant == t {
      assert IdsOf(after, t) == IdsOf(before, t) + {id};
    } else {
      assert IdsOf(after, t) == IdsOf(before, t);
    }
  }

  lemma IdsStay(before: map<Id, Account>, after: map<Id, Account>, t: Id)
    requires after.Keys == before.Keys && forall x :: x in before ==> after[x].tenant == before[x].tenant
    ensures IdsOf(after, t) == IdsOf(before, t)
  {
  }

  lemma NewIds(db: Db, op: Op, t: Id)
    requires Ledgered(db) && Apply(db, op).Ok?
    ensures |IdsOf(Apply(db, op).value.accounts, t)| == |IdsOf(db.accounts, t)| + if Opens(op, t) then 1 else 0
  {
    hide Decide, IdsOf;
    match op
    case Open(id, _, _, _) => IdsGrow(db.accounts, Apply(db, op).value.accounts, id, t);
    case Do(req, revenue) => NewIdsOfRequest(db, req, revenue, t);
  }

  lemma NewIdsOfRequest(db: Db, req: Request, revenue: Revenue, t: Id)
    requires Ledgered(db) && Apply(db, Do(req, revenue)).Ok?
    ensures |IdsOf(Apply(db, Do(req, revenue)).value.accounts, t)| ==
            |IdsOf(db.accounts, t)| + if Opens(Do(req, revenue), t) then 1 else 0
  {
    hide Apply, IdsOf;
    var after := Apply(db, Do(req, revenue)).value.accounts;
    NewKeys(db, req, revenue);
    CommitKeepsKinds(db, req, revenue);
    OtherTenantsUntouched(db, req, revenue);
    if req.Transfer? && revenue.Opened? {
      IdsGrow(db.accounts, after, revenue.id, t);
    } else {
      IdsStay(db.accounts, after, t);
    }
  }

  lemma NewKeys(db: Db, req: Request, revenue: Revenue)
    requires Apply(db, Do(req, revenue)).Ok?
    ensures var added := if req.Transfer? && revenue.Opened? then {revenue.id} else {};
            Apply(db, Do(req, revenue)).value.accounts.Keys == db.accounts.Keys + added && db.accounts.Keys !! added
  {
    hide FirstFailure, LockOrder;
  }

  /** On every run the report counts the accounts opened for the tenant, and nobody else's. */
  lemma {:induction false} AccountsAreCounted(tenants: map<Id, FeePlan>, ops: seq<Op>, t: Id)
    ensures TenantReport(Exec(tenants, ops), t).totalAccounts == Openings(tenants, ops, t)
  {
    hide Apply, IdsOf;
    NobodyAtFirst(t);
    if ops != [] {
      var before, op := ops[..|ops| - 1], ops[|ops| - 1];
      AccountsAreCounted(tenants, before, t);
      EveryRunIsSound(tenants, before);
      if Apply(Exec(tenants, before), op).Ok? {
        NewIds(Exec(tenants, before), op, t);
      }
    }
  }

  lemma NobodyAtFirst(t: Id)
    ensures IdsOf(map[], t) == {}
  {
  }
}

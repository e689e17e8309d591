/** The nightly reconciliation of account rows against the ledger. */
module Reconciliation {
  import opened Domain
  import opened AtomicLedger
  import opened Sums
  import opened LedgerLaws
  import opened Operations
  import opened Tables
  import Rounding
  import Accounts

  datatype SumRow = SumRow(account: Id, ledgerSum: int)

  datatype AccountRow = AccountRow(id: Id, balance: int, hold: int)

  function AccountsInLedger(ledger: seq<Entry>): set<Id> {
    set e | e in ledger :: e.account
  }

  /** Sums that differ by more than a tenth of a cent: whole cents that differ at all. */
  predicate Differs(ledgerSum: int, actual: int)
    ensures Differs(ledgerSum, actual) <==> ledgerSum != actual
  {
    Rounding.Abs(Accounts.Units(ledgerSum - actual)) > 0.001
  }

  predicate Mismatch(db: Db, id: Id) {
    id in db.accounts && EntrySum(db.ledger, AllOf(id)) != db.accounts[id].balance + db.accounts[id].hold
  }

  function Mismatches(db: Db): set<Id> {
    set id | id in db.accounts && Mismatch(db, id)
  }

  /** Accounts that ledger entries name and that do not exist. */
  function Orphans(db: Db): set<Id> {
    AccountsInLedger(db.ledger) - db.accounts.Keys
  }

  /** What the check sees of two moments: the ledger of the first and the accounts of the second. */
  function View(first: Db, second: Db): Db {
    second.(ledger := first.ledger)
  }

  predicate IsSumOf(ledger: seq<Entry>, row: SumRow) {
    row.account in AccountsInLedger(ledger) && row.ledgerSum == EntrySum(ledger, AllOf(row.account))
  }

  /** The result of grouping the ledger by account: one row for each account it names, in any order. */
  ghost predicate GroupedSums(ledger: seq<Entry>, rows: seq<SumRow>) {
    && (forall i :: 0 <= i < |rows| ==> IsSumOf(ledger, rows[i]))
    && SumIds(rows) == AccountsInLedger(ledger)
  }

  function SumIds(rows: seq<SumRow>): set<Id> {
    set row | row in rows :: row.account
  }

  lemma SumIdsAppend(rows: seq<SumRow>, row: SumRow)
    ensures SumIds(rows + [row]) == SumIds(rows) + {row.account}
  {
    assert forall r :: r in rows + [row] <==> r in rows || r == row;
  }

  predicate Lists(accounts: map<Id, Account>, row: AccountRow) {
    row.id in accounts && row.balance == accounts[row.id].balance && row.hold == accounts[row.id].hold
  }

  /** The account table as rows, each once, in any order. */
  ghost predicate Listed(accounts: map<Id, Account>, rows: seq<AccountRow>) {
    && (forall i :: 0 <= i < |rows| ==> Lists(accounts, rows[i]))
    && (forall i, j :: 0 <= i < j < |rows| ==> rows[i].id != rows[j].id)
    && RowIds(rows) == accounts.Keys
  }

  function RowIds(rows: seq<AccountRow>): set<Id> {
    set row | row in rows :: row.id
  }

  lemma RowIdsAppend(rows: seq<AccountRow>, row: AccountRow)
    ensures RowIds(rows + [row]) == RowIds(rows) + {row.id}
  {
    assert forall r :: r in rows + [row] <==> r in rows || r == row;
  }

  /** The ledger sums by account id, for every account the ledger names. */
  ghost predicate Indexed(ledger: seq<Entry>, ledgerMap: map<Id, int>) {
    ledgerMap.Keys == AccountsInLedger(ledger)
    && forall id :: id in ledgerMap ==> ledgerMap[id] == EntrySum(ledger, AllOf(id))
  }

  /** Which of the first rows mismatch. */
  function MismatchesAmong(db: Db, rows: seq<AccountRow>): set<Id> {
    set row | row in rows && Mismatch(db, row.id) :: row.id
  }

  lemma MismatchesAppend(db: Db, rows: seq<AccountRow>, row: AccountRow)
    requires forall r :: r in rows ==> r.id != row.id
    ensures |MismatchesAmong(db, rows + [row])| == |MismatchesAmong(db, rows)| + if Mismatch(db, row.id) then 1 else 0
  {
    var before := MismatchesAmong(db, rows);
    assert forall r :: r in rows + [row] <==> r in rows || r == row;
    if Mismatch(db, row.id) {
      assert MismatchesAmong(db, rows + [row]) == before + {row.id};
    } else {
      assert MismatchesAmong(db, rows + [row]) == before;
    }
  }

  class ReconciliationService {
    const db: Database

    constructor (db: Database)
      ensures this.db == db
    {
      this.db := db;
    }

    /** SELECT accountId, SUM(amount) ... GROUP BY accountId. */
    method QueryLedgerSums(db: Database) returns (rows: seq<SumRow>)
      ensures GroupedSums(db.ledger, rows)
    {
      var todo := AccountsInLedger(db.ledger);
      rows := [];
      while todo != {}
        invariant todo <= AccountsInLedger(db.ledger)
        invariant forall i :: 0 <= i < |rows| ==> IsSumOf(db.ledger, rows[i])
        invariant SumIds(rows) == AccountsInLedger(db.ledger) - todo
      {
        var id :| id in todo;
        var row := SumRow(id, EntrySum(db.ledger, AllOf(id)));
        SumIdsAppend(rows, row);
        rows := rows + [row];
        todo := todo - {id};
      }
    }

    /** account.findMany with the columns the check needs. */
    method QueryAccounts(db: Database) returns (rows: seq<AccountRow>)
      ensures Listed(db.accounts, rows)
    {
      var todo := db.accounts.Keys;
      rows := [];
      while todo != {}
        invariant todo <= db.accounts.Keys
        invariant Listed(map id | id in db.accounts && id !in todo :: db.accounts[id], rows)
      {
        var id :| id in todo;
        var row := AccountRow(id, db.accounts[id].balance, db.accounts[id].hold);
        RowIdsAppend(rows, row);
        assert forall i :: 0 <= i < |rows| ==> rows[i] in rows && rows[i].id in RowIds(rows);
        rows := rows + [row];
        todo := todo - {id};
      }
      assert (map id | id in db.accounts && id !in todo :: db.accounts[id]) == db.accounts;
    }

    method BuildLedgerMap(ledgerSums: seq<SumRow>, ghost ledger: seq<Entry>) returns (ledgerMap: map<Id, int>)
      requires GroupedSums(ledger, ledgerSums)
      ensures Indexed(ledger, ledgerMap)
    {
      ledgerMap := map[];
      var i := 0;
      while i < |ledgerSums|
        invariant 0 <= i <= |ledgerSums|
        invariant ledgerMap.Keys == SumIds(ledgerSums[..i])
        invariant forall id :: id in ledgerMap ==> ledgerMap[id] == EntrySum(ledger, AllOf(id))
      {
        SumIdsAppend(ledgerSums[..i], ledgerSums[i]);
        assert ledgerSums[..i] + [ledgerSums[i]] == ledgerSums[..i + 1];
        ledgerMap := ledgerMap[ledgerSums[i].account := ledgerSums[i].ledgerSum];
        i := i + 1;
      }
      assert ledgerSums[..i] == ledgerSums;
    }

    method CompareAccounts(accounts: seq<AccountRow>, ledgerMap: map<Id, int>, ghost view: Db)
      returns (accountsChecked: nat, mismatchCount: nat)
      requires Listed(view.accounts, accounts) && Indexed(view.ledger, ledgerMap)
      ensures accountsChecked == |accounts|
      ensures mismatchCount == |MismatchesAmong(view, accounts)|
    {
      accountsChecked, mismatchCount := 0, 0;
      while accountsChecked < |accounts|
        invariant 0 <= accountsChecked <= |accounts|
        invariant mismatchCount == |MismatchesAmong(view, accounts[..accountsChecked])|
      {
        var account := accounts[accountsChecked];
        var ledgerSum := if account.id in ledgerMap then ledgerMap[account.id] else 0;
        if account.id !in ledgerMap {
          NoShareNoSum(view.ledger, AllOf(account.id));
        }
        var actualTotal := account.balance + account.hold;
        if Differs(ledgerSum, actualTotal) {
          mismatchCount := mismatchCount + 1;
        }
        MismatchesAppend(view, accounts[..accountsChecked], account);
        assert accounts[..accountsChecked] + [account] == accounts[..accountsChecked + 1];
        accountsChecked := accountsChecked + 1;
      }
      assert accounts[..accountsChecked] == accounts;
    }

    method CountOrphans(ledgerMap: map<Id, int>, accountIds: set<Id>) returns (orphans: nat)
      ensures orphans == |ledgerMap.Keys - accountIds|
    {
      orphans := 0;
      var todo := ledgerMap.Keys;
      ghost var done: set<Id> := {};
      while todo != {}
        invariant done !! todo && done + todo == ledgerMap.Keys
        invariant orphans == |done - accountIds|
      {
        var id :| id in todo;
        if id !in accountIds {
          assert done + {id} - accountIds == (done - accountIds) + {id};
          orphans := orphans + 1;
        } else {
          assert done + {id} - accountIds == done - accountIds;
        }
        done := done + {id};
        todo := todo - {id};
      }
      assert done == ledgerMap.Keys;
    }

    /** Every account is compared, and the count is of the accounts whose ledger sum differs from balance plus hold
        balance, plus the account ids that only the ledger knows. The two queries are not in one transaction: `db` is the
        database as the first one finds it and `later` as the second one does. */
    method ReconcileLedger(later: Database) returns (accountsChecked: nat, mismatchCount: nat)
      ensures accountsChecked == |later.accounts|
      ensures var view := View(db.Contents(), later.Contents());
              mismatchCount == |Mismatches(view)| + |Orphans(view)|
    {
      ghost var view := View(db.Contents(), later.Contents());
      var ledgerSums := QueryLedgerSums(db);
      var accounts := QueryAccounts(later);
      var ledgerMap := BuildLedgerMap(ledgerSums, db.ledger);
      accountsChecked, mismatchCount := CompareAccounts(accounts, ledgerMap, view);
      AllListed(view, accounts);
      var orphans := CountOrphans(ledgerMap, RowIds(accounts));
      mismatchCount := mismatchCount + orphans;
    }
  }

  lemma AllListed(db: Db, rows: seq<AccountRow>)
    requires Listed(db.accounts, rows)
    ensures |rows| == |db.accounts| && MismatchesAmong(db, rows) == Mismatches(db)
  {
    DistinctRows(rows);
    assert forall id :: id in db.accounts ==> id in RowIds(rows);
  }

  lemma {:induction false} DistinctRows(rows: seq<AccountRow>)
    requires forall i, j :: 0 <= i < j < |rows| ==> rows[i].id != rows[j].id
    ensures |RowIds(rows)| == |rows|
  {
    if rows != [] {
      var n := |rows| - 1;
      DistinctRows(rows[..n]);
      assert rows == rows[..n] + [rows[n]];
      RowIdsAppend(rows[..n], rows[n]);
    }
  }

  /** The nightly verdict: on every run no ledger entry is orphaned, and an account is counted exactly when its opening
      balance, the money on hold and the money ever captured from it do not cancel. */
  lemma NightlyVerdict(tenants: map<Id, FeePlan>, ops: seq<Op>)
    ensures var db := Exec(tenants, ops);
            && Orphans(db) == {}
            && forall a :: a in Mismatches(db) <==>
                 a in db.accounts && OpeningOf(db, a) + HoldOf(db, a) + Tally(db.outbox, CapturedFrom(a)) != 0
  {
    EveryRunIsSound(tenants, ops);
    var db := Exec(tenants, ops);
    forall a | a in db.accounts
      ensures Mismatch(db, a) <==> OpeningOf(db, a) + HoldOf(db, a) + Tally(db.outbox, CapturedFrom(a)) != 0
    {
      assert AccountLaws(db, a);
      MovesAndPledges(db.ledger, a);
    }
  }

  lemma {:induction false} RunsGrow(tenants: map<Id, FeePlan>, ops: seq<Op>, more: seq<Op>)
    ensures Exec(tenants, ops).ledger <= Exec(tenants, ops + more).ledger
    ensures Exec(tenants, ops).accounts.Keys <= Exec(tenants, ops + more).accounts.Keys
  {
    if more == [] {
      assert ops + more == ops;
    } else {
      var rest, op := more[..|more| - 1], more[|more| - 1];
      RunsGrow(tenants, ops, rest);
      assert ops + more == ops + rest + [op];
      ExecAppend(tenants, ops + rest, op);
      EveryRunIsSound(tenants, ops + rest);
      var db := Exec(tenants, ops + rest);
      if op.Do? && Apply(db, op).Ok? {
        OtherTenantsUntouched(db, op.req, op.revenue);
      }
    }
  }

  /** The verdict when calls are committed between the two queries: still no orphans, and an account is counted exactly
      when its opening balance, hold and captured total at the second moment, and what was posted to it in between, do
      not cancel. */
  lemma TwoMomentVerdict(tenants: map<Id, FeePlan>, ops: seq<Op>, more: seq<Op>)
    ensures var first, second := Exec(tenants, ops), Exec(tenants, ops + more);
            var view := View(first, second);
            && first.ledger <= second.ledger
            && Orphans(view) == {}
            && forall a :: a in Mismatches(view) <==>
                 && a in second.accounts
                 && OpeningOf(second, a) + HoldOf(second, a) + Tally(second.outbox, CapturedFrom(a))
                    + EntrySum(second.ledger[|first.ledger|..], AllOf(a)) != 0
  {
    var first, second := Exec(tenants, ops), Exec(tenants, ops + more);
    var view := View(first, second);
    RunsGrow(tenants, ops, more);
    EveryRunIsSound(tenants, ops);
    EveryRunIsSound(tenants, ops + more);
    var posted := second.ledger[|first.ledger|..];
    assert first.ledger + posted == second.ledger;
    forall a | a in second.accounts
      ensures Mismatch(view, a) <==>
              OpeningOf(second, a) + HoldOf(second, a) + Tally(second.outbox, CapturedFrom(a)) + EntrySum(posted, AllOf(a)) != 0
    {
      assert AccountLaws(second, a);
      MovesAndPledges(second.ledger, a);
      EntrySumAppend(first.ledger, posted, AllOf(a));
    }
  }

  /** Funding an account is enough to have it reported: its opening balance has no ledger row. */
  lemma FundedAccountIsReported(tenants: map<Id, FeePlan>, id: Id, tenant: Id, kind: AccountType, opening: int)
    requires tenant in tenants && tenant != NO_ID && opening > 0
    ensures Mismatches(Exec(tenants, [Open(id, tenant, kind, opening)])) == {id}
  {
    ExecOpening(tenants, id, tenant, kind, opening);
    NightlyVerdict(tenants, [Open(id, tenant, kind, opening)]);
  }
}

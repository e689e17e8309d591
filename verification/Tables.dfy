/** The database tables the services write to. */
module Tables {
  import opened Domain
  import opened AtomicLedger
  import opened Sums

  class Database {
    const tenants: map<Id, FeePlan>
    var accounts: map<Id, Account>
    var ledger: seq<Entry>
    var outbox: seq<Event>
    var locks: seq<Id>     // the SELECT ... FOR UPDATE statements issued, in order

    constructor (tenants: map<Id, FeePlan>)
      ensures this.tenants == tenants && Contents() == Genesis(tenants) && locks == []
    {
      this.tenants := tenants;
      accounts, ledger, outbox, locks := map[], [], [], [];
    }

    function Contents(): Db
      reads this
    {
      Db(tenants, accounts, ledger, outbox)
    }

    method LockRow(id: Id)
      modifies this`locks
      ensures locks == old(locks) + [id]
    {
      locks := locks + [id];
    }

    /** account.update with increments. */
    method UpdateAccount(id: Id, balance: int, hold: int)
      requires id in accounts
      modifies this`accounts
      ensures accounts == old(accounts)[id := Adjust(old(accounts)[id], Posting(id, balance, hold))]
    {
      var row := accounts[id];
      accounts := accounts[id := row.(balance := row.balance + balance, hold := row.hold + hold)];
    }

    method CreateAccount(id: Id, account: Account)
      modifies this`accounts
      ensures accounts == old(accounts)[id := account]
    {
      accounts := accounts[id := account];
    }

    method CreateEntries(entries: seq<Entry>)
      modifies this`ledger
      ensures ledger == old(ledger) + entries
    {
      ledger := ledger + entries;
    }

    method CreateEvent(ev: Event)
      modifies this`outbox
      ensures outbox == old(outbox) + [ev]
    {
      outbox := outbox + [ev];
    }

    /** findFirst without an order: any revenue account of the tenant. */
    method FindRevenue(tenant: Id) returns (found: Option<Id>)
      ensures found.Some? ==>
                found.value in accounts && accounts[found.value].tenant == tenant && accounts[found.value].kind == PlatformRevenue
      ensures found.None? ==>
                forall id :: id in accounts ==> !(accounts[id].tenant == tenant && accounts[id].kind == PlatformRevenue)
    {
      if id :| id in accounts && IsRevenue(accounts, id, tenant) {
        found := Some(id);
      } else {
        found := None;
      }
    }

    method FindHoldEntry(holdId: Id, tenant: Id) returns (found: Option<Entry>)
      ensures found == FindHold(ledger, holdId, tenant)
      ensures found.Some? ==>
                found.value in ledger && found.value.txn == holdId && found.value.tenant == tenant && found.value.kind == HoldEntry
      ensures found.None? ==> forall e :: e in ledger ==> !(e.txn == holdId && e.tenant == tenant && e.kind == HoldEntry)
    {
      NoHoldIff(ledger, holdId, tenant);
      var i := 0;
      while i < |ledger|
        invariant 0 <= i <= |ledger|
        invariant FindHold(ledger, holdId, tenant) == FindHold(ledger[i..], holdId, tenant)
      {
        if ledger[i].txn == holdId && ledger[i].tenant == tenant && ledger[i].kind == HoldEntry {
          return Some(ledger[i]);
        }
        i := i + 1;
      }
      found := None;
    }

    method Rollback(to: Db)
      modifies this
      ensures accounts == to.accounts && ledger == to.ledger && outbox == to.outbox && locks == old(locks)
    {
      accounts, ledger, outbox := to.accounts, to.ledger, to.outbox;
    }
  }
}

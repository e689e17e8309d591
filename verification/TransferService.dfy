/** The transfer service as it is written: statements against database tables inside one transaction, with rollback. */
module TransferService {
  import opened Domain
  import opened AtomicLedger
  import opened Sums
  import opened LedgerLaws
  import opened Operations
  import opened Tables
  import Fees

  datatype Reply =
    | Transferred(txn: Id, fee: int)
    | Placed(holdId: Id, account: Id, amount: int)
    | Captured(txn: Id, holdId: Id, sender: Id, receiver: Id, captured: int, remainder: int)
    | Released(txn: Id, holdId: Id, account: Id, released: int)

  // ---------- the guards of a script, one after another ----------

  lemma FailCons(accounts: map<Id, Account>, g: Guard, rest: seq<Guard>)
    ensures FirstFailure(accounts, [g] + rest) ==
            if Passes(accounts, g.check) then FirstFailure(accounts, rest) else Some(g.error)
  {
    assert ([g] + rest)[1..] == rest;
  }

  lemma FailFive(accounts: map<Id, Account>, g: seq<Guard>)
    requires |g| == 5
    ensures FirstFailure(accounts, g) ==
            if !Passes(accounts, g[0].check) then Some(g[0].error)
            else if !Passes(accounts, g[1].check) then Some(g[1].error)
            else if !Passes(accounts, g[2].check) then Some(g[2].error)
            else if !Passes(accounts, g[3].check) then Some(g[3].error)
            else if !Passes(accounts, g[4].check) then Some(g[4].error)
            else None
  {
    assert g == [g[0]] + g[1..] && g[1..] == [g[1]] + g[2..];
    FailCons(accounts, g[0], g[1..]);
    FailCons(accounts, g[1], g[2..]);
    FailThree(accounts, g[2..]);
  }

  lemma FailThree(accounts: map<Id, Account>, g: seq<Guard>)
    requires |g| == 3
    ensures FirstFailure(accounts, g) ==
            if !Passes(accounts, g[0].check) then Some(g[0].error)
            else if !Passes(accounts, g[1].check) then Some(g[1].error)
            else if !Passes(accounts, g[2].check) then Some(g[2].error)
            else None
  {
    assert g == [g[0]] + g[1..] && g[1..] == [g[1]] + g[2..] && g[2..] == [g[2]] + [];
    FailCons(accounts, g[0], g[1..]);
    FailCons(accounts, g[1], g[2..]);
    FailCons(accounts, g[2], []);
  }

  /** The call had the outcome of the atomic operation, and a refused call left no trace. */
  predicate Performed(before: Db, op: Op, after: Db, r: Result<Reply>) {
    match Apply(before, op)
    case Ok(done) => r.Ok? && after == done
    case Err(e) => r == Err(e) && after == before
  }

  /** The guards of a transfer as a chain of tests, in the order in which the service makes them. */
  lemma TransferDecision(db: Db, req: Request, fee: int, revenue: Revenue)
    requires req.Transfer? && req.tenant != NO_ID && req.amount > 0 && req.sender != req.receiver
    requires req.tenant in db.tenants && fee == Fees.Fee(db.tenants[req.tenant], req.amount)
    requires Offered(db, req.tenant, fee, revenue)
    ensures var script := TransferScript(req, fee, revenue);
            var accounts := db.accounts + script.inserts;
            Decide(db, req, revenue) ==
              if revenue.Opened? && req.sender !in db.accounts then Err(SenderNotFound)
              else if req.sender !in accounts then Err(SenderNotFound)
              else if accounts[req.sender].tenant != req.tenant then Err(SenderOfOtherTenant)
              else if accounts[req.sender].balance < req.amount + fee then Err(InsufficientFunds)
              else if req.receiver !in accounts then Err(ReceiverNotFound)
              else if accounts[req.receiver].tenant != req.tenant then Err(ReceiverOfOtherTenant)
              else Ok(script)
  {
    var script := TransferScript(req, fee, revenue);
    FailFive(db.accounts + script.inserts, script.checks);
    if revenue.Opened? {
      FailCons(db.accounts, Guard(Exists(req.sender), SenderNotFound), []);
      assert script.before == [Guard(Exists(req.sender), SenderNotFound)] + [];
    }
  }

  /** The guards of a capture, likewise. */
  lemma CaptureDecision(db: Db, req: Request, entry: Entry)
    requires req.Capture? && req.tenant != NO_ID && req.amount > 0
    requires FindHold(db.ledger, req.holdId, req.tenant) == Some(entry) && entry.account != req.receiver
    ensures Decide(db, req, NoFee) ==
              if entry.account !in db.accounts then Err(SenderNotFound)
              else if req.amount > Abs(entry.amount) then Err(ExceedsHeldAmount)
              else if db.accounts[entry.account].hold < req.amount then Err(InsufficientHeld)
              else if req.receiver !in db.accounts then Err(ReceiverNotFound)
              else if db.accounts[req.receiver].tenant != req.tenant then Err(ReceiverOfOtherTenant)
              else Ok(CaptureScript(req, entry.account, Abs(entry.amount)))
  {
    var script := CaptureScript(req, entry.account, Abs(entry.amount));
    assert db.accounts + script.inserts == db.accounts;
    FailFive(db.accounts, script.checks);
  }

  /** The outcome of a hold, with the error of each refusal in the order of the code. */
  lemma HoldDecision(db: Db, req: Request)
    requires req.Hold?
    ensures var r := Apply(db, Do(req, NoFee));
            if req.tenant == NO_ID then r == Err(TenantRequired)
            else if req.amount <= 0 then r == Err(InvalidAmount)
            else if req.account !in db.accounts then r == Err(AccountNotFound)
            else if db.accounts[req.account].tenant != req.tenant then r == Err(AccountOfOtherTenant)
            else if db.accounts[req.account].balance < req.amount then r == Err(InsufficientBalance)
            else r.Ok?
  {
    var script := HoldScript(req);
    assert db.accounts + script.inserts == db.accounts;
    FailThree(db.accounts, script.checks);
  }

  /** The outcome of a release, likewise. */
  lemma ReleaseDecision(db: Db, req: Request)
    requires req.Release?
    ensures var r := Apply(db, Do(req, NoFee));
            var hold := FindHold(db.ledger, req.holdId, req.tenant);
            if req.tenant == NO_ID then r == Err(TenantRequired)
            else if req.amount <= 0 then r == Err(InvalidAmount)
            else if hold.None? then r == Err(HoldNotFound)
            else if hold.value.account !in db.accounts then r == Err(AccountNotFound)
            else if req.amount > Abs(hold.value.amount) then r == Err(ExceedsHeldAmount)
            else if db.accounts[hold.value.account].hold < req.amount then r == Err(InsufficientHeld)
            else r.Ok?
  {
    var hold := FindHold(db.ledger, req.holdId, req.tenant);
    if hold.Some? {
      var script := ReleaseScript(req, hold.value.account, Abs(hold.value.amount));
      assert db.accounts + script.inserts == db.accounts;
      FailThree(db.accounts, script.checks);
    }
  }

  /** The refusals that come before any row is locked. */
  lemma Validation(db: Db, req: Request, revenue: Revenue)
    ensures var r := Apply(db, Do(req, revenue));
            if req.tenant == NO_ID then r == Err(TenantRequired)
            else if req.amount <= 0 then r == Err(InvalidAmount)
            else match req
              case Transfer(tenant, sender, receiver, _, _) =>
                (sender == receiver ==> r == Err(SameAccount))
                && (sender != receiver && tenant !in db.tenants ==> r == Err(TenantNotFound))
              case Hold(_, _, _, _) => true
              case Capture(tenant, holdId, receiver, _, _) =>
                var hold := FindHold(db.ledger, holdId, tenant);
                (hold.None? ==> r == Err(HoldNotFound))
                && (hold.Some? && hold.value.account == receiver ==> r == Err(SameAccount))
              case Release(tenant, holdId, _, _) => FindHold(db.ledger, holdId, tenant).None? ==> r == Err(HoldNotFound)
  {
  }

  // ---------- the service ----------

  class Service {
    const db: Database

    constructor (db: Database)
      ensures this.db == db
    {
      this.db := db;
    }

    method LockInOrder(ids: seq<Id>)
      modifies db`locks
      ensures db.locks == old(db.locks) + ids
    {
      var i := 0;
      while i < |ids|
        invariant 0 <= i <= |ids|
        invariant db.locks == old(db.locks) + ids[..i]
      {
        db.LockRow(ids[i]);
        i := i + 1;
      }
    }

    method ExecuteTransfer(tenantId: Id, senderId: Id, receiverId: Id, amount: int, txn: Id, newId: Id)
      returns (r: Result<Reply>, ghost revenue: Revenue)
      requires newId !in db.accounts && newId != senderId && newId != receiverId
      modifies db
      ensures Performed(old(db.Contents()), Do(Transfer(tenantId, senderId, receiverId, amount, txn), revenue), db.Contents(), r)
      ensures r.Ok? ==> tenantId in db.tenants && r.value == Transferred(txn, Fees.Fee(db.tenants[tenantId], amount))
      ensures r.Ok? ==> db.locks == old(db.locks) + LockOrder([senderId, receiverId] + if revenue.NoFee? then [] else [revenue.id])
      ensures revenue.Found? ==>
                && revenue.id in old(db.accounts)
                && old(db.accounts)[revenue.id].tenant == tenantId && old(db.accounts)[revenue.id].kind == PlatformRevenue
      ensures revenue.Opened? ==>
                && revenue.id == newId
                && forall id :: id in old(db.accounts) && old(db.accounts)[id].tenant == tenantId ==>
                     old(db.accounts)[id].kind != PlatformRevenue
      ensures r.Ok? && r.value.fee > 0 ==> revenue.Found? || revenue.Opened?
    {
      revenue := NoFee;
      if tenantId == NO_ID { return Err(TenantRequired), revenue; }
      if amount <= 0 { return Err(InvalidAmount), revenue; }
      if senderId == receiverId { return Err(SameAccount), revenue; }

      var begin := db.Contents();
      if tenantId !in db.tenants { return Err(TenantNotFound), revenue; }
      var totalFee := Fees.Fee(db.tenants[tenantId], amount);
      var totalRequired := amount + totalFee;

      var revenueId: Option<Id> := None;
      if totalFee > 0 {
        revenueId := db.FindRevenue(tenantId);
        if revenueId.None? {
          revenue := Opened(newId);
          if senderId !in db.accounts {
            return Err(SenderNotFound), revenue;
          }
          db.CreateAccount(newId, Account(tenantId, PlatformRevenue, 0, 0, 0));
          revenueId := Some(newId);
        } else {
          revenue := Found(revenueId.value);
        }
      }
      ghost var req := Transfer(tenantId, senderId, receiverId, amount, txn);
      TransferDecision(begin, req, totalFee, revenue);
      assert db.accounts == begin.accounts + TransferScript(req, totalFee, revenue).inserts;

      LockInOrder(LockOrder([senderId, receiverId] + if revenueId.Some? then [revenueId.value] else []));

      if senderId !in db.accounts { db.Rollback(begin); return Err(SenderNotFound), revenue; }
      if db.accounts[senderId].tenant != tenantId { db.Rollback(begin); return Err(SenderOfOtherTenant), revenue; }
      if db.accounts[senderId].balance < totalRequired { db.Rollback(begin); return Err(InsufficientFunds), revenue; }
      if receiverId !in db.accounts { db.Rollback(begin); return Err(ReceiverNotFound), revenue; }
      if db.accounts[receiverId].tenant != tenantId { db.Rollback(begin); return Err(ReceiverOfOtherTenant), revenue; }

      PostTransfer(tenantId, senderId, receiverId, amount, totalFee, revenueId, txn, revenue);
      r := Ok(Transferred(txn, totalFee));
    }

    /** The writes of a granted transfer: balances, ledger entries, outbox row. */
    method PostTransfer(tenantId: Id, senderId: Id, receiverId: Id, amount: int, totalFee: int, revenueId: Option<Id>, txn: Id,
                        ghost revenue: Revenue)
      requires senderId in db.accounts && receiverId in db.accounts
      requires if revenue.NoFee? then totalFee == 0 && revenueId.None? else totalFee > 0 && revenueId == Some(revenue.id)
      requires revenueId.Some? ==> revenueId.value in db.accounts
      modifies db`accounts, db`ledger, db`outbox
      ensures var script := TransferScript(Transfer(tenantId, senderId, receiverId, amount, txn), totalFee, revenue);
              && db.accounts == Post(old(db.accounts), script.postings)
              && db.ledger == old(db.ledger) + script.entries
              && db.outbox == old(db.outbox) + [script.event]
    {
      ghost var script := TransferScript(Transfer(tenantId, senderId, receiverId, amount, txn), totalFee, revenue);
      db.UpdateAccount(senderId, -(amount + totalFee), 0);
      db.UpdateAccount(receiverId, amount, 0);
      if totalFee > 0 && revenueId.Some? {
        db.UpdateAccount(revenueId.value, totalFee, 0);
      }
      PostTwo(old(db.accounts), script.postings);

      var entries := [
        Entry(tenantId, txn, senderId, -amount, TransferEntry),
        Entry(tenantId, txn, receiverId, amount, TransferEntry)];
      if totalFee > 0 && revenueId.Some? {
        entries := entries + [
          Entry(tenantId, txn, senderId, -totalFee, FeeEntry),
          Entry(tenantId, txn, revenueId.value, totalFee, FeeEntry)];
      }
      db.CreateEntries(entries);
      db.CreateEvent(TransferCompleted(tenantId, txn, senderId, receiverId, amount, totalFee));
    }

    method HoldFunds(tenantId: Id, accountId: Id, amount: int, txn: Id) returns (r: Result<Reply>)
      modifies db
      ensures Performed(old(db.Contents()), Do(Hold(tenantId, accountId, amount, txn), NoFee), db.Contents(), r)
      ensures r.Ok? ==> r.value == Placed(txn, accountId, amount) && db.locks == old(db.locks) + [accountId]
    {
      if tenantId == NO_ID { return Err(TenantRequired); }
      if amount <= 0 { return Err(InvalidAmount); }
      ghost var script := HoldScript(Hold(tenantId, accountId, amount, txn));
      assert db.accounts + script.inserts == db.accounts;
      FailThree(db.accounts, script.checks);

      db.LockRow(accountId);
      if accountId !in db.accounts { return Err(AccountNotFound); }
      if db.accounts[accountId].tenant != tenantId { return Err(AccountOfOtherTenant); }
      if db.accounts[accountId].balance < amount { return Err(InsufficientBalance); }

      db.UpdateAccount(accountId, -amount, amount);
      PostSingle(old(db.accounts), script.postings[0]);
      db.CreateEntries([Entry(tenantId, txn, accountId, -amount, HoldEntry)]);
      db.CreateEvent(HoldCreated(tenantId, txn, accountId, amount));
      r := Ok(Placed(txn, accountId, amount));
    }

    method CaptureHold(tenantId: Id, holdId: Id, receiverId: Id, amount: int, txn: Id) returns (r: Result<Reply>)
      modifies db
      ensures Performed(old(db.Contents()), Do(Capture(tenantId, holdId, receiverId, amount, txn), NoFee), db.Contents(), r)
      ensures r.Ok? ==>
                var hold := FindHold(old(db.ledger), holdId, tenantId);
                && hold.Some?
                && r.value == Captured(txn, holdId, hold.value.account, receiverId, amount, Abs(hold.value.amount) - amount)
                && db.locks == old(db.locks) + LockOrder([hold.value.account, receiverId])
    {
      if tenantId == NO_ID { return Err(TenantRequired); }
      if amount <= 0 { return Err(InvalidAmount); }
      var holdEntry := db.FindHoldEntry(holdId, tenantId);
      if holdEntry.None? { return Err(HoldNotFound); }
      var senderId := holdEntry.value.account;
      if senderId == receiverId { return Err(SameAccount); }

      var heldAmount := Abs(holdEntry.value.amount);
      CaptureDecision(db.Contents(), Capture(tenantId, holdId, receiverId, amount, txn), holdEntry.value);

      LockInOrder(LockOrder([senderId, receiverId]));
      if senderId !in db.accounts { return Err(SenderNotFound); }
      if amount > heldAmount { return Err(ExceedsHeldAmount); }
      if db.accounts[senderId].hold < amount { return Err(InsufficientHeld); }
      if receiverId !in db.accounts { return Err(ReceiverNotFound); }
      if db.accounts[receiverId].tenant != tenantId { return Err(ReceiverOfOtherTenant); }

      PostCapture(tenantId, holdId, senderId, receiverId, amount, heldAmount, txn);
      r := Ok(Captured(txn, holdId, senderId, receiverId, amount, heldAmount - amount));
    }

    /** The writes of a granted capture. */
    method PostCapture(tenantId: Id, holdId: Id, senderId: Id, receiverId: Id, amount: int, heldAmount: int, txn: Id)
      requires senderId in db.accounts && receiverId in db.accounts
      modifies db`accounts, db`ledger, db`outbox
      ensures var script := CaptureScript(Capture(tenantId, holdId, receiverId, amount, txn), senderId, heldAmount);
              && db.accounts == Post(old(db.accounts), script.postings)
              && db.ledger == old(db.ledger) + script.entries
              && db.outbox == old(db.outbox) + [script.event]
    {
      ghost var script := CaptureScript(Capture(tenantId, holdId, receiverId, amount, txn), senderId, heldAmount);
      db.UpdateAccount(senderId, 0, -amount);
      db.UpdateAccount(receiverId, amount, 0);
      var remainder := heldAmount - amount;
      if remainder > 0 {
        db.UpdateAccount(senderId, remainder, -remainder);
        db.CreateEntries([Entry(tenantId, txn, senderId, remainder, ReleaseEntry)]);
      }
      PostTwo(old(db.accounts), script.postings);
      db.CreateEntries([
        Entry(tenantId, txn, senderId, -amount, TransferEntry),
        Entry(tenantId, txn, receiverId, amount, TransferEntry)]);
      assert db.ledger == old(db.ledger) + script.entries;
      db.CreateEvent(HoldCaptured(tenantId, txn, holdId, senderId, receiverId, amount, remainder));
    }

    method ReleaseHold(tenantId: Id, holdId: Id, amount: int, txn: Id) returns (r: Result<Reply>)
      modifies db
      ensures Performed(old(db.Contents()), Do(Release(tenantId, holdId, amount, txn), NoFee), db.Contents(), r)
      ensures r.Ok? ==>
                var hold := FindHold(old(db.ledger), holdId, tenantId);
                && hold.Some?
                && r.value == Released(txn, holdId, hold.value.account, amount)
                && db.locks == old(db.locks) + [hold.value.account]
    {
      if tenantId == NO_ID { return Err(TenantRequired); }
      if amount <= 0 { return Err(InvalidAmount); }
      var holdEntry := db.FindHoldEntry(holdId, tenantId);
      if holdEntry.None? { return Err(HoldNotFound); }
      var accountId := holdEntry.value.account;
      var heldAmount := Abs(holdEntry.value.amount);
      ghost var script := ReleaseScript(Release(tenantId, holdId, amount, txn), accountId, heldAmount);
      assert db.accounts + script.inserts == db.accounts;
      FailThree(db.accounts, script.checks);

      db.LockRow(accountId);
      if accountId !in db.accounts { return Err(AccountNotFound); }
      if amount > heldAmount { return Err(ExceedsHeldAmount); }
      if db.accounts[accountId].hold < amount { return Err(InsufficientHeld); }

      db.UpdateAccount(accountId, amount, -amount);
      PostSingle(old(db.accounts), script.postings[0]);
      db.CreateEntries([Entry(tenantId, txn, accountId, amount, ReleaseEntry)]);
      db.CreateEvent(HoldReleased(tenantId, txn, holdId, accountId, amount));
      r := Ok(Released(txn, holdId, accountId, amount));
    }
  }

  // ---------- updates in sequence are the net posting ----------

  lemma PostSingle(base: map<Id, Account>, p: Posting)
    requires p.id in base
    ensures Post(base, [p]) == base[p.id := Adjust(base[p.id], p)]
  {
    PostNothing(base);
    PostSnoc(base, [], p);
    assert [] + [p] == [p];
  }

  lemma PostTwo(base: map<Id, Account>, ps: seq<Posting>)
    requires 2 <= |ps| <= 3 && forall p :: p in ps ==> p.id in base
    ensures var one := base[ps[0].id := Adjust(base[ps[0].id], ps[0])];
            var two := one[ps[1].id := Adjust(one[ps[1].id], ps[1])];
            Post(base, ps) == if |ps| == 2 then two else two[ps[2].id := Adjust(two[ps[2].id], ps[2])]
  {
    assert ps[0] in ps && ps[1] in ps;
    PostSingle(base, ps[0]);
    PostSnoc(base, [ps[0]], ps[1]);
    assert [ps[0]] + [ps[1]] == ps[..2];
    if |ps| == 2 {
      assert ps[..2] == ps;
    } else {
      assert ps[2] in ps;
      PostSnoc(base, ps[..2], ps[2]);
      assert ps[..2] + [ps[2]] == ps;
    }
  }
}

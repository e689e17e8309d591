/** When each operation is granted and what it then does to every account row. */
module Operations {
  import opened Domain
  import opened AtomicLedger
  import opened Sums
  import opened LedgerLaws
  import Fees

  function FeeOf(db: Db, req: Request): int
    requires req.Transfer? && req.tenant in db.tenants
  {
    Fees.Fee(db.tenants[req.tenant], req.amount)
  }

  predicate Owned(db: Db, id: Id, tenant: Id) {
    id in db.accounts && db.accounts[id].tenant == tenant
  }

  function When(c: bool, x: int): int {
    if c then x else 0
  }

  /** The row an update starts from: the committed one, or the empty revenue row the operation created. */
  function RowBefore(db: Db, tenant: Id, id: Id): Account {
    if id in db.accounts then db.accounts[id] else Account(tenant, PlatformRevenue, 0, 0, 0)
  }

  /** A transfer is granted exactly when the request is valid, both parties are distinct accounts of the tenant and the
      sender can pay amount and fee. */
  lemma TransferGrantedIff(db: Db, req: Request, revenue: Revenue)
    requires req.Transfer?
    requires req.tenant in db.tenants ==> Offered(db, req.tenant, FeeOf(db, req), revenue)
    requires revenue.Opened? ==> revenue.id != req.sender && revenue.id != req.receiver
    ensures Apply(db, Do(req, revenue)).Ok? <==>
            && req.tenant != NO_ID && req.amount > 0 && req.sender != req.receiver
            && req.tenant in db.tenants
            && Owned(db, req.sender, req.tenant) && Owned(db, req.receiver, req.tenant)
            && db.accounts[req.sender].balance >= req.amount + FeeOf(db, req)
  {
    if req.tenant in db.tenants {
      var script := TransferScript(req, FeeOf(db, req), revenue);
      AllPass(db.accounts, script.before);
      TransferChecksHold(db.accounts + script.inserts, req, FeeOf(db, req), revenue);
      assert revenue.Opened? ==> script.before == [Guard(Exists(req.sender), SenderNotFound)];
    }
  }

  /** A granted request commits its script. */
  lemma GrantedCommits(db: Db, req: Request, revenue: Revenue)
    requires Apply(db, Do(req, revenue)).Ok?
    ensures Decide(db, req, revenue).Ok? && Plan(db, req, revenue) == Decide(db, req, revenue)
    ensures Apply(db, Do(req, revenue)) == Ok(Commit(db, Decide(db, req, revenue).value))
  {
  }

  lemma TransferCommits(db: Db, req: Request, revenue: Revenue)
    requires req.Transfer? && Apply(db, Do(req, revenue)).Ok?
    ensures req.tenant in db.tenants && Offered(db, req.tenant, FeeOf(db, req), revenue)
    ensures Apply(db, Do(req, revenue)) == Ok(Commit(db, TransferScript(req, FeeOf(db, req), revenue)))
  {
    hide FirstFailure, LockOrder;
  }

  /** A granted transfer takes amount and fee from the sender, gives the amount to the receiver and the fee to the
      revenue account, adding up where these coincide, touches no other row, and appends two ledger rows, two more for a
      fee, and one event. */
  lemma TransferEffect(db: Db, req: Request, revenue: Revenue)
    requires req.Transfer? && Apply(db, Do(req, revenue)).Ok?
    ensures req.tenant in db.tenants && (FeeOf(db, req) == 0 <==> revenue.NoFee?)
    ensures match revenue
            case NoFee => true
            case Found(id) => id in db.accounts && db.accounts[id].kind == PlatformRevenue && db.accounts[id].tenant == req.tenant
            case Opened(id) => id !in db.accounts
    ensures var db' := Apply(db, Do(req, revenue)).value;
            && db'.accounts.Keys == db.accounts.Keys + (if revenue.Opened? then {revenue.id} else {})
            && forall id :: id in db'.accounts ==>
                 var row := RowBefore(db, req.tenant, id);
                 db'.accounts[id] == row.(balance := row.balance
                   - When(id == req.sender, req.amount + FeeOf(db, req))
                   + When(id == req.receiver, req.amount)
                   + When(!revenue.NoFee? && id == revenue.id, FeeOf(db, req)))
    ensures var db' := Apply(db, Do(req, revenue)).value;
            var Transfer(tenant, sender, receiver, amount, txn) := req;
            var fee := FeeOf(db, req);
            && db'.ledger == db.ledger
                 + [Entry(tenant, txn, sender, -amount, TransferEntry), Entry(tenant, txn, receiver, amount, TransferEntry)]
                 + (if fee == 0 then []
                    else [Entry(tenant, txn, sender, -fee, FeeEntry), Entry(tenant, txn, revenue.id, fee, FeeEntry)])
            && db'.outbox == db.outbox + [TransferCompleted(tenant, txn, sender, receiver, amount, fee)]
  {
    hide Apply, Decide, LockOrder, Fees.Fee;
    TransferCommits(db, req, revenue);
    forall id { PostedFew(TransferScript(req, FeeOf(db, req), revenue).postings, id, Held); }
  }

  /** What a granted transfer charges and reports: the fixed part plus the rate on the amount, to the nearest cent, ties up;
      nothing where a negative plan makes that negative. */
  lemma FeeCharged(db: Db, req: Request, revenue: Revenue)
    requires req.Transfer? && Apply(db, Do(req, revenue)).Ok?
    ensures req.tenant in db.tenants
    ensures var plan := db.tenants[req.tenant];
            var exact := 10000 * plan.fixed + req.amount * plan.rate;
            var db' := Apply(db, Do(req, revenue)).value;
            && |db'.outbox| == |db.outbox| + 1
            && var ev := db'.outbox[|db.outbox|];
            && ev.TransferCompleted? && ev.fee >= 0
            && (exact >= 0 ==> -5000 < 10000 * ev.fee - exact <= 5000)
            && (exact <= 0 ==> ev.fee == 0)
  {
    hide Apply, Fees.Fee;
    TransferEffect(db, req, revenue);
    Fees.FeeIsExactOrZero(db.tenants[req.tenant], req.amount);
  }

  lemma HoldGrantedIff(db: Db, req: Request)
    requires req.Hold?
    ensures Apply(db, Do(req, NoFee)).Ok? <==>
            && req.tenant != NO_ID && req.amount > 0
            && Owned(db, req.account, req.tenant) && db.accounts[req.account].balance >= req.amount
  {
    var checks := HoldScript(req).checks;
    AllPass(db.accounts + HoldScript(req).inserts, checks);
    assert checks[0] in checks && checks[1] in checks && checks[2] in checks;
  }

  lemma HoldEffect(db: Db, req: Request)
    requires req.Hold? && Apply(db, Do(req, NoFee)).Ok?
    ensures var db' := Apply(db, Do(req, NoFee)).value;
            var row := db.accounts[req.account];
            && req.account in db.accounts
            && db'.accounts == db.accounts[req.account := row.(balance := row.balance - req.amount, hold := row.hold + req.amount)]
            && db'.ledger == db.ledger + [Entry(req.tenant, req.txn, req.account, -req.amount, HoldEntry)]
            && db'.outbox == db.outbox + [HoldCreated(req.tenant, req.txn, req.account, req.amount)]
  {
    hide FirstFailure;
    HoldGrantedIff(db, req);
    forall id { PostedFew(HoldScript(req).postings, id, Held); }
  }

  /** A capture is granted exactly when the hold exists, the receiver is another account of the tenant, the amount is
      within the hold and the holder's pool still holds that amount. */
  lemma CaptureGrantedIff(db: Db, req: Request, entry: Entry)
    requires Ledgered(db) && req.Capture? && FindHold(db.ledger, req.holdId, req.tenant) == Some(entry)
    ensures Apply(db, Do(req, NoFee)).Ok? <==>
            && req.tenant != NO_ID && 0 < req.amount <= Abs(entry.amount)
            && entry.account != req.receiver && Owned(db, req.receiver, req.tenant)
            && HoldOf(db, entry.account) >= req.amount
  {
    FoundHold(db.ledger, req.holdId, req.tenant);
    assert db.accounts + map[] == db.accounts;
    CaptureChecksHold(db.accounts, req, entry.account, Abs(entry.amount));
  }

  /** A granted capture takes the whole held amount out of the holder's pool, pays the captured part to the receiver
      and returns the rest to the holder's balance; a rest gets a RELEASE row before the two TRANSFER rows. */
  lemma CaptureEffect(db: Db, req: Request, entry: Entry)
    requires Ledgered(db) && req.Capture? && FindHold(db.ledger, req.holdId, req.tenant) == Some(entry)
    requires Apply(db, Do(req, NoFee)).Ok?
    ensures var db' := Apply(db, Do(req, NoFee)).value;
            var held := Abs(entry.amount);
            && entry.account in db.accounts && db'.accounts.Keys == db.accounts.Keys
            && forall id :: id in db'.accounts ==>
                 db'.accounts[id] == db.accounts[id].(
                   balance := db.accounts[id].balance
                     + When(id == entry.account, held - req.amount) + When(id == req.receiver, req.amount),
                   hold := db.accounts[id].hold - When(id == entry.account, held))
    ensures var db' := Apply(db, Do(req, NoFee)).value;
            var Capture(tenant, holdId, receiver, amount, txn) := req;
            var rest := Abs(entry.amount) - amount;
            && rest >= 0
            && db'.ledger == db.ledger
                 + (if rest == 0 then [] else [Entry(tenant, txn, entry.account, rest, ReleaseEntry)])
                 + [Entry(tenant, txn, entry.account, -amount, TransferEntry), Entry(tenant, txn, receiver, amount, TransferEntry)]
            && db'.outbox == db.outbox + [HoldCaptured(tenant, txn, holdId, entry.account, receiver, amount, rest)]
  {
    hide FirstFailure, LockOrder;
    CaptureGrantedIff(db, req, entry);
    FoundHold(db.ledger, req.holdId, req.tenant);
    forall id { PostedFew(CaptureScript(req, entry.account, Abs(entry.amount)).postings, id, Held); }
  }

  lemma ReleaseGrantedIff(db: Db, req: Request, entry: Entry)
    requires Ledgered(db) && req.Release? && FindHold(db.ledger, req.holdId, req.tenant) == Some(entry)
    ensures Apply(db, Do(req, NoFee)).Ok? <==>
            && req.tenant != NO_ID && 0 < req.amount <= Abs(entry.amount)
            && HoldOf(db, entry.account) >= req.amount
  {
    FoundHold(db.ledger, req.holdId, req.tenant);
    var script := ReleaseScript(req, entry.account, Abs(entry.amount));
    var checks := script.checks;
    AllPass(db.accounts + script.inserts, checks);
    assert checks[0] in checks && checks[1] in checks && checks[2] in checks;
  }

  lemma ReleaseEffect(db: Db, req: Request, entry: Entry)
    requires Ledgered(db) && req.Release? && FindHold(db.ledger, req.holdId, req.tenant) == Some(entry)
    requires Apply(db, Do(req, NoFee)).Ok?
    ensures var db' := Apply(db, Do(req, NoFee)).value;
            && entry.account in db.accounts
            && var row := db.accounts[entry.account];
               db'.accounts == db.accounts[entry.account := row.(balance := row.balance + req.amount, hold := row.hold - req.amount)]
    ensures var db' := Apply(db, Do(req, NoFee)).value;
            && db'.ledger == db.ledger + [Entry(req.tenant, req.txn, entry.account, req.amount, ReleaseEntry)]
            && db'.outbox == db.outbox + [HoldReleased(req.tenant, req.txn, req.holdId, entry.account, req.amount)]
  {
    hide FirstFailure;
    ReleaseGrantedIff(db, req, entry);
    FoundHold(db.ledger, req.holdId, req.tenant);
    forall id { PostedFew(ReleaseScript(req, entry.account, Abs(entry.amount)).postings, id, Held); }
  }

  // ---------- operations together ----------

  lemma {:induction false} FindAppended(ledger: seq<Entry>, more: seq<Entry>, holdId: Id, tenant: Id)
    ensures FindHold(ledger + more, holdId, tenant) ==
            if FindHold(ledger, holdId, tenant).Some? then FindHold(ledger, holdId, tenant) else FindHold(more, holdId, tenant)
  {
    if ledger == [] {
      assert ledger + more == more;
    } else {
      assert (ledger + more)[1..] == ledger[1..] + more;
      FindAppended(ledger[1..], more, holdId, tenant);
    }
  }

  lemma HoldIsFound(db: Db, hold: Request)
    requires hold.Hold? && Apply(db, Do(hold, NoFee)).Ok? && FindHold(db.ledger, hold.txn, hold.tenant).None?
    ensures FindHold(Next(db, Do(hold, NoFee)).ledger, hold.txn, hold.tenant) ==
            Some(Entry(hold.tenant, hold.txn, hold.account, -hold.amount, HoldEntry))
  {
    HoldEffect(db, hold);
    FindAppended(db.ledger, HoldScript(hold).entries, hold.txn, hold.tenant);
  }

  /** Releasing a fresh hold in full gives back the account table as it was, unless the pool was already negative. */
  lemma ReleaseUndoesHold(db: Db, hold: Request, txn: Id)
    requires Ledgered(db) && hold.Hold? && Apply(db, Do(hold, NoFee)).Ok? && FindHold(db.ledger, hold.txn, hold.tenant).None?
    ensures var release := Do(Release(hold.tenant, hold.txn, hold.amount, txn), NoFee);
            var held := Next(db, Do(hold, NoFee));
            && hold.account in db.accounts
            && (Apply(held, release).Ok? <==> db.accounts[hold.account].hold >= 0)
            && (Apply(held, release).Ok? ==> Apply(held, release).value.accounts == db.accounts)
  {
    hide Apply;
    var held := Next(db, Do(hold, NoFee));
    var release := Release(hold.tenant, hold.txn, hold.amount, txn);
    HoldGrantedIff(db, hold);
    HoldEffect(db, hold);
    HoldIsFound(db, hold);
    var entry := Entry(hold.tenant, hold.txn, hold.account, -hold.amount, HoldEntry);
    ReleaseGrantedIff(held, release, entry);
    if Apply(held, Do(release, NoFee)).Ok? {
      ReleaseEffect(held, release, entry);
    }
  }

  /** Holding and then capturing in full moves the money as a transfer without fee would, except that a pool that was
      already negative has the capture refused. */
  lemma FullCaptureIsATransfer(db: Db, hold: Request, receiver: Id, txn: Id)
    requires Ledgered(db) && hold.Hold? && Apply(db, Do(hold, NoFee)).Ok? && FindHold(db.ledger, hold.txn, hold.tenant).None?
    requires hold.tenant in db.tenants && db.tenants[hold.tenant] == FeePlan(0, 0)
    ensures hold.account in db.accounts
    ensures var capture := Do(Capture(hold.tenant, hold.txn, receiver, hold.amount, txn), NoFee);
            var transfer := Do(Transfer(hold.tenant, hold.account, receiver, hold.amount, txn), NoFee);
            var held := Next(db, Do(hold, NoFee));
            && (Apply(held, capture).Ok? <==> Apply(db, transfer).Ok? && db.accounts[hold.account].hold >= 0)
            && (Apply(held, capture).Ok? ==> Apply(held, capture).value.accounts == Apply(db, transfer).value.accounts)
  {
    hide Apply;
    var held := Next(db, Do(hold, NoFee));
    var entry := Entry(hold.tenant, hold.txn, hold.account, -hold.amount, HoldEntry);
    HoldGrantedIff(db, hold);
    HoldEffect(db, hold);
    HoldIsFound(db, hold);
    FullCaptureGranted(db, held, hold, receiver, txn);
    if Apply(held, Do(Capture(hold.tenant, hold.txn, receiver, hold.amount, txn), NoFee)).Ok? {
      FullTransferMoves(db, held, hold, receiver, txn);
      FullCaptureMoves(db, held, hold, receiver, txn);
    }
  }

  /** `held` is `db` after the hold. */
  ghost predicate HoldPlaced(db: Db, held: Db, hold: Request) {
    && hold.Hold? && hold.amount > 0 && hold.tenant != NO_ID
    && hold.tenant in db.tenants && db.tenants[hold.tenant] == FeePlan(0, 0)
    && Owned(db, hold.account, hold.tenant)
    && db.accounts[hold.account].balance >= hold.amount
    && held.accounts == db.accounts[hold.account := Adjust(db.accounts[hold.account], Posting(hold.account, -hold.amount, hold.amount))]
    && FindHold(held.ledger, hold.txn, hold.tenant) == Some(Entry(hold.tenant, hold.txn, hold.account, -hold.amount, HoldEntry))
    && Ledgered(held)
  }

  lemma FullCaptureGranted(db: Db, held: Db, hold: Request, receiver: Id, txn: Id)
    requires HoldPlaced(db, held, hold)
    ensures Apply(held, Do(Capture(hold.tenant, hold.txn, receiver, hold.amount, txn), NoFee)).Ok? <==>
            && Apply(db, Do(Transfer(hold.tenant, hold.account, receiver, hold.amount, txn), NoFee)).Ok?
            && db.accounts[hold.account].hold >= 0
  {
    TransferGrantedIff(db, Transfer(hold.tenant, hold.account, receiver, hold.amount, txn), NoFee);
    CaptureGrantedIff(held, Capture(hold.tenant, hold.txn, receiver, hold.amount, txn),
                      Entry(hold.tenant, hold.txn, hold.account, -hold.amount, HoldEntry));
  }

  lemma FullTransferMoves(db: Db, held: Db, hold: Request, receiver: Id, txn: Id)
    requires HoldPlaced(db, held, hold)
    requires Apply(db, Do(Transfer(hold.tenant, hold.account, receiver, hold.amount, txn), NoFee)).Ok?
    ensures MovedFrom(db.accounts, Apply(db, Do(Transfer(hold.tenant, hold.account, receiver, hold.amount, txn), NoFee)).value.accounts,
                      hold.account, receiver, hold.amount)
  {
    hide Apply;
    var transfer := Transfer(hold.tenant, hold.account, receiver, hold.amount, txn);
    assert FeeOf(db, transfer) == 0;
    TransferEffect(db, transfer, NoFee);
  }

  lemma FullCaptureMoves(db: Db, held: Db, hold: Request, receiver: Id, txn: Id)
    requires HoldPlaced(db, held, hold)
    requires Apply(held, Do(Capture(hold.tenant, hold.txn, receiver, hold.amount, txn), NoFee)).Ok?
    ensures MovedFrom(db.accounts, Apply(held, Do(Capture(hold.tenant, hold.txn, receiver, hold.amount, txn), NoFee)).value.accounts,
                      hold.account, receiver, hold.amount)
  {
    hide Apply;
    CaptureEffect(held, Capture(hold.tenant, hold.txn, receiver, hold.amount, txn),
                  Entry(hold.tenant, hold.txn, hold.account, -hold.amount, HoldEntry));
    HoldThenCapture(db.accounts, held.accounts,
      Apply(held, Do(Capture(hold.tenant, hold.txn, receiver, hold.amount, txn), NoFee)).value.accounts,
      hold.account, receiver, hold.amount);
  }

  lemma HoldThenCapture(before: map<Id, Account>, held: map<Id, Account>, captured: map<Id, Account>, a: Id, receiver: Id, x: int)
    requires a in before && held == before[a := Adjust(before[a], Posting(a, -x, x))] && captured.Keys == held.Keys
    requires forall id :: id in captured ==>
      captured[id] == held[id].(balance := held[id].balance + When(id == a, 0) + When(id == receiver, x),
                                hold := held[id].hold - When(id == a, x))
    ensures MovedFrom(before, captured, a, receiver, x)
  {
    forall id | id in captured
      ensures captured[id] == before[id].(balance := before[id].balance - When(id == a, x) + When(id == receiver, x))
    {
    }
  }

  ghost predicate MovedFrom(before: map<Id, Account>, after: map<Id, Account>, sender: Id, receiver: Id, amount: int) {
    after == map id | id in before ::
      before[id].(balance := before[id].balance - When(id == sender, amount) + When(id == receiver, amount))
  }

  /** An operation changes no row of another tenant: not its accounts, and every entry and event it adds carries its own
      tenant. */
  lemma OtherTenantsUntouched(db: Db, req: Request, revenue: Revenue)
    requires Ledgered(db) && Apply(db, Do(req, revenue)).Ok?
    ensures var db' := Apply(db, Do(req, revenue)).value;
            && db.accounts.Keys <= db'.accounts.Keys
            && (forall id :: id in db.accounts && db.accounts[id].tenant != req.tenant ==> db'.accounts[id] == db.accounts[id])
            && (forall id :: id in db'.accounts && id !in db.accounts ==> db'.accounts[id].tenant == req.tenant)
            && db.ledger <= db'.ledger
            && (forall i :: |db.ledger| <= i < |db'.ledger| ==> db'.ledger[i].tenant == req.tenant)
            && db.outbox <= db'.outbox
            && (forall i :: |db.outbox| <= i < |db'.outbox| ==> db'.outbox[i].tenant == req.tenant)
  {
    hide Apply, Decide, Plan;
    GrantedCommits(db, req, revenue);
    Granted(db, req, revenue);
    var script := Decide(db, req, revenue).value;
    EventIsOwn(db, req, revenue);
    PostKeepsOthers(db.accounts + script.inserts, script.postings, req.tenant);
    assert Labelled(script, req.tenant, req.txn);
  }

  lemma EventIsOwn(db: Db, req: Request, revenue: Revenue)
    requires Plan(db, req, revenue).Ok?
    ensures Plan(db, req, revenue).value.event.tenant == req.tenant
  {
  }

  lemma PostKeepsOthers(accounts: map<Id, Account>, postings: seq<Posting>, tenant: Id)
    requires forall p :: p in postings ==> p.id in accounts && accounts[p.id].tenant == tenant
    ensures forall id :: id in accounts ==>
              && Post(accounts, postings)[id].tenant == accounts[id].tenant
              && (accounts[id].tenant != tenant ==> Post(accounts, postings)[id] == accounts[id])
  {
    forall id | id in accounts && accounts[id].tenant != tenant ensures Post(accounts, postings)[id] == accounts[id] {
      UnpostedIsZero(postings, id);
    }
  }

  /** How many requests of a run were committed. */
  function Committed(tenants: map<Id, FeePlan>, ops: seq<Op>): nat {
    if ops == [] then 0
    else
      var rest, op := ops[..|ops| - 1], ops[|ops| - 1];
      Committed(tenants, rest) + if op.Do? && Apply(Exec(tenants, rest), op).Ok? then 1 else 0
  }

  /** The payload an operation must report, in terms of the request and the rows it looked up. */
  predicate Reports(db: Db, req: Request, ev: Event) {
    match req
    case Transfer(tenant, sender, receiver, amount, txn) =>
      tenant in db.tenants && ev == TransferCompleted(tenant, txn, sender, receiver, amount, FeeOf(db, req))
    case Hold(tenant, account, amount, txn) => ev == HoldCreated(tenant, txn, account, amount)
    case Capture(tenant, holdId, receiver, amount, txn) =>
      var hold := FindHold(db.ledger, holdId, tenant);
      hold.Some? && ev == HoldCaptured(tenant, txn, holdId, hold.value.account, receiver, amount, Abs(hold.value.amount) - amount)
    case Release(tenant, holdId, amount, txn) =>
      var hold := FindHold(db.ledger, holdId, tenant);
      hold.Some? && ev == HoldReleased(tenant, txn, holdId, hold.value.account, amount)
  }

  /** Every committed request writes one outbox row, which reports it; a refused one writes none. */
  lemma {:induction false} OneEventPerCommit(tenants: map<Id, FeePlan>, ops: seq<Op>)
    ensures |Exec(tenants, ops).outbox| == Committed(tenants, ops)
    ensures ops != [] && ops[|ops| - 1].Do? ==>
            var before, after := Exec(tenants, ops[..|ops| - 1]), Exec(tenants, ops);
            var req := ops[|ops| - 1].req;
            if Apply(before, ops[|ops| - 1]).Ok?
            then |after.outbox| == |before.outbox| + 1 && before.outbox <= after.outbox
                 && Reports(before, req, after.outbox[|before.outbox|])
            else after == before
  {
    if ops != [] {
      OneEventPerCommit(tenants, ops[..|ops| - 1]);
    }
  }

  /** Whoever receives a fee is a platform revenue account of the tenant that paid it. */
  ghost predicate FeesAreRevenue(db: Db) {
    forall e :: e in db.ledger && e.kind == FeeEntry && e.amount > 0 ==>
      e.account in db.accounts && db.accounts[e.account].kind == PlatformRevenue && db.accounts[e.account].tenant == e.tenant
  }

  lemma CommitKeepsKinds(db: Db, req: Request, revenue: Revenue)
    requires Apply(db, Do(req, revenue)).Ok?
    ensures var db' := Apply(db, Do(req, revenue)).value;
            forall id :: id in db.accounts ==>
              id in db'.accounts && db'.accounts[id].kind == db.accounts[id].kind && db'.accounts[id].tenant == db.accounts[id].tenant
  {
    hide FirstFailure, LockOrder;
  }

  lemma TransferKeepsFees(db: Db, req: Request, revenue: Revenue)
    requires FeesAreRevenue(db) && req.Transfer? && Apply(db, Do(req, revenue)).Ok?
    ensures FeesAreRevenue(Apply(db, Do(req, revenue)).value)
  {
    hide Apply;
    CommitKeepsKinds(db, req, revenue);
    TransferEffect(db, req, revenue);
  }

  lemma CommitKeepsFees(db: Db, req: Request, revenue: Revenue)
    requires Ledgered(db) && FeesAreRevenue(db) && Apply(db, Do(req, revenue)).Ok?
    ensures FeesAreRevenue(Apply(db, Do(req, revenue)).value)
  {
    hide Apply, Plan, Decide;
    CommitKeepsKinds(db, req, revenue);
    if req.Transfer? {
      TransferKeepsFees(db, req, revenue);
    } else {
      GrantedCommits(db, req, revenue);
      NoFeeRows(db, req, revenue);
    }
  }

  lemma NoFeeRows(db: Db, req: Request, revenue: Revenue)
    requires !req.Transfer? && Plan(db, req, revenue).Ok?
    ensures forall e :: e in Plan(db, req, revenue).value.entries ==> e.kind != FeeEntry
  {
  }

  /** On every run, every fee went to a platform revenue account of its tenant. */
  lemma {:induction false} FeesGoToRevenue(tenants: map<Id, FeePlan>, ops: seq<Op>)
    ensures FeesAreRevenue(Exec(tenants, ops))
  {
    if ops != [] {
      hide FeesAreRevenue, Decide;
      var before, op := ops[..|ops| - 1], ops[|ops| - 1];
      var db := Exec(tenants, before);
      FeesGoToRevenue(tenants, before);
      EveryRunIsSound(tenants, before);
      match op
      case Open(_, _, _, _) => OpenKeepsFees(db, op);
      case Do(req, revenue) =>
        if Apply(db, op).Ok? {
          CommitKeepsFees(db, req, revenue);
        }
    }
  }

  lemma OpenKeepsFees(db: Db, op: Op)
    requires FeesAreRevenue(db) && op.Open?
    ensures FeesAreRevenue(Next(db, op))
  {
  }

  // ---------- openings ----------

  /** An account is opened exactly for a named, known tenant, a non-negative balance and an unused id, and then is the only
      change: a row of that tenant and kind, with the whole balance available and nothing on hold. */
  lemma OpenEffect(db: Db, id: Id, tenant: Id, kind: AccountType, opening: int)
    ensures var r := Apply(db, Open(id, tenant, kind, opening));
            && (r.Ok? <==> tenant != NO_ID && opening >= 0 && tenant in db.tenants && id !in db.accounts)
            && (r.Ok? ==> r.value == db.(accounts := db.accounts[id := Account(tenant, kind, opening, opening, 0)]))
  {
  }
}

/** The money engine as atomic operations on the database: what one committed call does. */
module AtomicLedger {
  import opened Domain
  import Fees

  // ---------- lock order ----------

  ghost predicate Increasing(s: seq<Id>) {
    forall i, j :: 0 <= i < j < |s| ==> s[i] < s[j]
  }

  /** Inserts an id into a sorted list without duplicates. */
  function InsertId(id: Id, s: seq<Id>): (r: seq<Id>)
    requires Increasing(s)
    ensures Increasing(r)
    ensures forall x :: x in r <==> x == id || x in s
    ensures |r| <= |s| + 1
  {
    if s == [] then [id]
    else if id < s[0] then [id] + s
    else if id == s[0] then s
    else
      var rest := InsertId(id, s[1..]);
      assert forall i :: 0 <= i < |rest| ==> rest[i] in rest;
      [s[0]] + rest
  }

  /** The distinct ids of a list in the order in which their rows are locked. */
  function LockOrder(ids: seq<Id>): (r: seq<Id>)
    ensures Increasing(r)
    ensures forall x :: x in r <==> x in ids
    ensures |r| <= |ids|
  {
    if ids == [] then [] else InsertId(ids[0], LockOrder(ids[1..]))
  }

  // ---------- the script of an operation ----------

  /** A test on rows read inside the transaction. */
  datatype Check =
    | Exists(id: Id)
    | OfTenant(id: Id, tenant: Id)
    | BalanceAtLeast(id: Id, amount: int)
    | HoldAtLeast(id: Id, amount: int)
    | AtMost(x: int, y: int)

  datatype Guard = Guard(check: Check, error: Error)

  /** Increments of one account row. */
  datatype Posting = Posting(id: Id, balance: int, hold: int)

  /** Everything one transaction does once its lookups are made, in order. */
  datatype Script = Script(
    before: seq<Guard>,           // reads made before locking
    inserts: map<Id, Account>,    // rows inserted before locking
    locks: seq<Id>,               // SELECT ... FOR UPDATE
    checks: seq<Guard>,
    postings: seq<Posting>,
    entries: seq<Entry>,
    event: Event)

  predicate Passes(accounts: map<Id, Account>, check: Check) {
    match check
    case Exists(id) => id in accounts
    case OfTenant(id, tenant) => id in accounts && accounts[id].tenant == tenant
    case BalanceAtLeast(id, amount) => id in accounts && accounts[id].balance >= amount
    case HoldAtLeast(id, amount) => id in accounts && accounts[id].hold >= amount
    case AtMost(x, y) => x <= y
  }

  /** The error of the first guard that fails. */
  function FirstFailure(accounts: map<Id, Account>, guards: seq<Guard>): Option<Error> {
    if guards == [] then None
    else if !Passes(accounts, guards[0].check) then Some(guards[0].error)
    else FirstFailure(accounts, guards[1..])
  }

  function PostedBalance(postings: seq<Posting>, id: Id): int {
    if postings == [] then 0
    else PostedBalance(postings[..|postings| - 1], id)
         + if postings[|postings| - 1].id == id then postings[|postings| - 1].balance else 0
  }

  function PostedHold(postings: seq<Posting>, id: Id): int {
    if postings == [] then 0
    else PostedHold(postings[..|postings| - 1], id)
         + if postings[|postings| - 1].id == id then postings[|postings| - 1].hold else 0
  }

  /** The net effect of postings on the account table; the order of the postings does not enter. */
  function Post(accounts: map<Id, Account>, postings: seq<Posting>): map<Id, Account> {
    map id | id in accounts ::
      accounts[id].(balance := accounts[id].balance + PostedBalance(postings, id),
                    hold := accounts[id].hold + PostedHold(postings, id))
  }

  // ---------- lookups ----------

  /** The first HOLD entry of that transaction and tenant. */
  function FindHold(ledger: seq<Entry>, holdId: Id, tenant: Id): Option<Entry> {
    if ledger == [] then None
    else if ledger[0].txn == holdId && ledger[0].tenant == tenant && ledger[0].kind == HoldEntry then Some(ledger[0])
    else FindHold(ledger[1..], holdId, tenant)
  }

  /** Nothing is found exactly when the ledger has no such entry. */
  lemma {:induction false} NoHoldIff(ledger: seq<Entry>, holdId: Id, tenant: Id)
    ensures FindHold(ledger, holdId, tenant).None? <==>
            forall e :: e in ledger ==> !(e.txn == holdId && e.tenant == tenant && e.kind == HoldEntry)
  {
    if ledger != [] {
      NoHoldIff(ledger[1..], holdId, tenant);
      assert forall e :: e in ledger <==> e == ledger[0] || e in ledger[1..];
    }
  }

  function Abs(x: int): int {
    if x < 0 then -x else x
  }

  predicate IsRevenue(accounts: map<Id, Account>, id: Id, tenant: Id) {
    id in accounts && accounts[id].tenant == tenant && accounts[id].kind == PlatformRevenue
  }

  /** A revenue account is needed exactly when there is a fee; a found one is a committed revenue account of the
      tenant, a created one gets an unused id. Another revenue account may exist by the time this one commits. */
  predicate Offered(db: Db, tenant: Id, fee: int, revenue: Revenue) {
    match revenue
    case NoFee => fee == 0
    case Found(id) => fee > 0 && IsRevenue(db.accounts, id, tenant)
    case Opened(id) => fee > 0 && id !in db.accounts
  }

  // ---------- the four operations ----------

  function TransferScript(req: Request, fee: int, revenue: Revenue): Script
    requires req.Transfer?
  {
    var Transfer(tenant, sender, receiver, amount, txn) := req;
    var takesFee := !revenue.NoFee?;
    Script(
      if revenue.Opened? then [Guard(Exists(sender), SenderNotFound)] else [],
      if revenue.Opened? then map[revenue.id := Account(tenant, PlatformRevenue, 0, 0, 0)] else map[],
      LockOrder([sender, receiver] + if takesFee then [revenue.id] else []),
      [ Guard(Exists(sender), SenderNotFound),
        Guard(OfTenant(sender, tenant), SenderOfOtherTenant),
        Guard(BalanceAtLeast(sender, amount + fee), InsufficientFunds),
        Guard(Exists(receiver), ReceiverNotFound),
        Guard(OfTenant(receiver, tenant), ReceiverOfOtherTenant) ],
      [ Posting(sender, -(amount + fee), 0), Posting(receiver, amount, 0) ]
      + (if takesFee then [ Posting(revenue.id, fee, 0) ] else []),
      [ Entry(tenant, txn, sender, -amount, TransferEntry), Entry(tenant, txn, receiver, amount, TransferEntry) ]
      + (if takesFee then [ Entry(tenant, txn, sender, -fee, FeeEntry), Entry(tenant, txn, revenue.id, fee, FeeEntry) ]
         else []),
      TransferCompleted(tenant, txn, sender, receiver, amount, fee))
  }

  function HoldScript(req: Request): Script
    requires req.Hold?
  {
    var Hold(tenant, account, amount, txn) := req;
    Script([], map[], [account],
      [ Guard(Exists(account), AccountNotFound),
        Guard(OfTenant(account, tenant), AccountOfOtherTenant),
        Guard(BalanceAtLeast(account, amount), InsufficientBalance) ],
      [ Posting(account, -amount, amount) ],
      [ Entry(tenant, txn, account, -amount, HoldEntry) ],
      HoldCreated(tenant, txn, account, amount))
  }

  function CaptureScript(req: Request, sender: Id, held: int): Script
    requires req.Capture?
  {
    var Capture(tenant, holdId, receiver, amount, txn) := req;
    var remainder := held - amount;
    Script([], map[], LockOrder([sender, receiver]),
      [ Guard(Exists(sender), SenderNotFound),
        Guard(AtMost(amount, held), ExceedsHeldAmount),
        Guard(HoldAtLeast(sender, amount), InsufficientHeld),
        Guard(Exists(receiver), ReceiverNotFound),
        Guard(OfTenant(receiver, tenant), ReceiverOfOtherTenant) ],
      [ Posting(sender, 0, -amount), Posting(receiver, amount, 0) ]
      + (if remainder > 0 then [ Posting(sender, remainder, -remainder) ] else []),
      (if remainder > 0 then [ Entry(tenant, txn, sender, remainder, ReleaseEntry) ] else [])
      + [ Entry(tenant, txn, sender, -amount, TransferEntry), Entry(tenant, txn, receiver, amount, TransferEntry) ],
      HoldCaptured(tenant, txn, holdId, sender, receiver, amount, remainder))
  }

  function ReleaseScript(req: Request, account: Id, held: int): Script
    requires req.Release?
  {
    var Release(tenant, holdId, amount, txn) := req;
    Script([], map[], [account],
      [ Guard(Exists(account), AccountNotFound),
        Guard(AtMost(amount, held), ExceedsHeldAmount),
        Guard(HoldAtLeast(account, amount), InsufficientHeld) ],
      [ Posting(account, amount, -amount) ],
      [ Entry(tenant, txn, account, amount, ReleaseEntry) ],
      HoldReleased(tenant, txn, holdId, account, amount))
  }

  /** The validation and the lookups that come before any row is locked. */
  function Plan(db: Db, req: Request, revenue: Revenue): Result<Script> {
    if req.tenant == NO_ID then Err(TenantRequired)
    else if req.amount <= 0 then Err(InvalidAmount)
    else match req
      case Transfer(tenant, sender, receiver, amount, txn) =>
        if sender == receiver then Err(SameAccount)
        else if tenant !in db.tenants then Err(TenantNotFound)
        else
          var fee := Fees.Fee(db.tenants[tenant], amount);
          if !Offered(db, tenant, fee, revenue) then Err(SystemError)
          else Ok(TransferScript(req, fee, revenue))
      case Hold(_, _, _, _) => Ok(HoldScript(req))
      case Capture(tenant, holdId, receiver, amount, txn) =>
        (match FindHold(db.ledger, holdId, tenant)
         case None => Err(HoldNotFound)
         case Some(entry) =>
           if entry.account == receiver then Err(SameAccount)
           else Ok(CaptureScript(req, entry.account, Abs(entry.amount))))
      case Release(tenant, holdId, amount, txn) =>
        (match FindHold(db.ledger, holdId, tenant)
         case None => Err(HoldNotFound)
         case Some(entry) => Ok(ReleaseScript(req, entry.account, Abs(entry.amount))))
  }

  /** The script if every guard passes on one snapshot, else the first error. */
  function Decide(db: Db, req: Request, revenue: Revenue): Result<Script> {
    match Plan(db, req, revenue)
    case Err(e) => Err(e)
    case Ok(script) =>
      match FirstFailure(db.accounts, script.before)
      case Some(e) => Err(e)
      case None =>
        match FirstFailure(db.accounts + script.inserts, script.checks)
        case Some(e) => Err(e)
        case None => Ok(script)
  }

  function Commit(db: Db, script: Script): Db {
    db.(accounts := Post(db.accounts + script.inserts, script.postings),
        ledger := db.ledger + script.entries,
        outbox := db.outbox + [script.event])
  }

  // ---------- runs ----------

  /** One committed or refused call: account creation, or a transfer-service request with the revenue account it used. */
  datatype Op =
    | Open(id: Id, tenant: Id, kind: AccountType, opening: int)
    | Do(req: Request, revenue: Revenue)

  function Apply(db: Db, op: Op): Result<Db> {
    match op
    case Open(id, tenant, kind, opening) =>
      if tenant == NO_ID then Err(FieldRequired)
      else if opening < 0 then Err(InvalidOpening)
      else if tenant !in db.tenants then Err(TenantNotFound)
      else if id in db.accounts then Err(SystemError)
      else Ok(db.(accounts := db.accounts[id := Account(tenant, kind, opening, opening, 0)]))
    case Do(req, revenue) =>
      match Decide(db, req, revenue)
      case Err(e) => Err(e)
      case Ok(script) => Ok(Commit(db, script))
  }

  /** A refused call rolls back. */
  function Next(db: Db, op: Op): Db {
    match Apply(db, op)
    case Ok(db') => db'
    case Err(_) => db
  }

  function Genesis(tenants: map<Id, FeePlan>): Db {
    Db(tenants, map[], [], [])
  }

  /** The database after a run of calls. */
  function Exec(tenants: map<Id, FeePlan>, ops: seq<Op>): Db {
    if ops == [] then Genesis(tenants) else Next(Exec(tenants, ops[..|ops| - 1]), ops[|ops| - 1])
  }

  lemma ExecAppend(tenants: map<Id, FeePlan>, ops: seq<Op>, op: Op)
    ensures Exec(tenants, ops + [op]) == Next(Exec(tenants, ops), op)
  {
    assert (ops + [op])[..|ops + [op]| - 1] == ops;
  }

  lemma ExecOpening(tenants: map<Id, FeePlan>, id: Id, tenant: Id, kind: AccountType, opening: int)
    requires tenant in tenants && tenant != NO_ID && opening >= 0
    ensures Exec(tenants, [Open(id, tenant, kind, opening)]) ==
            Db(tenants, map[id := Account(tenant, kind, opening, opening, 0)], [], [])
  {
    var op := Open(id, tenant, kind, opening);
    ExecAppend(tenants, [], op);
    assert [] + [op] == [op];
  }
}

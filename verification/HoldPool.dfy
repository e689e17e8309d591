/** Holds over whole runs: what each hold has left, and when an account's hold pool stays non-negative. */
module HoldPool {
  import opened Domain
  import opened AtomicLedger
  import opened Sums
  import opened LedgerLaws
  import opened Operations

  /** One hold: the account it is on, its amount, how often it was captured and how much of it was released. */
  datatype Claim = Claim(account: Id, placed: int, captures: int, released: int)

  /** What the hold still backs in its account's pool. Every capture takes out the whole amount. */
  function Left(c: Claim): int {
    c.placed - c.captures * c.placed - c.released
  }

  /** The holds after a sequence of committed operations, by hold id. */
  function Claims(events: seq<Event>): map<Id, Claim> {
    if events == [] then map[]
    else Claim1(Claims(events[..|events| - 1]), events[|events| - 1])
  }

  function Claim1(claims: map<Id, Claim>, ev: Event): map<Id, Claim> {
    match ev
    case TransferCompleted(_, _, _, _, _, _) => claims
    case HoldCreated(_, txn, account, amount) => claims[txn := Claim(account, amount, 0, 0)]
    case HoldCaptured(_, _, holdId, _, _, _, _) =>
      if holdId in claims then claims[holdId := claims[holdId].(captures := claims[holdId].captures + 1)] else claims
    case HoldReleased(_, _, holdId, _, released) =>
      if holdId in claims then claims[holdId := claims[holdId].(released := claims[holdId].released + released)] else claims
  }

  /** The remainders of the holds on one account. */
  function Lefts(claims: map<Id, Claim>, a: Id): map<Id, int> {
    map h | h in claims && claims[h].account == a :: Left(claims[h])
  }

  /** Transaction ids are fresh: no two requests of the run share one. */
  ghost predicate FreshTxns(ops: seq<Op>) {
    forall i, j :: 0 <= i < j < |ops| && ops[i].Do? && ops[j].Do? ==> ops[i].req.txn != ops[j].req.txn
  }

  /** The HOLD entries of the ledger and the claims describe the same holds, and each account's pool is the sum of what
      its holds have left. */
  ghost predicate Pooled(db: Db) {
    && (forall e :: e in db.ledger && e.kind == HoldEntry ==> Records(db, e))
    && (forall h :: h in Claims(db.outbox) ==> Claims(db.outbox)[h].placed > 0)
    && (forall a :: HoldOf(db, a) == Sum(Lefts(Claims(db.outbox), a)))
  }

  ghost predicate Records(db: Db, e: Entry) {
    var claims := Claims(db.outbox);
    e.txn in claims && claims[e.txn].account == e.account && e.amount == -claims[e.txn].placed
  }

  /** Only committed requests created holds, so an unused transaction id is no hold id. */
  ghost predicate Unused(db: Db, txn: Id) {
    && txn !in Claims(db.outbox)
    && forall e :: e in db.ledger ==> e.txn != txn
  }

  lemma ClaimsAppend(events: seq<Event>, ev: Event)
    ensures Claims(events + [ev]) == Claim1(Claims(events), ev)
  {
    assert (events + [ev])[..|events + [ev]| - 1] == events;
  }

  /** Replacing one claim moves the pool of its account by the change in what it has left. */
  lemma LeftsUpdate(claims: map<Id, Claim>, h: Id, c: Claim, a: Id)
    requires h in claims ==> claims[h].account == c.account
    ensures Sum(Lefts(claims[h := c], a)) ==
            Sum(Lefts(claims, a)) + When(c.account == a, Left(c) - if h in claims then Left(claims[h]) else 0)
  {
    var before, after := Lefts(claims, a), Lefts(claims[h := c], a);
    if c.account == a {
      assert after == before[h := Left(c)];
      SumUpdate(before, h, Left(c));
    } else {
      assert after == before;
    }
  }

  lemma OpenKeepsPool(db: Db, op: Op)
    requires Pooled(db) && op.Open? && Apply(db, op).Ok?
    ensures Pooled(Apply(db, op).value)
  {
    var db' := Apply(db, op).value;
    forall a ensures HoldOf(db', a) == Sum(Lefts(Claims(db'.outbox), a)) {
      assert HoldOf(db', a) == HoldOf(db, a);
    }
    forall e | e in db'.ledger && e.kind == HoldEntry ensures Records(db', e) {
      assert Records(db, e);
    }
  }

  lemma TransferKeepsPool(db: Db, req: Request, revenue: Revenue)
    requires Pooled(db) && req.Transfer? && Apply(db, Do(req, revenue)).Ok?
    ensures Pooled(Apply(db, Do(req, revenue)).value)
  {
    hide Apply;
    var db' := Apply(db, Do(req, revenue)).value;
    TransferEffect(db, req, revenue);
    ClaimsAppend(db.outbox, db'.outbox[|db.outbox|]);
    forall a ensures HoldOf(db', a) == Sum(Lefts(Claims(db'.outbox), a)) {
      assert HoldOf(db', a) == HoldOf(db, a);
    }
    forall e | e in db'.ledger && e.kind == HoldEntry ensures Records(db', e) {
      assert e in db.ledger && Records(db, e);
    }
  }

  lemma HoldKeepsPool(db: Db, req: Request)
    requires Pooled(db) && Unused(db, req.txn) && req.Hold? && Apply(db, Do(req, NoFee)).Ok?
    ensures Pooled(Apply(db, Do(req, NoFee)).value)
  {
    hide Apply;
    var db' := Apply(db, Do(req, NoFee)).value;
    var claims, c := Claims(db.outbox), Claim(req.account, req.amount, 0, 0);
    HoldGrantedIff(db, req);
    HoldEffect(db, req);
    ClaimsAppend(db.outbox, HoldCreated(req.tenant, req.txn, req.account, req.amount));
    assert Claims(db'.outbox) == claims[req.txn := c];
    forall a ensures HoldOf(db', a) == Sum(Lefts(claims[req.txn := c], a)) {
      assert HoldOf(db, a) == Sum(Lefts(claims, a));
      LeftsUpdate(claims, req.txn, c, a);
    }
    forall e | e in db'.ledger && e.kind == HoldEntry ensures Records(db', e) {
      assert e in db.ledger ==> Records(db, e);
    }
  }

  /** The claim a capture or release leaves behind. */
  function Spent(c: Claim, req: Request): Claim
    requires req.Capture? || req.Release?
  {
    if req.Capture? then c.(captures := c.captures + 1) else c.(released := c.released + req.amount)
  }

  lemma SpendChangesClaim(db: Db, req: Request)
    requires Pooled(db) && (req.Capture? || req.Release?) && Apply(db, Do(req, NoFee)).Ok?
    ensures FindHold(db.ledger, req.holdId, req.tenant).Some?
    ensures var db' := Apply(db, Do(req, NoFee)).value;
            var entry := FindHold(db.ledger, req.holdId, req.tenant).value;
            var claims := Claims(db.outbox);
            && entry.txn == req.holdId && entry.kind == HoldEntry && entry in db.ledger && Records(db, entry)
            && Claims(db'.outbox) == claims[req.holdId := Spent(claims[req.holdId], req)]
            && (forall e :: e in db'.ledger && e.kind == HoldEntry ==> e in db.ledger)
  {
    FoundHold(db.ledger, req.holdId, req.tenant);
    assert Records(db, FindHold(db.ledger, req.holdId, req.tenant).value);
    ClaimsAppend(db.outbox, Decide(db, req, NoFee).value.event);
  }

  lemma SpendChangesPool(db: Db, req: Request, entry: Entry, c: Claim, a: Id)
    requires Ledgered(db) && (req.Capture? || req.Release?) && Apply(db, Do(req, NoFee)).Ok?
    requires FindHold(db.ledger, req.holdId, req.tenant) == Some(entry)
    requires c.account == entry.account && entry.amount == -c.placed && c.placed > 0
    ensures HoldOf(Apply(db, Do(req, NoFee)).value, a) == HoldOf(db, a) + When(c.account == a, Left(Spent(c, req)) - Left(c))
  {
    hide Apply;
    if req.Capture? {
      CaptureEffect(db, req, entry);
    } else {
      ReleaseEffect(db, req, entry);
    }
  }

  lemma SpendKeepsPool(db: Db, req: Request)
    requires Pooled(db) && Ledgered(db) && (req.Capture? || req.Release?) && Apply(db, Do(req, NoFee)).Ok?
    ensures Pooled(Apply(db, Do(req, NoFee)).value)
  {
    var db' := Apply(db, Do(req, NoFee)).value;
    var claims := Claims(db.outbox);
    SpendChangesClaim(db, req);
    forall a ensures HoldOf(db', a) == Sum(Lefts(Claims(db'.outbox), a)) {
      assert HoldOf(db, a) == Sum(Lefts(claims, a));
      SpendChangesPool(db, req, FindHold(db.ledger, req.holdId, req.tenant).value, claims[req.holdId], a);
      LeftsUpdate(claims, req.holdId, Spent(claims[req.holdId], req), a);
    }
    forall e | e in db'.ledger && e.kind == HoldEntry ensures Records(db', e) {
      assert Records(db, e);
    }
  }

  lemma ApplyKeepsPool(db: Db, op: Op)
    requires Pooled(db) && Ledgered(db) && Apply(db, op).Ok? && (op.Do? ==> Unused(db, op.req.txn))
    ensures Pooled(Apply(db, op).value)
  {
    match op
    case Open(_, _, _, _) => OpenKeepsPool(db, op);
    case Do(req, revenue) =>
      match req {
        case Transfer(_, _, _, _, _) => TransferKeepsPool(db, req, revenue);
        case Hold(_, _, _, _) =>
          assert Apply(db, op) == Apply(db, Do(req, NoFee));
          HoldKeepsPool(db, req);
        case Capture(_, _, _, _, _) =>
          assert Apply(db, op) == Apply(db, Do(req, NoFee));
          SpendKeepsPool(db, req);
        case Release(_, _, _, _) =>
          assert Apply(db, op) == Apply(db, Do(req, NoFee));
          SpendKeepsPool(db, req);
      }
  }

  lemma PlanCarriesTxn(db: Db, req: Request, revenue: Revenue)
    requires Plan(db, req, revenue).Ok?
    ensures Plan(db, req, revenue).value.event.txn == req.txn
  {
  }

  lemma CommitUsesOneTxn(db: Db, script: Script, tenant: Id, own: Id, txn: Id)
    requires Unused(db, txn) && Labelled(script, tenant, own) && script.event.txn == own && own != txn
    ensures Unused(Commit(db, script), txn)
  {
    ClaimsAppend(db.outbox, script.event);
  }

  lemma ApplyUsesOneTxn(db: Db, op: Op, txn: Id)
    requires Sound(db) && Unused(db, txn) && Apply(db, op).Ok? && (op.Do? ==> op.req.txn != txn)
    ensures Unused(Apply(db, op).value, txn)
  {
    if op.Do? {
      Granted(db, op.req, op.revenue);
      PlanCarriesTxn(db, op.req, op.revenue);
      CommitUsesOneTxn(db, Decide(db, op.req, op.revenue).value, op.req.tenant, op.req.txn, txn);
    }
  }

  /** Hold ids and entry transaction ids come from committed requests. */
  lemma {:induction false} TxnsComeFromRequests(tenants: map<Id, FeePlan>, ops: seq<Op>, txn: Id)
    requires forall i :: 0 <= i < |ops| && ops[i].Do? ==> ops[i].req.txn != txn
    ensures Unused(Exec(tenants, ops), txn)
  {
    if ops != [] {
      var rest, op := ops[..|ops| - 1], ops[|ops| - 1];
      TxnsComeFromRequests(tenants, rest, txn);
      EveryRunIsSound(tenants, rest);
      if Apply(Exec(tenants, rest), op).Ok? {
        ApplyUsesOneTxn(Exec(tenants, rest), op, txn);
      }
    }
  }

  /** The hold pool law: on every run with fresh transaction ids, an account's hold balance is the sum of what its holds
      have left. */
  lemma {:induction false} EveryRunIsPooled(tenants: map<Id, FeePlan>, ops: seq<Op>)
    requires FreshTxns(ops)
    ensures Pooled(Exec(tenants, ops))
  {
    if ops == [] {
      assert forall a :: Lefts(Claims([]), a) == map[];
    } else {
      var rest, op := ops[..|ops| - 1], ops[|ops| - 1];
      EveryRunIsPooled(tenants, rest);
      EveryRunIsSound(tenants, rest);
      var db := Exec(tenants, rest);
      if Apply(db, op).Ok? {
        if op.Do? {
          forall i | 0 <= i < |rest| && rest[i].Do? ensures rest[i].req.txn != op.req.txn {
            assert ops[i] == rest[i];
          }
          TxnsComeFromRequests(tenants, rest, op.req.txn);
        }
        ApplyKeepsPool(db, op);
      }
    }
  }

  // ---------- well-used holds ----------

  /** A hold is well used when it is captured once and never released, or never captured and released up to its amount. */
  predicate WellUsed(c: Claim) {
    (c.captures == 1 && c.released == 0) || (c.captures == 0 && c.released <= c.placed)
  }

  ghost predicate AllWellUsed(db: Db) {
    forall h :: h in Claims(db.outbox) ==> WellUsed(Claims(db.outbox)[h])
  }

  lemma {:induction false} ClaimsAreCounts(events: seq<Event>, h: Id)
    requires forall ev :: ev in events && ev.HoldReleased? ==> ev.released > 0
    ensures h in Claims(events) ==> Claims(events)[h].captures >= 0 && Claims(events)[h].released >= 0
  {
    if events != [] {
      var ev := events[|events| - 1];
      assert ev in events;
      ClaimsAreCounts(events[..|events| - 1], h);
    }
  }

  /** Released amounts on record are positive. */
  lemma {:induction false} ReleasesArePositive(tenants: map<Id, FeePlan>, ops: seq<Op>)
    ensures forall ev :: ev in Exec(tenants, ops).outbox && ev.HoldReleased? ==> ev.released > 0
  {
    if ops != [] {
      ReleasesArePositive(tenants, ops[..|ops| - 1]);
    }
  }

  /** A hold is well used exactly when it has not been overspent. */
  lemma WellUsedIffCovered(c: Claim)
    requires c.placed > 0 && c.captures >= 0 && c.released >= 0
    ensures WellUsed(c) <==> Left(c) >= 0
  {
    if c.captures >= 2 {
      assert c.captures * c.placed >= 2 * c.placed;
    }
  }

  lemma {:induction false} SumNonNegative(m: map<Id, int>)
    requires forall k :: k in m ==> m[k] >= 0
    ensures Sum(m) >= 0
  {
    if m != map[] {
      var k :| k in m && Sum(m) == m[k] + Sum(m - {k});
      SumNonNegative(m - {k});
    }
  }

  lemma SumAtLeast(m: map<Id, int>, k: Id)
    requires k in m && forall j :: j in m ==> m[j] >= 0
    ensures Sum(m) >= m[k]
  {
    SumSplit(m, k);
    SumNonNegative(m - {k});
  }

  /** While every hold is well used, no hold balance is negative, and each covers what any one of its holds has left. */
  lemma WellUsedPoolsAreCovered(tenants: map<Id, FeePlan>, ops: seq<Op>)
    requires FreshTxns(ops) && AllWellUsed(Exec(tenants, ops))
    ensures var db := Exec(tenants, ops); var claims := Claims(db.outbox);
            && (forall a :: a in db.accounts ==> db.accounts[a].hold >= 0)
            && (forall h :: h in claims ==> 0 <= Left(claims[h]) <= HoldOf(db, claims[h].account))
  {
    var db := Exec(tenants, ops);
    var claims := Claims(db.outbox);
    EveryRunIsPooled(tenants, ops);
    ReleasesArePositive(tenants, ops);
    forall h | h in claims ensures Left(claims[h]) >= 0 {
      ClaimsAreCounts(db.outbox, h);
      WellUsedIffCovered(claims[h]);
    }
    forall a | a in db.accounts ensures db.accounts[a].hold >= 0 {
      SumNonNegative(Lefts(claims, a));
      assert HoldOf(db, a) == Sum(Lefts(claims, a));
    }
    forall h | h in claims ensures Left(claims[h]) <= HoldOf(db, claims[h].account) {
      var a := claims[h].account;
      SumAtLeast(Lefts(claims, a), h);
      assert HoldOf(db, a) == Sum(Lefts(claims, a));
    }
  }

  /** While every hold is well used, a capture of an unused hold and a release of no more than is left are never refused
      for want of held balance. */
  lemma HeldBalanceRefusalsNeverFire(tenants: map<Id, FeePlan>, ops: seq<Op>, req: Request)
    requires FreshTxns(ops) && AllWellUsed(Exec(tenants, ops))
    requires req.Capture? || req.Release?
    requires var claims := Claims(Exec(tenants, ops).outbox);
             req.holdId in claims ==> if req.Capture? then Left(claims[req.holdId]) == claims[req.holdId].placed
                                      else req.amount <= Left(claims[req.holdId])
    ensures Apply(Exec(tenants, ops), Do(req, NoFee)) != Err(InsufficientHeld)
  {
    var db := Exec(tenants, ops);
    EveryRunIsSound(tenants, ops);
    EveryRunIsPooled(tenants, ops);
    WellUsedPoolsAreCovered(tenants, ops);
    if FindHold(db.ledger, req.holdId, req.tenant).Some? {
      FoundHold(db.ledger, req.holdId, req.tenant);
      var entry := FindHold(db.ledger, req.holdId, req.tenant).value;
      assert Records(db, entry);
      RefusalNeedsShortPool(db, req, entry);
    }
  }

  /** The held-balance refusal can only fire when the pool is short of an amount that the hold itself would allow. */
  lemma RefusalNeedsShortPool(db: Db, req: Request, entry: Entry)
    requires (req.Capture? || req.Release?) && FindHold(db.ledger, req.holdId, req.tenant) == Some(entry)
    requires req.amount <= Abs(entry.amount) ==> HoldOf(db, entry.account) >= req.amount
    ensures Apply(db, Do(req, NoFee)) != Err(InsufficientHeld)
  {
    var script := if req.Capture? then CaptureScript(req, entry.account, Abs(entry.amount))
                  else ReleaseScript(req, entry.account, Abs(entry.amount));
    var g := script.checks;
    assert db.accounts + map[] == db.accounts;
    if FirstFailure(db.accounts, g) == Some(InsufficientHeld) {
      var i := FirstFailing(db.accounts, g);
    }
  }

  lemma {:induction false} FirstFailing(accounts: map<Id, Account>, guards: seq<Guard>) returns (i: nat)
    requires FirstFailure(accounts, guards).Some?
    ensures i < |guards| && Some(guards[i].error) == FirstFailure(accounts, guards) && !Passes(accounts, guards[i].check)
    ensures forall j :: 0 <= j < i ==> Passes(accounts, guards[j].check)
  {
    if !Passes(accounts, guards[0].check) {
      i := 0;
    } else {
      var k := FirstFailing(accounts, guards[1..]);
      i := k + 1;
    }
  }

  // ---------- exactly when a capture keeps the pool non-negative ----------

  /** The capture guard compares the pool with the captured amount, but a capture takes out the whole held amount: the
      pool stays non-negative exactly when it covered the held amount. */
  lemma CaptureKeepsPoolIff(db: Db, req: Request, entry: Entry)
    requires Ledgered(db) && req.Capture? && FindHold(db.ledger, req.holdId, req.tenant) == Some(entry)
    requires Apply(db, Do(req, NoFee)).Ok?
    ensures HoldOf(Apply(db, Do(req, NoFee)).value, entry.account) >= 0 <==> HoldOf(db, entry.account) >= Abs(entry.amount)
  {
    CaptureEffect(db, req, entry);
  }

  ghost predicate HoldsNonNegative(db: Db) {
    forall a :: a in db.accounts ==> db.accounts[a].hold >= 0
  }

  /** The guard the code does not have: the pool covers the whole hold. */
  predicate CapturesCovered(db: Db, op: Op) {
    op.Do? && op.req.Capture? && Apply(db, op).Ok? ==>
      var hold := FindHold(db.ledger, op.req.holdId, op.req.tenant);
      hold.Some? && HoldOf(db, hold.value.account) >= Abs(hold.value.amount)
  }

  lemma StepKeepsHoldsIff(db: Db, op: Op)
    requires Sound(db) && HoldsNonNegative(db) && Apply(db, op).Ok?
    ensures HoldsNonNegative(Apply(db, op).value) <==> CapturesCovered(db, op)
  {
    if op.Do? {
      var req := op.req;
      match req {
        case Transfer(_, _, _, _, _) => TransferEffect(db, req, op.revenue);
        case Hold(_, _, _, _) =>
          assert Apply(db, op) == Apply(db, Do(req, NoFee));
          HoldGrantedIff(db, req);
          HoldEffect(db, req);
        case Capture(_, _, _, _, _) =>
          assert Apply(db, op) == Apply(db, Do(req, NoFee));
          CaptureEffect(db, req, FindHold(db.ledger, req.holdId, req.tenant).value);
        case Release(_, _, _, _) =>
          assert Apply(db, op) == Apply(db, Do(req, NoFee));
          var entry := FindHold(db.ledger, req.holdId, req.tenant).value;
          ReleaseGrantedIff(db, req, entry);
          ReleaseEffect(db, req, entry);
      }
    }
  }

  /** Hold balances are non-negative after the run and after each of its prefixes. */
  ghost predicate AlwaysNonNegative(tenants: map<Id, FeePlan>, ops: seq<Op>) {
    && HoldsNonNegative(Exec(tenants, ops))
    && (ops != [] ==> AlwaysNonNegative(tenants, ops[..|ops| - 1]))
  }

  /** Every committed capture of the run found the whole held amount in the pool. */
  ghost predicate AlwaysCovered(tenants: map<Id, FeePlan>, ops: seq<Op>) {
    ops != [] ==>
      && CapturesCovered(Exec(tenants, ops[..|ops| - 1]), ops[|ops| - 1])
      && AlwaysCovered(tenants, ops[..|ops| - 1])
  }

  /** Over a whole run, hold balances are non-negative at every point exactly when every committed capture found the
      whole held amount in the pool. */
  lemma {:induction false} HoldsNonNegativeIff(tenants: map<Id, FeePlan>, ops: seq<Op>)
    ensures AlwaysNonNegative(tenants, ops) <==> AlwaysCovered(tenants, ops)
  {
    if ops != [] {
      var rest, op := ops[..|ops| - 1], ops[|ops| - 1];
      HoldsNonNegativeIff(tenants, rest);
      EveryRunIsSound(tenants, rest);
      if Apply(Exec(tenants, rest), op).Ok? && HoldsNonNegative(Exec(tenants, rest)) {
        StepKeepsHoldsIff(Exec(tenants, rest), op);
      }
    }
  }
}

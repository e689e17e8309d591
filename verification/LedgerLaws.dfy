/** Accounting laws that hold after every run of calls. */
module LedgerLaws {
  import opened Domain
  import opened AtomicLedger
  import opened Sums
  import Fees

  // ---------- what one committed operation does ----------

  /** The accounts an operation posts to exist and belong to its tenant. */
  ghost predicate PostsWithin(accounts: map<Id, Account>, script: Script, tenant: Id) {
    forall p :: p in script.postings ==> p.id in accounts && accounts[p.id].tenant == tenant
  }

  ghost predicate Posted(postings: seq<Posting>, id: Id) {
    exists p :: p in postings && p.id == id
  }

  /** What a script's entries, postings and event say about one account agree. */
  ghost predicate BalancedFor(script: Script, a: Id) {
    && EntrySum(script.entries, MovesOf(a)) == PostedBalance(script.postings, a) + PostedHold(script.postings, a)
    && EntrySum(script.entries, PledgesOf(a)) == -(PostedHold(script.postings, a) + Worth(script.event, CapturedFrom(a)))
    && PostedHold(script.postings, a) ==
         Worth(script.event, HeldOn(a)) - Worth(script.event, ReleasedOn(a)) - Worth(script.event, ConsumedOn(a))
  }

  /** The entries of a script, summed over a tenant. */
  ghost predicate BalancedIn(script: Script, tenant: Id, t: Id) {
    var captured := Worth(script.event, CapturedIn(t));
    && EntrySum(script.entries, EntriesOf(t)) == -((if t == tenant then PostingTotal(script.postings, Held) else 0) + captured)
    && (t != tenant ==> captured == 0)
  }

  /** The accounting content of a script. */
  ghost predicate Balanced(script: Script, tenant: Id, txn: Id) {
    && (forall a :: BalancedFor(script, a))
    && (forall t :: BalancedIn(script, tenant, t))
    && (forall x :: EntrySum(script.entries, MovesIn(x)) == 0)
    && PostingTotal(script.postings, Assets) == 0
    && Labelled(script, tenant, txn)
  }

  /** Every entry carries the operation's tenant and transaction id and names an account it posts to. */
  ghost predicate Labelled(script: Script, tenant: Id, txn: Id) {
    forall e :: e in script.entries ==> e.tenant == tenant && e.txn == txn && Posted(script.postings, e.account)
  }

  lemma {:induction false} UnpostedIsZero(postings: seq<Posting>, id: Id)
    requires !Posted(postings, id)
    ensures PostedBalance(postings, id) == 0 && PostedHold(postings, id) == 0
  {
    if postings != [] {
      var p := postings[|postings| - 1];
      assert p in postings;
      UnpostedIsZero(postings[..|postings| - 1], id);
    }
  }

  lemma PostedAppend(ps: seq<Posting>, p: Posting, a: Id, f: Field)
    ensures PostedBalance(ps + [p], a) == PostedBalance(ps, a) + if p.id == a then p.balance else 0
    ensures PostedHold(ps + [p], a) == PostedHold(ps, a) + if p.id == a then p.hold else 0
    ensures PostingTotal(ps + [p], f) == PostingTotal(ps, f) + PostingValue(p, f)
  {
    assert (ps + [p])[..|ps + [p]| - 1] == ps;
  }

  /** The sums over a list of up to three postings, written out. */
  lemma PostedFew(ps: seq<Posting>, a: Id, f: Field)
    requires 1 <= |ps| <= 3
    ensures PostedBalance(ps, a) == (if ps[0].id == a then ps[0].balance else 0)
            + (if |ps| > 1 && ps[1].id == a then ps[1].balance else 0)
            + (if |ps| > 2 && ps[2].id == a then ps[2].balance else 0)
    ensures PostedHold(ps, a) == (if ps[0].id == a then ps[0].hold else 0)
            + (if |ps| > 1 && ps[1].id == a then ps[1].hold else 0)
            + (if |ps| > 2 && ps[2].id == a then ps[2].hold else 0)
    ensures PostingTotal(ps, f) == PostingValue(ps[0], f)
            + (if |ps| > 1 then PostingValue(ps[1], f) else 0)
            + (if |ps| > 2 then PostingValue(ps[2], f) else 0)
  {
    PostedAppend([], ps[0], a, f);
    assert [] + [ps[0]] == [ps[0]];
    if |ps| == 1 {
      assert ps == [ps[0]];
    } else {
      PostedAppend([ps[0]], ps[1], a, f);
      assert [ps[0]] + [ps[1]] == ps[..2];
      if |ps| == 2 {
        assert ps[..2] == ps;
      } else {
        PostedAppend(ps[..2], ps[2], a, f);
        assert ps[..2] + [ps[2]] == ps;
      }
    }
  }

  /** The sum over up to two entries and two more, written out. */
  lemma EntriesFew(x: Entry, y: Entry, before: seq<Entry>, after: seq<Entry>, s: Selector)
    requires |before| <= 1 && (|after| == 0 || |after| == 2)
    ensures EntrySum(before + [x, y] + after, s) == Share(x, s) + Share(y, s)
            + (if before != [] then Share(before[0], s) else 0)
            + (if after != [] then Share(after[0], s) + Share(after[1], s) else 0)
  {
    EntrySumAppend(before + [x, y], after, s);
    EntrySumAppend(before, [x, y], s);
    EntrySumPair(x, y, s);
    if before != [] {
      assert before[..0] == [];
    }
    if after != [] {
      assert after == [after[0], after[1]];
      EntrySumPair(after[0], after[1], s);
    }
  }

  lemma TransferEntrySum(req: Request, fee: int, revenue: Revenue, s: Selector)
    requires req.Transfer?
    ensures EntrySum(TransferScript(req, fee, revenue).entries, s) ==
            Share(Entry(req.tenant, req.txn, req.sender, -req.amount, TransferEntry), s)
            + Share(Entry(req.tenant, req.txn, req.receiver, req.amount, TransferEntry), s)
            + if revenue.NoFee? then 0
              else Share(Entry(req.tenant, req.txn, req.sender, -fee, FeeEntry), s)
                   + Share(Entry(req.tenant, req.txn, revenue.id, fee, FeeEntry), s)
  {
    var es := TransferScript(req, fee, revenue).entries;
    assert es == [] + [es[0], es[1]] + es[2..];
    EntriesFew(es[0], es[1], [], es[2..], s);
  }

  lemma TransferIsBalancedFor(req: Request, fee: int, revenue: Revenue, a: Id)
    requires req.Transfer? && (revenue.NoFee? ==> fee == 0)
    ensures BalancedFor(TransferScript(req, fee, revenue), a)
  {
    PostedFew(TransferScript(req, fee, revenue).postings, a, Held);
    TransferEntrySum(req, fee, revenue, MovesOf(a));
    TransferEntrySum(req, fee, revenue, PledgesOf(a));
  }

  lemma TransferIsBalanced(req: Request, fee: int, revenue: Revenue)
    requires req.Transfer? && (revenue.NoFee? ==> fee == 0)
    ensures Balanced(TransferScript(req, fee, revenue), req.tenant, req.txn)
  {
    var script := TransferScript(req, fee, revenue);
    var ps := script.postings;
    forall a ensures BalancedFor(script, a) {
      TransferIsBalancedFor(req, fee, revenue, a);
    }
    forall t ensures BalancedIn(script, req.tenant, t) {
      PostedFew(ps, 0, Held);
      TransferEntrySum(req, fee, revenue, EntriesOf(t));
    }
    forall x ensures EntrySum(script.entries, MovesIn(x)) == 0 {
      TransferEntrySum(req, fee, revenue, MovesIn(x));
    }
    PostedFew(ps, 0, Assets);
    assert ps[0] in ps && ps[1] in ps;
    assert !revenue.NoFee? ==> ps[2] in ps;
  }

  lemma SingleEntry(e: Entry, s: Selector)
    ensures EntrySum([e], s) == Share(e, s)
  {
    assert [e][..0] == [];
  }

  lemma HoldIsBalanced(req: Request)
    requires req.Hold?
    ensures Balanced(HoldScript(req), req.tenant, req.txn)
  {
    var script := HoldScript(req);
    var ps := script.postings;
    forall s: Selector ensures EntrySum(script.entries, s) == Share(script.entries[0], s) {
      SingleEntry(script.entries[0], s);
    }
    forall a ensures BalancedFor(script, a) {
      PostedFew(ps, a, Held);
    }
    PostedFew(ps, 0, Held);
    PostedFew(ps, 0, Assets);
    assert ps[0] in ps;
  }

  lemma CaptureEntrySum(req: Request, sender: Id, held: int, s: Selector)
    requires req.Capture?
    ensures var remainder := held - req.amount;
            EntrySum(CaptureScript(req, sender, held).entries, s) ==
            Share(Entry(req.tenant, req.txn, sender, -req.amount, TransferEntry), s)
            + Share(Entry(req.tenant, req.txn, req.receiver, req.amount, TransferEntry), s)
            + if remainder > 0 then Share(Entry(req.tenant, req.txn, sender, remainder, ReleaseEntry), s) else 0
  {
    var es := CaptureScript(req, sender, held).entries;
    var n := if held > req.amount then 1 else 0;
    assert es == es[..n] + [es[n], es[n + 1]] + [];
    EntriesFew(es[n], es[n + 1], es[..n], [], s);
  }

  lemma CaptureIsBalancedFor(req: Request, sender: Id, held: int, a: Id)
    requires req.Capture? && req.amount <= held
    ensures BalancedFor(CaptureScript(req, sender, held), a)
  {
    PostedFew(CaptureScript(req, sender, held).postings, a, Held);
    CaptureEntrySum(req, sender, held, MovesOf(a));
    CaptureEntrySum(req, sender, held, PledgesOf(a));
  }

  lemma CaptureIsBalanced(req: Request, sender: Id, held: int)
    requires req.Capture? && req.amount <= held
    ensures Balanced(CaptureScript(req, sender, held), req.tenant, req.txn)
  {
    var script := CaptureScript(req, sender, held);
    var ps := script.postings;
    forall a ensures BalancedFor(script, a) {
      CaptureIsBalancedFor(req, sender, held, a);
    }
    forall t ensures BalancedIn(script, req.tenant, t) {
      PostedFew(ps, 0, Held);
      CaptureEntrySum(req, sender, held, EntriesOf(t));
    }
    forall x ensures EntrySum(script.entries, MovesIn(x)) == 0 {
      CaptureEntrySum(req, sender, held, MovesIn(x));
    }
    PostedFew(ps, 0, Assets);
    assert ps[0] in ps && ps[1] in ps;
  }

  lemma ReleaseIsBalanced(req: Request, account: Id, held: int)
    requires req.Release?
    ensures Balanced(ReleaseScript(req, account, held), req.tenant, req.txn)
  {
    var script := ReleaseScript(req, account, held);
    var ps := script.postings;
    forall s: Selector ensures EntrySum(script.entries, s) == Share(script.entries[0], s) {
      SingleEntry(script.entries[0], s);
    }
    forall a ensures BalancedFor(script, a) {
      PostedFew(ps, a, Held);
    }
    PostedFew(ps, 0, Held);
    PostedFew(ps, 0, Assets);
    assert ps[0] in ps;
  }

  // ---------- what a granted request guarantees ----------

  lemma {:induction false} AllPass(accounts: map<Id, Account>, guards: seq<Guard>)
    ensures FirstFailure(accounts, guards).None? <==> forall g :: g in guards ==> Passes(accounts, g.check)
  {
    if guards != [] {
      AllPass(accounts, guards[1..]);
      assert guards == [guards[0]] + guards[1..];
    }
  }

  lemma {:induction false} FoundHold(ledger: seq<Entry>, holdId: Id, tenant: Id)
    requires FindHold(ledger, holdId, tenant).Some?
    ensures var e := FindHold(ledger, holdId, tenant).value;
            e in ledger && e.txn == holdId && e.tenant == tenant && e.kind == HoldEntry
  {
    if !(ledger[0].txn == holdId && ledger[0].tenant == tenant && ledger[0].kind == HoldEntry) {
      FoundHold(ledger[1..], holdId, tenant);
    }
  }

  /** Every ledger entry names an account, and one of its own tenant. */
  ghost predicate Ledgered(db: Db) {
    forall e :: e in db.ledger ==> e.account in db.accounts && db.accounts[e.account].tenant == e.tenant
  }

  /** A granted request inserts at most empty revenue rows under unused ids. */
  ghost predicate InsertsEmpty(db: Db, script: Script, tenant: Id) {
    forall id :: id in script.inserts ==>
      id !in db.accounts && script.inserts[id] == Account(tenant, PlatformRevenue, 0, 0, 0)
  }

  /** The postings never take a balance below zero. */
  ghost predicate Covered(accounts: map<Id, Account>, script: Script) {
    forall id :: id in accounts && accounts[id].balance >= 0 ==> accounts[id].balance + PostedBalance(script.postings, id) >= 0
  }

  ghost predicate Lawful(db: Db, script: Script, req: Request) {
    && Balanced(script, req.tenant, req.txn)
    && InsertsEmpty(db, script, req.tenant)
    && |script.inserts| <= 1
    && PostsWithin(db.accounts + script.inserts, script, req.tenant)
    && Covered(db.accounts + script.inserts, script)
  }

  /** A transfer's postings, whichever of the three accounts coincide, leave every balance covered. */
  lemma TransferIsCovered(accounts: map<Id, Account>, req: Request, fee: int, revenue: Revenue)
    requires req.Transfer? && req.amount > 0 && fee >= 0
    requires req.sender in accounts && accounts[req.sender].balance >= req.amount + fee
    ensures Covered(accounts, TransferScript(req, fee, revenue))
  {
    var script := TransferScript(req, fee, revenue);
    forall id | id in accounts && accounts[id].balance >= 0
      ensures accounts[id].balance + PostedBalance(script.postings, id) >= 0
    {
      PostedFew(script.postings, id, Held);
    }
  }

  lemma TransferStaysWithin(accounts: map<Id, Account>, req: Request, fee: int, revenue: Revenue)
    requires req.Transfer?
    requires req.sender in accounts && accounts[req.sender].tenant == req.tenant
    requires req.receiver in accounts && accounts[req.receiver].tenant == req.tenant
    requires !revenue.NoFee? ==> revenue.id in accounts && accounts[revenue.id].tenant == req.tenant
    ensures PostsWithin(accounts, TransferScript(req, fee, revenue), req.tenant)
  {
  }

  /** A transfer's checks, as one condition. */
  lemma TransferChecksHold(accounts: map<Id, Account>, req: Request, fee: int, revenue: Revenue)
    requires req.Transfer?
    ensures FirstFailure(accounts, TransferScript(req, fee, revenue).checks).None? <==>
            && req.sender in accounts && accounts[req.sender].tenant == req.tenant
            && accounts[req.sender].balance >= req.amount + fee
            && req.receiver in accounts && accounts[req.receiver].tenant == req.tenant
  {
    var checks := TransferScript(req, fee, revenue).checks;
    AllPass(accounts, checks);
    assert checks[0] in checks && checks[1] in checks && checks[2] in checks && checks[3] in checks && checks[4] in checks;
  }

  lemma GrantedTransfer(db: Db, req: Request, revenue: Revenue)
    requires req.Transfer? && Decide(db, req, revenue).Ok?
    ensures Lawful(db, Decide(db, req, revenue).value, req)
  {
    var fee := Fees.Fee(db.tenants[req.tenant], req.amount);
    var script := TransferScript(req, fee, revenue);
    var accounts := db.accounts + script.inserts;
    TransferChecksHold(accounts, req, fee, revenue);
    TransferIsBalanced(req, fee, revenue);
    TransferStaysWithin(accounts, req, fee, revenue);
    TransferIsCovered(accounts, req, fee, revenue);
  }

  lemma GrantedHold(db: Db, req: Request, revenue: Revenue)
    requires req.Hold? && Decide(db, req, revenue).Ok?
    ensures Lawful(db, Decide(db, req, revenue).value, req)
  {
    var script := Decide(db, req, revenue).value;
    var accounts := db.accounts + script.inserts;
    HoldIsBalanced(req);
    AllPass(accounts, script.checks);
    assert script.checks[1] in script.checks && script.checks[2] in script.checks;
    forall id | id in accounts && accounts[id].balance >= 0
      ensures accounts[id].balance + PostedBalance(script.postings, id) >= 0
    {
      PostedFew(script.postings, id, Held);
    }
  }

  /** A capture's checks, as one condition. */
  lemma CaptureChecksHold(accounts: map<Id, Account>, req: Request, sender: Id, held: int)
    requires req.Capture?
    ensures FirstFailure(accounts, CaptureScript(req, sender, held).checks).None? <==>
            && sender in accounts && req.amount <= held && accounts[sender].hold >= req.amount
            && req.receiver in accounts && accounts[req.receiver].tenant == req.tenant
  {
    var checks := CaptureScript(req, sender, held).checks;
    AllPass(accounts, checks);
    assert checks[0] in checks && checks[1] in checks && checks[2] in checks && checks[3] in checks && checks[4] in checks;
  }

  lemma CaptureIsCovered(accounts: map<Id, Account>, req: Request, sender: Id, held: int)
    requires req.Capture? && 0 < req.amount <= held
    ensures Covered(accounts, CaptureScript(req, sender, held))
  {
    var script := CaptureScript(req, sender, held);
    forall id | id in accounts && accounts[id].balance >= 0
      ensures accounts[id].balance + PostedBalance(script.postings, id) >= 0
    {
      PostedFew(script.postings, id, Held);
    }
  }

  lemma GrantedCapture(db: Db, req: Request, revenue: Revenue)
    requires Ledgered(db) && req.Capture? && Decide(db, req, revenue).Ok?
    ensures Lawful(db, Decide(db, req, revenue).value, req)
  {
    hide FirstFailure, LockOrder, Balanced, Covered;
    FoundHold(db.ledger, req.holdId, req.tenant);
    var hold := FindHold(db.ledger, req.holdId, req.tenant).value;
    var sender, held := hold.account, Abs(hold.amount);
    var script := CaptureScript(req, sender, held);
    CaptureChecksHold(db.accounts + script.inserts, req, sender, held);
    CaptureIsBalanced(req, sender, held);
    CaptureIsCovered(db.accounts + script.inserts, req, sender, held);
  }

  lemma GrantedRelease(db: Db, req: Request, revenue: Revenue)
    requires Ledgered(db) && req.Release? && Decide(db, req, revenue).Ok?
    ensures Lawful(db, Decide(db, req, revenue).value, req)
  {
    var script := Decide(db, req, revenue).value;
    var accounts := db.accounts + script.inserts;
    FoundHold(db.ledger, req.holdId, req.tenant);
    var hold := FindHold(db.ledger, req.holdId, req.tenant).value;
    ReleaseIsBalanced(req, hold.account, Abs(hold.amount));
    forall id | id in accounts && accounts[id].balance >= 0
      ensures accounts[id].balance + PostedBalance(script.postings, id) >= 0
    {
      PostedFew(script.postings, id, Held);
    }
  }

  lemma Granted(db: Db, req: Request, revenue: Revenue)
    requires Ledgered(db) && Decide(db, req, revenue).Ok?
    ensures Lawful(db, Decide(db, req, revenue).value, req)
  {
    match req
    case Transfer(_, _, _, _, _) => GrantedTransfer(db, req, revenue);
    case Hold(_, _, _, _) => GrantedHold(db, req, revenue);
    case Capture(_, _, _, _, _) => GrantedCapture(db, req, revenue);
    case Release(_, _, _, _) => GrantedRelease(db, req, revenue);
  }

  // ---------- the laws ----------

  function BalanceOf(db: Db, a: Id): int { if a in db.accounts then db.accounts[a].balance else 0 }
  function HoldOf(db: Db, a: Id): int { if a in db.accounts then db.accounts[a].hold else 0 }
  function OpeningOf(db: Db, a: Id): int { if a in db.accounts then db.accounts[a].opening else 0 }

  /** The exact ledger law and the hold pool law of one account. */
  ghost predicate AccountLaws(db: Db, a: Id) {
    && EntrySum(db.ledger, MovesOf(a)) == BalanceOf(db, a) + HoldOf(db, a) - OpeningOf(db, a)
    && EntrySum(db.ledger, PledgesOf(a)) == -(HoldOf(db, a) + Tally(db.outbox, CapturedFrom(a)))
    && HoldOf(db, a) == Tally(db.outbox, HeldOn(a)) - Tally(db.outbox, ReleasedOn(a)) - Tally(db.outbox, ConsumedOn(a))
  }

  /** The ledger sum and the conservation law of one tenant. */
  ghost predicate TenantLaws(db: Db, t: Id) {
    && EntrySum(db.ledger, EntriesOf(t)) == -(ColumnSum(db.accounts, t, Held) + Tally(db.outbox, CapturedIn(t)))
    && ColumnSum(db.accounts, t, Assets) == ColumnSum(db.accounts, t, Opening)
  }

  ghost predicate NoOverdraft(db: Db) {
    forall a :: a in db.accounts ==> db.accounts[a].balance >= 0 && db.accounts[a].opening >= 0
  }

  ghost predicate Sound(db: Db) {
    && Ledgered(db)
    && NoOverdraft(db)
    && (forall a :: AccountLaws(db, a))
    && (forall t :: TenantLaws(db, t))
    && (forall x :: EntrySum(db.ledger, MovesIn(x)) == 0)
  }

  lemma {:induction false} OpeningsUnposted(postings: seq<Posting>)
    ensures PostingTotal(postings, Opening) == 0
  {
    if postings != [] {
      OpeningsUnposted(postings[..|postings| - 1]);
    }
  }

  lemma InsertOneColumn(accounts: map<Id, Account>, inserts: map<Id, Account>, tenant: Id, t: Id, field: Field)
    requires |inserts| <= 1
    requires forall id :: id in inserts ==> id !in accounts && inserts[id] == Account(tenant, PlatformRevenue, 0, 0, 0)
    ensures ColumnSum(accounts + inserts, t, field) == ColumnSum(accounts, t, field)
  {
    if inserts == map[] {
      assert accounts + inserts == accounts;
    } else {
      var id :| id in inserts;
      assert inserts.Keys == {id} by {
        assert |inserts.Keys - {id}| == 0;
      }
      assert accounts + inserts == accounts[id := inserts[id]];
      ColumnUpdate(accounts, id, inserts[id], t, field);
    }
  }

  lemma CommitKeepsAccountLaws(db: Db, script: Script, req: Request, a: Id)
    requires AccountLaws(db, a) && Lawful(db, script, req)
    ensures AccountLaws(Commit(db, script), a)
  {
    assert BalancedFor(script, a);
    EntrySumAppend(db.ledger, script.entries, MovesOf(a));
    EntrySumAppend(db.ledger, script.entries, PledgesOf(a));
    TallyAppend(db.outbox, script.event, CapturedFrom(a));
    TallyAppend(db.outbox, script.event, HeldOn(a));
    TallyAppend(db.outbox, script.event, ReleasedOn(a));
    TallyAppend(db.outbox, script.event, ConsumedOn(a));
    if a !in db.accounts + script.inserts {
      UnpostedIsZero(script.postings, a);
    }
  }

  lemma CommitKeepsTenantLaws(db: Db, script: Script, req: Request, t: Id)
    requires TenantLaws(db, t) && Lawful(db, script, req)
    ensures TenantLaws(Commit(db, script), t)
  {
    assert BalancedIn(script, req.tenant, t);
    EntrySumAppend(db.ledger, script.entries, EntriesOf(t));
    TallyAppend(db.outbox, script.event, CapturedIn(t));
    OpeningsUnposted(script.postings);
    forall field
      ensures ColumnSum(Commit(db, script).accounts, t, field) ==
              ColumnSum(db.accounts, t, field) + if t == req.tenant then PostingTotal(script.postings, field) else 0
    {
      InsertOneColumn(db.accounts, script.inserts, req.tenant, t, field);
      PostColumn(db.accounts + script.inserts, script.postings, req.tenant, t, field);
    }
  }

  lemma CommitKeepsLedgered(db: Db, script: Script, tenant: Id, txn: Id)
    requires Ledgered(db) && InsertsEmpty(db, script, tenant) && Labelled(script, tenant, txn)
    requires PostsWithin(db.accounts + script.inserts, script, tenant)
    ensures Ledgered(Commit(db, script))
  {
    var accounts := db.accounts + script.inserts;
    forall e | e in script.entries ensures e.account in accounts && accounts[e.account].tenant == e.tenant {
      var p :| p in script.postings && p.id == e.account;
    }
  }

  lemma OpenKeepsLaws(db: Db, op: Op)
    requires Sound(db) && op.Open? && Apply(db, op).Ok?
    ensures Sound(Apply(db, op).value)
  {
    var db' := Apply(db, op).value;
    var account := db'.accounts[op.id];
    forall a ensures AccountLaws(db', a) {
      assert AccountLaws(db, a);
    }
    forall t ensures TenantLaws(db', t) {
      assert TenantLaws(db, t);
      forall field { ColumnUpdate(db.accounts, op.id, account, t, field); }
    }
  }

  lemma CommitKeepsLaws(db: Db, script: Script, req: Request)
    requires Sound(db) && Lawful(db, script, req)
    ensures Sound(Commit(db, script))
  {
    var db' := Commit(db, script);
    CommitKeepsLedgered(db, script, req.tenant, req.txn);
    forall a ensures AccountLaws(db', a) {
      assert AccountLaws(db, a);
      CommitKeepsAccountLaws(db, script, req, a);
    }
    forall t ensures TenantLaws(db', t) {
      assert TenantLaws(db, t);
      CommitKeepsTenantLaws(db, script, req, t);
    }
    forall x ensures EntrySum(db'.ledger, MovesIn(x)) == 0 {
      EntrySumAppend(db.ledger, script.entries, MovesIn(x));
    }
  }

  lemma ApplyKeepsLaws(db: Db, op: Op)
    requires Sound(db) && Apply(db, op).Ok?
    ensures Sound(Apply(db, op).value)
  {
    match op
    case Open(_, _, _, _) => OpenKeepsLaws(db, op);
    case Do(req, revenue) =>
      Granted(db, req, revenue);
      CommitKeepsLaws(db, Decide(db, req, revenue).value, req);
  }

  /** After every run of account openings, transfers, holds, captures and releases, all the laws hold. */
  lemma {:induction false} EveryRunIsSound(tenants: map<Id, FeePlan>, ops: seq<Op>)
    ensures Sound(Exec(tenants, ops)) && Exec(tenants, ops).tenants == tenants
  {
    if ops == [] {
      var db := Genesis(tenants);
      forall t ensures TenantLaws(db, t) {
        assert Column(db.accounts, t, Held) == map[] && Column(db.accounts, t, Assets) == map[];
        assert Column(db.accounts, t, Opening) == map[];
      }
      assert forall a :: AccountLaws(db, a);
    } else {
      var rest, op := ops[..|ops| - 1], ops[|ops| - 1];
      EveryRunIsSound(tenants, rest);
      if Apply(Exec(tenants, rest), op).Ok? {
        ApplyKeepsLaws(Exec(tenants, rest), op);
      }
    }
  }
}

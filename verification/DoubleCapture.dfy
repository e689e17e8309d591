/** A run that overdraws a hold pool: the hold of a partial capture can be captured again. */
module DoubleCapture {
  import opened Domain
  import opened AtomicLedger
  import opened LedgerLaws
  import opened Operations
  import HoldPool

  function Tenants(): map<Id, FeePlan> { map[1 := FeePlan(0, 0)] }

  /** Two accounts, and two holds on the first. */
  function Setup(): seq<Op> {
    [Open(10, 1, Wallet, 100), Open(11, 1, Wallet, 0), Do(Hold(1, 10, 60, 21), NoFee), Do(Hold(1, 10, 30, 22), NoFee)]
  }

  function Wallets(balance: int, hold: int, other: int): map<Id, Account> {
    map[10 := Account(1, Wallet, 100, balance, hold), 11 := Account(1, Wallet, 0, other, 0)]
  }

  function FirstHold(): Entry { Entry(1, 21, 10, -60, HoldEntry) }

  lemma AfterOpening()
    ensures var db := Exec(Tenants(), Setup()[..2]);
            db.accounts == Wallets(100, 0, 0) && db.ledger == [] && db.tenants == Tenants()
  {
    var ops := Setup();
    ExecAppend(Tenants(), [], ops[0]);
    ExecAppend(Tenants(), [] + [ops[0]], ops[1]);
    assert [] + [ops[0]] + [ops[1]] == ops[..2];
  }

  lemma AfterSetup()
    ensures var db := Exec(Tenants(), Setup());
            db.accounts == Wallets(10, 90, 0) && FindHold(db.ledger, 21, 1) == Some(FirstHold())
  {
    hide Apply;
    var ops := Setup();
    AfterOpening();
    var d2 := Exec(Tenants(), ops[..2]);
    var d3 := Next(d2, ops[2]);
    ExecAppend(Tenants(), ops[..2], ops[2]);
    ExecAppend(Tenants(), ops[..2] + [ops[2]], ops[3]);
    assert ops[..2] + [ops[2]] + [ops[3]] == ops;
    HoldGrantedIff(d2, ops[2].req);
    HoldEffect(d2, ops[2].req);
    assert d3.ledger == [FirstHold()];
    HoldGrantedIff(d3, ops[3].req);
    HoldEffect(d3, ops[3].req);
    FindAppended(d3.ledger, [Entry(1, 22, 10, -30, HoldEntry)], 21, 1);
  }

  function Capture1(txn: Id): Op { Do(Capture(1, 21, 11, 10, txn), NoFee) }

  ghost predicate Held(db: Db, balance: int, hold: int, other: int) {
    && db.accounts == Wallets(balance, hold, other)
    && FindHold(db.ledger, 21, 1) == Some(FirstHold())
  }

  lemma CaptureGranted(db: Db, balance: int, hold: int, other: int, txn: Id)
    requires Sound(db) && Held(db, balance, hold, other) && hold >= 10
    ensures Apply(db, Capture1(txn)).Ok?
  {
    CaptureGrantedIff(db, Capture(1, 21, 11, 10, txn), FirstHold());
  }

  lemma OneCapture(db: Db, balance: int, hold: int, other: int, txn: Id)
    requires Sound(db) && Held(db, balance, hold, other) && Apply(db, Capture1(txn)).Ok?
    ensures Apply(db, Capture1(txn)).value.accounts == Wallets(balance + 50, hold - 60, other + 10)
  {
    hide Apply;
    CaptureEffect(db, Capture(1, 21, 11, 10, txn), FirstHold());
    var after := Apply(db, Capture1(txn)).value.accounts;
    assert after.Keys == {10, 11};
    assert after[10] == Account(1, Wallet, 100, balance + 50, hold - 60);
    assert after[11] == Account(1, Wallet, 0, other + 10, 0);
  }

  lemma HoldStillFound(db: Db, balance: int, hold: int, other: int, txn: Id)
    requires Held(db, balance, hold, other) && hold >= 10
    ensures FindHold(Next(db, Capture1(txn)).ledger, 21, 1) == Some(FirstHold())
  {
    FindAppended(db.ledger, CaptureScript(Capture(1, 21, 11, 10, txn), 10, 60).entries, 21, 1);
  }

  lemma CaptureAgain(ops: seq<Op>, balance: int, hold: int, other: int, txn: Id)
    requires Held(Exec(Tenants(), ops), balance, hold, other) && hold >= 10
    ensures Held(Exec(Tenants(), ops + [Capture1(txn)]), balance + 50, hold - 60, other + 10)
  {
    ExecAppend(Tenants(), ops, Capture1(txn));
    EveryRunIsSound(Tenants(), ops);
    CaptureGranted(Exec(Tenants(), ops), balance, hold, other, txn);
    OneCapture(Exec(Tenants(), ops), balance, hold, other, txn);
    HoldStillFound(Exec(Tenants(), ops), balance, hold, other, txn);
  }

  function Run(): seq<Op> {
    Setup() + [Capture1(23)] + [Capture1(24)]
  }

  /** With fresh transaction ids throughout, the second capture of the same hold is granted and leaves the pool
      thirty cents short. */
  lemma DoubleCaptureOverdraws()
    ensures Exec(Tenants(), Run()).accounts == Wallets(110, -30, 20)
  {
    AfterSetup();
    var ops := Setup();
    CaptureAgain(ops, 10, 90, 0, 23);
    var once := ops + [Capture1(23)];
    CaptureAgain(once, 60, 30, 10, 24);
  }

  lemma RunIsFresh()
    ensures HoldPool.FreshTxns(Run())
  {
    var ops := Run();
    assert |ops| == 6 && ops[2].req.txn == 21 && ops[3].req.txn == 22 && ops[4].req.txn == 23 && ops[5].req.txn == 24;
  }
}

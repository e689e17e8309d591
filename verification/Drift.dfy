/** Transfers finer than a cent: what the two-decimal columns make of them. Balances are whole cents as stored, and an
    amount is any exact number of cents. */
module Drift {
  import opened Domain
  import opened Rounding
  import opened Sums

  /** A transfer within one tenant; the fee has already been rounded to whole cents. */
  datatype Wire = Wire(sender: Id, receiver: Id, amount: real, fee: nat, revenue: Id)

  /** Columns store whole cents. */
  function Stored(x: real): int {
    Nearest(x)
  }

  /** The checks of a transfer. */
  predicate Accepted(balances: map<Id, int>, w: Wire) {
    && w.amount > 0.0
    && w.sender != w.receiver
    && {w.sender, w.receiver, w.revenue} <= balances.Keys
    && balances[w.sender] as real >= w.amount + w.fee as real
  }

  function Debited(balances: map<Id, int>, w: Wire): map<Id, int>
    requires Accepted(balances, w)
  {
    balances[w.sender := Stored(balances[w.sender] as real - (w.amount + w.fee as real))]
  }

  /** The three balance updates, each stored before the next. */
  function Settle(balances: map<Id, int>, w: Wire): map<Id, int>
    requires Accepted(balances, w)
  {
    var debited := Debited(balances, w);
    var credited := debited[w.receiver := Stored(debited[w.receiver] as real + w.amount)];
    if w.fee > 0 then credited[w.revenue := Stored(credited[w.revenue] as real + w.fee as real)] else credited
  }

  /** The amounts of the ledger rows, as stored. */
  function Rows(w: Wire): seq<int> {
    [Stored(-w.amount), Stored(w.amount)] + (if w.fee > 0 then [Stored(-(w.fee as real)), Stored(w.fee as real)] else [])
  }

  function RowTotal(rows: seq<int>): int {
    if rows == [] then 0 else rows[0] + RowTotal(rows[1..])
  }

  /** An odd number of half-cents. */
  predicate HalfCents(amount: real) {
    (amount + 0.5).Floor as real == amount + 0.5
  }

  predicate NonNegative(balances: map<Id, int>) {
    forall id :: id in balances ==> balances[id] >= 0
  }

  lemma NearestInteger(n: int)
    ensures Nearest(n as real) == n
  {
    NearestIsDetermined(n as real, n);
  }

  /** Crediting rounds the amount up at a tie and debiting rounds it down. */
  lemma StoredCredit(balance: int, amount: real)
    requires balance >= 0 && amount > 0.0
    ensures Stored(balance as real + amount) == balance + Stored(amount)
  {
    NearestIsDetermined(balance as real + amount, balance + Nearest(amount));
  }

  lemma StoredDebit(balance: int, amount: real)
    requires amount > 0.0 && balance as real >= amount
    ensures Stored(balance as real - amount) == balance - Stored(amount) + (if HalfCents(amount) then 1 else 0)
  {
    var d := if HalfCents(amount) then 1 else 0;
    var up := Nearest(amount);
    assert up == (amount + 0.5).Floor;
    NearestIsDetermined(balance as real - amount, balance - up + d);
  }

  /** One transfer leaves the tenant total alone, except that an odd number of half-cents creates exactly one cent. */
  lemma TransferDrift(balances: map<Id, int>, w: Wire)
    requires NonNegative(balances) && Accepted(balances, w)
    ensures NonNegative(Settle(balances, w))
    ensures Settle(balances, w).Keys == balances.Keys
    ensures Sum(Settle(balances, w)) == Sum(balances) + (if HalfCents(w.amount) then 1 else 0)
  {
    hide Stored, HalfCents;
    var d := if HalfCents(w.amount) then 1 else 0;
    var debited := Debited(balances, w);
    SumUpdate(balances, w.sender, debited[w.sender]);
    SenderStep(balances, w);
    var credited := debited[w.receiver := Stored(debited[w.receiver] as real + w.amount)];
    StoredCredit(debited[w.receiver], w.amount);
    SumUpdate(debited, w.receiver, credited[w.receiver]);
    if w.fee > 0 {
      StoredFee(credited[w.revenue], w.fee);
      SumUpdate(credited, w.revenue, Stored(credited[w.revenue] as real + w.fee as real));
    }
  }

  lemma SenderStep(balances: map<Id, int>, w: Wire)
    requires Accepted(balances, w)
    ensures Debited(balances, w)[w.sender] ==
            balances[w.sender] - w.fee - Stored(w.amount) + (if HalfCents(w.amount) then 1 else 0)
    ensures Debited(balances, w)[w.sender] >= 0
    ensures Stored(w.amount) >= 0
  {
    var from := balances[w.sender] - w.fee;
    assert balances[w.sender] as real - (w.amount + w.fee as real) == from as real - w.amount;
    StoredDebit(from, w.amount);
  }

  lemma StoredFee(balance: int, fee: nat)
    ensures Stored(balance as real + fee as real) == balance + fee
  {
    NearestInteger(balance + fee);
    assert balance as real + fee as real == (balance + fee) as real;
  }

  /** Whatever the amount, the stored ledger rows of a transfer sum to zero. */
  lemma StoredRowsBalance(w: Wire)
    ensures RowTotal(Rows(w)) == 0
  {
    NearestIsOdd(w.amount);
    NearestIsOdd(w.fee as real);
    RowTotalPair(Stored(w.amount));
    if w.fee > 0 {
      var x, y := Stored(w.amount), Stored(w.fee as real);
      assert Rows(w) == [-x, x, -y, y];
      assert [-x, x, -y, y][1..][1..] == [-y, y];
      RowTotalPair(y);
    } else {
      assert Rows(w) == [-Stored(w.amount), Stored(w.amount)];
    }
  }

  lemma RowTotalPair(n: int)
    ensures RowTotal([-n, n]) == 0
  {
    assert [-n, n][1..] == [n];
    assert RowTotal([n]) == n;
  }

  /** The amounts of the ledger rows of one account, as stored. */
  function RowsOf(w: Wire, id: Id): int {
    (if id == w.sender then Stored(-w.amount) - w.fee else 0)
    + (if id == w.receiver then Stored(w.amount) else 0)
    + (if id == w.revenue then w.fee else 0)
  }

  /** So it is the sender, and nobody else, whose balance no longer moves with its ledger rows, by that one cent. */
  lemma SenderDrift(balances: map<Id, int>, w: Wire, id: Id)
    requires NonNegative(balances) && Accepted(balances, w) && id in balances
    ensures Settle(balances, w)[id] - balances[id] ==
            RowsOf(w, id) + (if id == w.sender && HalfCents(w.amount) then 1 else 0)
  {
    hide Stored, HalfCents;
    SenderStep(balances, w);
    StoredCredit(balances[w.receiver], w.amount);
    StoredIsOdd(w.amount);
    if w.fee > 0 {
      var debited := Debited(balances, w);
      var credited := debited[w.receiver := Stored(debited[w.receiver] as real + w.amount)];
      StoredFee(credited[w.revenue], w.fee);
    }
  }

  lemma StoredIsOdd(x: real)
    ensures Stored(-x) == -Stored(x)
  {
    NearestIsOdd(x);
  }

  /** Half a cent, sent by anyone who has a cent, creates one. */
  lemma HalfCentMakesACent(balances: map<Id, int>, sender: Id, receiver: Id)
    requires NonNegative(balances) && sender in balances && receiver in balances && sender != receiver && balances[sender] >= 1
    ensures var w := Wire(sender, receiver, 0.5, 0, sender);
            Accepted(balances, w) && Sum(Settle(balances, w)) == Sum(balances) + 1
  {
    var w := Wire(sender, receiver, 0.5, 0, sender);
    assert Accepted(balances, w);
    TransferDrift(balances, w);
  }

  // ---------- runs ----------

  function SettleAll(balances: map<Id, int>, wires: seq<Wire>): map<Id, int> {
    if wires == [] then balances
    else
      var before, w := SettleAll(balances, wires[..|wires| - 1]), wires[|wires| - 1];
      if Accepted(before, w) then Settle(before, w) else before
  }

  /** How many accepted transfers moved an odd number of half-cents. */
  function Ties(balances: map<Id, int>, wires: seq<Wire>): nat {
    if wires == [] then 0
    else
      var before, w := wires[..|wires| - 1], wires[|wires| - 1];
      Ties(balances, before) + (if Accepted(SettleAll(balances, before), w) && HalfCents(w.amount) then 1 else 0)
  }

  /** n transfers drift by exactly the number of ties among them, at most n cents; the total is conserved if and only
      if there was no tie. */
  lemma {:induction false} RunDrift(balances: map<Id, int>, wires: seq<Wire>)
    requires NonNegative(balances)
    ensures NonNegative(SettleAll(balances, wires))
    ensures Sum(SettleAll(balances, wires)) == Sum(balances) + Ties(balances, wires)
    ensures Sum(balances) <= Sum(SettleAll(balances, wires)) <= Sum(balances) + |wires|
    ensures Sum(SettleAll(balances, wires)) == Sum(balances) <==> Ties(balances, wires) == 0
  {
    if wires != [] {
      var before, w := wires[..|wires| - 1], wires[|wires| - 1];
      RunDrift(balances, before);
      if Accepted(SettleAll(balances, before), w) {
        TransferDrift(SettleAll(balances, before), w);
      }
    }
  }

  /** On whole cents the columns are exact. */
  lemma WholeCentsAreExact(balances: map<Id, int>, w: Wire, cents: int)
    requires NonNegative(balances) && Accepted(balances, w) && w.amount == cents as real
    ensures !HalfCents(w.amount)
    ensures Stored(w.amount) == cents
    ensures Sum(Settle(balances, w)) == Sum(balances)
  {
    NearestInteger(cents);
    TransferDrift(balances, w);
  }
}

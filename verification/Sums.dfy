/** Sums over the ledger, the outbox and columns of the account table. */
module Sums {
  import opened Domain
  import opened AtomicLedger

  // ---------- ledger sums ----------

  /** Which ledger entries a sum ranges over. Moves are TRANSFER and FEE entries, pledges HOLD and RELEASE entries. */
  datatype Selector =
    | AllOf(account: Id)
    | MovesOf(account: Id)
    | PledgesOf(account: Id)
    | MovesIn(txn: Id)
    | EntriesOf(tenant: Id)

  predicate Selects(s: Selector, e: Entry) {
    var move := e.kind == TransferEntry || e.kind == FeeEntry;
    match s
    case AllOf(account) => e.account == account
    case MovesOf(account) => e.account == account && move
    case PledgesOf(account) => e.account == account && !move
    case MovesIn(txn) => e.txn == txn && move
    case EntriesOf(tenant) => e.tenant == tenant
  }

  function Share(e: Entry, s: Selector): int {
    if Selects(s, e) then e.amount else 0
  }

  function EntrySum(entries: seq<Entry>, s: Selector): int {
    if entries == [] then 0 else EntrySum(entries[..|entries| - 1], s) + Share(entries[|entries| - 1], s)
  }

  lemma {:induction false} EntrySumAppend(a: seq<Entry>, b: seq<Entry>, s: Selector)
    ensures EntrySum(a + b, s) == EntrySum(a, s) + EntrySum(b, s)
  {
    if b == [] {
      assert a + b == a;
    } else {
      var c := b[..|b| - 1];
      assert (a + b)[..|a + b| - 1] == a + c;
      EntrySumAppend(a, c, s);
    }
  }

  lemma EntrySumPair(x: Entry, y: Entry, s: Selector)
    ensures EntrySum([x, y], s) == Share(x, s) + Share(y, s)
  {
    assert [x, y][..1] == [x];
    assert EntrySum([x], s) == Share(x, s);
  }

  lemma {:induction false} NoShareNoSum(entries: seq<Entry>, s: Selector)
    requires forall e :: e in entries ==> !Selects(s, e)
    ensures EntrySum(entries, s) == 0
  {
    if entries != [] {
      assert entries[|entries| - 1] in entries;
      NoShareNoSum(entries[..|entries| - 1], s);
    }
  }

  /** Moves and pledges partition an account's entries. */
  lemma {:induction false} MovesAndPledges(entries: seq<Entry>, account: Id)
    ensures EntrySum(entries, AllOf(account)) == EntrySum(entries, MovesOf(account)) + EntrySum(entries, PledgesOf(account))
  {
    if entries != [] {
      MovesAndPledges(entries[..|entries| - 1], account);
    }
  }

  // ---------- tallies of committed operations ----------

  /** What is counted over the committed operations, which the outbox rows record one by one. */
  datatype Measure =
    | HeldOn(account: Id)          // amounts put on hold
    | ReleasedOn(account: Id)      // amounts given back by releaseHold
    | ConsumedOn(account: Id)      // full held amounts of captured holds
    | CapturedFrom(account: Id)    // amounts captured from the account
    | CapturedIn(tenant: Id)       // amounts captured in the tenant

  function Worth(ev: Event, m: Measure): int {
    match m
    case HeldOn(a) => if ev.HoldCreated? && ev.account == a then ev.amount else 0
    case ReleasedOn(a) => if ev.HoldReleased? && ev.account == a then ev.released else 0
    case ConsumedOn(a) => if ev.HoldCaptured? && ev.sender == a then ev.captured + ev.remainder else 0
    case CapturedFrom(a) => if ev.HoldCaptured? && ev.sender == a then ev.captured else 0
    case CapturedIn(t) => if ev.HoldCaptured? && ev.tenant == t then ev.captured else 0
  }

  function Tally(events: seq<Event>, m: Measure): int {
    if events == [] then 0 else Tally(events[..|events| - 1], m) + Worth(events[|events| - 1], m)
  }

  lemma TallyAppend(events: seq<Event>, ev: Event, m: Measure)
    ensures Tally(events + [ev], m) == Tally(events, m) + Worth(ev, m)
  {
    assert (events + [ev])[..|events + [ev]| - 1] == events;
  }

  // ---------- column sums ----------

  ghost function Sum(m: map<Id, int>): int {
    if m == map[] then 0
    else var k :| k in m; m[k] + Sum(m - {k})
  }

  lemma {:induction false} SumSplit(m: map<Id, int>, k: Id)
    requires k in m
    ensures Sum(m) == m[k] + Sum(m - {k})
  {
    var j :| j in m && Sum(m) == m[j] + Sum(m - {j});
    if j != k {
      SumSplit(m - {j}, k);
      SumSplit(m - {k}, j);
      assert m - {j} - {k} == m - {k} - {j};
    }
  }

  lemma SumUpdate(m: map<Id, int>, k: Id, v: int)
    ensures Sum(m[k := v]) == Sum(m) + v - if k in m then m[k] else 0
  {
    SumSplit(m[k := v], k);
    assert m[k := v] - {k} == m - {k};
    if k in m {
      SumSplit(m, k);
    } else {
      assert m - {k} == m;
    }
  }

  datatype Field = Assets | Held | Opening

  function Value(account: Account, field: Field): int {
    match field
    case Assets => account.balance + account.hold
    case Held => account.hold
    case Opening => account.opening
  }

  /** One column of a tenant's accounts. */
  function Column(accounts: map<Id, Account>, tenant: Id, field: Field): map<Id, int> {
    map id | id in accounts && accounts[id].tenant == tenant :: Value(accounts[id], field)
  }

  ghost function ColumnSum(accounts: map<Id, Account>, tenant: Id, field: Field): int {
    Sum(Column(accounts, tenant, field))
  }

  lemma ColumnUpdate(accounts: map<Id, Account>, id: Id, account: Account, tenant: Id, field: Field)
    requires id in accounts ==> account.tenant == accounts[id].tenant
    ensures ColumnSum(accounts[id := account], tenant, field) ==
            ColumnSum(accounts, tenant, field)
            + (if account.tenant == tenant then Value(account, field) else 0)
            - (if id in accounts && account.tenant == tenant then Value(accounts[id], field) else 0)
  {
    var before := Column(accounts, tenant, field);
    var after := Column(accounts[id := account], tenant, field);
    if account.tenant == tenant {
      assert after == before[id := Value(account, field)];
      SumUpdate(before, id, Value(account, field));
    } else {
      assert after == before;
    }
  }

  // ---------- postings ----------

  function PostingValue(p: Posting, field: Field): int {
    match field
    case Assets => p.balance + p.hold
    case Held => p.hold
    case Opening => 0
  }

  function PostingTotal(postings: seq<Posting>, field: Field): int {
    if postings == [] then 0
    else PostingTotal(postings[..|postings| - 1], field) + PostingValue(postings[|postings| - 1], field)
  }

  function Adjust(account: Account, p: Posting): Account {
    account.(balance := account.balance + p.balance, hold := account.hold + p.hold)
  }

  /** Posting one more increment updates one row. */
  lemma PostSnoc(accounts: map<Id, Account>, postings: seq<Posting>, p: Posting)
    requires p.id in accounts
    ensures Post(accounts, postings + [p]) == Post(accounts, postings)[p.id := Adjust(Post(accounts, postings)[p.id], p)]
  {
    var all := postings + [p];
    assert all[..|all| - 1] == postings && all[|all| - 1] == p;
  }

  lemma PostNothing(accounts: map<Id, Account>)
    ensures Post(accounts, []) == accounts
  {
  }

  /** Postings on one tenant's accounts move that tenant's column sums by their total and no other's. */
  lemma {:induction false} PostColumn(accounts: map<Id, Account>, postings: seq<Posting>, owner: Id, tenant: Id, field: Field)
    requires forall p :: p in postings ==> p.id in accounts && accounts[p.id].tenant == owner
    ensures ColumnSum(Post(accounts, postings), tenant, field) ==
            ColumnSum(accounts, tenant, field) + if tenant == owner then PostingTotal(postings, field) else 0
  {
    if postings == [] {
      PostNothing(accounts);
    } else {
      var rest, p := postings[..|postings| - 1], postings[|postings| - 1];
      PostColumn(accounts, rest, owner, tenant, field);
      assert p in postings && rest + [p] == postings;
      PostSnoc(accounts, rest, p);
      var posted := Post(accounts, rest);
      ColumnUpdate(posted, p.id, Adjust(posted[p.id], p), tenant, field);
    }
  }
}

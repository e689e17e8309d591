/** Runs in which a harmful step makes one key commit twice, and one in which a reply crosses tenants. */
module IdempotencyRuns {
  import opened Domain
  import opened AtomicLedger
  import opened Operations
  import opened Idempotency

  function Tenants(): map<Id, FeePlan> { map[1 := FeePlan(0, 0), 2 := FeePlan(0, 0)] }

  /** All requests of these runs ask for the same hold under the same key. */
  function Wanted(): Body { HoldBody(10, 10) }

  function Opening(): Op { Open(10, 1, Wallet, 100) }

  function Placing(txn: Id): Op { Do(Hold(1, 10, 10, txn), NoFee) }

  // ---------- the ledger grants two such holds ----------

  lemma FirstIsGranted(txn: Id)
    ensures Apply(Exec(Tenants(), [Opening()]), Placing(txn)).Ok?
    ensures Exec(Tenants(), [Opening(), Placing(txn)]).accounts == map[10 := Account(1, Wallet, 100, 90, 10)]
  {
    hide Apply;
    ExecOpening(Tenants(), 10, 1, Wallet, 100);
    var db := Exec(Tenants(), [Opening()]);
    HoldGrantedIff(db, Placing(txn).req);
    HoldEffect(db, Placing(txn).req);
    ExecAppend(Tenants(), [Opening()], Placing(txn));
    assert [Opening()] + [Placing(txn)] == [Opening(), Placing(txn)];
  }

  lemma SecondIsGranted(txn: Id, other: Id)
    ensures Apply(Exec(Tenants(), [Opening(), Placing(txn)]), Placing(other)).Ok?
  {
    hide Apply;
    FirstIsGranted(txn);
    HoldGrantedIff(Exec(Tenants(), [Opening(), Placing(txn)]), Placing(other).req);
  }

  // ---------- running ----------

  predicate Reaches(steps: seq<Step>, s: Sys) {
    After(Tenants(), steps) == Some(s)
  }

  lemma Then(steps: seq<Step>, s: Sys, step: Step, s': Sys)
    requires Reaches(steps, s) && Enabled(s, step) && Fire(Tenants(), s, step) == s'
    ensures Reaches(steps + [step], s')
  {
    RunsOn(Tenants(), steps, step);
  }

  function Ask(tenant: Id, stage: Stage): Session { Session(tenant, 7, Wanted(), stage) }

  function Three(a: Stage, b: Stage, c: Stage): map<nat, Session> {
    map[1 := Ask(1, a), 2 := Ask(1, b), 3 := Ask(1, c)]
  }

  function Two(a: Stage, tenant: Id, b: Stage): map<nat, Session> {
    map[1 := Ask(1, a), 2 := Ask(tenant, b)]
  }

  function OpeningLog(): seq<Tagged> { [Tagged(None, Opening())] }

  function Keyed(txn: Id): Tagged { Tagged(Some(7), Placing(txn)) }

  function Pending(): map<Key, Record> { map[7 := InProgress(Wanted())] }

  function Stored(txn: Id): map<Key, Record> { map[7 := Completed(Wanted(), CREATED, txn)] }

  lemma OpeningRuns()
    ensures Reaches([Other(Opening())], Sys(map[], map[], map[], OpeningLog()))
  {
    assert Ops([]) == [];
    assert Apply(Genesis(Tenants()), Opening()).Ok?;
    Then([], Start(), Other(Opening()), Sys(map[], map[], map[], OpeningLog()));
  }

  /** The handler of a request for the hold commits it. */
  lemma HandlerCommits(s: Sys, r: nat, txn: Id)
    requires At(s, r, Handling) && s.sessions[r] == Ask(1, Handling)
    requires Apply(Exec(Tenants(), Ops(s.log)), Placing(txn)).Ok?
    ensures Fire(Tenants(), s, Handle(r, txn, NoFee)) ==
            s.(sessions := s.sessions[r := Ask(1, Succeeded(txn))], answers := s.answers[r := Success(CREATED, txn)],
               log := s.log + [Keyed(txn)])
  {
    hide Apply;
  }

  lemma CommitsOf(log: seq<Tagged>)
    requires log == OpeningLog() + [Keyed(21)] || log == OpeningLog() + [Keyed(21)] + [Keyed(22)]
    ensures Commits(log, 7) == if |log| == 2 then [Placing(21)] else [Placing(21), Placing(22)]
  {
    assert Commits([], 7) == [];
    CommitsAppend([], Tagged(None, Opening()), 7);
    assert [] + [Tagged(None, Opening())] == OpeningLog();
    CommitsAppend(OpeningLog(), Keyed(21), 7);
    CommitsAppend(OpeningLog() + [Keyed(21)], Keyed(22), 7);
  }

  // ---------- a delete between SET NX and GET ----------

  function Arrivals(): seq<Step> {
    [Other(Opening())] + [Arrive(1, 1, 7, Wanted())] + [Arrive(2, 1, 7, Wanted())] + [Arrive(3, 1, 7, Wanted())]
  }

  /** The first request fails, and its delete falls between the SET NX and the GET of the second. */
  function SplitDelete(): seq<Step> {
    FirstFails() + [Delete(1)] + [Get(2)] + [SetNx(3)]
  }

  function FirstFails(): seq<Step> {
    Arrivals() + [SetNx(1)] + [SetNx(2)] + [Crash(1)]
  }

  lemma ArrivalsRun()
    ensures Reaches(Arrivals(), Sys(map[], Three(New, New, New), map[], OpeningLog()))
  {
    OpeningRuns();
    var p, log := [Other(Opening())], OpeningLog();
    var s0 := Sys(map[], map[], map[], log);
    var s1 := Sys(map[], map[1 := Ask(1, New)], map[], log);
    var s2 := Sys(map[], Two(New, 1, New), map[], log);
    Then(p, s0, Arrive(1, 1, 7, Wanted()), s1);
    Then(p + [Arrive(1, 1, 7, Wanted())], s1, Arrive(2, 1, 7, Wanted()), s2);
    Then(p + [Arrive(1, 1, 7, Wanted())] + [Arrive(2, 1, 7, Wanted())], s2, Arrive(3, 1, 7, Wanted()),
         Sys(map[], Three(New, New, New), map[], log));
  }

  lemma FirstFailsRun()
    ensures Reaches(FirstFails(), Sys(Pending(), Three(Failed, Refused, New), map[1 := Rejected], OpeningLog()))
  {
    hide After, Reaches;
    ArrivalsRun();
    var p, log := Arrivals(), OpeningLog();
    var s0 := Sys(map[], Three(New, New, New), map[], log);
    var s1 := Sys(Pending(), Three(Handling, New, New), map[], log);
    var s2 := Sys(Pending(), Three(Handling, Refused, New), map[], log);
    Then(p, s0, SetNx(1), s1);
    Then(p + [SetNx(1)], s1, SetNx(2), s2);
    Then(p + [SetNx(1)] + [SetNx(2)], s2, Crash(1), Sys(Pending(), Three(Failed, Refused, New), map[1 := Rejected], log));
  }

  lemma SplitDeleteRuns()
    ensures Reaches(SplitDelete(), Sys(Pending(), Three(Closed, Handling, Handling), map[1 := Rejected], OpeningLog()))
  {
    hide After, Reaches;
    FirstFailsRun();
    var p, log := FirstFails(), OpeningLog();
    var s0 := Sys(Pending(), Three(Failed, Refused, New), map[1 := Rejected], log);
    var s1 := Sys(map[], Three(Closed, Refused, New), map[1 := Rejected], log);
    var s2 := Sys(map[], Three(Closed, Handling, New), map[1 := Rejected], log);
    Then(p, s0, Delete(1), s1);
    Then(p + [Delete(1)], s1, Get(2), s2);
    Then(p + [Delete(1)] + [Get(2)], s2, SetNx(3), Sys(Pending(), Three(Closed, Handling, Handling), map[1 := Rejected], log));
  }

  /** Then both remaining requests commit: one key, two ledger transactions. */
  lemma SplitDeleteCommitsTwice()
    ensures var end := After(Tenants(), SplitDelete() + [Handle(2, 21, NoFee)] + [Handle(3, 22, NoFee)]);
            && end.Some? && Commits(end.value.log, 7) == [Placing(21), Placing(22)]
            && end.value.answers == map[1 := Rejected, 2 := Success(CREATED, 21), 3 := Success(CREATED, 22)]
  {
    hide After, Commits, Apply, Fire;
    SplitDeleteRuns();
    var s := Sys(Pending(), Three(Closed, Handling, Handling), map[1 := Rejected], OpeningLog());
    assert Ops(s.log) == [Opening()];
    FirstIsGranted(21);
    HandlerCommits(s, 2, 21);
    var s1 := Fire(Tenants(), s, Handle(2, 21, NoFee));
    Then(SplitDelete(), s, Handle(2, 21, NoFee), s1);
    assert Ops(s1.log) == [Opening(), Placing(21)];
    SecondIsGranted(21, 22);
    HandlerCommits(s1, 3, 22);
    Then(SplitDelete() + [Handle(2, 21, NoFee)], s1, Handle(3, 22, NoFee), Fire(Tenants(), s1, Handle(3, 22, NoFee)));
    CommitsOf(OpeningLog() + [Keyed(21)] + [Keyed(22)]);
  }

  // ---------- a record that lives until a repeat arrives ----------

  function BothArrived(tenant: Id): seq<Step> {
    [Other(Opening())] + [Arrive(1, 1, 7, Wanted())] + [Arrive(2, tenant, 7, Wanted())]
  }

  /** The first request commits and stores its response; a second one of the given tenant has arrived. */
  function StoredOnce(tenant: Id): seq<Step> {
    BothArrived(tenant) + [SetNx(1)] + [Handle(1, 21, NoFee)] + [Store(1)]
  }

  function HandledOnce(tenant: Id): Sys {
    Sys(Pending(), Two(Succeeded(21), tenant, New), map[1 := Success(CREATED, 21)], OpeningLog() + [Keyed(21)])
  }

  lemma HandledOnceRuns(tenant: Id)
    ensures Reaches(BothArrived(tenant) + [SetNx(1)] + [Handle(1, 21, NoFee)], HandledOnce(tenant))
  {
    hide After, Reaches, Apply;
    BothArrivedRuns(tenant);
    var p, log := BothArrived(tenant), OpeningLog();
    var s0 := Sys(map[], Two(New, tenant, New), map[], log);
    var s1 := Sys(Pending(), Two(Handling, tenant, New), map[], log);
    Then(p, s0, SetNx(1), s1);
    assert Ops(s1.log) == [Opening()];
    FirstIsGranted(21);
    assert Fire(Tenants(), s1, Handle(1, 21, NoFee)) == HandledOnce(tenant) by {
      hide Fire;
      HandlerCommits(s1, 1, 21);
    }
    Then(p + [SetNx(1)], s1, Handle(1, 21, NoFee), HandledOnce(tenant));
  }

  lemma BothArrivedRuns(tenant: Id)
    ensures Reaches(BothArrived(tenant), Sys(map[], Two(New, tenant, New), map[], OpeningLog()))
  {
    OpeningRuns();
    var p, log, first := [Other(Opening())], OpeningLog(), Arrive(1, 1, 7, Wanted());
    var s0 := Sys(map[], map[], map[], log);
    var s1 := Sys(map[], map[1 := Ask(1, New)], map[], log);
    Then(p, s0, first, s1);
    Then(p + [first], s1, Arrive(2, tenant, 7, Wanted()), Sys(map[], Two(New, tenant, New), map[], log));
  }

  function AfterStore(tenant: Id, stage: Stage, records: map<Key, Record>): Sys {
    Sys(records, Two(Closed, tenant, stage), map[1 := Success(CREATED, 21)], OpeningLog() + [Keyed(21)])
  }

  lemma StoredOnceRuns(tenant: Id)
    ensures Reaches(StoredOnce(tenant), AfterStore(tenant, New, Stored(21)))
  {
    hide After, Reaches, Apply;
    HandledOnceRuns(tenant);
    Then(BothArrived(tenant) + [SetNx(1)] + [Handle(1, 21, NoFee)], HandledOnce(tenant), Store(1), AfterStore(tenant, New, Stored(21)));
  }

  /** When the completed record expires, a repeat of the request commits again. */
  lemma ExpiryCommitsTwice()
    ensures var end := After(Tenants(), StoredOnce(1) + [Expire(7)] + [SetNx(2)] + [Handle(2, 22, NoFee)]);
            && end.Some? && Commits(end.value.log, 7) == [Placing(21), Placing(22)]
            && end.value.answers == map[1 := Success(CREATED, 21), 2 := Success(CREATED, 22)]
  {
    hide After, Commits, Apply;
    StoredOnceRuns(1);
    var s, s1, s2 := AfterStore(1, New, Stored(21)), AfterStore(1, New, map[]), AfterStore(1, Handling, Pending());
    var p := StoredOnce(1);
    Then(p, s, Expire(7), s1);
    Then(p + [Expire(7)], s1, SetNx(2), s2);
    assert Ops(s2.log) == [Opening(), Placing(21)];
    SecondIsGranted(21, 22);
    HandlerCommits(s2, 2, 22);
    Then(p + [Expire(7)] + [SetNx(2)], s2, Handle(2, 22, NoFee), Fire(Tenants(), s2, Handle(2, 22, NoFee)));
    CommitsOf(OpeningLog() + [Keyed(21)] + [Keyed(22)]);
  }

  /** A second tenant that sends the same body under the same key is answered with the first tenant's transaction, and
      nothing is done for it. */
  lemma ReplayCrossesTenants()
    ensures var end := After(Tenants(), StoredOnce(2) + [SetNx(2)] + [Get(2)]);
            && end.Some? && end.value.sessions == map[1 := Ask(1, Closed), 2 := Ask(2, Closed)]
            && end.value.answers == map[1 := Success(CREATED, 21), 2 := Success(CREATED, 21)]
            && Commits(end.value.log, 7) == [Placing(21)]
  {
    hide After, Commits, Apply;
    StoredOnceRuns(2);
    var s, s1 := AfterStore(2, New, Stored(21)), AfterStore(2, Refused, Stored(21));
    var answers := map[1 := Success(CREATED, 21), 2 := Success(CREATED, 21)];
    Then(StoredOnce(2), s, SetNx(2), s1);
    Then(StoredOnce(2) + [SetNx(2)], s1, Get(2), AfterStore(2, Closed, Stored(21)).(answers := answers));
    CommitsOf(OpeningLog() + [Keyed(21)]);
  }
}

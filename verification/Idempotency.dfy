/** The idempotency interceptor: one record per key in Redis, and many requests between its commands. */
module Idempotency {
  import opened Domain
  import opened AtomicLedger

  type Key = nat

  /** Path and body of a request, which is what its SHA-256 fingerprint is taken of. Fingerprints are identified with
      what they are taken of: collisions are left out. */
  datatype Body =
    | TransferBody(sender: Id, receiver: Id, amount: int)
    | HoldBody(account: Id, amount: int)
    | CaptureBody(holdId: Id, receiver: Id, amount: int)
    | ReleaseBody(holdId: Id, amount: int)

  function ToRequest(tenant: Id, body: Body, txn: Id): Request {
    match body
    case TransferBody(sender, receiver, amount) => Transfer(tenant, sender, receiver, amount, txn)
    case HoldBody(account, amount) => Hold(tenant, account, amount, txn)
    case CaptureBody(holdId, receiver, amount) => Capture(tenant, holdId, receiver, amount, txn)
    case ReleaseBody(holdId, amount) => Release(tenant, holdId, amount, txn)
  }

  /** The value under a key; a completed one stores the response: status code and body, here its transaction id. */
  datatype Record = InProgress(hash: Body) | Completed(hash: Body, status: nat, txn: Id)

  const CREATED: nat := 201

  // ---------- the Redis commands of one request ----------

  datatype Decision = Execute | PayloadMismatch | InFlight | Replay(status: nat, txn: Id)

  /** SET NX: whether the lock was acquired, and the records after. */
  function OnSetNx(records: map<Key, Record>, key: Key, hash: Body): (map<Key, Record>, bool) {
    if key in records then (records, false) else (records[key := InProgress(hash)], true)
  }

  /** GET after a refused SET NX. A record that is gone lets the request through. */
  function OnGet(records: map<Key, Record>, key: Key, hash: Body): Decision {
    if key !in records then Execute
    else if records[key].hash != hash then PayloadMismatch
    else match records[key]
      case InProgress(_) => InFlight
      case Completed(_, status, txn) => Replay(status, txn)
  }

  /** The final SET, which overwrites whatever is there. */
  function OnStore(records: map<Key, Record>, key: Key, hash: Body, txn: Id): map<Key, Record> {
    records[key := Completed(hash, CREATED, txn)]
  }

  /** The DEL of a failed request. */
  function OnDelete(records: map<Key, Record>, key: Key): map<Key, Record> {
    records - {key}
  }

  class Interceptor {
    var records: map<Key, Record>

    constructor ()
      ensures records == map[]
    {
      records := map[];
    }

    method SetNx(key: Key, record: Record) returns (acquired: bool)
      modifies this
      ensures acquired == (key !in old(records))
      ensures records == if acquired then old(records)[key := record] else old(records)
    {
      acquired := key !in records;
      if acquired {
        records := records[key := record];
      }
    }

    method Get(key: Key) returns (record: Option<Record>)
      ensures record == if key in records then Some(records[key]) else None
    {
      record := if key in records then Some(records[key]) else None;
    }

    /** What happens before the route handler, when no other command comes between SET NX and GET: the handler then runs
        exactly when the key was free. */
    method Intercept(key: Key, hash: Body) returns (d: Decision)
      modifies this
      ensures d == Execute <==> key !in old(records)
      ensures key !in old(records) ==> records == old(records)[key := InProgress(hash)]
      ensures key in old(records) ==> records == old(records) && d == OnGet(old(records), key, hash)
      ensures records == OnSetNx(old(records), key, hash).0
      ensures key in old(records) ==>
                var record := old(records)[key];
                && (d == InFlight <==> record == InProgress(hash))
                && (d == PayloadMismatch <==> record.hash != hash)
                && (forall status, txn :: d == Replay(status, txn) <==> record == Completed(hash, status, txn))
    {
      var acquired := SetNx(key, InProgress(hash));
      if !acquired {
        var cached := Get(key);
        if cached.Some? {
          if cached.value.hash != hash { return PayloadMismatch; }
          if cached.value.InProgress? { return InFlight; }
          return Replay(cached.value.status, cached.value.txn);
        }
      }
      d := Execute;
    }

    /** What happens after the handler: the response is stored, or the key is freed. Session r of the machine below does
        the same by its next step. */
    method Finish(key: Key, hash: Body, outcome: Option<Id>, ghost tenants: map<Id, FeePlan>, ghost s: Sys, ghost r: nat)
      requires s.records == records && r in s.sessions && s.sessions[r].key == key && s.sessions[r].body == hash
      requires s.sessions[r].stage == if outcome.Some? then Succeeded(outcome.value) else Failed
      modifies this
      ensures records == Fire(tenants, s, if outcome.Some? then Store(r) else Delete(r)).records
      ensures outcome.Some? ==>
                forall other: Body :: OnGet(records, key, other) ==
                                      if other == hash then Replay(CREATED, outcome.value) else PayloadMismatch
      ensures outcome.None? ==> key !in records
    {
      match outcome
      case Some(txn) => records := records[key := Completed(hash, CREATED, txn)];
      case None => records := records - {key};
    }
  }

  // ---------- many requests ----------

  datatype Stage =
    | New
    | Refused                     // SET NX failed, GET to come
    | Handling                    // the route handler runs
    | Succeeded(txn: Id)          // it committed; the reply is out, the final SET is to come
    | Failed                      // it rolled back; the DEL is to come
    | Lost                        // its SET or DEL was lost
    | Closed

  datatype Session = Session(tenant: Id, key: Key, body: Body, stage: Stage)

  datatype Answer = Success(status: nat, txn: Id) | Conflict | Mismatch | Rejected

  /** A committed operation, with the key of the request that caused it. */
  datatype Tagged = Tagged(key: Option<Key>, op: Op)

  /** The Redis records, the requests in progress by id, the answers sent, and the committed operations in order. */
  datatype Sys = Sys(records: map<Key, Record>, sessions: map<nat, Session>, answers: map<nat, Answer>, log: seq<Tagged>)

  datatype Step =
    | Arrive(r: nat, tenant: Id, key: Key, body: Body)
    | SetNx(r: nat)
    | Get(r: nat)
    | Handle(r: nat, txn: Id, revenue: Revenue)  // commits, or is refused by the ledger
    | Crash(r: nat)                              // fails for any other reason and rolls back
    | Store(r: nat)
    | StoreLost(r: nat)
    | Delete(r: nat)
    | DeleteLost(r: nat)
    | Expire(key: Key)
    | Other(op: Op)                              // traffic without a key

  function Ops(log: seq<Tagged>): seq<Op> {
    seq(|log|, i requires 0 <= i < |log| => log[i].op)
  }

  function Ledger(tenants: map<Id, FeePlan>, s: Sys): Db {
    Exec(tenants, Ops(s.log))
  }

  predicate At(s: Sys, r: nat, stage: Stage) {
    r in s.sessions && s.sessions[r].stage == stage
  }

  predicate Enabled(s: Sys, step: Step) {
    match step
    case Arrive(r, _, _, _) => r !in s.sessions
    case SetNx(r) => At(s, r, New)
    case Get(r) => At(s, r, Refused)
    case Handle(r, _, _) => At(s, r, Handling)
    case Crash(r) => At(s, r, Handling)
    case Store(r) => r in s.sessions && s.sessions[r].stage.Succeeded?
    case StoreLost(r) => r in s.sessions && s.sessions[r].stage.Succeeded?
    case Delete(r) => At(s, r, Failed)
    case DeleteLost(r) => At(s, r, Failed)
    case Expire(_) => true
    case Other(_) => true
  }

  function Move(s: Sys, r: nat, stage: Stage): Sys
    requires r in s.sessions
  {
    s.(sessions := s.sessions[r := s.sessions[r].(stage := stage)])
  }

  function Answered(s: Sys, r: nat, a: Answer): Sys {
    s.(answers := s.answers[r := a])
  }

  function Fire(tenants: map<Id, FeePlan>, s: Sys, step: Step): Sys
    requires Enabled(s, step)
  {
    match step
    case Arrive(r, tenant, key, body) => s.(sessions := s.sessions[r := Session(tenant, key, body, New)])
    case SetNx(r) =>
      var q := s.sessions[r];
      var (records, acquired) := OnSetNx(s.records, q.key, q.body);
      Move(s, r, if acquired then Handling else Refused).(records := records)
    case Get(r) =>
      var q := s.sessions[r];
      (match OnGet(s.records, q.key, q.body)
       case Execute => Move(s, r, Handling)
       case Replay(status, txn) => Answered(Move(s, r, Closed), r, Success(status, txn))
       case InFlight => Answered(Move(s, r, Closed), r, Conflict)
       case PayloadMismatch => Answered(Move(s, r, Closed), r, Mismatch))
    case Handle(r, txn, revenue) =>
      var q := s.sessions[r];
      var op := Do(ToRequest(q.tenant, q.body, txn), revenue);
      if Apply(Ledger(tenants, s), op).Ok?
      then Answered(Move(s, r, Succeeded(txn)), r, Success(CREATED, txn)).(log := s.log + [Tagged(Some(q.key), op)])
      else Answered(Move(s, r, Failed), r, Rejected)
    case Crash(r) => Answered(Move(s, r, Failed), r, Rejected)
    case Store(r) =>
      var q := s.sessions[r];
      Move(s, r, Closed).(records := OnStore(s.records, q.key, q.body, q.stage.txn))
    case StoreLost(r) => Move(s, r, Lost)
    case Delete(r) => Move(s, r, Closed).(records := OnDelete(s.records, s.sessions[r].key))
    case DeleteLost(r) => Move(s, r, Lost)
    case Expire(key) => s.(records := OnDelete(s.records, key))
    case Other(op) => if Apply(Ledger(tenants, s), op).Ok? then s.(log := s.log + [Tagged(None, op)]) else s
  }

  function Start(): Sys {
    Sys(map[], map[], map[], [])
  }

  /** The condition of the guarantees: a GET after a refused SET NX finds a record, and a record expires only when no
      request of its key is executing and none has committed, as after a lost DEL. */
  predicate Harmless(s: Sys, step: Step) {
    match step
    case Get(r) => r in s.sessions ==> s.sessions[r].key in s.records
    case Expire(key) =>
      key in s.records ==>
        Commits(s.log, key) == [] && forall r :: r in s.sessions && s.sessions[r].key == key ==> !Busy(s.sessions[r])
    case _ => true
  }

  /** The state after a run, if every step was possible when taken. */
  function After(tenants: map<Id, FeePlan>, steps: seq<Step>): Option<Sys> {
    if steps == [] then Some(Start())
    else
      match After(tenants, steps[..|steps| - 1])
      case None => None
      case Some(s) => if Enabled(s, steps[|steps| - 1]) then Some(Fire(tenants, s, steps[|steps| - 1])) else None
  }

  /** Every step of the run met the condition. */
  predicate RunHarmless(tenants: map<Id, FeePlan>, steps: seq<Step>)
    requires After(tenants, steps).Some?
  {
    steps != [] ==>
      && RunHarmless(tenants, steps[..|steps| - 1])
      && Harmless(After(tenants, steps[..|steps| - 1]).value, steps[|steps| - 1])
  }

  // ---------- the invariant ----------

  /** Past SET NX and not finished with its record. */
  predicate Busy(q: Session) {
    q.stage.Handling? || q.stage.Succeeded? || q.stage.Failed?
  }

  /** The ledger transactions of a key. */
  function Commits(log: seq<Tagged>, key: Key): seq<Op> {
    if log == [] then []
    else
      var rest, last := log[..|log| - 1], log[|log| - 1];
      if last.key == Some(key) then Commits(rest, key) + [last.op] else Commits(rest, key)
  }

  /** The one committed operation of the key carries that transaction id and body. */
  ghost predicate CommittedOnce(s: Sys, key: Key, body: Body, txn: Id) {
    var c := Commits(s.log, key);
    |c| == 1 && c[0].Do? && exists tenant :: c[0].req == ToRequest(tenant, body, txn)
  }

  /** A busy request holds its key's record, alone, with its own fingerprint. */
  ghost predicate SessionInv(s: Sys, r: nat) {
    r in s.sessions && Busy(s.sessions[r]) ==>
      var q := s.sessions[r];
      && q.key in s.records && s.records[q.key] == InProgress(q.body)
      && (forall o :: o in s.sessions && o != r && s.sessions[o].key == q.key ==> !Busy(s.sessions[o]))
      && match q.stage {
           case Succeeded(txn) => CommittedOnce(s, q.key, q.body, txn)
           case _ => Commits(s.log, q.key) == []
         }
  }

  ghost predicate KeyInv(s: Sys, key: Key) {
    && |Commits(s.log, key)| <= 1
    && (key !in s.records ==> Commits(s.log, key) == [])
    && (key in s.records && s.records[key].Completed? ==>
          var record := s.records[key];
          record.status == CREATED && CommittedOnce(s, key, record.hash, record.txn))
  }

  /** A success answer carries the transaction id of its key's one commit, made with the request's own body. */
  ghost predicate AnswerInv(s: Sys, r: nat) {
    r in s.answers ==>
      && r in s.sessions && !s.sessions[r].stage.New? && !s.sessions[r].stage.Refused? && !s.sessions[r].stage.Handling?
      && (s.answers[r].Success? ==>
            s.answers[r].status == CREATED && CommittedOnce(s, s.sessions[r].key, s.sessions[r].body, s.answers[r].txn))
  }

  ghost predicate Inv(s: Sys) {
    && (forall r :: SessionInv(s, r))
    && (forall key :: KeyInv(s, key))
    && (forall r :: AnswerInv(s, r))
  }

  lemma CommitsAppend(log: seq<Tagged>, t: Tagged, key: Key)
    ensures Commits(log + [t], key) == Commits(log, key) + if t.key == Some(key) then [t.op] else []
  {
    assert (log + [t])[..|log + [t]| - 1] == log;
  }

  lemma SetNxKeeps(tenants: map<Id, FeePlan>, s: Sys, r: nat)
    requires Inv(s) && Enabled(s, SetNx(r))
    ensures Inv(Fire(tenants, s, SetNx(r)))
  {
    var s' := Fire(tenants, s, SetNx(r));
    var key := s.sessions[r].key;
    forall x | x in s.sessions && s.sessions[x].key == key && key !in s.records ensures !Busy(s.sessions[x]) {
      assert SessionInv(s, x);
    }
    assert KeyInv(s, key);
    forall o ensures SessionInv(s', o) {
      assert SessionInv(s, o);
    }
    forall k ensures KeyInv(s', k) {
      assert KeyInv(s, k);
    }
    forall o ensures AnswerInv(s', o) {
      assert AnswerInv(s, o);
    }
  }

  lemma GetKeeps(tenants: map<Id, FeePlan>, s: Sys, r: nat)
    requires Inv(s) && Enabled(s, Get(r)) && Harmless(s, Get(r))
    ensures Inv(Fire(tenants, s, Get(r)))
  {
    var s' := Fire(tenants, s, Get(r));
    assert KeyInv(s, s.sessions[r].key);
    forall o ensures SessionInv(s', o) {
      assert SessionInv(s, o);
    }
    forall k ensures KeyInv(s', k) {
      assert KeyInv(s, k);
    }
    forall o ensures AnswerInv(s', o) {
      assert AnswerInv(s, o);
    }
  }

  /** The state after a handler has committed. */
  function Granted(s: Sys, r: nat, txn: Id, op: Op): Sys
    requires r in s.sessions
  {
    Answered(Move(s, r, Succeeded(txn)), r, Success(CREATED, txn)).(log := s.log + [Tagged(Some(s.sessions[r].key), op)])
  }

  lemma GrantedCommits(s: Sys, r: nat, txn: Id, op: Op, key: Key)
    requires Inv(s) && At(s, r, Handling)
    requires op.Do? && op.req == ToRequest(s.sessions[r].tenant, s.sessions[r].body, txn)
    ensures key != s.sessions[r].key ==> Commits(Granted(s, r, txn, op).log, key) == Commits(s.log, key)
    ensures key == s.sessions[r].key ==>
              Commits(s.log, key) == [] && CommittedOnce(Granted(s, r, txn, op), key, s.sessions[r].body, txn)
  {
    assert SessionInv(s, r);
    CommitsAppend(s.log, Tagged(Some(s.sessions[r].key), op), key);
  }

  lemma GrantedSession(s: Sys, r: nat, txn: Id, op: Op, o: nat)
    requires Inv(s) && At(s, r, Handling)
    requires op.Do? && op.req == ToRequest(s.sessions[r].tenant, s.sessions[r].body, txn)
    ensures SessionInv(Granted(s, r, txn, op), o)
  {
    assert SessionInv(s, r) && SessionInv(s, o);
    if o in s.sessions {
      GrantedCommits(s, r, txn, op, s.sessions[o].key);
    }
  }

  lemma GrantedKey(s: Sys, r: nat, txn: Id, op: Op, key: Key)
    requires Inv(s) && At(s, r, Handling)
    requires op.Do? && op.req == ToRequest(s.sessions[r].tenant, s.sessions[r].body, txn)
    ensures KeyInv(Granted(s, r, txn, op), key)
  {
    assert SessionInv(s, r) && KeyInv(s, key);
    GrantedCommits(s, r, txn, op, key);
  }

  lemma GrantedAnswer(s: Sys, r: nat, txn: Id, op: Op, o: nat)
    requires Inv(s) && At(s, r, Handling)
    requires op.Do? && op.req == ToRequest(s.sessions[r].tenant, s.sessions[r].body, txn)
    ensures AnswerInv(Granted(s, r, txn, op), o)
  {
    assert AnswerInv(s, o);
    if o in s.sessions {
      GrantedCommits(s, r, txn, op, s.sessions[o].key);
    }
  }

  lemma HandleKeeps(tenants: map<Id, FeePlan>, s: Sys, r: nat, txn: Id, revenue: Revenue)
    requires Inv(s) && Enabled(s, Handle(r, txn, revenue))
    ensures Inv(Fire(tenants, s, Handle(r, txn, revenue)))
  {
    var op := Do(ToRequest(s.sessions[r].tenant, s.sessions[r].body, txn), revenue);
    if Apply(Ledger(tenants, s), op).Ok? {
      var s' := Granted(s, r, txn, op);
      assert Fire(tenants, s, Handle(r, txn, revenue)) == s';
      forall o ensures SessionInv(s', o) { GrantedSession(s, r, txn, op, o); }
      forall k ensures KeyInv(s', k) { GrantedKey(s, r, txn, op, k); }
      forall o ensures AnswerInv(s', o) { GrantedAnswer(s, r, txn, op, o); }
      assert Inv(s');
    } else {
      assert Fire(tenants, s, Handle(r, txn, revenue)) == Fire(tenants, s, Crash(r));
      CloseKeeps(tenants, s, Crash(r));
    }
  }

  lemma OtherKeeps(tenants: map<Id, FeePlan>, s: Sys, op: Op)
    requires Inv(s)
    ensures Inv(Fire(tenants, s, Other(op)))
  {
    var s' := Fire(tenants, s, Other(op));
    forall k ensures Commits(s'.log, k) == Commits(s.log, k) {
      if s'.log != s.log {
        CommitsAppend(s.log, Tagged(None, op), k);
      }
    }
    forall o ensures SessionInv(s', o) {
      assert SessionInv(s, o);
    }
    forall k ensures KeyInv(s', k) {
      assert KeyInv(s, k);
    }
    forall o ensures AnswerInv(s', o) {
      assert AnswerInv(s, o);
    }
  }

  /** The remaining steps: a new session, or the end of one with its SET or DEL done or lost. */
  lemma CloseKeeps(tenants: map<Id, FeePlan>, s: Sys, step: Step)
    requires Inv(s) && Enabled(s, step)
    requires step.Arrive? || step.Crash? || step.Store? || step.StoreLost? || step.Delete? || step.DeleteLost?
    ensures Inv(Fire(tenants, s, step))
  {
    var s' := Fire(tenants, s, step);
    assert SessionInv(s, step.r);
    forall o ensures SessionInv(s', o) {
      assert SessionInv(s, o);
    }
    forall k ensures KeyInv(s', k) {
      assert KeyInv(s, k);
    }
    forall o ensures AnswerInv(s', o) {
      assert AnswerInv(s, o);
    }
  }

  lemma ExpireKeeps(tenants: map<Id, FeePlan>, s: Sys, key: Key)
    requires Inv(s) && Harmless(s, Expire(key))
    ensures Inv(Fire(tenants, s, Expire(key)))
  {
    var s' := Fire(tenants, s, Expire(key));
    assert KeyInv(s, key);
    forall o ensures SessionInv(s', o) {
      assert SessionInv(s, o);
    }
    forall k ensures KeyInv(s', k) {
      assert KeyInv(s, k);
    }
    forall o ensures AnswerInv(s', o) {
      assert AnswerInv(s, o);
    }
  }

  lemma StepKeeps(tenants: map<Id, FeePlan>, s: Sys, step: Step)
    requires Inv(s) && Enabled(s, step) && Harmless(s, step)
    ensures Inv(Fire(tenants, s, step))
  {
    match step
    case SetNx(r) => SetNxKeeps(tenants, s, r);
    case Get(r) => GetKeeps(tenants, s, r);
    case Handle(r, txn, revenue) => HandleKeeps(tenants, s, r, txn, revenue);
    case Other(op) => OtherKeeps(tenants, s, op);
    case Expire(key) => ExpireKeeps(tenants, s, key);
    case _ => CloseKeeps(tenants, s, step);
  }

  lemma {:induction false} ReachableInv(tenants: map<Id, FeePlan>, steps: seq<Step>)
    requires After(tenants, steps).Some? && RunHarmless(tenants, steps)
    ensures Inv(After(tenants, steps).value)
  {
    if steps != [] {
      ReachableInv(tenants, steps[..|steps| - 1]);
      StepKeeps(tenants, After(tenants, steps[..|steps| - 1]).value, steps[|steps| - 1]);
    }
  }

  // ---------- the theorems ----------

  /** Exactly-once effect: in a harmless run a key has at most one committed transaction, and every success answer to
      a request with that key, first or replayed, carries the transaction id of that one commit, which was made with the
      request's own body. */
  lemma ExactlyOnce(tenants: map<Id, FeePlan>, steps: seq<Step>, key: Key)
    requires After(tenants, steps).Some? && RunHarmless(tenants, steps)
    ensures var s := After(tenants, steps).value;
            && |Commits(s.log, key)| <= 1
            && forall r :: r in s.answers && s.answers[r].Success? && r in s.sessions && s.sessions[r].key == key ==>
                 s.answers[r].status == 201 && CommittedOnce(s, key, s.sessions[r].body, s.answers[r].txn)
  {
    ReachableInv(tenants, steps);
    var s := After(tenants, steps).value;
    assert KeyInv(s, key);
    forall r | r in s.answers && s.answers[r].Success? && r in s.sessions && s.sessions[r].key == key
      ensures s.answers[r].status == 201 && CommittedOnce(s, key, s.sessions[r].body, s.answers[r].txn)
    {
      assert AnswerInv(s, r);
    }
  }

  /** All success answers for one key are the same answer. */
  lemma AnswersAgree(tenants: map<Id, FeePlan>, steps: seq<Step>, r: nat, o: nat)
    requires After(tenants, steps).Some? && RunHarmless(tenants, steps)
    requires var s := After(tenants, steps).value;
             && r in s.sessions && o in s.sessions && s.sessions[r].key == s.sessions[o].key
             && r in s.answers && o in s.answers && s.answers[r].Success? && s.answers[o].Success?
    ensures After(tenants, steps).value.answers[r] == After(tenants, steps).value.answers[o]
  {
    ReachableInv(tenants, steps);
    var s := After(tenants, steps).value;
    assert AnswerInv(s, r) && AnswerInv(s, o);
  }

  /** At most one request per key is between its SET NX and its SET or DEL, and the record is its own: a request with
      another fingerprint does not execute while the record exists. */
  lemma OneAtATime(tenants: map<Id, FeePlan>, steps: seq<Step>, r: nat, o: nat)
    requires After(tenants, steps).Some? && RunHarmless(tenants, steps)
    requires var s := After(tenants, steps).value;
             && r in s.sessions && o in s.sessions && s.sessions[r].key == s.sessions[o].key
             && Busy(s.sessions[r]) && Busy(s.sessions[o])
    ensures r == o
    ensures var s := After(tenants, steps).value; var q := s.sessions[r];
            q.key in s.records && s.records[q.key] == InProgress(q.body)
  {
    ReachableInv(tenants, steps);
    assert SessionInv(After(tenants, steps).value, r);
  }

  /** A completed record is final: only its own expiry changes or deletes it. */
  lemma CompletedIsFinal(tenants: map<Id, FeePlan>, steps: seq<Step>, step: Step, key: Key)
    requires After(tenants, steps).Some? && RunHarmless(tenants, steps) && Enabled(After(tenants, steps).value, step)
    requires var s := After(tenants, steps).value; key in s.records && s.records[key].Completed?
    ensures var s := After(tenants, steps).value; var s' := Fire(tenants, s, step);
            (key in s'.records && s'.records[key] == s.records[key]) <==> step != Expire(key)
  {
    ReachableInv(tenants, steps);
    var s := After(tenants, steps).value;
    if !step.Expire? && !step.Other? {
      assert SessionInv(s, step.r);
    }
  }

  /** Every logged operation was granted by the ledger as it stood, so each keyed commit is a real ledger transaction. */
  ghost predicate AllGranted(tenants: map<Id, FeePlan>, log: seq<Tagged>) {
    log != [] ==>
      && AllGranted(tenants, log[..|log| - 1])
      && Apply(Exec(tenants, Ops(log[..|log| - 1])), log[|log| - 1].op).Ok?
  }

  lemma LogGrows(tenants: map<Id, FeePlan>, s: Sys, step: Step)
    requires Enabled(s, step)
    ensures var log := Fire(tenants, s, step).log;
            log == s.log || (log != [] && log[..|log| - 1] == s.log && Apply(Ledger(tenants, s), log[|log| - 1].op).Ok?)
  {
  }

  lemma {:induction false} CommitsAreReal(tenants: map<Id, FeePlan>, steps: seq<Step>)
    requires After(tenants, steps).Some?
    ensures AllGranted(tenants, After(tenants, steps).value.log)
  {
    if steps != [] {
      CommitsAreReal(tenants, steps[..|steps| - 1]);
      LogGrows(tenants, After(tenants, steps[..|steps| - 1]).value, steps[|steps| - 1]);
    }
  }

  /** What the committed request of a success answer looks like, for each kind of body. */
  lemma CommittedFields(tenants: map<Id, FeePlan>, steps: seq<Step>, r: nat)
    requires After(tenants, steps).Some? && RunHarmless(tenants, steps)
    requires var s := After(tenants, steps).value; r in s.answers && s.answers[r].Success? && r in s.sessions
    ensures var s := After(tenants, steps).value; var c := Commits(s.log, s.sessions[r].key);
            && |c| == 1 && c[0].Do? && c[0].req.txn == s.answers[r].txn
            && match s.sessions[r].body
               case TransferBody(sender, receiver, amount) =>
                 c[0].req.Transfer? && c[0].req.sender == sender && c[0].req.receiver == receiver && c[0].req.amount == amount
               case HoldBody(account, amount) => c[0].req.Hold? && c[0].req.account == account && c[0].req.amount == amount
               case CaptureBody(holdId, receiver, amount) =>
                 c[0].req.Capture? && c[0].req.holdId == holdId && c[0].req.receiver == receiver && c[0].req.amount == amount
               case ReleaseBody(holdId, amount) => c[0].req.Release? && c[0].req.holdId == holdId && c[0].req.amount == amount
  {
    var s := After(tenants, steps).value;
    ExactlyOnce(tenants, steps, s.sessions[r].key);
    assert CommittedOnce(s, s.sessions[r].key, s.sessions[r].body, s.answers[r].txn);
  }

  // ---------- refusals ----------

  /** Request o was sent with the key and body. */
  predicate Sent(s: Sys, o: nat, key: Key, body: Body) {
    o in s.sessions && s.sessions[o].key == key && s.sessions[o].body == body
  }

  /** It is executing, or its final SET or DEL was lost. */
  predicate Unfinished(s: Sys, o: nat) {
    o in s.sessions && (Busy(s.sessions[o]) || s.sessions[o].stage.Lost?)
  }

  /** A record is of the body of some request with its key, and one in progress is of a request that has not finished. */
  ghost predicate RecordInv(s: Sys, key: Key) {
    key in s.records ==>
      exists o :: Sent(s, o, key, s.records[key].hash) && (s.records[key].InProgress? ==> Unfinished(s, o))
  }

  lemma RecordStays(tenants: map<Id, FeePlan>, s: Sys, step: Step, key: Key)
    requires RecordInv(s, key) && Enabled(s, step)
    ensures RecordInv(Fire(tenants, s, step), key)
  {
    hide Apply;
    var s' := Fire(tenants, s, step);
    if key in s'.records {
      if key in s.records && s'.records[key] == s.records[key] {
        var o :| Sent(s, o, key, s.records[key].hash) && (s.records[key].InProgress? ==> Unfinished(s, o));
        assert Sent(s', o, key, s'.records[key].hash);
        assert s'.records[key].InProgress? ==> Unfinished(s', o);
      } else {
        assert Sent(s', step.r, key, s'.records[key].hash);
      }
    }
  }

  lemma {:induction false} RecordsHaveSenders(tenants: map<Id, FeePlan>, steps: seq<Step>, key: Key)
    requires After(tenants, steps).Some?
    ensures RecordInv(After(tenants, steps).value, key)
  {
    if steps != [] {
      RecordsHaveSenders(tenants, steps[..|steps| - 1], key);
      RecordStays(tenants, After(tenants, steps[..|steps| - 1]).value, steps[|steps| - 1], key);
    }
  }

  /** On every run, a conflict is answered exactly when the record is in progress with the caller's own body, and then
      another request with that key and body is executing or was never finished with. */
  lemma ConflictMeansUnfinished(tenants: map<Id, FeePlan>, steps: seq<Step>, r: nat)
    requires After(tenants, steps).Some? && Enabled(After(tenants, steps).value, Get(r))
    ensures var s := After(tenants, steps).value; var q := s.sessions[r];
            var answers := Fire(tenants, s, Get(r)).answers;
            && (r in answers && answers[r] == Conflict && r !in s.answers ==>
                  && q.key in s.records && s.records[q.key] == InProgress(q.body)
                  && exists o :: o != r && Sent(s, o, q.key, q.body) && Unfinished(s, o))
            && (q.key in s.records && s.records[q.key] == InProgress(q.body) ==> r in answers && answers[r] == Conflict)
  {
    var s := After(tenants, steps).value; var q := s.sessions[r];
    RecordsHaveSenders(tenants, steps, q.key);
    if q.key in s.records && s.records[q.key] == InProgress(q.body) {
      var o :| Sent(s, o, q.key, q.body) && Unfinished(s, o);
      assert o != r;
    }
  }

  /** A mismatch answers a body of which another request with the key differs. */
  ghost predicate MismatchInv(s: Sys, r: nat) {
    r in s.answers && s.answers[r] == Mismatch ==>
      r in s.sessions && exists o, body :: body != s.sessions[r].body && Sent(s, o, s.sessions[r].key, body)
  }

  lemma MismatchStays(tenants: map<Id, FeePlan>, s: Sys, step: Step, r: nat)
    requires MismatchInv(s, r) && Enabled(s, step)
    requires step.Get? && step.r in s.sessions ==> RecordInv(s, s.sessions[step.r].key)
    ensures MismatchInv(Fire(tenants, s, step), r)
  {
    hide Apply;
    var s' := Fire(tenants, s, step);
    if r in s'.answers && s'.answers[r] == Mismatch {
      if r in s.answers && s.answers[r] == Mismatch {
        var o, body :| body != s.sessions[r].body && Sent(s, o, s.sessions[r].key, body);
        assert Sent(s', o, s'.sessions[r].key, body);
      } else {
        assert step == Get(r);
        var key := s.sessions[r].key;
        var o :| Sent(s, o, key, s.records[key].hash);
        assert s'.sessions[r].key == key && s'.sessions[r].body == s.sessions[r].body;
        assert s.records[key].hash != s.sessions[r].body && Sent(s', o, key, s.records[key].hash);
      }
    }
  }

  /** On every run, a mismatch is answered only to a request for whose key another body was sent. */
  lemma {:induction false} MismatchMeansOtherBody(tenants: map<Id, FeePlan>, steps: seq<Step>, r: nat)
    requires After(tenants, steps).Some?
    ensures MismatchInv(After(tenants, steps).value, r)
  {
    if steps != [] {
      var before, step := steps[..|steps| - 1], steps[|steps| - 1];
      var s := After(tenants, before).value;
      MismatchMeansOtherBody(tenants, before, r);
      if step.Get? {
        RecordsHaveSenders(tenants, before, s.sessions[step.r].key);
      }
      MismatchStays(tenants, s, step, r);
    }
  }

  /** The answer of a GET, by the record it finds. */
  lemma GetAnswers(tenants: map<Id, FeePlan>, s: Sys, r: nat)
    requires Enabled(s, Get(r)) && s.sessions[r].key in s.records
    ensures var q := s.sessions[r]; var s' := Fire(tenants, s, Get(r));
            && r in s'.answers && s'.records == s.records && s'.log == s.log
            && s'.answers[r] ==
                 (if s.records[q.key].hash != q.body then Mismatch
                  else if s.records[q.key].InProgress? then Conflict
                  else Success(s.records[q.key].status, s.records[q.key].txn))
  {
  }

  // ---------- the condition is exact ----------

  /** The key has a request executing or a committed transaction, and no record that would stop another one. */
  ghost predicate Exposed(s: Sys, key: Key) {
    key !in s.records && (Commits(s.log, key) != [] || Executing(s, key))
  }

  ghost predicate Executing(s: Sys, key: Key) {
    exists r :: r in s.sessions && s.sessions[r].key == key && Busy(s.sessions[r])
  }

  /** Exposure is what lets a newcomer execute beside another request of its key, or after one has committed. */
  lemma NewcomerExecutesIff(tenants: map<Id, FeePlan>, s: Sys, o: nat)
    requires Enabled(s, SetNx(o))
    ensures var key := s.sessions[o].key;
            Exposed(s, key) <==>
              At(Fire(tenants, s, SetNx(o)), o, Handling) && (Commits(s.log, key) != [] || Executing(s, key))
  {
  }

  ghost predicate AllRecorded(s: Sys) {
    forall key :: !Exposed(s, key)
  }

  /** A step keeps every key recorded exactly when it is harmless. */
  lemma StepKeepsRecordsIff(tenants: map<Id, FeePlan>, s: Sys, step: Step)
    requires Inv(s) && Enabled(s, step)
    ensures AllRecorded(Fire(tenants, s, step)) <==> Harmless(s, step)
    ensures Inv(Fire(tenants, s, step)) <==> Harmless(s, step)
  {
    var s' := Fire(tenants, s, step);
    if Harmless(s, step) {
      StepKeeps(tenants, s, step);
    } else if step.Get? {
      assert Busy(s'.sessions[step.r]);
      assert Exposed(s', s'.sessions[step.r].key);
    } else {
      assert Exposed(s', step.key);
    }
    if Inv(s') {
      InvIsRecorded(s');
    }
  }

  lemma InvIsRecorded(s: Sys)
    requires Inv(s)
    ensures AllRecorded(s)
  {
    forall key ensures !Exposed(s, key) {
      assert KeyInv(s, key);
      if Executing(s, key) {
        var r :| r in s.sessions && s.sessions[r].key == key && Busy(s.sessions[r]);
        assert SessionInv(s, r);
      }
    }
  }

  /** Every key was recorded after the run and after each of its prefixes. */
  ghost predicate AlwaysRecorded(tenants: map<Id, FeePlan>, steps: seq<Step>)
    requires After(tenants, steps).Some?
  {
    AllRecorded(After(tenants, steps).value) && (steps != [] ==> AlwaysRecorded(tenants, steps[..|steps| - 1]))
  }

  /** Over whole runs: no key is ever exposed if and only if every step was harmless. */
  lemma {:induction false} AlwaysRecordedIff(tenants: map<Id, FeePlan>, steps: seq<Step>)
    requires After(tenants, steps).Some?
    ensures AlwaysRecorded(tenants, steps) <==> RunHarmless(tenants, steps)
  {
    if steps == [] {
      InvIsRecorded(Start());
    } else {
      var before := steps[..|steps| - 1];
      AlwaysRecordedIff(tenants, before);
      if RunHarmless(tenants, before) {
        ReachableInv(tenants, before);
        StepKeepsRecordsIff(tenants, After(tenants, before).value, steps[|steps| - 1]);
      }
    }
  }

  // ---------- keys and tenants ----------

  /** The committed request belongs to the tenant of some session with that key. */
  ghost predicate Attributed(s: Sys, key: Key, op: Op) {
    op.Do? && exists r :: r in s.sessions && s.sessions[r].key == key && s.sessions[r].tenant == op.req.tenant
  }

  lemma AttributedStays(tenants: map<Id, FeePlan>, s: Sys, step: Step, key: Key, op: Op)
    requires Enabled(s, step) && Attributed(s, key, op)
    ensures Attributed(Fire(tenants, s, step), key, op)
  {
    var r :| r in s.sessions && s.sessions[r].key == key && s.sessions[r].tenant == op.req.tenant;
    var s' := Fire(tenants, s, step);
    assert r in s'.sessions && s'.sessions[r].key == key && s'.sessions[r].tenant == op.req.tenant;
  }

  lemma {:induction false} CommitsAreAttributed(tenants: map<Id, FeePlan>, steps: seq<Step>, key: Key)
    requires After(tenants, steps).Some?
    ensures var s := After(tenants, steps).value; forall op :: op in Commits(s.log, key) ==> Attributed(s, key, op)
  {
    if steps != [] {
      var step := steps[|steps| - 1];
      var s := After(tenants, steps[..|steps| - 1]).value;
      var s' := Fire(tenants, s, step);
      CommitsAreAttributed(tenants, steps[..|steps| - 1], key);
      forall op | op in Commits(s'.log, key) ensures Attributed(s', key, op) {
        if op in Commits(s.log, key) {
          AttributedStays(tenants, s, step, key, op);
        } else {
          NewCommit(tenants, s, step, key, op);
        }
      }
    }
  }

  lemma NewCommit(tenants: map<Id, FeePlan>, s: Sys, step: Step, key: Key, op: Op)
    requires Enabled(s, step) && op in Commits(Fire(tenants, s, step).log, key) && op !in Commits(s.log, key)
    ensures Attributed(Fire(tenants, s, step), key, op)
  {
    hide Apply, Commits;
    var s' := Fire(tenants, s, step);
    if step.Handle? {
      var last := s'.log[|s'.log| - 1];
      assert s'.log == s.log || s'.log == s.log + [last];
      CommitsAppend(s.log, last, key);
      var q := s'.sessions[step.r];
      assert q.key == key && q.tenant == op.req.tenant;
    } else if step.Other? {
      CommitsAppend(s.log, Tagged(None, step.op), key);
    }
  }

  // ---------- what exposure leads to ----------

  /** Two requests of the key execute at once, or one executes after the key has committed. */
  ghost predicate Clash(s: Sys, key: Key) {
    || (exists r, o :: r != o && Executes(s, r, key) && Executes(s, o, key))
    || (Commits(s.log, key) != [] && exists r :: Executes(s, r, key) && s.sessions[r].stage.Handling?)
  }

  predicate Executes(s: Sys, r: nat, key: Key) {
    r in s.sessions && s.sessions[r].key == key && Busy(s.sessions[r])
  }

  /** The run goes on with `more`, by harmless steps only. */
  predicate GoesOn(tenants: map<Id, FeePlan>, steps: seq<Step>, more: seq<Step>) {
    && After(tenants, steps + more).Some?
    && (more != [] ==>
          && GoesOn(tenants, steps, more[..|more| - 1])
          && Harmless(After(tenants, steps + more[..|more| - 1]).value, more[|more| - 1]))
  }

  ghost predicate ClashesAfter(tenants: map<Id, FeePlan>, steps: seq<Step>, more: seq<Step>) {
    GoesOn(tenants, steps, more) && exists key :: Clash(After(tenants, steps + more).value, key)
  }

  /** Harmless steps can lead from here to a clash. */
  ghost predicate CanClash(tenants: map<Id, FeePlan>, steps: seq<Step>) {
    exists more :: ClashesAfter(tenants, steps, more)
  }

  lemma {:induction false} HarmlessOn(tenants: map<Id, FeePlan>, steps: seq<Step>, more: seq<Step>)
    requires After(tenants, steps).Some? && RunHarmless(tenants, steps) && GoesOn(tenants, steps, more)
    ensures RunHarmless(tenants, steps + more)
  {
    if more == [] {
      assert steps + more == steps;
    } else {
      HarmlessOn(tenants, steps, more[..|more| - 1]);
      assert (steps + more)[..|steps + more| - 1] == steps + more[..|more| - 1];
    }
  }

  lemma InvIsClashFree(s: Sys, key: Key)
    requires Inv(s)
    ensures !Clash(s, key)
  {
    forall r | Executes(s, r, key) ensures s.sessions[r].stage.Handling? ==> Commits(s.log, key) == [] {
      assert SessionInv(s, r);
    }
    forall r, o | Executes(s, r, key) && Executes(s, o, key) ensures r == o {
      assert SessionInv(s, r);
    }
  }

  /** A harmless run cannot be led to a clash by harmless steps. */
  lemma HarmlessRunsAreSafe(tenants: map<Id, FeePlan>, steps: seq<Step>)
    requires After(tenants, steps).Some? && RunHarmless(tenants, steps)
    ensures !CanClash(tenants, steps)
  {
    forall more | GoesOn(tenants, steps, more) ensures !ClashesAfter(tenants, steps, more) {
      HarmlessOn(tenants, steps, more);
      ReachableInv(tenants, steps + more);
      forall key ensures !Clash(After(tenants, steps + more).value, key) {
        InvIsClashFree(After(tenants, steps + more).value, key);
      }
    }
  }

  /** An exposed key clashes as soon as a new request of it arrives. */
  lemma ExposureClashes(tenants: map<Id, FeePlan>, steps: seq<Step>, key: Key)
    requires After(tenants, steps).Some? && Exposed(After(tenants, steps).value, key)
    ensures CanClash(tenants, steps)
  {
    var s := After(tenants, steps).value;
    var o := UnusedIdExists(s.sessions.Keys);
    var arrive := Arrive(o, 1, key, HoldBody(1, 1));
    var more := [arrive, SetNx(o)];
    RunsOn(tenants, steps, arrive);
    var s1 := Fire(tenants, s, arrive);
    RunsOn(tenants, steps + [arrive], SetNx(o));
    var s2 := Fire(tenants, s1, SetNx(o));
    NewcomerGoesOn(tenants, steps, arrive, SetNx(o));
    assert Executes(s2, o, key) && s2.sessions[o].stage.Handling?;
    if Executing(s, key) {
      var r :| r in s.sessions && s.sessions[r].key == key && Busy(s.sessions[r]);
      assert r != o && Executes(s2, r, key);
    }
    assert Clash(s2, key);
    assert ClashesAfter(tenants, steps, more);
  }

  lemma NewcomerGoesOn(tenants: map<Id, FeePlan>, steps: seq<Step>, first: Step, second: Step)
    requires first.Arrive? && second.SetNx? && After(tenants, steps).Some?
    requires After(tenants, steps + [first]).Some? && After(tenants, steps + [first] + [second]).Some?
    ensures GoesOn(tenants, steps, [first, second])
    ensures steps + [first, second] == steps + [first] + [second]
  {
    assert steps + [first, second] == steps + [first] + [second] && steps + [] == steps;
    assert [first, second][..1] == [first] && [first][..0] == [];
    assert GoesOn(tenants, steps, []);
    assert GoesOn(tenants, steps, [first]);
  }

  /** After a harmless run, one more step makes a clash reachable by harmless steps exactly when it is not harmless. */
  lemma CanClashIff(tenants: map<Id, FeePlan>, steps: seq<Step>, step: Step)
    requires After(tenants, steps).Some? && RunHarmless(tenants, steps) && Enabled(After(tenants, steps).value, step)
    ensures CanClash(tenants, steps + [step]) <==> !Harmless(After(tenants, steps).value, step)
  {
    var s := After(tenants, steps).value;
    ReachableInv(tenants, steps);
    RunsOn(tenants, steps, step);
    StepKeepsRecordsIff(tenants, s, step);
    assert (steps + [step])[..|steps + [step]| - 1] == steps;
    if Harmless(s, step) {
      HarmlessRunsAreSafe(tenants, steps + [step]);
    } else {
      var key :| Exposed(Fire(tenants, s, step), key);
      ExposureClashes(tenants, steps + [step], key);
    }
  }

  /** No clash was ever within reach of harmless steps, neither after the run nor after any of its prefixes. */
  ghost predicate NeverCanClash(tenants: map<Id, FeePlan>, steps: seq<Step>) {
    !CanClash(tenants, steps) && (steps != [] ==> NeverCanClash(tenants, steps[..|steps| - 1]))
  }

  /** Over whole runs: a clash was never within reach if and only if every step was harmless. */
  lemma {:induction false} NeverCanClashIff(tenants: map<Id, FeePlan>, steps: seq<Step>)
    requires After(tenants, steps).Some?
    ensures NeverCanClash(tenants, steps) <==> RunHarmless(tenants, steps)
  {
    if steps == [] {
      HarmlessRunsAreSafe(tenants, steps);
    } else {
      var before, step := steps[..|steps| - 1], steps[|steps| - 1];
      assert before + [step] == steps;
      NeverCanClashIff(tenants, before);
      if RunHarmless(tenants, before) {
        CanClashIff(tenants, before, step);
      }
    }
  }

  // ---------- whose answer it is ----------

  /** A success answer is for the caller's own request: the key's transaction was made for the caller's tenant and body. */
  ghost predicate OwnAnswer(s: Sys, r: nat) {
    r in s.answers && r in s.sessions && s.answers[r].Success? ==>
      var q := s.sessions[r];
      exists op :: op in Commits(s.log, q.key) && op.Do? && op.req == ToRequest(q.tenant, q.body, s.answers[r].txn)
  }

  ghost predicate AllOwn(s: Sys) {
    forall r :: OwnAnswer(s, r)
  }

  /** The guard the interceptor lacks: a GET that replays finds the record of its own tenant's request. */
  predicate Local(s: Sys, step: Step) {
    step.Get? && step.r in s.sessions ==>
      var q := s.sessions[step.r];
      OnGet(s.records, q.key, q.body).Replay? ==>
        forall op :: op in Commits(s.log, q.key) ==> op.Do? && op.req.tenant == q.tenant
  }

  predicate RunLocal(tenants: map<Id, FeePlan>, steps: seq<Step>)
    requires After(tenants, steps).Some?
  {
    steps != [] ==>
      && RunLocal(tenants, steps[..|steps| - 1])
      && Local(After(tenants, steps[..|steps| - 1]).value, steps[|steps| - 1])
  }

  /** With one commit of the key, an answer is own exactly when that commit's tenant is the caller's. */
  lemma OwnIffTenant(s: Sys, r: nat)
    requires Inv(s) && r in s.answers && s.answers[r].Success?
    ensures r in s.sessions && |Commits(s.log, s.sessions[r].key)| == 1 && Commits(s.log, s.sessions[r].key)[0].Do?
    ensures OwnAnswer(s, r) <==> Commits(s.log, s.sessions[r].key)[0].req.tenant == s.sessions[r].tenant
  {
    assert AnswerInv(s, r);
    var q := s.sessions[r];
    var c := Commits(s.log, q.key);
    var t :| c[0].req == ToRequest(t, q.body, s.answers[r].txn);
    assert c[0] in c && forall op :: op in c ==> op == c[0];
  }

  /** Answers given stay as they were, and so do the commits of their keys. */
  lemma AnswerStays(tenants: map<Id, FeePlan>, s: Sys, step: Step, r: nat)
    requires Inv(s) && Enabled(s, step) && Harmless(s, step) && r in s.answers && s.answers[r].Success?
    ensures var s' := Fire(tenants, s, step);
            r in s'.answers && s'.answers[r] == s.answers[r] && (OwnAnswer(s', r) <==> OwnAnswer(s, r))
  {
    var s' := Fire(tenants, s, step);
    assert AnswerInv(s, r);
    StepKeeps(tenants, s, step);
    assert r in s'.answers && s'.answers[r] == s.answers[r];
    assert s'.sessions[r].key == s.sessions[r].key && s'.sessions[r].tenant == s.sessions[r].tenant;
    OwnIffTenant(s, r);
    OwnIffTenant(s', r);
    FirstCommitStays(tenants, s, step, s.sessions[r].key);
  }

  lemma FirstCommitStays(tenants: map<Id, FeePlan>, s: Sys, step: Step, key: Key)
    requires Enabled(s, step) && Commits(s.log, key) != []
    ensures var c := Commits(Fire(tenants, s, step).log, key); c != [] && c[0] == Commits(s.log, key)[0]
  {
    hide Apply, Commits;
    var s' := Fire(tenants, s, step);
    if s'.log != s.log {
      var last := s'.log[|s'.log| - 1];
      assert s'.log == s.log + [last];
      CommitsAppend(s.log, last, key);
    }
  }

  /** A harmless step keeps every answer own exactly when it is local. */
  lemma StepKeepsOwnIff(tenants: map<Id, FeePlan>, s: Sys, step: Step)
    requires Inv(s) && AllOwn(s) && Enabled(s, step) && Harmless(s, step)
    ensures AllOwn(Fire(tenants, s, step)) <==> Local(s, step)
  {
    var s' := Fire(tenants, s, step);
    StepKeeps(tenants, s, step);
    forall r | r in s.answers ensures OwnAnswer(s', r) {
      assert OwnAnswer(s, r);
      if s.answers[r].Success? {
        AnswerStays(tenants, s, step, r);
      } else {
        RejectionStays(tenants, s, step, r);
      }
    }
    if step.Handle? || step.Get? {
      NewAnswerOwnIff(tenants, s, step);
    }
    assert step.Handle? ==> Local(s, step);
    assert forall r :: r in s'.answers && r !in s.answers ==> (step.Handle? || step.Get? || step.Crash?) && r == step.r;
    assert step.Crash? ==> OwnAnswer(s', step.r);
    assert AllOwn(s') <==> forall r :: r in s'.answers && r !in s.answers ==> OwnAnswer(s', r);
  }

  lemma RejectionStays(tenants: map<Id, FeePlan>, s: Sys, step: Step, r: nat)
    requires Inv(s) && Enabled(s, step) && r in s.answers && !s.answers[r].Success?
    ensures r in Fire(tenants, s, step).answers && Fire(tenants, s, step).answers[r] == s.answers[r]
  {
    assert AnswerInv(s, r);
  }

  /** The answer a handler or a GET gives is own exactly when the step is local. */
  lemma NewAnswerOwnIff(tenants: map<Id, FeePlan>, s: Sys, step: Step)
    requires Inv(s) && Enabled(s, step) && Harmless(s, step) && (step.Handle? || step.Get?)
    ensures OwnAnswer(Fire(tenants, s, step), step.r) <==> Local(s, step)
    ensures step.Get? && !Local(s, step) ==> step.r !in s.answers && step.r in Fire(tenants, s, step).answers
  {
    var s' := Fire(tenants, s, step);
    var r := step.r;
    StepKeeps(tenants, s, step);
    assert AnswerInv(s, r);
    if r in s'.answers && s'.answers[r].Success? {
      OwnIffTenant(s', r);
      if step.Handle? {
        GrantedIsOwn(tenants, s, step);
      } else {
        assert s'.log == s.log;
        var c := Commits(s.log, s.sessions[r].key);
        assert c[0] in c && forall op :: op in c ==> op == c[0];
      }
    }
  }

  lemma GrantedIsOwn(tenants: map<Id, FeePlan>, s: Sys, step: Step)
    requires Inv(s) && step.Handle? && Enabled(s, step)
    requires Fire(tenants, s, step).answers[step.r].Success?
    ensures OwnAnswer(Fire(tenants, s, step), step.r)
  {
    hide Apply, Commits, Ledger;
    var q := s.sessions[step.r];
    var op := Do(ToRequest(q.tenant, q.body, step.txn), step.revenue);
    var s' := Fire(tenants, s, step);
    assert s' == Granted(s, step.r, step.txn, op);
    CommitsAppend(s.log, Tagged(Some(q.key), op), q.key);
    var c := Commits(s'.log, q.key);
    assert c[|c| - 1] == op && op in c;
  }

  /** Over whole harmless runs: every success answer is for the caller's own request if and only if every GET that
      replayed found its own tenant's record. */
  lemma {:induction false} AllOwnIff(tenants: map<Id, FeePlan>, steps: seq<Step>)
    requires After(tenants, steps).Some? && RunHarmless(tenants, steps)
    ensures AllOwn(After(tenants, steps).value) <==> RunLocal(tenants, steps)
  {
    if steps != [] {
      var before, step := steps[..|steps| - 1], steps[|steps| - 1];
      var s := After(tenants, before).value;
      AllOwnIff(tenants, before);
      ReachableInv(tenants, before);
      if AllOwn(s) {
        StepKeepsOwnIff(tenants, s, step);
      } else {
        var r :| !OwnAnswer(s, r);
        AnswerStays(tenants, s, step, r);
      }
    }
  }

  /** Keys are not scoped to tenants, so an answer may be for another tenant's request. It cannot be for a key that only
      one tenant uses: every success answer is then for that tenant's own request. */
  lemma AnswersStayInTenant(tenants: map<Id, FeePlan>, steps: seq<Step>, r: nat)
    requires After(tenants, steps).Some? && RunHarmless(tenants, steps)
    requires var s := After(tenants, steps).value;
             && r in s.answers && s.answers[r].Success? && r in s.sessions
             && forall o :: o in s.sessions && s.sessions[o].key == s.sessions[r].key ==> s.sessions[o].tenant == s.sessions[r].tenant
    ensures var s := After(tenants, steps).value; var q := s.sessions[r];
            && |Commits(s.log, q.key)| == 1 && Commits(s.log, q.key)[0].Do?
            && Commits(s.log, q.key)[0].req == ToRequest(q.tenant, q.body, s.answers[r].txn)
  {
    var s := After(tenants, steps).value; var q := s.sessions[r];
    ExactlyOnce(tenants, steps, q.key);
    CommitsAreAttributed(tenants, steps, q.key);
    assert CommittedOnce(s, q.key, q.body, s.answers[r].txn);
    assert Attributed(s, q.key, Commits(s.log, q.key)[0]);
  }

  /** Whenever a GET finds the record gone, the request proceeds without a record; a further new request with the key
      then acquires the lock, and two are executing at once. */
  lemma MissedGetAdmitsTwo(tenants: map<Id, FeePlan>, s: Sys, r: nat, o: nat)
    requires Enabled(s, Get(r)) && !Harmless(s, Get(r)) && Enabled(s, SetNx(o)) && s.sessions[o].key == s.sessions[r].key
    ensures var s1 := Fire(tenants, s, Get(r));
            Enabled(s1, SetNx(o)) && At(Fire(tenants, s1, SetNx(o)), r, Handling) && At(Fire(tenants, s1, SetNx(o)), o, Handling)
  {
  }

  lemma RunsOn(tenants: map<Id, FeePlan>, steps: seq<Step>, step: Step)
    requires After(tenants, steps).Some? && Enabled(After(tenants, steps).value, step)
    ensures After(tenants, steps + [step]) == Some(Fire(tenants, After(tenants, steps).value, step))
  {
    assert (steps + [step])[..|steps + [step]| - 1] == steps;
  }
}

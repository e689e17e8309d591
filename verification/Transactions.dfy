/** A database transaction as a list of statements run one at a time against a private buffer of row versions. */
module Transactions {
  import opened Domain
  import opened AtomicLedger
  import opened Sums

  datatype Statement =
    | Read(guard: Guard)              // findUnique, and throw unless the check passes
    | Insert(rows: map<Id, Account>)  // account.create
    | Lock(id: Id)                    // SELECT ... FOR UPDATE
    | Update(posting: Posting)        // account.update with increments
    | Append(entries: seq<Entry>)     // ledgerEntry.create / createMany
    | Emit(event: Event)              // webhookOutbox.create

  /** What the transaction has written and nobody else sees yet: new versions of whole rows, and rows to append. */
  datatype Work = Work(rows: map<Id, Account>, entries: seq<Entry>, events: seq<Event>)

  function NoWork(): Work { Work(map[], [], []) }

  function Reads(guards: seq<Guard>): seq<Statement> { seq(|guards|, i requires 0 <= i < |guards| => Read(guards[i])) }
  function Locks(ids: seq<Id>): seq<Statement> { seq(|ids|, i requires 0 <= i < |ids| => Lock(ids[i])) }
  function Updates(ps: seq<Posting>): seq<Statement> { seq(|ps|, i requires 0 <= i < |ps| => Update(ps[i])) }

  /** What comes before the rows are locked. */
  function Prologue(script: Script): seq<Statement> {
    Reads(script.before) + if script.inserts == map[] then [] else [Insert(script.inserts)]
  }

  function Epilogue(script: Script): seq<Statement> {
    Reads(script.checks) + (Updates(script.postings) + [Append(script.entries), Emit(script.event)])
  }

  function Program(script: Script): seq<Statement> {
    Prologue(script) + (Locks(script.locks) + Epilogue(script))
  }

  /** One statement. Reads and updates see the committed rows (READ COMMITTED) under the transaction's own versions. */
  function Exec1(accounts: map<Id, Account>, w: Work, st: Statement): Result<Work> {
    var view := accounts + w.rows;
    match st
    case Read(g) => if Passes(view, g.check) then Ok(w) else Err(g.error)
    case Insert(rows) => Ok(w.(rows := w.rows + rows))
    case Lock(_) => Ok(w)
    case Update(p) => if p.id in view then Ok(w.(rows := w.rows[p.id := Adjust(view[p.id], p)])) else Err(SystemError)
    case Append(entries) => Ok(w.(entries := w.entries + entries))
    case Emit(ev) => Ok(w.(events := w.events + [ev]))
  }

  /** The statements in a row, all against the same committed rows. */
  function RunAll(accounts: map<Id, Account>, w: Work, stmts: seq<Statement>): Result<Work>
    decreases |stmts|
  {
    if stmts == [] then Ok(w)
    else match Exec1(accounts, w, stmts[0])
      case Err(e) => Err(e)
      case Ok(w') => RunAll(accounts, w', stmts[1..])
  }

  lemma {:induction false} RunConcat(accounts: map<Id, Account>, w: Work, a: seq<Statement>, b: seq<Statement>)
    ensures RunAll(accounts, w, a + b) ==
            match RunAll(accounts, w, a) case Err(e) => Err(e) case Ok(w') => RunAll(accounts, w', b)
    decreases |a|
  {
    if a == [] {
      assert a + b == b;
    } else {
      assert (a + b)[1..] == a[1..] + b;
      match Exec1(accounts, w, a[0])
      case Err(_) =>
      case Ok(w') => RunConcat(accounts, w', a[1..], b);
    }
  }

  lemma RunOne(accounts: map<Id, Account>, w: Work, st: Statement)
    ensures RunAll(accounts, w, [st]) == Exec1(accounts, w, st)
  {
    assert [st][1..] == [];
  }

  lemma {:induction false} RunReads(accounts: map<Id, Account>, w: Work, guards: seq<Guard>)
    ensures RunAll(accounts, w, Reads(guards)) ==
            match FirstFailure(accounts + w.rows, guards) case None => Ok(w) case Some(e) => Err(e)
  {
    if guards != [] {
      assert Reads(guards)[1..] == Reads(guards[1..]);
      RunReads(accounts, w, guards[1..]);
    }
  }

  lemma {:induction false} RunLocks(accounts: map<Id, Account>, w: Work, ids: seq<Id>)
    ensures RunAll(accounts, w, Locks(ids)) == Ok(w)
  {
    if ids != [] {
      assert Locks(ids)[1..] == Locks(ids[1..]);
      RunLocks(accounts, w, ids[1..]);
    }
  }

  /** Updates one after another on row versions add up to the net posting. */
  lemma {:induction false} RunUpdates(accounts: map<Id, Account>, w: Work, base: map<Id, Account>, done: seq<Posting>, todo: seq<Posting>)
    requires accounts + w.rows == Post(base, done)
    requires forall p :: p in todo ==> p.id in base
    ensures RunAll(accounts, w, Updates(todo)).Ok?
    ensures var w' := RunAll(accounts, w, Updates(todo)).value;
            accounts + w'.rows == Post(base, done + todo) && w'.entries == w.entries && w'.events == w.events
    decreases |todo|
  {
    hide Adjust;
    if todo == [] {
      assert done + todo == done;
    } else {
      var p := todo[0];
      var w' := Exec1(accounts, w, Update(p)).value;
      PostSnoc(base, done, p);
      assert accounts + w'.rows == (accounts + w.rows)[p.id := Adjust((accounts + w.rows)[p.id], p)];
      assert Updates(todo)[1..] == Updates(todo[1..]);
      assert done + [p] + todo[1..] == done + todo;
      RunUpdates(accounts, w', base, done + [p], todo[1..]);
    }
  }

  /** What a script decides on one snapshot of the account table. */
  function Verdict(accounts: map<Id, Account>, script: Script): Option<Error> {
    match FirstFailure(accounts, script.before)
    case Some(e) => Some(e)
    case None => FirstFailure(accounts + script.inserts, script.checks)
  }

  lemma RunPrologue(accounts: map<Id, Account>, script: Script)
    ensures RunAll(accounts, NoWork(), Prologue(script)) ==
            match FirstFailure(accounts, script.before)
            case Some(e) => Err(e)
            case None => Ok(NoWork().(rows := script.inserts))
  {
    var inserts := if script.inserts == map[] then [] else [Insert(script.inserts)];
    assert accounts + map[] == accounts;
    RunConcat(accounts, NoWork(), Reads(script.before), inserts);
    RunReads(accounts, NoWork(), script.before);
    if script.inserts != map[] {
      RunOne(accounts, NoWork(), inserts[0]);
      assert map[] + script.inserts == script.inserts;
    }
  }

  lemma RunEpilogue(accounts: map<Id, Account>, script: Script)
    requires forall p :: p in script.postings ==> p.id in accounts + script.inserts
    ensures var w := NoWork().(rows := script.inserts);
            var r := RunAll(accounts, w, Epilogue(script));
            match FirstFailure(accounts + script.inserts, script.checks)
            case Some(e) => r == Err(e)
            case None => r.Ok? && accounts + r.value.rows == Post(accounts + script.inserts, script.postings)
                         && r.value.entries == script.entries && r.value.events == [script.event]
  {
    hide Post, FirstFailure;
    var w := NoWork().(rows := script.inserts);
    var last := [Append(script.entries), Emit(script.event)];
    RunConcat(accounts, w, Reads(script.checks), Updates(script.postings) + last);
    RunReads(accounts, w, script.checks);
    PostNothing(accounts + script.inserts);
    RunUpdates(accounts, w, accounts + script.inserts, [], script.postings);
    assert [] + script.postings == script.postings;
    RunConcat(accounts, w, Updates(script.postings), last);
    var w' := RunAll(accounts, w, Updates(script.postings)).value;
    assert last == [last[0]] + [last[1]];
    RunConcat(accounts, w', [last[0]], [last[1]]);
    RunOne(accounts, w', last[0]);
    RunOne(accounts, w'.(entries := w'.entries + script.entries), last[1]);
  }

  /** Run without interruption, the program of a script does what the atomic operation does: the same error, or the
      same rows. */
  lemma ProgramMeans(accounts: map<Id, Account>, script: Script)
    requires Verdict(accounts, script).None? ==> forall p :: p in script.postings ==> p.id in accounts + script.inserts
    ensures var r := RunAll(accounts, NoWork(), Program(script));
            match Verdict(accounts, script)
            case Some(e) => r == Err(e)
            case None => r.Ok? && accounts + r.value.rows == Post(accounts + script.inserts, script.postings)
                         && r.value.entries == script.entries && r.value.events == [script.event]
  {
    var w := NoWork().(rows := script.inserts);
    RunConcat(accounts, NoWork(), Prologue(script), Locks(script.locks) + Epilogue(script));
    RunPrologue(accounts, script);
    RunConcat(accounts, w, Locks(script.locks), Epilogue(script));
    RunLocks(accounts, w, script.locks);
    if Verdict(accounts, script).None? {
      RunEpilogue(accounts, script);
    } else {
      RunConcat(accounts, w, Reads(script.checks), Updates(script.postings) + [Append(script.entries), Emit(script.event)]);
      RunReads(accounts, w, script.checks);
    }
  }
}

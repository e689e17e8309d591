/** The two limiters an attempted transfer passes before any row is locked: the security check and the risk rules. */
module Limiters {
  import opened Domain
  import opened Velocity

  const MAX_TRANSFERS: nat := 5
  const VELOCITY_LIMIT: nat := 10
  const HIGH_VALUE_THRESHOLD: int := 10000 * 100   // cents

  // ---------- the shared store ----------

  datatype Key = SecurityKey(account: Id) | RiskKey(account: Id)

  class Redis {
    var windows: map<Key, Window>

    constructor ()
      ensures windows == map[]
    {
      windows := map[];
    }

    function At(key: Key): Window
      reads this
    {
      if key in windows then windows[key] else EMPTY
    }

    /** ZREMRANGEBYSCORE, ZCARD, ZADD and EXPIRE in one pipeline; `lapsed` says whether the key had expired. */
    method LogAttempt(key: Key, now: Time, lapsed: bool) returns (count: nat)
      modifies this
      ensures windows == old(windows)[key := Visited(old(At(key)), now, lapsed)]
      ensures count == |Counted(old(At(key)), now, lapsed)|
    {
      var w := At(key);
      if lapsed { w := EMPTY; }
      w := w.(members := Recent(w.members, now));
      count := |w.members|;
      w := w.(members := w.members + [now]);
      w := w.(expiresAt := now + WINDOW);
      windows := windows[key := w];
    }
  }

  class SecurityService {
    const redis: Redis

    constructor (redis: Redis)
      ensures this.redis == redis
    {
      this.redis := redis;
    }

    /** Refuses when the last minute already saw five attempts. Every attempt is logged, refused or not. `times` is the
        history of the sender's attempts, which the set keeps tracking. */
    method EnforceTransferVelocity(sender: Id, now: Time, lapsed: bool, ghost times: seq<Time>) returns (allowed: bool)
      modifies redis
      ensures var w := old(redis.At(SecurityKey(sender)));
              Tracks(w, times) && UpTo(times, now) && (lapsed ==> now >= w.expiresAt) ==>
                && (allowed <==> |set i: nat | i < |times| && times[i] > now - 60000| < 5)
                && Tracks(redis.At(SecurityKey(sender)), times + [now])
      ensures var key := SecurityKey(sender);
              && redis.windows == old(redis.windows)[key := Visited(old(redis.At(key)), now, lapsed)]
              && (allowed <==> |Counted(old(redis.At(key)), now, lapsed)| < MAX_TRANSFERS)
    {
      ghost var w := redis.At(SecurityKey(sender));
      if Tracks(w, times) && UpTo(times, now) && (lapsed ==> now >= w.expiresAt) {
        VisitTracks(w, times, now, lapsed);
        RecentIsLastMinute(times, now);
      }
      var count := redis.LogAttempt(SecurityKey(sender), now, lapsed);
      if count >= MAX_TRANSFERS { return false; }
      allowed := true;
    }
  }

  // ---------- risk rules ----------

  datatype Severity = High | Critical

  datatype Reason = VelocityExceeded(count: nat) | HighValue(amount: int)

  datatype Flag = Flag(tenant: Id, account: Id, reason: Reason, severity: Severity)

  datatype Evaluation = Evaluation(allowed: bool, blocked: bool, flags: seq<Flag>, reasons: seq<Reason>)

  function SeverityOf(reason: Reason): Severity {
    if reason.VelocityExceeded? then Critical else High
  }

  /** Whether a reason applies to a transfer. */
  predicate Applies(reason: Reason, count: nat, amount: int) {
    match reason
    case VelocityExceeded(n) => n == count && count > VELOCITY_LIMIT
    case HighValue(a) => a == amount && amount > HIGH_VALUE_THRESHOLD
  }

  /** The flags whose insertion succeeds, in order. */
  function Kept(flags: seq<Flag>, stores: set<Severity>): seq<Flag> {
    if flags == [] then []
    else
      var last := flags[|flags| - 1];
      Kept(flags[..|flags| - 1], stores) + (if last.severity in stores then [last] else [])
  }

  /** The rules in figures: more than ten attempts are critical and block, more than 10,000 dollars is high; every reason
      raises one flag, and those that can be stored are returned. */
  ghost predicate Evaluates(r: Evaluation, tenant: Id, account: Id, amount: int, count: nat, stores: set<Severity>) {
    && (r.blocked <==> count > 10)
    && (forall n :: VelocityExceeded(n) in r.reasons <==> n == count && count > 10)
    && (forall a :: HighValue(a) in r.reasons <==> a == amount && amount > 10000 * 100)
    && (forall f: Flag :: f in r.flags <==>
          && f.tenant == tenant && f.account == account && f.reason in r.reasons && f.severity in stores
          && f.severity == if f.reason.VelocityExceeded? then Critical else High)
  }

  class RiskService {
    const redis: Redis
    var flags: seq<Flag>

    constructor (redis: Redis)
      ensures this.redis == redis && flags == []
    {
      this.redis := redis;
      flags := [];
    }

    /** The reasons given are exactly those that apply, velocity first; only velocity blocks; a flag that cannot be
        stored changes nothing but the list of flags. `stores` says for which severities the insertion succeeds. */
    method EvaluateTransaction(tenant: Id, account: Id, amount: int, now: Time, lapsed: bool, stores: set<Severity>)
      returns (r: Evaluation)
      requires this as object != redis
      modifies this`flags, redis
      ensures var key := RiskKey(account);
              var count := |Counted(old(redis.At(key)), now, lapsed)|;
              && redis.windows == old(redis.windows)[key := Visited(old(redis.At(key)), now, lapsed)]
              && r.blocked == (count > VELOCITY_LIMIT) && r.allowed == !r.blocked
              && (forall reason :: reason in r.reasons <==> Applies(reason, count, amount))
              && |r.reasons| <= 2 && (|r.reasons| == 2 ==> r.reasons[0].VelocityExceeded? && r.reasons[1].HighValue?)
              && r.flags == Kept(FlagsFor(tenant, account, r.reasons), stores)
      ensures flags == old(flags) + r.flags
      ensures Evaluates(r, tenant, account, amount, |Counted(old(redis.At(RiskKey(account))), now, lapsed)|, stores)
    {
      var reasons: seq<Reason> := [];
      var flagsToCreate: seq<Flag> := [];
      var isBlocked := false;

      var velocityCount := redis.LogAttempt(RiskKey(account), now, lapsed);
      if velocityCount > VELOCITY_LIMIT {
        var reason := VelocityExceeded(velocityCount);
        reasons := reasons + [reason];
        flagsToCreate := flagsToCreate + [Flag(tenant, account, reason, Critical)];
        isBlocked := true;
      }
      if amount > HIGH_VALUE_THRESHOLD {
        var reason := HighValue(amount);
        reasons := reasons + [reason];
        flagsToCreate := flagsToCreate + [Flag(tenant, account, reason, High)];
      }
      assert flagsToCreate == FlagsFor(tenant, account, reasons);

      var createdFlags := PersistFlags(flagsToCreate, stores);
      KeptAre(flagsToCreate, stores);
      FlagsAre(tenant, account, reasons);
      r := Evaluation(!isBlocked, isBlocked, createdFlags, reasons);
    }

    /** The loop over the flags to create: an insertion that fails is skipped. */
    method PersistFlags(flagsToCreate: seq<Flag>, stores: set<Severity>) returns (createdFlags: seq<Flag>)
      modifies this`flags
      ensures createdFlags == Kept(flagsToCreate, stores)
      ensures flags == old(flags) + createdFlags
    {
      createdFlags := [];
      var i := 0;
      while i < |flagsToCreate|
        invariant 0 <= i <= |flagsToCreate|
        invariant createdFlags == Kept(flagsToCreate[..i], stores)
        invariant flags == old(flags) + createdFlags
      {
        assert flagsToCreate[..i + 1][..i] == flagsToCreate[..i];
        if flagsToCreate[i].severity in stores {
          flags := flags + [flagsToCreate[i]];
          createdFlags := createdFlags + [flagsToCreate[i]];
        }
        i := i + 1;
      }
      assert flagsToCreate[..i] == flagsToCreate;
    }
  }

  lemma {:induction false} KeptAre(flags: seq<Flag>, stores: set<Severity>)
    ensures forall f: Flag :: f in Kept(flags, stores) <==> f in flags && f.severity in stores
  {
    if flags != [] {
      var n := |flags| - 1;
      KeptAre(flags[..n], stores);
      assert flags == flags[..n] + [flags[n]];
    }
  }

  lemma FlagsAre(tenant: Id, account: Id, reasons: seq<Reason>)
    ensures forall f: Flag :: f in FlagsFor(tenant, account, reasons) <==>
                        && f.tenant == tenant && f.account == account && f.reason in reasons
                        && f.severity == if f.reason.VelocityExceeded? then Critical else High
  {
    forall f: Flag | f.tenant == tenant && f.account == account && f.reason in reasons
               && f.severity == (if f.reason.VelocityExceeded? then Critical else High)
      ensures f in FlagsFor(tenant, account, reasons)
    {
      var i :| 0 <= i < |reasons| && reasons[i] == f.reason;
      assert FlagsFor(tenant, account, reasons)[i] == f;
    }
  }

  function FlagsFor(tenant: Id, account: Id, reasons: seq<Reason>): seq<Flag> {
    seq(|reasons|, i requires 0 <= i < |reasons| => Flag(tenant, account, reasons[i], SeverityOf(reasons[i])))
  }

  // ---------- the limiters in a row ----------

  /** The two windows of one account. */
  datatype Gate = Gate(security: Window, risk: Window)

  /** An attempted transfer, and which of the two keys it found expired. */
  datatype Knock = Knock(at: Time, securityLapsed: bool, riskLapsed: bool)

  /** The security check lets the attempt through to the risk rules. */
  predicate PassesSecurity(g: Gate, k: Knock) {
    |Counted(g.security, k.at, k.securityLapsed)| < MAX_TRANSFERS
  }

  function AfterKnock(g: Gate, k: Knock): Gate {
    Gate(
      Visited(g.security, k.at, k.securityLapsed),
      if PassesSecurity(g, k) then Visited(g.risk, k.at, k.riskLapsed) else g.risk)
  }

  function AfterKnocks(run: seq<Knock>): Gate {
    if run == [] then Gate(EMPTY, EMPTY) else AfterKnock(AfterKnocks(run[..|run| - 1]), run[|run| - 1])
  }

  /** Time does not run backwards and no key expires early. */
  predicate PossibleKnock(g: Gate, times: seq<Time>, k: Knock) {
    && UpTo(times, k.at)
    && (k.securityLapsed ==> k.at >= g.security.expiresAt)
    && (k.riskLapsed ==> k.at >= g.risk.expiresAt)
  }

  function KnockTimes(run: seq<Knock>): seq<Time> {
    seq(|run|, i requires 0 <= i < |run| => run[i].at)
  }

  predicate PossibleKnocks(run: seq<Knock>) {
    run == [] ||
    var before := run[..|run| - 1];
    PossibleKnocks(before) && PossibleKnock(AfterKnocks(before), KnockTimes(before), run[|run| - 1])
  }

  /** The security window tracks every attempt, the risk window those that the security check admitted. */
  ghost predicate GateTracks(g: Gate, times: seq<Time>) {
    Tracks(g.security, times) && Tracks(g.risk, Admitted(times, MAX_TRANSFERS))
  }

  lemma {:induction false} AdmittedUpTo(times: seq<Time>, limit: nat, now: Time)
    requires UpTo(times, now)
    ensures UpTo(Admitted(times, limit), now)
    ensures |Recent(Admitted(times, limit), now)| <= |Recent(times, now)|
  {
    if times != [] {
      var rest, last := times[..|times| - 1], times[|times| - 1];
      AdmittedUpTo(rest, limit, now);
      if |Recent(rest, last)| < limit {
        RecentSnoc(Admitted(rest, limit), last, now);
      } else {
        assert Admitted(times, limit) == Admitted(rest, limit);
      }
    }
  }

  /** One attempt: behind the security check the risk window counts at most four, so its velocity rule stays silent. */
  lemma KnockTracks(g: Gate, times: seq<Time>, k: Knock)
    requires GateTracks(g, times) && PossibleKnock(g, times, k)
    ensures GateTracks(AfterKnock(g, k), times + [k.at])
    ensures PassesSecurity(g, k) <==> |Recent(times, k.at)| < MAX_TRANSFERS
    ensures PassesSecurity(g, k) ==> |Counted(g.risk, k.at, k.riskLapsed)| < MAX_TRANSFERS <= VELOCITY_LIMIT
  {
    VisitTracks(g.security, times, k.at, k.securityLapsed);
    AdmittedUpTo(times, MAX_TRANSFERS, k.at);
    VisitTracks(g.risk, Admitted(times, MAX_TRANSFERS), k.at, k.riskLapsed);
    assert (times + [k.at])[..|times|] == times;
    assert !PassesSecurity(g, k) ==> Admitted(times + [k.at], MAX_TRANSFERS) == Admitted(times, MAX_TRANSFERS);
  }

  lemma {:induction false} KnocksTrack(run: seq<Knock>)
    requires PossibleKnocks(run)
    ensures GateTracks(AfterKnocks(run), KnockTimes(run))
  {
    hide AfterKnock, PossibleKnock, Tracks, Admitted;
    if run == [] {
      NothingTracked();
      assert KnockTimes(run) == [];
    } else {
      var before, last := run[..|run| - 1], run[|run| - 1];
      KnocksTrack(before);
      LastKnock(run);
      KnockTracks(AfterKnocks(before), KnockTimes(before), last);
    }
  }

  lemma NothingTracked()
    ensures GateTracks(Gate(EMPTY, EMPTY), [])
  {
  }

  lemma LastKnock(run: seq<Knock>)
    requires run != []
    ensures var before, last := run[..|run| - 1], run[|run| - 1];
            AfterKnocks(run) == AfterKnock(AfterKnocks(before), last) && KnockTimes(run) == KnockTimes(before) + [last.at]
  {
    hide AfterKnock;
  }

  /** After every run, an attempt that the security check lets through finds at most four others in the risk window,
      so the velocity rule of the risk engine never blocks. */
  lemma RiskVelocityNeverBlocks(run: seq<Knock>, k: Knock)
    requires PossibleKnocks(run) && PossibleKnock(AfterKnocks(run), KnockTimes(run), k)
    ensures PassesSecurity(AfterKnocks(run), k) ==> |Counted(AfterKnocks(run).risk, k.at, k.riskLapsed)| <= 4
  {
    KnocksTrack(run);
    KnockTracks(AfterKnocks(run), KnockTimes(run), k);
  }

  /** On its own the risk rule, which blocks above ten, lets at most eleven attempts through in any minute; the
      security check at most five. */
  lemma MinuteQuotas(run: seq<Visit>, end: Time)
    requires Possible(run)
    ensures var admitted := AdmittedBy(run, VELOCITY_LIMIT + 1);
            |set i: nat | i < |admitted| && end - 60000 < admitted[i] <= end| <= 11
    ensures var admitted := AdmittedBy(run, MAX_TRANSFERS);
            |set i: nat | i < |admitted| && end - 60000 < admitted[i] <= end| <= 5
  {
    LimitsAreKept(run, VELOCITY_LIMIT + 1, end);
    LimitsAreKept(run, MAX_TRANSFERS, end);
  }

  datatype Admission = Admit | TooManyRequests | Blocked(reasons: seq<Reason>)

  class TransferGate {
    const redis: Redis
    const security: SecurityService
    const risk: RiskService

    constructor (redis: Redis, security: SecurityService, risk: RiskService)
      ensures this.redis == redis && this.security == security && this.risk == risk
    {
      this.redis, this.security, this.risk := redis, security, risk;
    }

    predicate Wired() {
      security.redis == redis && risk.redis == redis
    }

    function GateOf(account: Id): Gate
      reads redis
    {
      Gate(redis.At(SecurityKey(account)), redis.At(RiskKey(account)))
    }

    /** The checks before the database transaction. They change no window but the sender's two. `times` is the
        history of the sender's attempts: while the windows track it, the risk rules never refuse. */
    method AdmitTransfer(tenant: Id, sender: Id, amount: int, k: Knock, stores: set<Severity>, ghost times: seq<Time>)
      returns (r: Admission)
      requires Wired()
      modifies redis, risk`flags
      ensures GateOf(sender) == AfterKnock(old(GateOf(sender)), k)
      ensures forall other: Id | other != sender :: GateOf(other) == old(GateOf(other))
      ensures r.TooManyRequests? <==> !PassesSecurity(old(GateOf(sender)), k)
      ensures r.Blocked? <==>
                && PassesSecurity(old(GateOf(sender)), k)
                && |Counted(old(GateOf(sender)).risk, k.at, k.riskLapsed)| > VELOCITY_LIMIT
      ensures r.TooManyRequests? ==> risk.flags == old(risk.flags)
      ensures GateTracks(old(GateOf(sender)), times) && PossibleKnock(old(GateOf(sender)), times, k) ==>
                && GateTracks(GateOf(sender), times + [k.at])
                && !r.Blocked?
                && (r.Admit? <==> |Recent(times, k.at)| < 5)
    {
      hide Evaluates;
      ghost var g := GateOf(sender);
      if GateTracks(g, times) && PossibleKnock(g, times, k) {
        KnockTracks(g, times, k);
      }
      var allowed := security.EnforceTransferVelocity(sender, k.at, k.securityLapsed, times);
      if !allowed { return TooManyRequests; }
      var verdict := risk.EvaluateTransaction(tenant, sender, amount, k.at, k.riskLapsed, stores);
      if verdict.blocked { return Blocked(verdict.reasons); }
      r := Admit;
    }
  }
}

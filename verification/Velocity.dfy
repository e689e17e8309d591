/** The sliding windows that limit how often an account may initiate transfers. */
module Velocity {

  /** Milliseconds. */
  type Time = nat

  const WINDOW: int := 60 * 1000

  /** The attempts later than one window before `now`, filtered from a whole history. */
  function Recent(times: seq<Time>, now: Time): seq<Time> {
    if times == [] then []
    else
      var rest, last := times[..|times| - 1], times[|times| - 1];
      Recent(rest, now) + (if last > now - WINDOW then [last] else [])
  }

  /** No attempt lies after `now`. */
  predicate UpTo(times: seq<Time>, now: Time) {
    forall i :: 0 <= i < |times| ==> times[i] <= now
  }

  predicate NonDecreasing(times: seq<Time>) {
    forall i, j :: 0 <= i <= j < |times| ==> times[i] <= times[j]
  }

  lemma RecentSnoc(times: seq<Time>, t: Time, now: Time)
    ensures Recent(times + [t], now) == Recent(times, now) + (if t > now - WINDOW then [t] else [])
  {
    assert (times + [t])[..|times + [t]| - 1] == times;
  }

  /** Trimming twice is trimming once, at the later time. */
  lemma {:induction false} TrimTwice(times: seq<Time>, now: Time, later: Time)
    requires now <= later
    ensures Recent(Recent(times, now), later) == Recent(times, later)
  {
    if times != [] {
      var rest, last := times[..|times| - 1], times[|times| - 1];
      TrimTwice(rest, now, later);
      if last > now - WINDOW {
        RecentSnoc(Recent(rest, now), last, later);
      } else {
        assert Recent(times, now) == Recent(rest, now);
      }
    }
  }

  /** The recent attempts are those of the last sixty seconds. */
  lemma {:induction false} RecentIsLastMinute(times: seq<Time>, now: Time)
    ensures |Recent(times, now)| == |set i: nat | i < |times| && times[i] > now - 60000|
  {
    var after := set i: nat | i < |times| && times[i] > now - 60000;
    if times == [] {
      assert after == {};
    } else {
      var n := |times| - 1;
      var rest := times[..n];
      RecentIsLastMinute(rest, now);
      var before := set i: nat | i < |rest| && rest[i] > now - 60000;
      assert after == before + (if times[n] > now - 60000 then {n} else {});
    }
  }

  // ---------- one sorted set ----------

  /** The scores of a sorted set, in order, and the time from which the key may have expired. */
  datatype Window = Window(members: seq<Time>, expiresAt: Time)

  const EMPTY := Window([], 0)

  /** The members an attempt finds: none when the key has expired, otherwise all that are left after trimming. */
  function Counted(w: Window, now: Time, lapsed: bool): seq<Time> {
    Recent(if lapsed then [] else w.members, now)
  }

  /** The set after an attempt. */
  function Visited(w: Window, now: Time, lapsed: bool): Window {
    Window(Counted(w, now, lapsed) + [now], now + WINDOW)
  }

  /** The set answers every later count as the whole history of attempts does. */
  ghost predicate Tracks(w: Window, times: seq<Time>) {
    && (forall now: Time :: UpTo(times, now) ==> Recent(w.members, now) == Recent(times, now))
    && (forall i :: 0 <= i < |w.members| ==> w.members[i] + WINDOW <= w.expiresAt)
  }

  /** Once the key may expire, none of its members is recent. */
  lemma {:induction false} LapsedIsEmpty(members: seq<Time>, expiresAt: Time, now: Time)
    requires forall i :: 0 <= i < |members| ==> members[i] + WINDOW <= expiresAt
    requires now >= expiresAt
    ensures Recent(members, now) == []
  {
    if members != [] {
      LapsedIsEmpty(members[..|members| - 1], expiresAt, now);
    }
  }

  lemma {:induction false} RecentMembers(times: seq<Time>, now: Time)
    ensures forall i :: 0 <= i < |Recent(times, now)| ==> Recent(times, now)[i] in times
  {
    if times != [] {
      RecentMembers(times[..|times| - 1], now);
    }
  }

  /** One attempt counts exactly the recent history, expired key or not, and leaves a set that still tracks it. */
  lemma VisitTracks(w: Window, times: seq<Time>, now: Time, lapsed: bool)
    requires Tracks(w, times) && UpTo(times, now) && (lapsed ==> now >= w.expiresAt)
    ensures Counted(w, now, lapsed) == Recent(times, now)
    ensures Tracks(Visited(w, now, lapsed), times + [now])
  {
    if lapsed {
      LapsedIsEmpty(w.members, w.expiresAt, now);
    }
    var w' := Visited(w, now, lapsed);
    forall later: Time | UpTo(times + [now], later) ensures Recent(w'.members, later) == Recent(times + [now], later) {
      assert (times + [now])[|times|] <= later;
      RecentSnoc(Recent(times, now), now, later);
      RecentSnoc(times, now, later);
      TrimTwice(times, now, later);
    }
    RecentMembers(times, now);
    assert forall i :: 0 <= i < |w'.members| ==> w'.members[i] <= now;
  }

  /** An attempt, and whether it found the key expired. */
  datatype Visit = Visit(at: Time, lapsed: bool)

  function Times(run: seq<Visit>): (times: seq<Time>)
    ensures |times| == |run| && forall i :: 0 <= i < |run| ==> times[i] == run[i].at
  {
    seq(|run|, i requires 0 <= i < |run| => run[i].at)
  }

  function AfterVisits(run: seq<Visit>): Window {
    if run == [] then EMPTY
    else var last := run[|run| - 1]; Visited(AfterVisits(run[..|run| - 1]), last.at, last.lapsed)
  }

  /** Time does not run backwards, and a key expires only once its time has come. */
  predicate Possible(run: seq<Visit>) {
    && NonDecreasing(Times(run))
    && (forall i :: 0 <= i < |run| && run[i].lapsed ==> run[i].at >= AfterVisits(run[..i]).expiresAt)
  }

  lemma {:induction false} RunTracks(run: seq<Visit>)
    requires Possible(run)
    ensures Tracks(AfterVisits(run), Times(run))
  {
    if run != [] {
      var before, last := run[..|run| - 1], run[|run| - 1];
      forall i | 0 <= i < |before| ensures run[..i] == before[..i] {
      }
      forall i, j | 0 <= i <= j < |before| ensures Times(before)[i] <= Times(before)[j] {
        assert Times(run)[i] <= Times(run)[j];
      }
      RunTracks(before);
      assert UpTo(Times(before), last.at) by {
        forall i | 0 <= i < |before| ensures Times(before)[i] <= last.at {
          assert Times(run)[i] <= Times(run)[|before|];
        }
      }
      VisitTracks(AfterVisits(before), Times(before), last.at, last.lapsed);
      assert Times(run) == Times(before) + [last.at];
    }
  }

  lemma CountsTheHistory(run: seq<Visit>, i: nat)
    requires Possible(run) && i < |run|
    ensures Counted(AfterVisits(run[..i]), run[i].at, run[i].lapsed) == Recent(Times(run)[..i], run[i].at)
  {
    var before := run[..i];
    forall j | 0 <= j < i ensures run[..j] == before[..j] {
    }
    assert Times(before) == Times(run)[..i];
    assert Possible(before);
    RunTracks(before);
    VisitTracks(AfterVisits(before), Times(before), run[i].at, run[i].lapsed);
  }

  /** On every run, the trimmed and expiring set gives each attempt the count that the whole history would give it. */
  lemma CountsAreExact(run: seq<Visit>, i: nat)
    requires Possible(run) && i < |run|
    ensures |Counted(AfterVisits(run[..i]), run[i].at, run[i].lapsed)| ==
            |set j: nat | j < i && run[j].at > run[i].at - 60000|
  {
    hide Possible, AfterVisits, Counted, Recent;
    CountsTheHistory(run, i);
    var times := Times(run)[..i];
    RecentIsLastMinute(times, run[i].at);
    assert (set j: nat | j < i && run[j].at > run[i].at - 60000) == set j: nat | j < |times| && times[j] > run[i].at - 60000;
  }

  /** Expiry cannot be observed: two runs with the same times count the same, whichever keys had expired. */
  lemma ExpiryIsUnobservable(run: seq<Visit>, other: seq<Visit>, i: nat)
    requires Possible(run) && Possible(other) && Times(run) == Times(other) && i < |run|
    ensures Counted(AfterVisits(run[..i]), run[i].at, run[i].lapsed) == Counted(AfterVisits(other[..i]), other[i].at, other[i].lapsed)
  {
    assert |other| == |Times(run)| && other[i].at == Times(run)[i];
    CountsTheHistory(run, i);
    CountsTheHistory(other, i);
  }

  // ---------- how many attempts a window admits ----------

  /** The attempts let through by a limiter that logs every attempt and admits one that finds fewer than `limit`. */
  function Admitted(times: seq<Time>, limit: nat): seq<Time> {
    if times == [] then []
    else
      var rest, last := times[..|times| - 1], times[|times| - 1];
      Admitted(rest, limit) + (if |Recent(rest, last)| < limit then [last] else [])
  }

  /** How many of the times lie between two moments, both included. */
  function Count(times: seq<Time>, first: int, last: int): nat {
    if times == [] then 0
    else
      var t := times[|times| - 1];
      Count(times[..|times| - 1], first, last) + (if first <= t <= last then 1 else 0)
  }

  /** The number of times in the minute that ends with `end`, open at its start. */
  function Within(times: seq<Time>, end: Time): nat {
    Count(times, end - WINDOW + 1, end)
  }

  lemma {:induction false} CountIsSize(times: seq<Time>, first: int, last: int)
    ensures Count(times, first, last) == |set i: nat | i < |times| && first <= times[i] <= last|
  {
    var after := set i: nat | i < |times| && first <= times[i] <= last;
    if times == [] {
      assert after == {};
    } else {
      var n := |times| - 1;
      var rest := times[..n];
      CountIsSize(rest, first, last);
      var before := set i: nat | i < |rest| && first <= rest[i] <= last;
      SizeNext(before, after, n, first <= times[n] <= last);
    }
  }

  lemma SizeNext(before: set<nat>, after: set<nat>, n: nat, more: bool)
    requires forall i: nat :: i in after <==> i in before || (i == n && more)
    requires n !in before
    ensures |after| == |before| + if more then 1 else 0
  {
    assert after == before + (if more then {n} else {});
  }

  /** The window that ends with `end` holds the times of the last sixty seconds up to it. */
  lemma WithinIsInMinute(times: seq<Time>, end: Time)
    ensures Within(times, end) == |set i: nat | i < |times| && end - 60000 < times[i] <= end|
  {
    hide Count;
    CountIsSize(times, end - WINDOW + 1, end);
    assert (set i: nat | i < |times| && end - 60000 < times[i] <= end)
        == set i: nat | i < |times| && end - WINDOW + 1 <= times[i] <= end;
  }

  lemma CountSnoc(times: seq<Time>, t: Time, first: int, last: int)
    ensures Count(times + [t], first, last) == Count(times, first, last) + (if first <= t <= last then 1 else 0)
  {
    assert (times + [t])[..|times + [t]| - 1] == times;
  }

  /** What was admitted in a window is among what was attempted since any earlier start. */
  lemma {:induction false} AdmittedAreRecent(times: seq<Time>, limit: nat, now: Time, end: Time)
    requires now <= end
    ensures Within(Admitted(times, limit), end) <= |Recent(times, now)|
  {
    if times != [] {
      var rest, last := times[..|times| - 1], times[|times| - 1];
      AdmittedAreRecent(rest, limit, now, end);
      if |Recent(rest, last)| < limit {
        CountSnoc(Admitted(rest, limit), last, end - WINDOW + 1, end);
      } else {
        assert Admitted(times, limit) == Admitted(rest, limit);
      }
    }
  }

  /** Every window of one minute, open at its start, holds at most `limit` admitted attempts. */
  lemma {:induction false} AdmissionsAreBounded(times: seq<Time>, limit: nat, end: Time)
    requires NonDecreasing(times)
    ensures Within(Admitted(times, limit), end) <= limit
  {
    if times != [] {
      var rest, last := times[..|times| - 1], times[|times| - 1];
      AdmissionsAreBounded(rest, limit, end);
      if |Recent(rest, last)| < limit {
        CountSnoc(Admitted(rest, limit), last, end - WINDOW + 1, end);
        if last <= end {
          AdmittedAreRecent(rest, limit, last, end);
        }
      } else {
        assert Admitted(times, limit) == Admitted(rest, limit);
      }
    }
  }

  // ---------- minutes closed at both ends ----------

  lemma {:induction false} CountSplit(times: seq<Time>, first: int, middle: int, last: int)
    requires first <= middle + 1 <= last + 1
    ensures Count(times, first, last) == Count(times, first, middle) + Count(times, middle + 1, last)
  {
    if times != [] {
      CountSplit(times[..|times| - 1], first, middle, last);
    }
  }

  /** What an attempt finds is what was attempted in the minute that ends with it. */
  lemma {:induction false} RecentIsWithin(times: seq<Time>, now: Time)
    requires UpTo(times, now)
    ensures |Recent(times, now)| == Within(times, now)
  {
    if times != [] {
      RecentIsWithin(times[..|times| - 1], now);
    }
  }

  lemma {:induction false} NoneAfter(times: seq<Time>, now: Time, first: int, last: int)
    requires UpTo(times, now) && now < first
    ensures Count(times, first, last) == 0
  {
    if times != [] {
      NoneAfter(times[..|times| - 1], now, first, last);
    }
  }

  lemma CountLast(times: seq<Time>, first: int, last: int)
    requires times != []
    ensures var t := times[|times| - 1];
            Count(times, first, last) == Count(times[..|times| - 1], first, last) + (if first <= t <= last then 1 else 0)
  {
  }

  /** Whether the last attempt adds to the admitted ones of a moment. */
  lemma AdmittedLast(times: seq<Time>, limit: nat, now: Time)
    requires times != []
    ensures var rest, t := times[..|times| - 1], times[|times| - 1];
            Count(Admitted(times, limit), now, now) ==
            Count(Admitted(rest, limit), now, now) + (if |Recent(rest, t)| < limit && t == now then 1 else 0)
  {
    hide Recent;
    var rest, t := times[..|times| - 1], times[|times| - 1];
    if |Recent(rest, t)| < limit {
      CountSnoc(Admitted(rest, limit), t, now, now);
    } else {
      assert Admitted(times, limit) == Admitted(rest, limit);
    }
  }

  /** The attempts of one moment that are admitted: as many as the minute before that moment leaves room for. */
  lemma {:induction false} AdmittedAt(times: seq<Time>, limit: nat, now: Time)
    requires NonDecreasing(times)
    ensures AdmittedFill(times, limit, now)
  {
    if times != [] {
      AdmittedAt(times[..|times| - 1], limit, now);
      FillNext(times, limit, now);
    }
  }

  predicate AdmittedFill(times: seq<Time>, limit: nat, now: Time) {
    var room := limit - Count(times, now - WINDOW + 1, now - 1);
    Count(Admitted(times, limit), now, now) == Least(Count(times, now, now), if room < 0 then 0 else room)
  }

  lemma FillNext(times: seq<Time>, limit: nat, now: Time)
    requires times != [] && NonDecreasing(times) && AdmittedFill(times[..|times| - 1], limit, now)
    ensures AdmittedFill(times, limit, now)
  {
    hide Recent, Count, Admitted;
    var rest, last := times[..|times| - 1], times[|times| - 1];
    assert UpTo(rest, last);
    hide NonDecreasing, UpTo;
    AdmittedLast(times, limit, now);
    CountLast(times, now, now);
    CountLast(times, now - WINDOW + 1, now - 1);
    if last == now {
      RecentIsWithin(rest, now);
      CountSplit(rest, now - WINDOW + 1, now - 1, now);
    } else if last < now {
      NoneAfter(rest, last, now, now);
    }
  }

  function Least(x: nat, y: nat): nat {
    if x <= y then x else y
  }

  /** The last instant of a closed minute is admitted on top of the rest of it. The minute never holds more than twice
      the limit, and it exceeds the limit exactly when more attempts were admitted before its last instant than were
      made after its first one, and these and the attempts of the last instant together are too many. */
  lemma ClosedMinuteExceedsIff(times: seq<Time>, limit: nat, end: Time)
    requires NonDecreasing(times) && end >= WINDOW
    ensures var admitted := Admitted(times, limit);
            var earlier := Count(admitted, end - WINDOW, end - 1);
            && earlier <= limit
            && Count(admitted, end - WINDOW, end) <= 2 * limit
            && (Count(admitted, end - WINDOW, end) > limit <==>
                  && earlier > Count(times, end - WINDOW + 1, end - 1)
                  && earlier + Count(times, end, end) > limit)
  {
    AdmissionsAreBounded(times, limit, end - 1);
    CountSplit(Admitted(times, limit), end - WINDOW, end - 1, end);
    AdmittedAt(times, limit, end);
  }

  /** Attempts made all at once. */
  function Burst(t: Time, n: nat): (times: seq<Time>)
    ensures |times| == n && forall i :: 0 <= i < n ==> times[i] == t
  {
    seq(n, i => t)
  }

  /** A burst that the last minute leaves room for is admitted whole. */
  lemma {:induction false} BurstIsAdmitted(before: seq<Time>, t: Time, n: nat, limit: nat)
    requires |Recent(before, t)| + n <= limit
    ensures |Recent(before + Burst(t, n), t)| == |Recent(before, t)| + n
    ensures Admitted(before + Burst(t, n), limit) == Admitted(before, limit) + Burst(t, n)
  {
    if n == 0 {
      assert before + Burst(t, n) == before;
    } else {
      BurstIsAdmitted(before, t, n - 1, limit);
      var rest := before + Burst(t, n - 1);
      assert before + Burst(t, n) == rest + [t];
      RecentSnoc(rest, t, t);
      assert (rest + [t])[..|rest + [t]| - 1] == rest;
      assert Admitted(before, limit) + Burst(t, n) == Admitted(before, limit) + Burst(t, n - 1) + [t];
    }
  }

  lemma FirstBurst(t: Time, limit: nat)
    ensures Admitted(Burst(t, limit), limit) == Burst(t, limit)
    ensures Recent(Burst(t, limit), t + WINDOW) == []
  {
    assert |Recent([], t)| == 0 && Admitted([], limit) == [];
    hide Recent, Admitted;
    BurstIsAdmitted([], t, limit, limit);
    assert [] + Burst(t, limit) == Burst(t, limit);
    LapsedIsEmpty(Burst(t, limit), t + WINDOW, t + WINDOW);
  }

  /** Twice the limit is reached, for every limit: a full burst at either end of a closed minute. */
  lemma ClosedMinuteHoldsTwice(limit: nat, t: Time)
    ensures var times := Burst(t, limit) + Burst(t + WINDOW, limit);
            Admitted(times, limit) == times && Count(times, t, t + WINDOW) == 2 * limit
  {
    hide Recent, Admitted, Count;
    FirstBurst(t, limit);
    BurstIsAdmitted(Burst(t, limit), t + WINDOW, limit, limit);
    AllCounted(Burst(t, limit) + Burst(t + WINDOW, limit), t, t + WINDOW);
  }

  lemma {:induction false} AllCounted(times: seq<Time>, first: int, last: int)
    requires forall i :: 0 <= i < |times| ==> first <= times[i] <= last
    ensures Count(times, first, last) == |times|
  {
    if times != [] {
      AllCounted(times[..|times| - 1], first, last);
    }
  }

  // ---------- accounts that never pause ----------

  lemma {:induction false} RecentAtLeast(times: seq<Time>, k: nat, now: Time)
    requires NonDecreasing(times) && k <= |times|
    requires k > 0 ==> times[|times| - k] > now - WINDOW
    ensures k <= |Recent(times, now)| <= |times|
  {
    if times != [] {
      var rest, last := times[..|times| - 1], times[|times| - 1];
      if k > 0 {
        assert last >= times[|times| - k];
        assert k > 1 ==> rest[|rest| - (k - 1)] == times[|times| - k];
      }
      RecentAtLeast(rest, if k == 0 then 0 else k - 1, now);
    }
  }

  /** Blocked attempts are logged as well: an account that never pauses, making more than `limit` attempts in every
      minute, has only its first `limit` attempts admitted, ever. */
  lemma {:induction false} NeverPausingStaysBlocked(times: seq<Time>, limit: nat)
    requires NonDecreasing(times)
    requires forall i :: limit <= i < |times| ==> times[i - limit] > times[i] - WINDOW
    ensures Admitted(times, limit) == times[..if limit <= |times| then limit else |times|]
  {
    if times != [] {
      var rest, last := times[..|times| - 1], times[|times| - 1];
      NeverPausingStaysBlocked(rest, limit);
      RecentAtLeast(rest, if limit <= |rest| then limit else 0, last);
    }
  }

  /** The attempts a limiter admits on a run, each decided by the count its sorted set reports. */
  function AdmittedBy(run: seq<Visit>, limit: nat): seq<Time> {
    if run == [] then []
    else
      var before, last := run[..|run| - 1], run[|run| - 1];
      AdmittedBy(before, limit) + (if |Counted(AfterVisits(before), last.at, last.lapsed)| < limit then [last.at] else [])
  }

  lemma AdmittedByLast(run: seq<Visit>, limit: nat)
    requires run != []
    ensures var n := |run| - 1;
            AdmittedBy(run, limit) == AdmittedBy(run[..n], limit)
              + (if |Counted(AfterVisits(run[..n]), run[n].at, run[n].lapsed)| < limit then [run[n].at] else [])
  {
  }

  lemma PossiblePrefix(run: seq<Visit>, n: nat)
    requires Possible(run) && n <= |run|
    ensures Possible(run[..n]) && Times(run[..n]) == Times(run)[..n]
  {
    forall j | 0 <= j < n ensures run[..j] == run[..n][..j] {
    }
    assert Times(run[..n]) == Times(run)[..n];
  }

  lemma {:induction false} SetsAdmitAsHistoryDoes(run: seq<Visit>, limit: nat)
    requires Possible(run)
    ensures AdmittedBy(run, limit) == Admitted(Times(run), limit)
  {
    if run != [] {
      hide Counted, AfterVisits, Recent, Possible;
      var n := |run| - 1;
      PossiblePrefix(run, n);
      SetsAdmitAsHistoryDoes(run[..n], limit);
      CountsTheHistory(run, n);
      AdmittedByLast(run, limit);
      assert Admitted(Times(run), limit) == Admitted(Times(run)[..n], limit)
                                            + (if |Recent(Times(run)[..n], run[n].at)| < limit then [run[n].at] else []);
    }
  }

  /** On every run, no minute (open at its start) holds more than `limit` admitted attempts. */
  lemma LimitsAreKept(run: seq<Visit>, limit: nat, end: Time)
    requires Possible(run)
    ensures Within(AdmittedBy(run, limit), end) <= limit
    ensures var admitted := AdmittedBy(run, limit);
            |set i: nat | i < |admitted| && end - 60000 < admitted[i] <= end| <= limit
  {
    WithinIsInMinute(AdmittedBy(run, limit), end);
    SetsAdmitAsHistoryDoes(run, limit);
    AdmissionsAreBounded(Times(run), limit, end);
  }
}

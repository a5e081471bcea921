/** The bounded, pruned table of verification failures, against the full history of failures. */
module Strikes {
  import opened Settlement

  const STRIKE_WINDOW: int := 21_600_000_000_000 // 6 h
  const TABLE_MAX: nat := 50000
  const MAX_DURATION_SECONDS: int := 9_223_372_036

  datatype Record = Entry(count: int, last: Time)

  /** The cooldown a group's setting stands for; settings that do not fit a duration count as none. */
  function Retry(seconds: int): int {
    if 0 < seconds <= MAX_DURATION_SECONDS then seconds * 1_000_000_000 else 0
  }

  predicate Expired(r: Record, now: Time, retry: int) {
    r.count <= 0 || (now - r.last >= STRIKE_WINDOW && (retry <= 0 || now - r.last >= retry))
  }

  function Pruned(t: map<Key, Record>, now: Time, seconds: int -> int): map<Key, Record> {
    map k | k in t && !Expired(t[k], now, Retry(seconds(k.gid))) :: t[k]
  }

  /** Nothing that was kept is older than anything that was given up. */
  ghost predicate EvictedTo(t: map<Key, Record>, target: nat, kept: map<Key, Record>) {
    && kept.Keys <= t.Keys && (forall k | k in kept :: kept[k] == t[k])
    && |kept| == (if |t| <= target then |t| else target)
    && (forall k, j | k in t && k !in kept && j in kept :: t[k].last <= kept[j].last)
  }

  ghost predicate MakesRoom(t: map<Key, Record>, key: Key, kept: map<Key, Record>) {
    if key in t || |t| < 50_000 then kept == t else EvictedTo(t, 49_999, kept)
  }

  function NextCount(t: map<Key, Record>, key: Key, at: Time): int {
    if key in t && at - t[key].last < STRIKE_WINDOW then t[key].count + 1 else 1
  }

  /** What is left of an applicant's cooldown. */
  function Remaining(t: map<Key, Record>, key: Key, now: Time, seconds: int -> int): int {
    var retry := Retry(seconds(key.gid));
    if retry > 0 && key in t && t[key].count != 0 then Max(0, t[key].last + retry - now) else 0
  }

  /** The cooldown by the history alone: a group's setting counts from the last failure, unless it is
      not positive or too long for a duration. */
  function Cooldown(failures: seq<Time>, now: Time, seconds: int): int {
    if failures == [] || seconds <= 0 || seconds > 9_223_372_036 then 0
    else Max(0, failures[|failures| - 1] + seconds * 1_000_000_000 - now)
  }

  // ---- The full history ----

  datatype Event = Failed(key: Key, at: Time) | Cleared(key: Key)

  /** An applicant's failures since they were last cleared, oldest first. */
  function Failures(history: seq<Event>, key: Key): seq<Time> {
    if history == [] then []
    else
      var earlier := Failures(history[..|history| - 1], key);
      match history[|history| - 1]
      case Failed(k, at) => if k == key then earlier + [at] else earlier
      case Cleared(k) => if k == key then [] else earlier
  }

  /** The last `n` failures follow one another with less than six hours between them. */
  ghost predicate Streak(failures: seq<Time>, n: nat) {
    n <= |failures| && forall i | |failures| - n < i < |failures| :: failures[i] - failures[i - 1] < 21_600_000_000_000
  }

  function StreakLength(failures: seq<Time>): nat {
    var n := |failures|;
    if n == 0 then 0
    else if n > 1 && failures[n - 1] - failures[n - 2] < STRIKE_WINDOW then StreakLength(failures[..n - 1]) + 1
    else 1
  }

  /** `StreakLength` is the longest recent run of failures, and every shorter one is a run too. */
  lemma {:induction false} StreakLengthIsLongest(failures: seq<Time>, n: nat)
    ensures Streak(failures, n) <==> n <= StreakLength(failures)
    decreases |failures|
  {
    var m := |failures|;
    if m > 1 && n > 1 {
      StreakLengthIsLongest(failures[..m - 1], n - 1);
      assert Streak(failures, n) ==> Streak(failures[..m - 1], n - 1);
      if failures[m - 1] - failures[m - 2] < STRIKE_WINDOW && Streak(failures[..m - 1], n - 1) {
        forall i | m - n < i < m ensures failures[i] - failures[i - 1] < STRIKE_WINDOW {
          assert i == m - 1 || failures[..m - 1][i] - failures[..m - 1][i - 1] < STRIKE_WINDOW;
        }
      }
    }
  }

  // ---- The table tells what the history tells ----

  ghost predicate RecordTells(t: map<Key, Record>, key: Key, failures: seq<Time>) {
    key in t ==> failures != [] && t[key] == Entry(StreakLength(failures), failures[|failures| - 1])
  }

  /** A failure may be forgotten once it can neither count nor cool down. */
  ghost predicate Forgotten(key: Key, failures: seq<Time>, now: Time, seconds: int -> int) {
    failures != [] ==> Expired(Entry(StreakLength(failures), failures[|failures| - 1]), now, Retry(seconds(key.gid)))
  }

  ghost predicate Faithful(t: map<Key, Record>, history: seq<Event>, now: Time, seconds: int -> int) {
    && (forall k :: RecordTells(t, k, Failures(history, k)))
    && (forall k | k !in t :: Forgotten(k, Failures(history, k), now, seconds))
  }

  lemma StreakPositive(failures: seq<Time>)
    requires failures != []
    ensures StreakLength(failures) >= 1
  {
  }

  /** Pruning, at any later time, forgets nothing that still matters. */
  lemma PruningKeepsFaith(t: map<Key, Record>, history: seq<Event>, now: Time, later: Time, seconds: int -> int)
    requires Faithful(t, history, now, seconds) && now <= later
    ensures Faithful(Pruned(t, later, seconds), history, later, seconds)
  {
    var t' := Pruned(t, later, seconds);
    forall k | k !in t' ensures Forgotten(k, Failures(history, k), later, seconds) {
      var failures := Failures(history, k);
      assert RecordTells(t, k, failures);
      if failures != [] { StreakPositive(failures); }
    }
    forall k ensures RecordTells(t', k, Failures(history, k)) { assert RecordTells(t, k, Failures(history, k)); }
  }

  lemma FailureExtends(history: seq<Event>, e: Event, key: Key)
    ensures Failures(history + [e], key) ==
      if e.key != key then Failures(history, key) else if e.Failed? then Failures(history, key) + [e.at] else []
  {
    assert (history + [e])[..|history|] == history;
  }

  lemma StreakExtends(failures: seq<Time>, at: Time)
    ensures StreakLength(failures + [at]) ==
      if failures != [] && at - failures[|failures| - 1] < STRIKE_WINDOW then StreakLength(failures) + 1 else 1
  {
    var fs := failures + [at];
    assert fs[..|fs| - 1] == failures;
  }

  /** Recording a failure returns the length of the streak it ends, when the applicant's record is
      still there, or there is nothing to miss: and exactly then. The count is never too high. */
  lemma RecordCountsExactlyWhen(t: map<Key, Record>, history: seq<Event>, key: Key, at: Time)
    requires RecordTells(t, key, Failures(history, key))
    ensures var failures := Failures(history, key); var streak := StreakLength(Failures(history + [Failed(key, at)], key));
      && 1 <= NextCount(t, key, at) <= streak
      && (NextCount(t, key, at) == streak <==>
            key in t || failures == [] || at - failures[|failures| - 1] >= STRIKE_WINDOW)
  {
    var failures := Failures(history, key);
    FailureExtends(history, Failed(key, at), key);
    StreakExtends(failures, at);
    if failures != [] { StreakPositive(failures); }
  }

  lemma RecordKeepsFaith(t: map<Key, Record>, history: seq<Event>, key: Key, at: Time, seconds: int -> int)
    requires Faithful(t, history, at, seconds)
    ensures NextCount(t, key, at) == StreakLength(Failures(history + [Failed(key, at)], key))
    ensures Faithful(t[key := Entry(NextCount(t, key, at), at)], history + [Failed(key, at)], at, seconds)
  {
    var e := Failed(key, at);
    var failures := Failures(history, key);
    assert RecordTells(t, key, failures);
    assert key !in t ==> Forgotten(key, failures, at, seconds);
    RecordCountsExactlyWhen(t, history, key, at);
    if failures != [] { StreakPositive(failures); }
    var t' := t[key := Entry(NextCount(t, key, at), at)];
    forall k ensures RecordTells(t', k, Failures(history + [e], k)) {
      FailureExtends(history, e, k);
      assert RecordTells(t, k, Failures(history, k));
    }
    forall k | k !in t' ensures Forgotten(k, Failures(history + [e], k), at, seconds) {
      FailureExtends(history, e, k);
      assert Forgotten(k, Failures(history, k), at, seconds);
    }
  }

  lemma ClearKeepsFaith(t: map<Key, Record>, history: seq<Event>, key: Key, now: Time, seconds: int -> int)
    requires Faithful(t, history, now, seconds)
    ensures Faithful(t - {key}, history + [Cleared(key)], now, seconds)
  {
    var e := Cleared(key);
    forall k ensures RecordTells(t - {key}, k, Failures(history + [e], k)) {
      FailureExtends(history, e, k);
      assert RecordTells(t, k, Failures(history, k));
    }
    forall k | k !in t - {key} ensures Forgotten(k, Failures(history + [e], k), now, seconds) {
      FailureExtends(history, e, k);
      assert k == key || Forgotten(k, Failures(history, k), now, seconds);
    }
  }

  /** The cooldown read off the table is the one the last failure calls for. */
  lemma CooldownIsFromLastFailure(
    t: map<Key, Record>, history: seq<Event>, now: Time, later: Time, seconds: int -> int, key: Key)
    requires Faithful(t, history, now, seconds) && now <= later
    ensures Remaining(t, key, later, seconds) == Cooldown(Failures(history, key), later, seconds(key.gid))
  {
    var failures := Failures(history, key);
    assert RecordTells(t, key, failures);
    assert key !in t ==> Forgotten(key, failures, now, seconds);
    if failures != [] { StreakPositive(failures); }
  }

  // ---- Whole runs ----

  /** What the table undergoes: failures, clearings, and the pruning before each save. */
  datatype Op = Fail(key: Key, at: Time) | Clear(key: Key) | Prune(at: Time)

  function Apply(t: map<Key, Record>, op: Op, seconds: int -> int): map<Key, Record> {
    match op
    case Fail(key, at) => var p := Pruned(t, at, seconds); p[key := Entry(NextCount(p, key, at), at)]
    case Clear(key) => t - {key}
    case Prune(at) => Pruned(t, at, seconds)
  }

  function Tables(ops: seq<Op>, seconds: int -> int): map<Key, Record> {
    if ops == [] then map[] else Apply(Tables(ops[..|ops| - 1], seconds), ops[|ops| - 1], seconds)
  }

  function History(ops: seq<Op>): seq<Event> {
    if ops == [] then []
    else
      var earlier := History(ops[..|ops| - 1]);
      match ops[|ops| - 1]
      case Fail(key, at) => earlier + [Failed(key, at)]
      case Clear(key) => earlier + [Cleared(key)]
      case Prune(_) => earlier
  }

  /** No operation runs at an earlier time than one before it; the clock ends at `now`. */
  ghost predicate InOrder(ops: seq<Op>, now: Time)
    decreases |ops|
  {
    if ops == [] then true
    else if ops[|ops| - 1].Clear? then InOrder(ops[..|ops| - 1], now)
    else ops[|ops| - 1].at <= now && InOrder(ops[..|ops| - 1], ops[|ops| - 1].at)
  }

  /** That is, by the clock alone: the operations that read it do so in order. */
  lemma {:induction false} InOrderIs(ops: seq<Op>, now: Time)
    ensures InOrder(ops, now) <==>
            && (forall i | 0 <= i < |ops| && !ops[i].Clear? :: ops[i].at <= now)
            && (forall i, j | 0 <= i < j < |ops| && !ops[i].Clear? && !ops[j].Clear? :: ops[i].at <= ops[j].at)
    decreases |ops|
  {
    if ops != [] {
      var n := |ops| - 1;
      var earlier, last := ops[..n], ops[n];
      InOrderIs(earlier, if last.Clear? then now else last.at);
      assert forall i | 0 <= i < n :: earlier[i] == ops[i];
    }
  }

  lemma FaithfulLater(t: map<Key, Record>, history: seq<Event>, now: Time, later: Time, seconds: int -> int)
    requires Faithful(t, history, now, seconds) && now <= later
    ensures Faithful(t, history, later, seconds)
  {
    forall k | k !in t ensures Forgotten(k, Failures(history, k), later, seconds) {
      assert Forgotten(k, Failures(history, k), now, seconds);
    }
  }

  lemma {:induction false} RunIsFaithful(ops: seq<Op>, now: Time, seconds: int -> int)
    requires InOrder(ops, now)
    ensures Faithful(Tables(ops, seconds), History(ops), now, seconds)
    decreases |ops|
  {
    if ops != [] {
      var earlier := ops[..|ops| - 1];
      var t := Tables(earlier, seconds);
      match ops[|ops| - 1]
      case Fail(key, at) =>
        RunIsFaithful(earlier, at, seconds);
        PruningKeepsFaith(t, History(earlier), at, at, seconds);
        RecordKeepsFaith(Pruned(t, at, seconds), History(earlier), key, at, seconds);
        FaithfulLater(Tables(ops, seconds), History(ops), at, now, seconds);
      case Clear(key) =>
        RunIsFaithful(earlier, now, seconds);
        ClearKeepsFaith(t, History(earlier), key, now, seconds);
      case Prune(at) =>
        RunIsFaithful(earlier, at, seconds);
        PruningKeepsFaith(t, History(earlier), at, at, seconds);
        FaithfulLater(Tables(ops, seconds), History(ops), at, now, seconds);
    }
  }

  /** With times in order, and every failure recorded while there is room: what the table answers, a count for the next
      failure or a cooldown, is what the full history of failures answers. */
  lemma TableAnswersAsHistory(ops: seq<Op>, now: Time, seconds: int -> int, key: Key)
    requires InOrder(ops, now)
    ensures NextCount(Pruned(Tables(ops, seconds), now, seconds), key, now)
         == StreakLength(Failures(History(ops), key) + [now])
    ensures Remaining(Tables(ops, seconds), key, now, seconds)
         == Cooldown(Failures(History(ops), key), now, seconds(key.gid))
  {
    RunIsFaithful(ops, now, seconds);
    var t := Tables(ops, seconds);
    PruningKeepsFaith(t, History(ops), now, now, seconds);
    RecordKeepsFaith(Pruned(t, now, seconds), History(ops), key, now, seconds);
    FailureExtends(History(ops), Failed(key, now), key);
    CooldownIsFromLastFailure(t, History(ops), now, now, seconds, key);
  }

  /** When and how often the table is pruned never changes an answer. */
  lemma PruningIsInvisible(ops: seq<Op>, ops': seq<Op>, now: Time, seconds: int -> int, key: Key)
    requires InOrder(ops, now) && InOrder(ops', now) && History(ops) == History(ops')
    ensures Remaining(Tables(ops, seconds), key, now, seconds) == Remaining(Tables(ops', seconds), key, now, seconds)
    ensures NextCount(Pruned(Tables(ops, seconds), now, seconds), key, now)
         == NextCount(Pruned(Tables(ops', seconds), now, seconds), key, now)
  {
    TableAnswersAsHistory(ops, now, seconds, key);
    TableAnswersAsHistory(ops', now, seconds, key);
  }

  // ---- The table itself ----

  class StrikeTable {
    var records: map<Key, Record>

    constructor ()
      ensures records == map[]
    {
      records := map[];
    }

    /** `pruneVerifyFailsLocked`; each group's setting is looked up once. */
    method Prune(now: Time, seconds: int -> int)
      modifies this
      ensures records == Pruned(old(records), now, seconds)
    {
      var todo := records.Keys;
      var retryByGroup: map<int, int> := map[];
      while todo != {}
        invariant todo <= old(records).Keys
        invariant forall g | g in retryByGroup :: retryByGroup[g] == Retry(seconds(g))
        invariant records == map k | k in old(records) && (k in todo || !Expired(old(records)[k], now, Retry(seconds(k.gid)))) :: old(records)[k]
        decreases |todo|
      {
        var k :| k in todo;
        var r := records[k];
        if r.count <= 0 {
          records := records - {k};
        } else if now - r.last >= STRIKE_WINDOW {
          if k.gid !in retryByGroup {
            retryByGroup := retryByGroup[k.gid := Retry(seconds(k.gid))];
          }
          var retry := retryByGroup[k.gid];
          if retry <= 0 || now - r.last >= retry {
            records := records - {k};
          }
        }
        todo := todo - {k};
      }
    }

    /** The scan for one oldest record. */
    method Oldest() returns (oldest: Key)
      requires records != map[]
      ensures oldest in records && forall j | j in records :: records[oldest].last <= records[j].last
    {
      var todo := records.Keys;
      oldest :| oldest in todo;
      todo := todo - {oldest};
      while todo != {}
        invariant todo <= records.Keys && oldest in records
        invariant forall j | j in records && j !in todo :: records[oldest].last <= records[j].last
        decreases |todo|
      {
        var k :| k in todo;
        if records[k].last < records[oldest].last {
          oldest := k;
        }
        todo := todo - {k};
      }
    }

    /** `evictOldestVerifyFailsLocked`: the oldest go first, until the size is reached. */
    method EvictOldest(target: nat)
      modifies this
      ensures EvictedTo(old(records), target, records)
    {
      while |records| > target
        invariant records.Keys <= old(records).Keys && forall k | k in records :: records[k] == old(records)[k]
        invariant |records| >= if |old(records)| <= target then |old(records)| else target
        invariant forall k, j | k in old(records) && k !in records && j in records :: old(records)[k].last <= records[j].last
        decreases |records|
      {
        var k := Oldest();
        ghost var before := records;
        records := records - {k};
        assert records.Keys == before.Keys - {k} && |records| == |before| - 1 by {
          assert before.Keys == records.Keys + {k};
          assert |before| == |before.Keys| && |records| == |records.Keys|;
        }
      }
      if |old(records)| <= target { assert records == old(records) by { SameSize(records, old(records)); } }
    }

    /** `recordVerifyFailLocked`. */
    method Record(key: Key, at: Time, seconds: int -> int) returns (count: int)
      modifies this
      ensures var pruned := Pruned(old(records), at, seconds);
        && count == NextCount(pruned, key, at)
        && (exists kept :: MakesRoom(pruned, key, kept) && records == kept[key := Entry(count, at)])
        && (key in pruned || |pruned| < 50_000 ==> records == Apply(old(records), Fail(key, at), seconds))
    {
      Prune(at, seconds);
      ghost var pruned := records;
      if key !in records && |records| >= TABLE_MAX {
        EvictOldest(TABLE_MAX - 1);
      }
      assert MakesRoom(pruned, key, records);
      var r := if key in records then records[key] else Entry(0, at);
      if r.count > 0 && at - r.last >= STRIKE_WINDOW {
        r := r.(count := 0);
      }
      r := r.(count := r.count + 1, last := at);
      records := records[key := r];
      return r.count;
    }

    /** `clearVerifyFails`. */
    method Clear(key: Key)
      modifies this
      ensures records == old(records) - {key}
    {
      records := records - {key};
    }

    /** `verifyCooldownRemaining`. */
    method CooldownRemaining(key: Key, now: Time, seconds: int -> int) returns (left: int)
      ensures left == Remaining(records, key, now, seconds)
    {
      if seconds(key.gid) <= 0 || key !in records || records[key].count == 0 {
        return 0;
      }
      if seconds(key.gid) > MAX_DURATION_SECONDS {
        return 0;
      }
      var cooldown := seconds(key.gid) * 1_000_000_000;
      var elapsed := now - records[key].last;
      return if elapsed < cooldown then cooldown - elapsed else 0;
    }
  }

  lemma SameSize(a: map<Key, Record>, b: map<Key, Record>)
    requires a.Keys <= b.Keys && |a| >= |b| && forall k | k in a :: a[k] == b[k]
    ensures a == b
  {
    assert b.Keys == a.Keys + (b.Keys - a.Keys);
    assert |b| == |b.Keys| && |a| == |a.Keys|;
  }
}

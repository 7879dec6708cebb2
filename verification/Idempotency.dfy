/**
 Idempotency reservations (haas/stores/memory.py): the table of records, and the history of what callers
 were told and what ended a reservation. Request hashes, results and invocation ids are strings, and the
 clock is read by the caller.
 */
module Idempotency {
  import opened Wrappers

  datatype Record = Record(
    hash: string, result: Option<string>, released: bool, accepted: bool, invocation: Option<string>,
    expiresAt: Option<int>, tombstone: bool)

  /** One key's reservation begins (`Fresh`), is answered from the record (`Replayed`, `Read`), gets its
      result, is given up, loses its result to age, or leaves the table. */
  datatype Effect =
    | Fresh(key: string, hash: string)
    | Replayed(key: string, hash: string, result: Option<string>)
    | Read(key: string, result: Option<string>)
    | Completed(key: string, value: string)
    | Released(key: string)
    | Expired(key: string)
    | Deleted(keys: set<string>)
    | Swept(keys: set<string>)

  datatype State = State(records: map<string, Record>, history: seq<Effect>)

  datatype Op =
    | ReserveOp(key: string, hash: string, now: int)
    | AcceptOp(key: string, invocation: string, at: int, ttl: int)
    | CompleteOp(key: string, value: string)
    | ReplayOp(key: string, now: int)
    | ReleaseOp(key: string)
    | DeleteOp(invocations: set<string>)
    | SweepOp(now: int)

  // ------------------------------------------------------------------- steps

  function Told(s: State, e: Effect): State { s.(history := s.history + [e]) }

  predicate IsStale(r: Record, now: int) {
    r.accepted && r.result.Some? && r.expiresAt.Some? && now >= r.expiresAt.value
  }

  /** The record no longer answers: its result was dropped, or is too old now. */
  predicate IsSpent(r: Record, now: int) { r.tombstone || IsStale(r, now) }

  /** `_expire_idempotency_result` */
  function Expire(s: State, key: string, now: int): State
    requires key in s.records
  {
    if IsStale(s.records[key], now)
    then Told(s.(records := s.records[key := s.records[key].(result := None, tombstone := true)]), Expired(key))
    else s
  }

  predicate IsSweepable(r: Record, now: int) { r.tombstone && r.expiresAt.Some? && now >= r.expiresAt.value }

  function Sweepable(records: map<string, Record>, now: int): set<string> {
    set k | k in records && IsSweepable(records[k], now)
  }

  /** `sweep_expired` */
  function Sweep(s: State, now: int): State {
    Told(s.(records := s.records - Sweepable(s.records, now)), Swept(Sweepable(s.records, now)))
  }

  predicate IsOpen(s: State, key: string) { key in s.records && !s.records[key].released }

  function Reserve(s: State, key: string, hash: string, now: int): State {
    if IsOpen(s, key) then
      var s1 := Expire(s, key, now);
      if s1.records[key].tombstone || s1.records[key].hash != hash then s1
      else Told(s1, Replayed(key, hash, s1.records[key].result))
    else
      var s1 := Sweep(s, now);
      Told(s1.(records := s1.records[key := Record(hash, None, false, false, None, None, false)]), Fresh(key, hash))
  }

  function Replay(s: State, key: string, now: int): State {
    if !IsOpen(s, key) then s
    else
      var s1 := Expire(s, key, now);
      if s1.records[key].tombstone then s1 else Told(s1, Read(key, s1.records[key].result))
  }

  function Owned(records: map<string, Record>, invocations: set<string>): set<string> {
    set k | k in records && records[k].invocation.Some? && records[k].invocation.value in invocations
  }

  function Next(s: State, op: Op): State {
    match op
    case ReserveOp(key, hash, now) => Reserve(s, key, hash, now)
    case AcceptOp(key, invocation, at, ttl) =>
      if !IsOpen(s, key) then s
      else s.(records := s.records[key := s.records[key].(accepted := true, invocation := Some(invocation),
                                                           expiresAt := Some(at + ttl))])
    case CompleteOp(key, value) =>
      if key !in s.records then s
      else Told(s.(records := s.records[key := s.records[key].(result := Some(value))]), Completed(key, value))
    case ReplayOp(key, now) => Replay(s, key, now)
    case ReleaseOp(key) =>
      if key !in s.records then s
      else Told(s.(records := s.records[key := s.records[key].(released := true)]), Released(key))
    case DeleteOp(invocations) =>
      Told(s.(records := s.records - Owned(s.records, invocations)), Deleted(Owned(s.records, invocations)))
    case SweepOp(now) => Sweep(s, now)
  }

  // ------------------------------------------------------------- the promises

  predicate IsFresh(e: Effect, key: string) { e.Fresh? && e.key == key }

  ghost predicate Happened(history: seq<Effect>, i: int, j: int, e: Effect) {
    exists m :: i < m < j && 0 <= m < |history| && history[m] == e
  }

  /** The reservation begun at `i` was given up, deleted with its session, or expired and then swept. */
  ghost predicate EndsAt(history: seq<Effect>, key: string, i: int, m: int) {
    && i < m && 0 <= m < |history|
    && (|| history[m] == Released(key)
        || (history[m].Deleted? && key in history[m].keys)
        || (history[m].Swept? && key in history[m].keys && Happened(history, i, m, Expired(key))))
  }

  ghost predicate Ended(history: seq<Effect>, key: string, i: int, j: int) {
    exists m :: m < j && EndsAt(history, key, i, m)
  }

  /** `i` is the last fresh reservation of the key before `j`. */
  predicate Latest(history: seq<Effect>, key: string, i: int, j: int) {
    && 0 <= i < j <= |history| && IsFresh(history[i], key)
    && forall m :: i < m < j ==> !IsFresh(history[m], key)
  }

  /** Between two fresh reservations of a key the first one ended. */
  ghost predicate FreshOnlyAfterEnd(history: seq<Effect>) {
    forall key, i, j :: 0 <= i < j < |history| && IsFresh(history[i], key) && IsFresh(history[j], key) ==>
      Ended(history, key, i, j)
  }

  /** The result was recorded since the latest fresh reservation, which had this request hash. */
  ghost predicate Recorded(history: seq<Effect>, key: string, value: string, j: int) {
    exists i :: Latest(history, key, i, j) && Happened(history, i, j, Completed(key, value))
  }

  ghost predicate RecordedUnder(history: seq<Effect>, key: string, hash: string, value: string, j: int) {
    exists i :: Latest(history, key, i, j) && history[i].hash == hash && Happened(history, i, j, Completed(key, value))
  }

  ghost predicate ResultsWereRecorded(history: seq<Effect>) {
    forall j :: 0 <= j < |history| ==>
      && (history[j].Replayed? && history[j].result.Some? ==>
            RecordedUnder(history, history[j].key, history[j].hash, history[j].result.value, j))
      && (history[j].Read? && history[j].result.Some? ==> Recorded(history, history[j].key, history[j].result.value, j))
  }

  // --------------------------------------------------------------- invariant

  /** What a record remembers, it has from the history since its own fresh reservation. */
  ghost predicate RecordOk(history: seq<Effect>, key: string, r: Record) {
    exists i :: Latest(history, key, i, |history|) && RecordSince(history, key, r, i)
  }

  ghost predicate RecordSince(history: seq<Effect>, key: string, r: Record, i: int)
    requires 0 <= i < |history| && history[i].Fresh?
  {
    && history[i].hash == r.hash
    && (r.result.Some? ==> Happened(history, i, |history|, Completed(key, r.result.value)))
    && (r.tombstone ==> Happened(history, i, |history|, Expired(key)))
    && (r.released ==> Happened(history, i, |history|, Released(key)))
  }

  /** Every reservation of the key is over. */
  ghost predicate AllEnded(history: seq<Effect>, key: string) {
    forall i :: 0 <= i < |history| && IsFresh(history[i], key) ==> Ended(history, key, i, |history|)
  }

  ghost predicate Inv(s: State) {
    && FreshOnlyAfterEnd(s.history) && ResultsWereRecorded(s.history)
    && (forall key :: key in s.records ==> RecordOk(s.history, key, s.records[key]))
    && (forall key :: key !in s.records ==> AllEnded(s.history, key))
  }

  // -------------------------------------------------------- growing histories

  lemma HappenedGrows(h: seq<Effect>, h': seq<Effect>, i: int, j: int, e: Effect)
    requires h <= h' && j <= |h|
    ensures Happened(h', i, j, e) <==> Happened(h, i, j, e)
  {
  }

  lemma EndedGrows(h: seq<Effect>, h': seq<Effect>, key: string, i: int, j: int, j': int)
    requires h <= h' && j <= |h| && j <= j' && Ended(h, key, i, j)
    ensures Ended(h', key, i, j')
  {
    var m :| m < j && EndsAt(h, key, i, m);
    HappenedGrows(h, h', i, m, Expired(key));
    assert EndsAt(h', key, i, m);
  }

  lemma RecordedGrows(h: seq<Effect>, e: Effect)
    requires ResultsWereRecorded(h)
    requires e.Replayed? && e.result.Some? ==> RecordedUnder(h + [e], e.key, e.hash, e.result.value, |h|)
    requires e.Read? && e.result.Some? ==> Recorded(h + [e], e.key, e.result.value, |h|)
    ensures ResultsWereRecorded(h + [e])
  {
    var h' := h + [e];
    forall j | 0 <= j < |h'|
      ensures h'[j].Replayed? && h'[j].result.Some? ==>
                RecordedUnder(h', h'[j].key, h'[j].hash, h'[j].result.value, j)
      ensures h'[j].Read? && h'[j].result.Some? ==> Recorded(h', h'[j].key, h'[j].result.value, j)
    {
      if j < |h| && h[j].Replayed? && h[j].result.Some? {
        var i :| && Latest(h, h[j].key, i, j) && h[i].hash == h[j].hash
                 && Happened(h, i, j, Completed(h[j].key, h[j].result.value));
        HappenedGrows(h, h', i, j, Completed(h[j].key, h[j].result.value));
        assert Latest(h', h[j].key, i, j);
      } else if j < |h| && h[j].Read? && h[j].result.Some? {
        var i :| Latest(h, h[j].key, i, j) && Happened(h, i, j, Completed(h[j].key, h[j].result.value));
        HappenedGrows(h, h', i, j, Completed(h[j].key, h[j].result.value));
        assert Latest(h', h[j].key, i, j);
      }
    }
  }

  lemma FreshGrows(h: seq<Effect>, e: Effect)
    requires FreshOnlyAfterEnd(h) && (e.Fresh? ==> AllEnded(h, e.key))
    ensures FreshOnlyAfterEnd(h + [e])
  {
    hide Ended;
    var h' := h + [e];
    forall key, i, j | 0 <= i < j < |h'| && IsFresh(h'[i], key) && IsFresh(h'[j], key) ensures Ended(h', key, i, j) {
      assert Ended(h, key, i, j);
      EndedGrows(h, h', key, i, j, j);
    }
  }

  lemma HappenedLonger(h: seq<Effect>, e: Effect, i: int, x: Effect)
    requires Happened(h, i, |h|, x)
    ensures Happened(h + [e], i, |h| + 1, x)
  {
    var m :| i < m < |h| && 0 <= m < |h| && h[m] == x;
    assert (h + [e])[m] == x;
  }

  /** A record stays right when something happens that does not begin its key anew. */
  lemma RecordGrows(h: seq<Effect>, e: Effect, key: string, r: Record, r': Record)
    requires RecordOk(h, key, r) && !IsFresh(e, key) && r'.hash == r.hash
    requires r'.result.Some? ==> r'.result == r.result || e == Completed(key, r'.result.value)
    requires r'.tombstone ==> r.tombstone || e == Expired(key)
    requires r'.released ==> r.released || e == Released(key)
    ensures RecordOk(h + [e], key, r')
  {
    hide Happened;
    var h' := h + [e];
    var i :| Latest(h, key, i, |h|) && RecordSince(h, key, r, i);
    assert Latest(h', key, i, |h'|);
    if r'.result.Some? { Carry(h, e, i, Completed(key, r'.result.value)); }
    if r'.tombstone { Carry(h, e, i, Expired(key)); }
    if r'.released { Carry(h, e, i, Released(key)); }
    assert RecordSince(h', key, r', i);
  }

  lemma Carry(h: seq<Effect>, e: Effect, i: int, x: Effect)
    requires Happened(h, i, |h|, x) || (e == x && 0 <= i < |h|)
    ensures Happened(h + [e], i, |h| + 1, x)
  {
    if e == x && 0 <= i < |h| { assert (h + [e])[|h|] == x; } else { HappenedLonger(h, e, i, x); }
  }

  lemma AllEndedGrows(h: seq<Effect>, e: Effect, key: string)
    requires AllEnded(h, key) && !IsFresh(e, key)
    ensures AllEnded(h + [e], key)
  {
    hide Ended;
    var h' := h + [e];
    forall i | 0 <= i < |h'| && IsFresh(h'[i], key) ensures Ended(h', key, i, |h'|) {
      assert Ended(h, key, i, |h|);
      EndedGrows(h, h', key, i, |h|, |h'|);
    }
  }

  /** Ending the latest reservation ends them all, for the earlier ones had ended before. */
  lemma EndEndsAll(h: seq<Effect>, key: string, i: int, m: int)
    requires FreshOnlyAfterEnd(h) && Latest(h, key, i, |h|) && EndsAt(h, key, i, m)
    ensures AllEnded(h, key)
  {
    forall k | 0 <= k < |h| && IsFresh(h[k], key) ensures Ended(h, key, k, |h|) {
      if k < i { assert Ended(h, key, k, i); EndedGrows(h, h, key, k, i, |h|); }
      else { assert m < |h| && EndsAt(h, key, k, m); }
    }
  }

  lemma ReleasedMeansEnded(s: State, key: string)
    requires Inv(s) && key in s.records && s.records[key].released
    ensures AllEnded(s.history, key)
  {
    var h := s.history;
    assert RecordOk(h, key, s.records[key]);
    var i :| Latest(h, key, i, |h|) && RecordSince(h, key, s.records[key], i);
    var m :| i < m < |h| && h[m] == Released(key);
    assert EndsAt(h, key, i, m);
    EndEndsAll(h, key, i, m);
  }

  // ------------------------------------------------------------ every step

  /** Something is told about existing records; no record comes or goes. */
  lemma ToldKeeps(s: State, e: Effect, s': State)
    requires Inv(s) && s'.history == s.history + [e] && s'.records.Keys == s.records.Keys && !e.Fresh?
    requires forall key :: key in s.records ==>
               var r, r' := s.records[key], s'.records[key];
               && r'.hash == r.hash
               && (r'.result.Some? ==> r'.result == r.result || e == Completed(key, r'.result.value))
               && (r'.tombstone ==> r.tombstone || e == Expired(key))
               && (r'.released ==> r.released || e == Released(key))
    requires e.Replayed? && e.result.Some? ==> RecordedUnder(s'.history, e.key, e.hash, e.result.value, |s.history|)
    requires e.Read? && e.result.Some? ==> Recorded(s'.history, e.key, e.result.value, |s.history|)
    ensures Inv(s')
  {
    hide FreshOnlyAfterEnd, ResultsWereRecorded, RecordOk, AllEnded, Recorded, RecordedUnder;
    FreshGrows(s.history, e);
    RecordedGrows(s.history, e);
    forall key | key in s'.records ensures RecordOk(s'.history, key, s'.records[key]) {
      RecordGrows(s.history, e, key, s.records[key], s'.records[key]);
    }
    forall key | key !in s'.records ensures AllEnded(s'.history, key) { AllEndedGrows(s.history, e, key); }
  }

  /** Records leave the table: deleted with their session, or swept as expired. */
  lemma RemovalKeeps(s: State, keys: set<string>, e: Effect, s': State)
    requires Inv(s) && s'.history == s.history + [e] && s'.records == s.records - keys && keys <= s.records.Keys
    requires e == Deleted(keys) || (e == Swept(keys) && forall k :: k in keys ==> s.records[k].tombstone)
    ensures Inv(s')
  {
    hide FreshOnlyAfterEnd, ResultsWereRecorded, RecordOk, AllEnded;
    FreshGrows(s.history, e);
    RecordedGrows(s.history, e);
    forall key | key in s'.records ensures RecordOk(s'.history, key, s'.records[key]) {
      RecordGrows(s.history, e, key, s.records[key], s'.records[key]);
    }
    forall key | key !in s'.records ensures AllEnded(s'.history, key) {
      if key in keys { RemovedEnded(s, keys, e, key); } else { AllEndedGrows(s.history, e, key); }
    }
  }

  lemma RemovedEnded(s: State, keys: set<string>, e: Effect, key: string)
    requires Inv(s) && keys <= s.records.Keys && key in keys
    requires e == Deleted(keys) || (e == Swept(keys) && s.records[key].tombstone)
    ensures AllEnded(s.history + [e], key)
  {
    hide ResultsWereRecorded, AllEnded;
    var h, h' := s.history, s.history + [e];
    FreshGrows(h, e);
    assert RecordOk(h, key, s.records[key]);
    var i :| Latest(h, key, i, |h|) && RecordSince(h, key, s.records[key], i);
    if e.Swept? { HappenedGrows(h, h', i, |h|, Expired(key)); }
    assert EndsAt(h', key, i, |h|);
    assert Latest(h', key, i, |h'|);
    EndEndsAll(h', key, i, |h|);
  }

  lemma FreshKeeps(s: State, key: string, hash: string)
    requires Inv(s) && AllEnded(s.history, key)
    ensures Inv(Told(s.(records := s.records[key := Record(hash, None, false, false, None, None, false)]),
                     Fresh(key, hash)))
  {
    var e := Fresh(key, hash);
    var s' := Told(s.(records := s.records[key := Record(hash, None, false, false, None, None, false)]), e);
    hide FreshOnlyAfterEnd, ResultsWereRecorded, RecordOk, AllEnded;
    FreshGrows(s.history, e);
    RecordedGrows(s.history, e);
    forall k | k in s'.records ensures RecordOk(s'.history, k, s'.records[k]) {
      if k == key { FreshRecordOk(s.history, key, s'.records[key]); }
      else { RecordGrows(s.history, e, k, s.records[k], s.records[k]); }
    }
    forall k | k !in s'.records ensures AllEnded(s'.history, k) { AllEndedGrows(s.history, e, k); }
  }

  lemma FreshRecordOk(h: seq<Effect>, key: string, r: Record)
    requires r.result.None? && !r.released && !r.tombstone
    ensures RecordOk(h + [Fresh(key, r.hash)], key, r)
  {
    var h' := h + [Fresh(key, r.hash)];
    assert Latest(h', key, |h|, |h'|) && RecordSince(h', key, r, |h|);
  }

  lemma ExpireKeeps(s: State, key: string, now: int)
    requires Inv(s) && key in s.records
    ensures Inv(Expire(s, key, now))
  {
    hide Inv;
    if IsStale(s.records[key], now) { ToldKeeps(s, Expired(key), Expire(s, key, now)); }
  }

  lemma SweepKeeps(s: State, now: int)
    requires Inv(s)
    ensures Inv(Sweep(s, now))
  {
    hide Inv;
    RemovalKeeps(s, Sweepable(s.records, now), Swept(Sweepable(s.records, now)), Sweep(s, now));
  }

  /** What the record holds was recorded under its own request hash. */
  lemma ResultRecorded(s: State, key: string, e: Effect)
    requires Inv(s) && key in s.records && s.records[key].result.Some?
    ensures var r := s.records[key];
            && RecordedUnder(s.history + [e], key, r.hash, r.result.value, |s.history|)
            && Recorded(s.history + [e], key, r.result.value, |s.history|)
  {
    var h, r := s.history, s.records[key];
    assert RecordOk(h, key, r);
    var i :| Latest(h, key, i, |h|) && RecordSince(h, key, r, i);
    HappenedGrows(h, h + [e], i, |h|, Completed(key, r.result.value));
    assert Latest(h + [e], key, i, |h|);
  }

  lemma ReserveKeeps(s: State, key: string, hash: string, now: int)
    requires Inv(s)
    ensures Inv(Reserve(s, key, hash, now))
  {
    hide Inv, Sweep, AllEnded;
    if IsOpen(s, key) {
      ExpireKeeps(s, key, now);
      var s1 := Expire(s, key, now);
      var e := Replayed(key, hash, s1.records[key].result);
      if !s1.records[key].tombstone && s1.records[key].hash == hash {
        if e.result.Some? { ResultRecorded(s1, key, e); }
        ToldKeeps(s1, e, Told(s1, e));
      }
    } else {
      SweepKeeps(s, now);
      SweptEnded(s, key, now);
      FreshKeeps(Sweep(s, now), key, hash);
    }
  }

  /** A key whose record is released, or gone, has no reservation going; a sweep does not change that. */
  lemma SweptEnded(s: State, key: string, now: int)
    requires Inv(s) && !IsOpen(s, key)
    ensures AllEnded(Sweep(s, now).history, key)
  {
    hide AllEnded;
    if key in s.records { ReleasedMeansEnded(s, key); }
    AllEndedGrows(s.history, Swept(Sweepable(s.records, now)), key);
  }

  lemma ReplayKeeps(s: State, key: string, now: int)
    requires Inv(s)
    ensures Inv(Replay(s, key, now))
  {
    hide Inv;
    if IsOpen(s, key) {
      ExpireKeeps(s, key, now);
      var s1 := Expire(s, key, now);
      var e := Read(key, s1.records[key].result);
      if !s1.records[key].tombstone {
        if e.result.Some? { ResultRecorded(s1, key, e); }
        ToldKeeps(s1, e, Told(s1, e));
      }
    }
  }

  lemma AcceptKeeps(s: State, key: string, r: Record)
    requires Inv(s) && key in s.records
    requires r == s.records[key].(accepted := r.accepted, invocation := r.invocation, expiresAt := r.expiresAt)
    ensures Inv(s.(records := s.records[key := r]))
  {
    hide FreshOnlyAfterEnd, ResultsWereRecorded, AllEnded, Happened;
    assert RecordOk(s.history, key, s.records[key]);
    var i :| Latest(s.history, key, i, |s.history|) && RecordSince(s.history, key, s.records[key], i);
    assert RecordSince(s.history, key, r, i);
  }

  lemma NextKeeps(s: State, op: Op)
    requires Inv(s)
    ensures Inv(Next(s, op))
  {
    hide Inv, Reserve, Replay, Sweep;
    match op
    case ReserveOp(key, hash, now) => ReserveKeeps(s, key, hash, now);
    case AcceptOp(key, invocation, at, ttl) =>
      if IsOpen(s, key) { AcceptKeeps(s, key, Next(s, op).records[key]); }
    case CompleteOp(key, value) => if key in s.records { ToldKeeps(s, Completed(key, value), Next(s, op)); }
    case ReplayOp(key, now) => ReplayKeeps(s, key, now);
    case ReleaseOp(key) => if key in s.records { ToldKeeps(s, Released(key), Next(s, op)); }
    case DeleteOp(invocations) =>
      RemovalKeeps(s, Owned(s.records, invocations), Deleted(Owned(s.records, invocations)), Next(s, op));
    case SweepOp(now) => SweepKeeps(s, now);
  }

  function Run(ops: seq<Op>): State {
    if ops == [] then State(map[], []) else Next(Run(ops[..|ops| - 1]), ops[|ops| - 1])
  }

  lemma {:induction false} RunKeeps(ops: seq<Op>)
    ensures Inv(Run(ops))
  {
    if ops != [] {
      RunKeeps(ops[..|ops| - 1]);
      NextKeeps(Run(ops[..|ops| - 1]), ops[|ops| - 1]);
    }
  }

  /** In every run: between two fresh reservations of one key there is a release, a delete of the owning
      session, or an expiry followed by a sweep; and every replayed result was completed since the latest
      fresh reservation, under the same request hash. */
  lemma FreshOnce(ops: seq<Op>)
    ensures FreshOnlyAfterEnd(Run(ops).history)
    ensures ResultsWereRecorded(Run(ops).history)
  {
    RunKeeps(ops);
  }

  // ------------------------------------------------------------- how long it lasts

  /** The operation is about other keys: it does not name this one, nor delete its invocation. */
  predicate Elsewhere(op: Op, key: string, invocation: string) {
    match op
    case DeleteOp(invocations) => invocation !in invocations
    case SweepOp(_) => true
    case _ => op.key != key
  }

  function Continued(s: State, ops: seq<Op>): State
    decreases |ops|
  {
    if ops == [] then s else Continued(Next(s, ops[0]), ops[1..])
  }

  lemma {:induction false} RecordStays(s: State, ops: seq<Op>, key: string)
    requires key in s.records && !s.records[key].tombstone && s.records[key].invocation.Some?
    requires forall i :: 0 <= i < |ops| ==> Elsewhere(ops[i], key, s.records[key].invocation.value)
    ensures key in Continued(s, ops).records && Continued(s, ops).records[key] == s.records[key]
    decreases |ops|
  {
    if ops != [] {
      OtherRecordStays(s, ops[0], key);
      RecordStays(Next(s, ops[0]), ops[1..], key);
    }
  }

  lemma OtherRecordStays(s: State, op: Op, key: string)
    requires key in s.records && !s.records[key].tombstone && s.records[key].invocation.Some?
    requires Elsewhere(op, key, s.records[key].invocation.value)
    ensures key in Next(s, op).records && Next(s, op).records[key] == s.records[key]
  {
  }

  /** From its fresh reservation on: a key that is accepted at `at` and completed replays its result to the same
      request, whatever happens to other keys in between, exactly until `at + ttl`; from then on it is expired.
      A different request is never answered from it. */
  lemma ReplaysUntilExpiry(s: State, key: string, hash: string, invocation: string, at: int, ttl: int, value: string,
                           begun: int, ops: seq<Op>, request: string, now: int)
    requires !IsOpen(s, key) && forall i :: 0 <= i < |ops| ==> Elsewhere(ops[i], key, invocation)
    ensures var s1 := Next(Next(Next(s, ReserveOp(key, hash, begun)), AcceptOp(key, invocation, at, ttl)),
                           CompleteOp(key, value));
            var s2 := Continued(s1, ops);
            var s3 := Next(s2, ReserveOp(key, request, now));
            && s3.records.Keys == s2.records.Keys && key in s3.records
            && (now < at + ttl && request == hash ==> s3 == Told(s2, Replayed(key, hash, Some(value))))
            && (now < at + ttl && request != hash ==> s3 == s2)
            && (now >= at + ttl ==>
                  && s3.history == s2.history + [Expired(key)]
                  && s3.records[key].tombstone && s3.records[key].result.None?)
  {
    hide Continued;
    var s1 := Next(Next(Next(s, ReserveOp(key, hash, begun)), AcceptOp(key, invocation, at, ttl)),
                   CompleteOp(key, value));
    assert s1.records[key] == Record(hash, Some(value), false, true, Some(invocation), Some(at + ttl), false);
    RecordStays(s1, ops, key);
  }

  /** A key that is given up, or whose invocation is deleted, can be reserved afresh at once, with any hash, and
      then knows nothing of its past; until then it answers only its own request. */
  lemma FreshAfterEnd(s: State, key: string, invocations: set<string>, hash: string, now: int)
    requires IsOpen(s, key)
    ensures !IsOpen(Next(s, ReleaseOp(key)), key)
    ensures !IsOpen(Next(s, DeleteOp(invocations)), key) <==>
            s.records[key].invocation.Some? && s.records[key].invocation.value in invocations
    ensures var s' := Next(Next(s, ReleaseOp(key)), ReserveOp(key, hash, now));
            key in s'.records && s'.records[key] == Record(hash, None, false, false, None, None, false)
    ensures var s' := Next(s, ReserveOp(key, hash, now));
            IsOpen(s', key) && s'.records[key].hash == s.records[key].hash
  {
  }

  // ------------------------------------------------------------------- store

  datatype Answer = Reserved | Replays(result: Option<string>) | ExpiredKey | Conflict

  class IdempotencyStore {
    var records: map<string, Record>
    var history: seq<Effect>

    ghost function Now(): State
      reads this
    {
      State(records, history)
    }

    constructor ()
      ensures Now() == Run([]) && Inv(Now())
    {
      records, history := map[], [];
    }

    method ExpireResult(key: string, now: int)
      requires key in records
      modifies this
      ensures Now() == Expire(old(Now()), key, now)
    {
      var r := records[key];
      if r.accepted && r.result.Some? && r.expiresAt.Some? && now >= r.expiresAt.value {
        records := records[key := r.(result := None, tombstone := true)];
        history := history + [Expired(key)];
      }
    }

    method SweepExpired(now: int) returns (removed: nat)
      requires Inv(Now())
      modifies this
      ensures Inv(Now()) && Now() == Sweep(old(Now()), now) && removed == |old(records)| - |records|
      ensures forall k :: k in records <==>
                && k in old(records)
                && var r := old(records)[k]; !(r.tombstone && r.expiresAt.Some? && now >= r.expiresAt.value)
      ensures forall k :: k in records ==> records[k] == old(records)[k]
    {
      hide Inv;
      SweepKeeps(Now(), now);
      var todo, swept: set<string> := records.Keys, {};
      removed := 0;
      while todo != {}
        invariant todo <= records.Keys && history == old(history)
        invariant swept <= old(records).Keys && swept !! todo && records == old(records) - swept
        invariant forall k :: k in old(records) && k !in todo ==> (k in swept <==> IsSweepable(old(records)[k], now))
        invariant removed == |swept| && |records| + |swept| == |old(records)|
        decreases todo
      {
        var k :| k in todo;
        todo := todo - {k};
        var r := records[k];
        if r.tombstone && r.expiresAt.Some? && now >= r.expiresAt.value {
          RemoveOne(records, k);
          records := records - {k};
          swept := swept + {k};
          removed := removed + 1;
        }
      }
      assert swept == Sweepable(old(records), now);
      history := history + [Swept(swept)];
    }

    method ReserveKey(key: string, hash: string, now: int) returns (a: Answer)
      requires Inv(Now())
      modifies this
      ensures Inv(Now()) && Now() == Reserve(old(Now()), key, hash, now)
      ensures a.Reserved? <==> !IsOpen(old(Now()), key)
      ensures a.ExpiredKey? <==> IsOpen(old(Now()), key) && IsSpent(old(records)[key], now)
      ensures a.Conflict? <==>
                IsOpen(old(Now()), key) && !IsSpent(old(records)[key], now) && old(records)[key].hash != hash
      ensures a.Replays? <==>
                IsOpen(old(Now()), key) && !IsSpent(old(records)[key], now) && old(records)[key].hash == hash
      ensures a.Replays? ==>
                && a.result == old(records)[key].result
                && history != [] && history[|history| - 1] == Replayed(key, hash, a.result)
    {
      hide Inv, Sweep;
      ReserveKeeps(Now(), key, hash, now);
      if key in records && !records[key].released {
        ExpireResult(key, now);
        var r := records[key];
        if r.tombstone { return ExpiredKey; }
        if r.hash != hash { return Conflict; }
        history := history + [Replayed(key, hash, r.result)];
        return Replays(r.result);
      }
      var _ := SweepExpired(now);
      records := records[key := Record(hash, None, false, false, None, None, false)];
      history := history + [Fresh(key, hash)];
      return Reserved;
    }

    method AcceptKey(key: string, invocation: string, at: int, ttl: int) returns (known: bool)
      requires Inv(Now())
      modifies `records
      ensures Inv(Now()) && Now() == Next(old(Now()), AcceptOp(key, invocation, at, ttl))
      ensures known <==> IsOpen(old(Now()), key)
    {
      hide Inv;
      NextKeeps(Now(), AcceptOp(key, invocation, at, ttl));
      known := key in records && !records[key].released;
      if known {
        records := records[key := records[key].(accepted := true, invocation := Some(invocation),
                                                expiresAt := Some(at + ttl))];
      }
    }

    method CompleteKey(key: string, value: string)
      requires Inv(Now())
      modifies this
      ensures Inv(Now()) && Now() == Next(old(Now()), CompleteOp(key, value))
    {
      hide Inv;
      NextKeeps(Now(), CompleteOp(key, value));
      if key in records {
        records := records[key := records[key].(result := Some(value))];
        history := history + [Completed(key, value)];
      }
    }

    method ReplayKey(key: string, now: int) returns (result: Option<string>)
      requires Inv(Now())
      modifies this
      ensures Inv(Now()) && Now() == Replay(old(Now()), key, now)
      ensures IsOpen(old(Now()), key) && !IsSpent(old(records)[key], now) ==>
                && result == old(records)[key].result
                && history != [] && history[|history| - 1] == Read(key, result)
      ensures result.None? <==>
                || !IsOpen(old(Now()), key) || IsSpent(old(records)[key], now) || old(records)[key].result.None?
    {
      hide Inv;
      ReplayKeeps(Now(), key, now);
      if key !in records || records[key].released { return None; }
      ExpireResult(key, now);
      if records[key].tombstone { return None; }
      result := records[key].result;
      history := history + [Read(key, result)];
    }

    method ReleaseKey(key: string)
      requires Inv(Now())
      modifies this
      ensures Inv(Now()) && Now() == Next(old(Now()), ReleaseOp(key))
    {
      hide Inv;
      NextKeeps(Now(), ReleaseOp(key));
      if key in records {
        records := records[key := records[key].(released := true)];
        history := history + [Released(key)];
      }
    }

    /** The idempotency part of deleting a session. */
    method DeleteInvocations(invocations: set<string>)
      requires Inv(Now())
      modifies this
      ensures Inv(Now()) && Now() == Next(old(Now()), DeleteOp(invocations))
      ensures forall k :: k in records <==>
                && k in old(records)
                && !(old(records)[k].invocation.Some? && old(records)[k].invocation.value in invocations)
      ensures forall k :: k in records ==> records[k] == old(records)[k]
    {
      hide Inv;
      NextKeeps(Now(), DeleteOp(invocations));
      var todo, gone: set<string> := records.Keys, {};
      while todo != {}
        invariant todo <= records.Keys && history == old(history)
        invariant gone <= old(records).Keys && gone !! todo && records == old(records) - gone
        invariant forall k :: k in old(records) && k !in todo ==> (k in gone <==> k in Owned(old(records), invocations))
        decreases todo
      {
        var k :| k in todo;
        todo := todo - {k};
        var r := records[k];
        if r.invocation.Some? && r.invocation.value in invocations {
          records := records - {k};
          gone := gone + {k};
        }
      }
      assert gone == Owned(old(records), invocations);
      history := history + [Deleted(gone)];
    }
  }

  lemma RemoveOne(records: map<string, Record>, k: string)
    requires k in records
    ensures |records - {k}| == |records| - 1
  {
    assert (records - {k}).Keys == records.Keys - {k};
    assert |(records - {k}).Keys| == |records - {k}|;
  }
}

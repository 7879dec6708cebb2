/**
 Session records and the durable rows that hold them (haas/stores/sqlite.py), for all keys at once.

 A record is written to the row named by its key's three parts joined by '|', and it carries those parts
 itself. Loading takes the key from the record, so a bar in a name does no harm by itself; but two keys
 that share a row name overwrite each other's record. A record with an empty name is not loaded at all.
 */
module SessionRows {
  import opened Wrappers
  import Leases

  type SessionKey = Leases.SessionKey

  /** A session record as far as its row is concerned: whose it is, and its contents. */
  datatype Record = Record(key: SessionKey, contents: string)

  datatype Table = Table(sessions: SessionKey -> Option<string>, rows: string -> Option<Record>)

  const NEW_TABLE := Table(_ => None, _ => None)

  function RowName(k: SessionKey): string { Leases.Encode(k) }

  /** `_valid_session_record`, as far as it looks at the key. */
  predicate Named(k: SessionKey) { k.app != "" && k.user != "" && k.session != "" }

  /** What loading finds for `k`: its record, if that is what its row holds. */
  function OwnRow(t: Table, k: SessionKey): Option<string> {
    if Named(k) && t.rows(RowName(k)).Some? && t.rows(RowName(k)).value.key == k
    then Some(t.rows(RowName(k)).value.contents) else None
  }

  // --------------------------------------------------------------------- runs

  datatype RowOp = Put(key: SessionKey, contents: string) | Delete(key: SessionKey) | Reload

  function After(t: Table, op: RowOp): Table {
    match op
    case Put(a, contents) =>
      Table(k => if k == a then Some(contents) else t.sessions(k),
            r => if r == RowName(a) then Some(Record(a, contents)) else t.rows(r))
    case Delete(a) =>
      Table(k => if k == a then None else t.sessions(k), r => if r == RowName(a) then None else t.rows(r))
    case Reload => t.(sessions := k => OwnRow(t, k))
  }

  function Run(ops: seq<RowOp>): Table
    decreases |ops|
  {
    if ops == [] then NEW_TABLE else After(Run(ops[..|ops| - 1]), ops[|ops| - 1])
  }

  /** The key that wrote row `r` last, unless the row was deleted since. */
  function LastWriter(ops: seq<RowOp>, r: string): Option<SessionKey>
    decreases |ops|
  {
    if ops == [] then None
    else
      var op := ops[|ops| - 1];
      if op.Reload? || RowName(op.key) != r then LastWriter(ops[..|ops| - 1], r)
      else if op.Put? then Some(op.key) else None
  }

  /** Rows hold their last writer's record, and that is its record in memory too (unless it was not loaded). */
  ghost predicate RowsOk(t: Table, ops: seq<RowOp>) {
    forall r ::
      && (t.rows(r).Some? <==> LastWriter(ops, r).Some?)
      && (t.rows(r).Some? ==>
            var record := t.rows(r).value;
            && LastWriter(ops, r) == Some(record.key) && RowName(record.key) == r
            && (Named(record.key) ==> t.sessions(record.key) == Some(record.contents)))
  }

  lemma {:induction false} RunRowsOk(ops: seq<RowOp>)
    ensures RowsOk(Run(ops), ops)
    decreases |ops|
  {
    hide RowName;
    if ops != [] {
      RunRowsOk(ops[..|ops| - 1]);
    }
  }

  // ----------------------------------------------------------------- theorems

  /** After any run of all keys, a session survives a reload exactly when its own key wrote its row last and
      none of its names is empty, and then it comes back as it was. */
  lemma SurvivesReloadIff(ops: seq<RowOp>, k: SessionKey)
    ensures var t, t' := Run(ops), After(Run(ops), Reload);
            && (t'.sessions(k).Some? <==> Named(k) && LastWriter(ops, RowName(k)) == Some(k))
            && (t'.sessions(k).Some? ==> t'.sessions(k) == t.sessions(k))
  {
    hide RowName, Run, LastWriter;
    RunRowsOk(ops);
  }

  /** No other key touches `k`'s row. */
  predicate RowLeftAlone(ops: seq<RowOp>, k: SessionKey) {
    forall i :: 0 <= i < |ops| && !ops[i].Reload? && RowName(ops[i].key) == RowName(k) ==> ops[i].key == k
  }

  /** A bar alone is harmless: whatever characters the key's names hold, a session whose row only its own key touches
      is always the one in its row, so no reload changes it. */
  lemma {:induction false} LeftAloneSurvives(ops: seq<RowOp>, k: SessionKey)
    requires Named(k) && RowLeftAlone(ops, k)
    ensures Run(ops).sessions(k) == OwnRow(Run(ops), k) == After(Run(ops), Reload).sessions(k)
    decreases |ops|
  {
    hide RowName;
    if ops != [] {
      var before := ops[..|ops| - 1];
      assert forall i :: 0 <= i < |before| ==> before[i] == ops[i];
      LeftAloneSurvives(before, k);
    }
  }

  /** Bar-free keys share no row, so among them each one's row is left alone. */
  lemma BarFreeKeysLeaveAlone(ops: seq<RowOp>, k: SessionKey)
    requires Leases.BarFree(k)
    requires forall i :: 0 <= i < |ops| && !ops[i].Reload? ==> Leases.BarFree(ops[i].key)
    ensures RowLeftAlone(ops, k)
  {
    hide Leases.Encode, Leases.BarFree;
    forall i | 0 <= i < |ops| && !ops[i].Reload? && RowName(ops[i].key) == RowName(k) ensures ops[i].key == k {
      Leases.EncodeInjective(ops[i].key, k);
    }
  }

  const FIRST := Leases.SessionKey("a|b", "c", "s")
  const SECOND := Leases.SessionKey("a", "b|c", "s")

  /** Two keys write one row: the later record comes back and the earlier one is gone. */
  lemma SharedRowLosesSession(x: string, y: string)
    ensures FIRST != SECOND && RowName(FIRST) == RowName(SECOND)
    ensures var t := Run([Put(FIRST, x), Put(SECOND, y)]);
            && t.sessions(FIRST) == Some(x) && t.sessions(SECOND) == Some(y)
            && After(t, Reload).sessions(FIRST) == None && After(t, Reload).sessions(SECOND) == Some(y)
  {
    assert RowName(FIRST) == "a|b|c|s" == RowName(SECOND);
    hide RowName;
    var ops := [Put(FIRST, x), Put(SECOND, y)];
    assert ops[..1] == [Put(FIRST, x)];
    assert [Put(FIRST, x)][..0] == [];
  }

  // ------------------------------------------------------------ the store itself

  /** The session dictionary and its rows, updated in place. */
  class SessionTable {
    var sessions: map<SessionKey, string>
    var rows: map<string, Record>

    /** Each record is in the row its own key names. */
    ghost predicate Valid()
      reads this
    {
      forall r :: r in rows ==> RowName(rows[r].key) == r
    }

    ghost function Contents(): Table
      reads this
    {
      var (s, d) := (sessions, rows);
      Table(k => if k in s then Some(s[k]) else None, r => if r in d then Some(d[r]) else None)
    }

    constructor ()
      ensures Valid()
      ensures forall k :: Contents().sessions(k) == None
      ensures forall r :: Contents().rows(r) == None
    {
      sessions, rows := map[], map[];
    }

    method PutSession(key: SessionKey, contents: string)
      requires Valid()
      modifies this
      ensures Valid()
      ensures Same(Contents(), After(old(Contents()), Put(key, contents)))
    {
      sessions := sessions[key := contents];
      rows := rows[RowName(key) := Record(key, contents)];
    }

    method DeleteSession(key: SessionKey)
      requires Valid()
      modifies this
      ensures Valid()
      ensures Same(Contents(), After(old(Contents()), Delete(key)))
    {
      sessions := sessions - {key};
      rows := rows - {RowName(key)};
    }

    /** `_load`: rebuild the dictionary from the rows, under the key each valid record carries. */
    method ReloadSessions()
      requires Valid()
      modifies `sessions
      ensures Valid()
      ensures Same(Contents(), After(old(Contents()), Reload))
    {
      hide RowName;
      sessions := map[];
      var todo := rows.Keys;
      while todo != {}
        invariant todo <= rows.Keys
        invariant forall k :: k in sessions <==>
                    Named(k) && RowName(k) in rows.Keys - todo && rows[RowName(k)].key == k
        invariant forall k :: k in sessions ==> sessions[k] == rows[RowName(k)].contents
        decreases |todo|
      {
        var r :| r in todo;
        if Named(rows[r].key) {
          sessions := sessions[rows[r].key := rows[r].contents];
        }
        todo := todo - {r};
      }
    }
  }

  /** Two tables with the same contents. */
  ghost predicate Same(t: Table, t': Table) {
    && (forall k :: t.sessions(k) == t'.sessions(k))
    && (forall r :: t.rows(r) == t'.rows(r))
  }
}

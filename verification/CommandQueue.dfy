/**
 Accepted conversation commands and their follow-up queue
 (manager/coworker/conversation_commands.py), for one conversation.

 Two linked tables: commands, and queue rows with integer positions and optimistic revisions; plus the
 mutation log that makes queue edits idempotent, and the pause flag. This module gives each database
 transaction as a function from store to store; `CommandTables.CommandStore` runs them on mutable tables.
 */
module CommandQueue {
  import opened Wrappers

  // -------------------------------------------------------------------- tables

  datatype Disposition = Running | Queued | Terminal

  datatype Command = Command(
    key: string, disposition: Disposition, turn: Option<nat>, item: Option<nat>, outcome: string,
    execution: Option<string>, payload: string, checkpointed: bool, createdAt: int)

  datatype RowState = Waiting | Dispatching

  datatype Row = Row(command: string, position: int, state: RowState, delivery: string, revision: nat, createdAt: int)

  datatype Edit = DeleteEdit | DraftEdit | SendNowEdit | MoveEdit | ResumeEdit

  datatype EditResult = Done | Payload(text: string) | MovedTo(position: int) | Resumed(was: bool)

  datatype Mutation = Mutation(kind: Edit, item: Option<nat>, result: EditResult)

  datatype Pause = Pause(paused: bool, reason: Option<string>)

  datatype Store = Store(
    commands: map<string, Command>,
    rows: map<nat, Row>,
    mutations: map<string, Mutation>,
    pause: Option<Pause>)

  const NEW_STORE := Store(map[], map[], map[], None)

  // ------------------------------------------------------- ORDER BY and MAX

  /** `ORDER BY position, created_at_ms, queue_item_id` */
  predicate Before(rows: map<nat, Row>, a: nat, b: nat)
    requires a in rows && b in rows
  {
    || rows[a].position < rows[b].position
    || (rows[a].position == rows[b].position && rows[a].createdAt < rows[b].createdAt)
    || (rows[a].position == rows[b].position && rows[a].createdAt == rows[b].createdAt && a < b)
  }

  predicate First(rows: map<nat, Row>, ids: set<nat>, m: nat)
    requires ids <= rows.Keys
  {
    m in ids && forall x :: x in ids && x != m ==> Before(rows, m, x)
  }

  lemma FirstExists(rows: map<nat, Row>, ids: set<nat>)
    requires ids <= rows.Keys && ids != {}
    ensures exists m :: First(rows, ids, m)
  {
    var x :| x in ids;
    if ids == {x} {
      assert First(rows, ids, x);
    } else {
      FirstExists(rows, ids - {x});
      var m :| First(rows, ids - {x}, m);
      if Before(rows, x, m) {
        forall y | y in ids && y != x ensures Before(rows, x, y) {
          assert y == m || Before(rows, m, y);
        }
        assert First(rows, ids, x);
      } else {
        assert First(rows, ids, m);
      }
    }
  }

  function Ordered(rows: map<nat, Row>, ids: set<nat>): (q: seq<nat>)
    requires ids <= rows.Keys
    ensures Sorted(rows, q) && Elems(q) == ids
  {
    if ids == {} then []
    else
      FirstExists(rows, ids);
      var m :| First(rows, ids, m);
      var rest := Ordered(rows, ids - {m});
      assert forall i :: 0 <= i < |rest| ==> rest[i] in Elems(rest);
      assert Elems([m] + rest) == {m} + Elems(rest);
      [m] + rest
  }

  function Elems(q: seq<nat>): set<nat> { set x | x in q }

  predicate Sorted(rows: map<nat, Row>, q: seq<nat>) {
    && (forall i :: 0 <= i < |q| ==> q[i] in rows)
    && (forall i, j :: 0 <= i < j < |q| ==> Before(rows, q[i], q[j]))
  }

  lemma NoElems(q: seq<nat>)
    ensures Elems(q) == {} ==> q == []
  {
    if q != [] { assert q[0] in Elems(q); }
  }

  /** The sorted listing of a set of rows is unique. */
  lemma {:induction false} SortedUnique(rows: map<nat, Row>, q: seq<nat>, q': seq<nat>)
    requires Sorted(rows, q) && Sorted(rows, q') && Elems(q) == Elems(q')
    ensures q == q'
    decreases |q|
  {
    if q == [] {
      NoElems(q');
    } else {
      assert q[0] in Elems(q') && q'[0] in Elems(q);
      assert q[0] == q'[0];
      assert Elems(q[1..]) == Elems(q) - {q[0]};
      assert Elems(q'[1..]) == Elems(q') - {q'[0]};
      SortedUnique(rows, q[1..], q'[1..]);
    }
  }

  function WaitingIds(rows: map<nat, Row>): set<nat> {
    set q | q in rows && rows[q].state == Waiting
  }

  /** The queue as the user sees it: the waiting rows in order. */
  function Queue(s: Store): seq<nat> {
    Ordered(s.rows, WaitingIds(s.rows))
  }

  ghost predicate HasPosition(rows: map<nat, Row>, p: int) {
    exists q :: q in rows && rows[q].position == p
  }

  /** `COALESCE(MAX(position), 0) + 1`, for positions that are at least 1. */
  ghost function NextPosition(rows: map<nat, Row>): (p: int)
    ensures p >= 1
    ensures forall q :: q in rows ==> rows[q].position < p
    ensures p == 1 || HasPosition(rows, p - 1)
    decreases |rows|
  {
    if rows == map[] then 1
    else
      var q :| q in rows;
      var others := rows - {q};
      var rest := NextPosition(others);
      assert forall r :: r in rows ==> r == q || (r in others && others[r] == rows[r]);
      if rows[q].position < rest then
        assert rest != 1 ==> HasPosition(rows, rest - 1) by {
          if rest != 1 { var r :| r in others && others[r].position == rest - 1; assert rows[r].position == rest - 1; }
        }
        rest
      else
        assert HasPosition(rows, rows[q].position + 1 - 1);
        rows[q].position + 1
  }

  // ------------------------------------------------------------- renumbering

  predicate Distinct(q: seq<nat>) {
    forall i, j :: 0 <= i < j < |q| ==> q[i] != q[j]
  }

  /** A row that changes position gets a new revision; one already in place is left alone. */
  function Placed(r: Row, position: int): Row {
    if r.position == position then r else r.(position := position, revision := r.revision + 1)
  }

  /** Give the listed rows the positions `from + 1, from + 2, ...` in listing order. */
  function Renumber(rows: map<nat, Row>, q: seq<nat>, from: nat): (r: map<nat, Row>)
    requires Distinct(q) && Elems(q) <= rows.Keys
    ensures r.Keys == rows.Keys
    ensures forall i :: 0 <= i < |q| ==> q[i] in rows && r[q[i]] == Placed(rows[q[i]], from + i + 1)
    ensures forall x :: x in rows && x !in q ==> r[x] == rows[x]
    decreases |q|
  {
    if q == [] then rows
    else
      assert q[0] in Elems(q);
      assert forall i :: 0 <= i < |q[1..]| ==> q[1..][i] == q[i + 1] && q[i + 1] in Elems(q);
      var rows1 := rows[q[0] := Placed(rows[q[0]], from + 1)];
      Renumber(rows1, q[1..], from + 1)
  }

  lemma SortedIsDistinct(rows: map<nat, Row>, q: seq<nat>)
    requires Sorted(rows, q)
    ensures Distinct(q) && Elems(q) <= rows.Keys
  {
  }

  /** `_normalize_queue_positions` */
  function Normalized(rows: map<nat, Row>): map<nat, Row> {
    var q := Ordered(rows, WaitingIds(rows));
    SortedIsDistinct(rows, q);
    Renumber(rows, q, 0)
  }

  // ------------------------------------------------------------ transactions

  /** Every row's command exists, so the joins drop nothing. */
  predicate Joined(s: Store) {
    forall q :: q in s.rows ==> s.rows[q].command in s.commands
  }

  predicate IsPaused(s: Store) { s.pause.Some? && s.pause.value.paused }

  function ClearPauseIfEmpty(s: Store): Store {
    if s.rows == map[] then s.(pause := None) else s
  }

  predicate KeyUsed(s: Store, key: string) {
    exists c :: c in s.commands && s.commands[c].key == key
  }

  datatype Request = Request(command: string, key: string, enqueue: bool, delivery: string, payload: string)

  /** The request is new and the conversation can take it. */
  predicate Acceptable(s: Store, r: Request, busy: bool) {
    !KeyUsed(s, r.key) && r.command !in s.commands && (busy ==> r.enqueue)
  }

  /** `accept`, with the turn and queue item ids it would draw. */
  ghost function Accept(s: Store, r: Request, busy: bool, turn: nat, item: nat, now: int): Store {
    if !Acceptable(s, r, busy) then s
    else if busy then
      s.(commands := s.commands[r.command := Command(r.key, Queued, None, Some(item), "", None, r.payload, false, now)],
         rows := s.rows[item := Row(r.command, NextPosition(s.rows), Waiting, r.delivery, 1, now)])
    else
      s.(commands := s.commands[
           r.command := Command(r.key, Running, Some(turn), None, "", None, r.payload, false, now)])
  }

  /** `claim_next` */
  function Claim(s: Store, turn: nat): Store
    requires Joined(s)
  {
    if IsPaused(s) || Queue(s) == [] then s
    else
      var q := Queue(s)[0];
      assert q in Elems(Queue(s));
      var row := s.rows[q];
      s.(commands := s.commands[row.command := s.commands[row.command].(disposition := Running, turn := Some(turn))],
         rows := s.rows[q := row.(state := Dispatching, revision := row.revision + 1)])
  }

  predicate Bound(c: Command, turn: nat) { c.turn == Some(turn) && c.disposition == Running }

  /** A reference that is there and not empty. */
  predicate Given(ref: Option<string>) { ref.Some? && ref.value != "" }

  /** The turn is bound to another execution, and may not be bound again. */
  predicate Rebinding(c: Command, ref: Option<string>, rebind: bool) {
    Given(c.execution) && Given(ref) && c.execution != ref && !rebind
  }

  function Resolved(c: Command, ref: Option<string>, rebind: bool): Option<string> {
    if rebind && Given(ref) then ref else if Given(c.execution) then c.execution else ref
  }

  /** The update's own condition: the row is not marked yet, or is bound otherwise. */
  predicate Moves(c: Command, ref: Option<string>, rebind: bool) {
    !c.checkpointed || c.execution != Resolved(c, ref, rebind)
  }

  /** `checkpoint_execution` */
  function Checkpoint(s: Store, turn: nat, ref: Option<string>, rebind: bool): Store {
    if exists c :: c in s.commands && Bound(s.commands[c], turn) && Rebinding(s.commands[c], ref, rebind) then s
    else
      s.(commands := map c | c in s.commands ::
           if Bound(s.commands[c], turn)
           then s.commands[c].(checkpointed := true, execution := Resolved(s.commands[c], ref, rebind))
           else s.commands[c])
  }

  predicate Uncertain(c: Command, turn: nat) {
    c.turn == Some(turn) && c.disposition == Running && c.item.None? && !c.checkpointed
  }

  /** `recover_uncheckpointed`: move an accepted command of unknown fate to the end of a paused queue. */
  ghost function Recover(s: Store, turn: nat, item: nat): Store {
    if !exists c :: c in s.commands && Uncertain(s.commands[c], turn) then s
    else
      var c :| c in s.commands && Uncertain(s.commands[c], turn);
      s.(commands := s.commands[c := s.commands[c].(disposition := Queued, turn := None, item := Some(item))],
         rows := s.rows[item := Row(c, NextPosition(s.rows), Waiting, "start_now", 1, s.commands[c].createdAt)],
         pause := Some(Pause(true, Some("restart_uncertain"))))
  }

  function Ended(c: Command, outcome: string): Command { c.(disposition := Terminal, outcome := outcome) }

  function RowsExcept(rows: map<nat, Row>, done: set<string>): map<nat, Row> {
    map q | q in rows && rows[q].command !in done :: rows[q]
  }

  /** Delete the rows of the commands in `done`, renumber, and drop the pause of an empty queue. */
  function Dequeued(s: Store, done: set<string>): Store {
    ClearPauseIfEmpty(s.(rows := Normalized(RowsExcept(s.rows, done))))
  }

  /** `mark_terminal` */
  function MarkTerminal(s: Store, turn: nat, outcome: string): Store {
    var done := set c | c in s.commands && s.commands[c].turn == Some(turn);
    Dequeued(s, done).(commands := map c | c in s.commands ::
                         if c in done then Ended(s.commands[c], outcome) else s.commands[c])
  }

  /** `mark_execution_terminal`: ends the running commands bound to `ref`, but deletes the rows of every
      command bound to it. */
  function MarkExecutionTerminal(s: Store, ref: string, outcome: string): Store {
    var bound := set c | c in s.commands && s.commands[c].execution == Some(ref);
    Dequeued(s, bound).(commands := map c | c in s.commands ::
                          if c in bound && s.commands[c].disposition == Running then Ended(s.commands[c], outcome)
                          else s.commands[c])
  }

  /** Rows that are being dispatched go back to waiting where `back` says so. */
  function Requeued(rows: map<nat, Row>, back: set<nat>): map<nat, Row> {
    map q | q in rows ::
      if q in back then rows[q].(state := Waiting, revision := rows[q].revision + 1) else rows[q]
  }

  /** `pause_queue` */
  function PauseQueue(s: Store, reason: string, restore: bool): Store {
    var s1 := s.(pause := Some(Pause(true, Some(reason))));
    if !restore then s1
    else
      var rows := Requeued(s.rows, set q | q in s.rows && s.rows[q].state == Dispatching);
      s1.(rows := rows,
          commands := map c | c in s.commands ::
            if s.commands[c].item.Some? && s.commands[c].item.value in rows
               && rows[s.commands[c].item.value].state == Waiting
            then s.commands[c].(disposition := Queued, turn := None) else s.commands[c])
  }

  /** A claimed row whose turn never reached the transcript. */
  function UncertainRows(s: Store): set<nat>
    requires Joined(s)
  {
    set q | q in s.rows && s.rows[q].state == Dispatching && !s.commands[s.rows[q].command].checkpointed
  }

  /** Opening the store again: claimed but uncheckpointed rows wait again, and the queue is paused. */
  function Reopen(s: Store): Store
    requires Joined(s)
  {
    var back := UncertainRows(s);
    if back == {} then s
    else
      s.(rows := Requeued(s.rows, back),
         commands := map c | c in s.commands ::
           if s.commands[c].item.Some? && s.commands[c].item.value in s.rows && !s.commands[c].checkpointed
           then s.commands[c].(disposition := Queued, turn := None) else s.commands[c],
         pause := Some(Pause(true, Some("restart_uncertain"))))
  }

  // ------------------------------------------------------------ queue edits

  datatype Lookup = Unseen | Replay(result: EditResult) | Reused

  /** `_existing_mutation`; the empty key is never recorded. */
  function Seen(s: Store, key: string, kind: Edit, item: Option<nat>): Lookup {
    if key == "" || key !in s.mutations then Unseen
    else if s.mutations[key].kind == kind && s.mutations[key].item == item then Replay(s.mutations[key].result)
    else Reused
  }

  function Recorded(s: Store, key: string, m: Mutation): Store {
    if key == "" then s else s.(mutations := s.mutations[key := m])
  }

  /** `_queued_row` finds the row waiting at the expected revision. */
  predicate Current(s: Store, item: nat, revision: int) {
    item in s.rows && s.rows[item].state == Waiting && s.rows[item].revision == revision
  }

  /** The edit goes ahead: not replayed, and the caller's revision is still current. */
  predicate Proceeds(s: Store, item: nat, revision: int, key: string, kind: Edit) {
    Seen(s, key, kind, Some(item)).Unseen? && Current(s, item, revision)
  }

  function Removed(s: Store, item: nat, outcome: string): Store
    requires item in s.rows && Joined(s)
  {
    var c := s.rows[item].command;
    ClearPauseIfEmpty(s.(rows := Normalized(s.rows - {item}))).(
      commands := s.commands[c := Ended(s.commands[c], outcome)])
  }

  /** `delete_queue_item` */
  function DeleteItem(s: Store, item: nat, revision: int, key: string): Store
    requires Joined(s)
  {
    if !Proceeds(s, item, revision, key, DeleteEdit) then s
    else Recorded(Removed(s, item, "queue_deleted"), key, Mutation(DeleteEdit, Some(item), Done))
  }

  /** `restore_queue_item`: the item goes back to the composer as a draft. */
  function RestoreDraft(s: Store, item: nat, revision: int, key: string): Store
    requires Joined(s)
  {
    if !Proceeds(s, item, revision, key, DraftEdit) then s
    else Recorded(Removed(s, item, "queue_restored"), key,
                  Mutation(DraftEdit, Some(item), Payload(s.commands[s.rows[item].command].payload)))
  }

  /** `prioritize_queue_item`: every waiting row moves down by one, then the item takes position 1. */
  function Shifted(rows: map<nat, Row>, item: nat): map<nat, Row> {
    map q | q in rows ::
      if rows[q].state != Waiting then rows[q]
      else rows[q].(position := if q == item then 1 else rows[q].position + 1, revision := rows[q].revision + 1)
  }

  function Prioritize(s: Store, item: nat, revision: int, key: string): Store {
    if !Proceeds(s, item, revision, key, SendNowEdit) then s
    else Recorded(s.(rows := Shifted(s.rows, item), pause := Some(Pause(false, None))), key,
                  Mutation(SendNowEdit, Some(item), Done))
  }

  function Without(q: seq<nat>, x: nat): (r: seq<nat>)
    ensures forall y :: y in r <==> y in q && y != x
    ensures |r| <= |q|
  {
    if q == [] then [] else (if q[0] == x then [] else [q[0]]) + Without(q[1..], x)
  }

  /** `max(1, min(target, length + 1))` */
  function Clamp(target: int, length: nat): int {
    if target < 1 then 1 else if target > length + 1 then length + 1 else target
  }

  function Inserted(q: seq<nat>, x: nat, target: int): seq<nat> {
    var at := Clamp(target, |q|) - 1;
    q[..at] + [x] + q[at..]
  }

  /** `move_queue_item` */
  function Move(s: Store, item: nat, revision: int, target: int, key: string): Store {
    if !Proceeds(s, item, revision, key, MoveEdit) then s
    else
      var rest := Without(Queue(s), item);
      var q := Inserted(rest, item, target);
      MovedDistinct(s, item, target);
      Recorded(s.(rows := Renumber(s.rows, q, 0)), key,
               Mutation(MoveEdit, Some(item), MovedTo(Clamp(target, |rest|))))
  }

  lemma {:induction false} WithoutSorted(rows: map<nat, Row>, q: seq<nat>, x: nat)
    requires Sorted(rows, q)
    ensures Sorted(rows, Without(q, x))
  {
    if q != [] {
      WithoutSorted(rows, q[1..], x);
      var r := Without(q[1..], x);
      forall j | 0 <= j < |r| ensures Before(rows, q[0], r[j]) {
        assert r[j] in q[1..];
        var k :| 0 <= k < |q[1..]| && q[1..][k] == r[j];
      }
    }
  }

  lemma InsertedElems(q: seq<nat>, x: nat, target: int)
    requires Distinct(q) && x !in q
    ensures Distinct(Inserted(q, x, target)) && Elems(Inserted(q, x, target)) == Elems(q) + {x}
  {
    var at := Clamp(target, |q|) - 1;
    var r := Inserted(q, x, target);
    assert r[at] == x;
    assert forall i :: 0 <= i < |r| ==> r[i] == if i < at then q[i] else if i == at then x else q[i - 1];
    assert q == q[..at] + q[at..];
  }

  lemma MovedDistinct(s: Store, item: nat, target: int)
    requires item in WaitingIds(s.rows)
    ensures var q := Inserted(Without(Queue(s), item), item, target);
            Distinct(q) && Elems(q) == WaitingIds(s.rows)
  {
    var q := Queue(s);
    hide Ordered, Without;
    WithoutSorted(s.rows, q, item);
    SortedIsDistinct(s.rows, Without(q, item));
    InsertedElems(Without(q, item), item, target);
    assert item in Elems(q);
    assert Elems(Without(q, item)) == Elems(q) - {item};
  }

  /** `resume_queue` */
  function Resume(s: Store, key: string): Store {
    if !Seen(s, key, ResumeEdit, None).Unseen? then s
    else Recorded(s.(pause := Some(Pause(false, None))), key, Mutation(ResumeEdit, None, Resumed(IsPaused(s))))
  }
}

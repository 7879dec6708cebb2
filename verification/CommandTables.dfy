/**
 The command store on its mutable tables (manager/coworker/conversation_commands.py). Each method is one
 database transaction; its contract names the function of `CommandQueue` that gives the new tables.
 */
module CommandTables {
  import opened Wrappers
  import opened CommandQueue
  import opened QueueSafety

  datatype Receipt =
    | Accepted(disposition: Disposition, turn: Option<nat>, item: Option<nat>)
    | Duplicate(command: string)
    | IdReused
    | Busy

  datatype Dispatch = Dispatch(command: string, item: nat, turn: nat, payload: string)

  datatype EditOutcome = Applied(result: EditResult) | Replayed(result: EditResult) | KeyReused | NoSuchItem | Stale

  class CommandStore {
    var commands: map<string, Command>
    var rows: map<nat, Row>
    var mutations: map<string, Mutation>
    var pause: Option<Pause>

    function State(): Store
      reads this
    {
      Store(commands, rows, mutations, pause)
    }

    predicate Valid()
      reads this
    {
      Linked(State()) && Joined(State())
    }

    constructor ()
      ensures State() == NEW_STORE && Valid()
    {
      commands, rows, mutations, pause := map[], map[], map[], None;
    }

    // --------------------------------------------------------- row scans

    /** `SELECT COALESCE(MAX(position), 0) + 1` */
    method EndPosition() returns (p: int)
      requires Valid()
      ensures p == NextPosition(rows)
    {
      var left := rows.Keys;
      p := 1;
      while left != {}
        invariant left <= rows.Keys && p >= 1
        invariant forall q :: q in rows && q !in left ==> rows[q].position < p
        invariant p == 1 || HasPosition(rows, p - 1)
        decreases left
      {
        var q :| q in left;
        if rows[q].position >= p { p := rows[q].position + 1; }
        left := left - {q};
      }
      MaxUnique(rows, p);
    }

    /** Write consecutive positions along a listing; rows already in place keep their revision. */
    method Place(q: seq<nat>)
      requires Distinct(q) && Elems(q) <= rows.Keys
      modifies `rows
      ensures rows == Renumber(old(rows), q, 0)
    {
      assert q[0..] == q;
      for i := 0 to |q|
        invariant Listed(rows, q[i..]) && Renumber(rows, q[i..], i) == Renumber(old(rows), q, 0)
      {
        RenumberStep(rows, q, i);
        hide Renumber;
        var r := rows[q[i]];
        if r.position != i + 1 {
          rows := rows[q[i] := r.(position := i + 1, revision := r.revision + 1)];
        } else {
          assert rows[q[i] := r] == rows;
        }
      }
    }

    method Normalize()
      modifies `rows
      ensures rows == Normalized(old(rows))
    {
      var q := Ordered(rows, WaitingIds(rows));
      SortedIsDistinct(rows, q);
      Place(q);
    }

    method ClearPauseWhenEmpty()
      modifies `pause
      ensures State() == ClearPauseIfEmpty(old(State()))
    {
      if rows == map[] { pause := None; }
    }

    // ------------------------------------------------------ transactions

    method Accept(r: Request, busy: bool, turn: nat, item: nat, now: int) returns (receipt: Receipt)
      requires Valid() && FreshItem(State(), item)
      modifies this
      ensures Valid() && State() == CommandQueue.Accept(old(State()), r, busy, turn, item, now)
      ensures receipt.Accepted? <==> Acceptable(old(State()), r, busy)
      ensures receipt.Accepted? ==>
                receipt == if busy then Accepted(Queued, None, Some(item)) else Accepted(Running, Some(turn), None)
      ensures receipt.Duplicate? <==> KeyUsed(old(State()), r.key)
      ensures receipt.Duplicate? ==> receipt.command in commands && commands[receipt.command].key == r.key
      ensures receipt == IdReused <==> !KeyUsed(old(State()), r.key) && r.command in old(commands)
    {
      ghost var s := State();
      if c :| c in commands && commands[c].key == r.key {
        return Duplicate(c);
      }
      if r.command in commands { return IdReused; }
      if busy && !r.enqueue { return Busy; }
      AcceptLinked(s, r, busy, turn, item, now);
      hide Linked;
      if busy {
        var p := EndPosition();
        commands := commands[r.command := Command(r.key, Queued, None, Some(item), "", None, r.payload, false, now)];
        rows := rows[item := Row(r.command, p, Waiting, r.delivery, 1, now)];
        receipt := Accepted(Queued, None, Some(item));
      } else {
        commands := commands[r.command := Command(r.key, Running, Some(turn), None, "", None, r.payload, false, now)];
        receipt := Accepted(Running, Some(turn), None);
      }
      LinkedJoined(State());
    }

    method ClaimNext(turn: nat) returns (d: Option<Dispatch>)
      requires Valid()
      modifies `commands, `rows
      ensures Valid() && State() == Claim(old(State()), turn)
      ensures d.None? <==> IsPaused(old(State())) || Queue(old(State())) == []
      ensures d.Some? ==>
                var q := Queue(old(State()))[0];
                q in old(rows) && old(rows[q].command) in old(commands)
                && d.value == Dispatch(old(rows[q].command), q, turn, old(commands[rows[q].command].payload))
    {
      ghost var s := State();
      ClaimLinked(s, turn);
      hide Linked;
      if pause.Some? && pause.value.paused { return None; }
      var waiting := Ordered(rows, WaitingIds(rows));
      hide Ordered;
      if waiting == [] { return None; }
      var q := waiting[0];
      assert q in Elems(waiting);
      var row := rows[q];
      d := Some(Dispatch(row.command, q, turn, commands[row.command].payload));
      commands := commands[row.command := commands[row.command].(disposition := Running, turn := Some(turn))];
      rows := rows[q := row.(state := Dispatching, revision := row.revision + 1)];
      LinkedJoined(State());
    }

    method MarkTerminal(turn: nat, outcome: string) returns (found: bool)
      requires Valid()
      modifies this
      ensures Valid() && State() == CommandQueue.MarkTerminal(old(State()), turn, outcome)
      ensures found <==> exists c :: c in old(commands) && old(commands[c]).turn == Some(turn)
    {
      hide Linked, Joined, Normalized;
      TerminalLinked(State(), turn, outcome);
      var done := set c | c in commands && commands[c].turn == Some(turn);
      found := exists c :: c in commands && commands[c].turn == Some(turn);
      commands := map c | c in commands :: if c in done then Ended(commands[c], outcome) else commands[c];
      rows := RowsExcept(rows, done);
      Normalize();
      ClearPauseWhenEmpty();
      LinkedJoined(State());
    }

    method MarkExecutionTerminal(ref: string, outcome: string) returns (found: bool)
      requires Valid()
      modifies this
      ensures State() == CommandQueue.MarkExecutionTerminal(old(State()), ref, outcome)
      ensures (forall c :: c in old(commands) && old(commands[c]).disposition == Queued
                           ==> old(commands[c]).execution != Some(ref)) ==> Valid()
      ensures found <==> exists c :: c in old(commands) && old(commands[c]).execution == Some(ref)
                                     && old(commands[c]).disposition == Running
    {
      hide Linked, Joined, Normalized;
      ghost var s := State();
      ExecutionTerminalLinkedIff(s, ref, outcome);
      var bound := set c | c in commands && commands[c].execution == Some(ref);
      found := exists c :: c in commands && commands[c].execution == Some(ref) && commands[c].disposition == Running;
      commands := map c | c in commands ::
        if c in bound && commands[c].disposition == Running then Ended(commands[c], outcome) else commands[c];
      rows := RowsExcept(rows, bound);
      Normalize();
      ClearPauseWhenEmpty();
      if Linked(State()) { LinkedJoined(State()); }
    }

    /** `changed`: the update found a row that was not marked, or not bound to that execution. */
    method CheckpointExecution(turn: nat, ref: Option<string>, rebind: bool) returns (conflict: bool, changed: bool)
      requires Valid()
      modifies `commands
      ensures Valid() && State() == Checkpoint(old(State()), turn, ref, rebind)
      ensures conflict <==> exists c :: c in old(commands) && Bound(old(commands[c]), turn)
                                        && Rebinding(old(commands[c]), ref, rebind)
      ensures changed <==> commands != old(commands)
    {
      CheckpointLinked(State(), turn, ref, rebind);
      hide Linked;
      conflict := exists c :: c in commands && Bound(commands[c], turn) && Rebinding(commands[c], ref, rebind);
      CheckpointChangesIff(State(), turn, ref, rebind);
      if conflict {
        changed := false;
      } else {
        changed := exists c :: c in commands && Bound(commands[c], turn) && Moves(commands[c], ref, rebind);
        commands := map c | c in commands ::
          if Bound(commands[c], turn)
          then commands[c].(checkpointed := true, execution := Resolved(commands[c], ref, rebind)) else commands[c];
      }
      LinkedJoined(State());
    }

    /** At most one command is bound to a turn, so the uncertain one is the one found. */
    method RecoverUncheckpointed(turn: nat, item: nat) returns (moved: bool)
      requires Valid() && FreshItem(State(), item)
      requires forall c, d :: c in commands && Uncertain(commands[c], turn) ==>
                 d in commands && Uncertain(commands[d], turn) ==> c == d
      modifies this
      ensures Valid() && State() == Recover(old(State()), turn, item)
      ensures moved <==> exists c :: c in old(commands) && Uncertain(old(commands[c]), turn)
    {
      RecoverLinked(State(), turn, item);
      hide Linked;
      if c :| c in commands && Uncertain(commands[c], turn) {
        var p := EndPosition();
        rows := rows[item := Row(c, p, Waiting, "start_now", 1, commands[c].createdAt)];
        commands := commands[c := commands[c].(disposition := Queued, turn := None, item := Some(item))];
        pause := Some(Pause(true, Some("restart_uncertain")));
        moved := true;
      } else {
        moved := false;
      }
      LinkedJoined(State());
    }

    method PauseQueue(reason: string, restore: bool)
      requires Valid()
      modifies this
      ensures Valid() && State() == CommandQueue.PauseQueue(old(State()), reason, restore)
    {
      PauseLinked(State(), reason, restore);
      hide Linked;
      if restore {
        rows := Requeued(rows, set q | q in rows && rows[q].state == Dispatching);
        commands := map c | c in commands ::
          if commands[c].item.Some? && commands[c].item.value in rows && rows[commands[c].item.value].state == Waiting
          then commands[c].(disposition := Queued, turn := None) else commands[c];
      }
      pause := Some(Pause(true, Some(reason)));
      LinkedJoined(State());
    }

    /** What opening the database does to its tables. */
    method Restart()
      requires Valid()
      modifies this
      ensures Valid() && State() == Reopen(old(State()))
    {
      ghost var s := State();
      ReopenLinked(s);
      hide Linked, Joined;
      var back := UncertainRows(State());
      hide UncertainRows;
      if back != {} {
        rows := Requeued(rows, back);
        assert rows.Keys == s.rows.Keys;
        hide Requeued;
        commands := map c | c in commands ::
          if commands[c].item.Some? && commands[c].item.value in rows && !commands[c].checkpointed
          then commands[c].(disposition := Queued, turn := None) else commands[c];
        pause := Some(Pause(true, Some("restart_uncertain")));
        assert commands == Reopen(s).commands;
      }
      LinkedJoined(State());
    }

    // -------------------------------------------------------- queue edits

    /** `_existing_mutation`, then `_queued_row`. */
    method Admit(item: nat, revision: int, key: string, kind: Edit) returns (refusal: Option<EditOutcome>)
      ensures refusal.None? <==> Proceeds(State(), item, revision, key, kind)
      ensures refusal.Some? && refusal.value.Replayed? <==> Seen(State(), key, kind, Some(item)).Replay?
      ensures refusal.Some? && refusal.value.Replayed? ==>
                refusal.value.result == Seen(State(), key, kind, Some(item)).result
      ensures refusal == Some(KeyReused) <==> Seen(State(), key, kind, Some(item)).Reused?
      ensures refusal == Some(NoSuchItem) <==> Seen(State(), key, kind, Some(item)).Unseen? && item !in rows
      ensures refusal.Some? ==> !refusal.value.Applied?
    {
      if key != "" && key in mutations {
        return Some(if mutations[key].kind == kind && mutations[key].item == Some(item)
                    then Replayed(mutations[key].result) else KeyReused);
      }
      if item !in rows { return Some(NoSuchItem); }
      if rows[item].state != Waiting || rows[item].revision != revision { return Some(Stale); }
      return None;
    }

    method Record(key: string, m: Mutation)
      modifies `mutations
      ensures State() == Recorded(old(State()), key, m)
    {
      if key != "" { mutations := mutations[key := m]; }
    }

    method RemoveRow(item: nat, outcome: string)
      requires Joined(State()) && item in rows
      modifies this
      ensures State() == Removed(old(State()), item, outcome)
    {
      var c := rows[item].command;
      rows := rows - {item};
      Normalize();
      ClearPauseWhenEmpty();
      commands := commands[c := Ended(commands[c], outcome)];
    }

    method DeleteQueueItem(item: nat, revision: int, key: string) returns (o: EditOutcome)
      requires Valid()
      modifies this
      ensures Valid() && State() == DeleteItem(old(State()), item, revision, key)
      ensures o.Applied? <==> Proceeds(old(State()), item, revision, key, DeleteEdit)
    {
      DeleteLinked(State(), item, revision, key);
      hide Linked, Removed;
      var refusal := Admit(item, revision, key, DeleteEdit);
      if refusal.Some? { return refusal.value; }
      RemoveRow(item, "queue_deleted");
      Record(key, Mutation(DeleteEdit, Some(item), Done));
      LinkedJoined(State());
      return Applied(Done);
    }

    method RestoreQueueItem(item: nat, revision: int, key: string) returns (o: EditOutcome)
      requires Valid()
      modifies this
      ensures Valid() && State() == RestoreDraft(old(State()), item, revision, key)
      ensures o.Applied? <==> Proceeds(old(State()), item, revision, key, DraftEdit)
      ensures o.Applied? ==> item in old(rows) && old(rows[item].command) in old(commands)
                             && o.result == Payload(old(commands[rows[item].command].payload))
    {
      DeleteLinked(State(), item, revision, key);
      hide Linked, Removed;
      var refusal := Admit(item, revision, key, DraftEdit);
      if refusal.Some? { return refusal.value; }
      var payload := commands[rows[item].command].payload;
      RemoveRow(item, "queue_restored");
      Record(key, Mutation(DraftEdit, Some(item), Payload(payload)));
      LinkedJoined(State());
      return Applied(Payload(payload));
    }

    method PrioritizeQueueItem(item: nat, revision: int, key: string) returns (o: EditOutcome)
      requires Valid()
      modifies this
      ensures Valid() && State() == Prioritize(old(State()), item, revision, key)
      ensures o.Applied? <==> Proceeds(old(State()), item, revision, key, SendNowEdit)
    {
      hide Linked, Joined;
      PrioritizeLinked(State(), item, revision, key);
      var refusal := Admit(item, revision, key, SendNowEdit);
      if refusal.Some? { return refusal.value; }
      rows := map q | q in rows ::
        if rows[q].state != Waiting then rows[q]
        else rows[q].(position := rows[q].position + 1, revision := rows[q].revision + 1);
      rows := rows[item := rows[item].(position := 1)];
      assert rows == Shifted(old(rows), item);
      pause := Some(Pause(false, None));
      Record(key, Mutation(SendNowEdit, Some(item), Done));
      LinkedJoined(State());
      return Applied(Done);
    }

    method MoveQueueItem(item: nat, revision: int, target: int, key: string) returns (o: EditOutcome)
      requires Valid()
      modifies this
      ensures Valid() && State() == Move(old(State()), item, revision, target, key)
      ensures o.Applied? <==> Proceeds(old(State()), item, revision, key, MoveEdit)
    {
      hide Linked, Joined, Ordered, Queue, Without, Inserted, Renumber, Distinct, Elems, WaitingIds;
      MoveLinked(State(), item, revision, target, key);
      var refusal := Admit(item, revision, key, MoveEdit);
      if refusal.Some? { return refusal.value; }
      MoveLists(State(), item, revision, target);
      var rest := Without(Queue(State()), item);
      Place(Inserted(rest, item, target));
      Record(key, Mutation(MoveEdit, Some(item), MovedTo(Clamp(target, |rest|))));
      LinkedJoined(State());
      return Applied(MovedTo(Clamp(target, |rest|)));
    }

    method ResumeQueue(key: string) returns (resumed: bool)
      requires Valid()
      modifies this
      ensures Valid() && State() == Resume(old(State()), key)
      ensures resumed <==> Seen(old(State()), key, ResumeEdit, None).Unseen? && IsPaused(old(State()))
    {
      ResumeLinked(State(), key);
      hide Linked;
      if key != "" && key in mutations { return false; }
      resumed := pause.Some? && pause.value.paused;
      pause := Some(Pause(false, None));
      Record(key, Mutation(ResumeEdit, None, Resumed(resumed)));
      LinkedJoined(State());
    }
  }

  lemma MoveLists(s: Store, item: nat, revision: int, target: int)
    requires Current(s, item, revision)
    ensures var q := Inserted(Without(Queue(s), item), item, target); Distinct(q) && Elems(q) <= s.rows.Keys
  {
    MovedDistinct(s, item, target);
  }

  predicate Listed(rows: map<nat, Row>, q: seq<nat>) { Distinct(q) && Elems(q) <= rows.Keys }

  lemma RenumberStep(rows: map<nat, Row>, q: seq<nat>, i: nat)
    requires i < |q| && Listed(rows, q[i..])
    ensures q[i] in rows
    ensures var rows1 := rows[q[i] := Placed(rows[q[i]], i + 1)];
            Listed(rows1, q[i + 1..]) && Renumber(rows1, q[i + 1..], i + 1) == Renumber(rows, q[i..], i)
  {
    assert q[i] == q[i..][0] && q[i] in Elems(q[i..]);
    assert q[i + 1..] == q[i..][1..];
    forall x | x in Elems(q[i + 1..]) ensures x in Elems(q[i..]) {}
  }
}

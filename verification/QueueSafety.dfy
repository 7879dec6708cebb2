/**
 What the command queue keeps over every run: the rows refine a plain sequence, the two tables agree so
 that no accepted command is lost or duplicated, and a row's revision pins down everything about it.
 */
module QueueSafety {
  import opened Wrappers
  import opened CommandQueue

  // ------------------------------------------------- the rows as a sequence

  /** Whatever lists the waiting rows in order is the queue. */
  lemma QueueIs(s: Store, q: seq<nat>)
    requires Sorted(s.rows, q) && Elems(q) == WaitingIds(s.rows)
    ensures Queue(s) == q
  {
    SortedUnique(s.rows, Queue(s), q);
  }

  /** Rows whose ordering keys did not change stay in the same order. */
  lemma SortedCarries(rows: map<nat, Row>, rows': map<nat, Row>, q: seq<nat>)
    requires Sorted(rows, q)
    requires forall i :: 0 <= i < |q| ==>
               && q[i] in rows' && rows'[q[i]].position == rows[q[i]].position
               && rows'[q[i]].createdAt == rows[q[i]].createdAt
    ensures Sorted(rows', q)
  {
  }

  lemma QueueMembers(s: Store)
    ensures Sorted(s.rows, Queue(s)) && Elems(Queue(s)) == WaitingIds(s.rows)
    ensures forall i :: 0 <= i < |Queue(s)| ==> Queue(s)[i] in s.rows && s.rows[Queue(s)[i]].state == Waiting
  {
    forall i | 0 <= i < |Queue(s)| ensures Queue(s)[i] in s.rows && s.rows[Queue(s)[i]].state == Waiting {
      assert Queue(s)[i] in Elems(Queue(s));
    }
  }

  /** Renumbering a listing sorts the rows in listing order. */
  lemma RenumberSorts(rows: map<nat, Row>, q: seq<nat>)
    requires Distinct(q) && Elems(q) <= rows.Keys
    ensures Sorted(Renumber(rows, q, 0), q)
  {
    var r := Renumber(rows, q, 0);
    assert forall i :: 0 <= i < |q| ==> r[q[i]].position == i + 1;
  }

  lemma RenumberKeepsStates(rows: map<nat, Row>, q: seq<nat>)
    requires Distinct(q) && Elems(q) <= rows.Keys
    ensures WaitingIds(Renumber(rows, q, 0)) == WaitingIds(rows)
  {
    var r := Renumber(rows, q, 0);
    forall x | x in rows ensures r[x].state == rows[x].state {
      if x in q { var i :| 0 <= i < |q| && q[i] == x; }
    }
  }

  /** Position normalization changes nothing in the sequence, and leaves positions 1, 2, ..., n. */
  lemma NormalizeKeepsQueue(s: Store)
    ensures var s' := s.(rows := Normalized(s.rows));
            && Queue(s') == Queue(s)
            && forall i :: 0 <= i < |Queue(s)| ==> s'.rows[Queue(s)[i]].position == i + 1
  {
    var q := Queue(s);
    SortedIsDistinct(s.rows, q);
    RenumberSorts(s.rows, q);
    RenumberKeepsStates(s.rows, q);
    QueueIs(s.(rows := Normalized(s.rows)), q);
  }

  lemma AppendedRow(s: Store, item: nat, row: Row)
    requires item !in s.rows && row.state == Waiting && row.position == NextPosition(s.rows)
    ensures Queue(s.(rows := s.rows[item := row])) == Queue(s) + [item]
  {
    QueueMembers(s);
    var q := Queue(s);
    hide Queue, NextPosition;
    var s' := s.(rows := s.rows[item := row]);
    SortedCarries(s.rows, s'.rows, q);
    assert Elems(q + [item]) == Elems(q) + {item};
    QueueIs(s', q + [item]);
  }

  /** `accept` of a queued command appends it. */
  lemma AcceptAppends(s: Store, r: Request, turn: nat, item: nat, now: int)
    requires Acceptable(s, r, true) && item !in s.rows
    ensures Queue(Accept(s, r, true, turn, item, now)) == Queue(s) + [item]
  {
    AppendedRow(s, item, Row(r.command, NextPosition(s.rows), Waiting, r.delivery, 1, now));
  }

  /** Recovery of an uncheckpointed command appends it. */
  lemma RecoverAppends(s: Store, turn: nat, item: nat)
    requires item !in s.rows && exists c :: c in s.commands && Uncertain(s.commands[c], turn)
    ensures Queue(Recover(s, turn, item)) == Queue(s) + [item]
  {
    var row := Recover(s, turn, item).rows[item];
    AppendedRow(s, item, row);
  }

  /** `claim_next` takes the head. */
  lemma ClaimPopsHead(s: Store, turn: nat)
    requires Joined(s)
    ensures Queue(Claim(s, turn)) ==
            if IsPaused(s) || Queue(s) == [] then Queue(s) else Queue(s)[1..]
  {
    if !IsPaused(s) && Queue(s) != [] {
      QueueMembers(s);
      var q := Queue(s);
      var s' := Claim(s, turn);
      SortedIsDistinct(s.rows, q);
      hide Queue, Claim;
      assert Elems(q[1..]) == Elems(q) - {q[0]};
      ClaimRows(s, turn);
      SortedCarries(s.rows, s'.rows, q[1..]);
      QueueIs(s', q[1..]);
    }
  }

  lemma ClaimRows(s: Store, turn: nat)
    requires Joined(s) && !IsPaused(s) && Queue(s) != []
    ensures var q := Queue(s)[0];
            && q in s.rows
            && Claim(s, turn).rows == s.rows[q := s.rows[q].(state := Dispatching, revision := s.rows[q].revision + 1)]
  {
  }

  lemma DropRow(s: Store, item: nat)
    requires item in s.rows && s.rows[item].state == Waiting
    ensures Queue(s.(rows := s.rows - {item})) == Without(Queue(s), item)
  {
    QueueMembers(s);
    var s1 := s.(rows := s.rows - {item});
    var q := Queue(s);
    hide Queue, Without;
    WithoutSorted(s.rows, q, item);
    var r := Without(q, item);
    assert forall i :: 0 <= i < |r| ==> r[i] in r;
    SortedCarries(s.rows, s1.rows, r);
    assert Elems(r) == Elems(q) - {item};
    QueueIs(s1, r);
  }

  /** Deleting a row, or sending it back to the composer, removes it and keeps the rest in order. */
  lemma RemoveDropsItem(s: Store, item: nat, outcome: string)
    requires Joined(s) && item in s.rows && s.rows[item].state == Waiting
    ensures Queue(Removed(s, item, outcome)) == Without(Queue(s), item)
  {
    DropRow(s, item);
    NormalizeKeepsQueue(s.(rows := s.rows - {item}));
    hide Ordered, Without, Normalized;
  }

  lemma DeleteRemoves(s: Store, item: nat, revision: int, key: string)
    requires Joined(s)
    ensures Queue(DeleteItem(s, item, revision, key)) ==
            if Proceeds(s, item, revision, key, DeleteEdit) then Without(Queue(s), item) else Queue(s)
    ensures Queue(RestoreDraft(s, item, revision, key)) ==
            if Proceeds(s, item, revision, key, DraftEdit) then Without(Queue(s), item) else Queue(s)
  {
    hide Ordered, Removed, Without;
    if Current(s, item, revision) {
      RemoveDropsItem(s, item, "queue_deleted");
      RemoveDropsItem(s, item, "queue_restored");
    }
  }

  /** `move_queue_item` is remove, then insert at the clamped index. */
  lemma MoveReinserts(s: Store, item: nat, revision: int, target: int, key: string)
    ensures Queue(Move(s, item, revision, target, key)) ==
            if Proceeds(s, item, revision, key, MoveEdit) then Inserted(Without(Queue(s), item), item, target)
            else Queue(s)
  {
    if Proceeds(s, item, revision, key, MoveEdit) {
      var q := Inserted(Without(Queue(s), item), item, target);
      MovedDistinct(s, item, target);
      hide Ordered, Without, Inserted;
      RenumberSorts(s.rows, q);
      RenumberKeepsStates(s.rows, q);
      QueueIs(Move(s, item, revision, target, key), q);
    }
  }

  lemma ShiftedSorts(rows: map<nat, Row>, item: nat, r: seq<nat>)
    requires Sorted(rows, r) && item in rows && rows[item].state == Waiting
    requires forall i :: 0 <= i < |r| ==>
               r[i] in rows && rows[r[i]].state == Waiting && rows[r[i]].position >= 1 && r[i] != item
    ensures Sorted(Shifted(rows, item), [item] + r)
  {
    var rows', q := Shifted(rows, item), [item] + r;
    assert forall i :: 0 < i < |q| ==> q[i] == r[i - 1];
    assert forall i :: 0 <= i < |r| ==> rows'[r[i]].position == rows[r[i]].position + 1;
  }

  /** `prioritize_queue_item` moves the item to the front. */
  lemma PrioritizeFronts(s: Store, item: nat, revision: int, key: string)
    requires forall q :: q in s.rows ==> s.rows[q].position >= 1
    ensures Queue(Prioritize(s, item, revision, key)) ==
            if Proceeds(s, item, revision, key, SendNowEdit) then [item] + Without(Queue(s), item) else Queue(s)
  {
    hide Queue, Without, Sorted, Shifted;
    if Proceeds(s, item, revision, key, SendNowEdit) {
      var r := Without(Queue(s), item);
      WithoutMembers(s, item, r);
      ShiftedSorts(s.rows, item, r);
      ShiftedWaits(s.rows, item);
      QueueIs(Prioritize(s, item, revision, key), [item] + r);
    } else {
      SameRows(s, Prioritize(s, item, revision, key));
    }
  }

  lemma SameRows(s: Store, s': Store)
    requires s'.rows == s.rows
    ensures Queue(s') == Queue(s)
  {
  }

  lemma ShiftedWaits(rows: map<nat, Row>, item: nat)
    ensures WaitingIds(Shifted(rows, item)) == WaitingIds(rows)
  {
  }

  lemma WithoutMembers(s: Store, item: nat, r: seq<nat>)
    requires r == Without(Queue(s), item) && item in WaitingIds(s.rows)
    ensures Sorted(s.rows, r) && Elems([item] + r) == WaitingIds(s.rows)
    ensures forall i :: 0 <= i < |r| ==> r[i] in s.rows && s.rows[r[i]].state == Waiting && r[i] != item
  {
    hide Queue, Without;
    QueueMembers(s);
    var q := Queue(s);
    WithoutSorted(s.rows, q, item);
    forall i | 0 <= i < |r| ensures r[i] in s.rows && s.rows[r[i]].state == Waiting && r[i] != item {
      assert r[i] in r;
      var k :| 0 <= k < |q| && q[k] == r[i];
    }
    assert Elems([item] + r) == {item} + Elems(r);
    assert Elems(r) == Elems(q) - {item};
  }

  // ------------------------------------------------ the two tables agree

  predicate RowOk(s: Store, q: nat)
    requires q in s.rows
  {
    var r := s.rows[q];
    r.position >= 1 && r.command in s.commands && s.commands[r.command].item == Some(q)
  }

  /** A queued command has a waiting row, a running one that came through the queue a dispatching row,
      a terminal one none. */
  predicate CommandOk(s: Store, c: string)
    requires c in s.commands
  {
    var cmd := s.commands[c];
    && (cmd.execution.Some? ==> cmd.checkpointed)
    && match cmd.disposition
       case Queued =>
         && cmd.turn.None? && cmd.item.Some? && cmd.item.value in s.rows
         && s.rows[cmd.item.value].command == c && s.rows[cmd.item.value].state == Waiting
       case Running =>
         && cmd.turn.Some?
         && (cmd.item.Some? ==>
               && cmd.item.value in s.rows
               && s.rows[cmd.item.value].command == c && s.rows[cmd.item.value].state == Dispatching)
       case Terminal => cmd.item.Some? ==> cmd.item.value !in s.rows
  }

  predicate Linked(s: Store) {
    && (forall q :: q in s.rows ==> RowOk(s, q))
    && (forall c :: c in s.commands ==> CommandOk(s, c))
  }

  /** Nothing that waits has been checkpointed. */
  predicate Unmarked(s: Store) {
    forall c :: c in s.commands && s.commands[c].disposition == Queued ==> !s.commands[c].checkpointed
  }

  /** A drawn queue item id was never used before. */
  predicate FreshItem(s: Store, item: nat) {
    item !in s.rows && forall c :: c in s.commands ==> s.commands[c].item != Some(item)
  }

  datatype Op =
    | AcceptOp(request: Request, busy: bool, turn: nat, item: nat, now: int)
    | ClaimOp(turn: nat)
    | CheckpointOp(turn: nat, ref: Option<string>, rebind: bool)
    | RecoverOp(turn: nat, item: nat)
    | TerminalOp(turn: nat, outcome: string)
    | ExecutionTerminalOp(execution: string, outcome: string)
    | PauseOp(reason: string, restore: bool)
    | ResumeOp(key: string)
    | DeleteOp(item: nat, revision: int, key: string)
    | DraftOp(item: nat, revision: int, key: string)
    | SendNowOp(item: nat, revision: int, key: string)
    | MoveOp(item: nat, revision: int, target: int, key: string)
    | ReopenOp

  ghost function Step(s: Store, op: Op): Store
    requires Joined(s)
  {
    match op
    case AcceptOp(r, busy, turn, item, now) => Accept(s, r, busy, turn, item, now)
    case ClaimOp(turn) => Claim(s, turn)
    case CheckpointOp(turn, ref, rebind) => Checkpoint(s, turn, ref, rebind)
    case RecoverOp(turn, item) => Recover(s, turn, item)
    case TerminalOp(turn, outcome) => MarkTerminal(s, turn, outcome)
    case ExecutionTerminalOp(ref, outcome) => MarkExecutionTerminal(s, ref, outcome)
    case PauseOp(reason, restore) => PauseQueue(s, reason, restore)
    case ResumeOp(key) => Resume(s, key)
    case DeleteOp(item, revision, key) => DeleteItem(s, item, revision, key)
    case DraftOp(item, revision, key) => RestoreDraft(s, item, revision, key)
    case SendNowOp(item, revision, key) => Prioritize(s, item, revision, key)
    case MoveOp(item, revision, target, key) => Move(s, item, revision, target, key)
    case ReopenOp => Reopen(s)
  }

  predicate FreshIds(s: Store, op: Op) {
    (op.AcceptOp? || op.RecoverOp?) ==> FreshItem(s, op.item)
  }

  /** What a caller restoring dispatching rows must check: none of them is checkpointed. */
  predicate NothingCheckpointed(s: Store)
    requires Joined(s)
  {
    forall q :: q in s.rows && s.rows[q].state == Dispatching ==> !s.commands[s.rows[q].command].checkpointed
  }

  // --------------------------------------------------- one step at a time

  /** Rows may be renumbered freely. */
  predicate SameButPlace(rows: map<nat, Row>, rows': map<nat, Row>) {
    && rows.Keys == rows'.Keys
    && forall q :: q in rows ==>
         && rows'[q].command == rows[q].command && rows'[q].state == rows[q].state
         && rows'[q].delivery == rows[q].delivery && rows'[q].createdAt == rows[q].createdAt
         && (rows[q].position >= 1 ==> rows'[q].position >= 1)
         && (rows'[q] == rows[q] || rows'[q].revision > rows[q].revision)
  }

  lemma RenumberMovesOnly(rows: map<nat, Row>, q: seq<nat>)
    requires Distinct(q) && Elems(q) <= rows.Keys
    ensures SameButPlace(rows, Renumber(rows, q, 0))
  {
    var r := Renumber(rows, q, 0);
    forall x | x in rows
      ensures && r[x].command == rows[x].command && r[x].state == rows[x].state
              && r[x].delivery == rows[x].delivery && r[x].createdAt == rows[x].createdAt
              && (rows[x].position >= 1 ==> r[x].position >= 1)
              && (r[x] == rows[x] || r[x].revision > rows[x].revision)
    {
      if x in q { var i :| 0 <= i < |q| && q[i] == x; assert r[x] == Placed(rows[x], i + 1); }
    }
  }

  lemma NormalizeMovesOnly(rows: map<nat, Row>)
    ensures SameButPlace(rows, Normalized(rows))
  {
    var q := Ordered(rows, WaitingIds(rows));
    SortedIsDistinct(rows, q);
    RenumberMovesOnly(rows, q);
  }

  lemma PlaceKeepsLinked(s: Store, rows: map<nat, Row>)
    requires Linked(s) && SameButPlace(s.rows, rows)
    ensures Linked(s.(rows := rows))
  {
    var s' := s.(rows := rows);
    assert forall q :: q in s'.rows ==> RowOk(s, q);
    assert forall c :: c in s'.commands ==> CommandOk(s, c);
  }

  lemma AcceptLinked(s: Store, r: Request, busy: bool, turn: nat, item: nat, now: int)
    requires Linked(s) && FreshItem(s, item)
    ensures Linked(Accept(s, r, busy, turn, item, now))
  {
    hide NextPosition;
    var s' := Accept(s, r, busy, turn, item, now);
    forall q | q in s'.rows ensures RowOk(s', q) { if q in s.rows && q != item { assert RowOk(s, q); } }
    forall c | c in s'.commands ensures CommandOk(s', c) {
      if c in s.commands && s' != s { assert CommandOk(s, c); }
    }
  }

  lemma RecoverLinked(s: Store, turn: nat, item: nat)
    requires Linked(s) && FreshItem(s, item)
    ensures Linked(Recover(s, turn, item))
  {
    hide NextPosition;
    var s' := Recover(s, turn, item);
    forall q | q in s'.rows ensures RowOk(s', q) { if q in s.rows && q != item { assert RowOk(s, q); } }
    forall c | c in s'.commands ensures CommandOk(s', c) { assert CommandOk(s, c); }
  }

  lemma ClaimLinked(s: Store, turn: nat)
    requires Linked(s)
    ensures Joined(s) && Linked(Claim(s, turn))
  {
    assert forall q :: q in s.rows ==> RowOk(s, q);
    if !IsPaused(s) && Queue(s) != [] {
      QueueMembers(s);
      var s' := Claim(s, turn);
      hide Ordered, Queue;
      forall q | q in s'.rows ensures RowOk(s', q) { assert RowOk(s, q); }
      forall c | c in s'.commands ensures CommandOk(s', c) { assert CommandOk(s, c); }
    }
  }

  lemma CheckpointLinked(s: Store, turn: nat, ref: Option<string>, rebind: bool)
    requires Linked(s)
    ensures Linked(Checkpoint(s, turn, ref, rebind))
  {
    var s' := Checkpoint(s, turn, ref, rebind);
    forall q | q in s'.rows ensures RowOk(s', q) { assert RowOk(s, q); }
    forall c | c in s'.commands ensures CommandOk(s', c) { assert CommandOk(s, c); }
  }

  /** Ending the commands in `done`, none of which is queued, and deleting their rows. */
  lemma CheckpointChangesIff(s: Store, turn: nat, ref: Option<string>, rebind: bool)
    ensures Checkpoint(s, turn, ref, rebind).commands != s.commands <==>
            && (forall c :: c in s.commands && Bound(s.commands[c], turn) ==> !Rebinding(s.commands[c], ref, rebind))
            && exists c :: c in s.commands && Bound(s.commands[c], turn) && Moves(s.commands[c], ref, rebind)
  {
    var commands := Checkpoint(s, turn, ref, rebind).commands;
    if c :| c in s.commands && Bound(s.commands[c], turn) && Moves(s.commands[c], ref, rebind) {
      assert commands[c] != s.commands[c] || commands == s.commands;
    } else {
      assert forall c :: c in s.commands ==> commands[c] == s.commands[c];
    }
  }

  lemma EndLinked(s: Store, done: set<string>, s': Store)
    requires Linked(s)
    requires s'.rows == Normalized(RowsExcept(s.rows, done))
    requires s'.commands.Keys == s.commands.Keys
    requires forall c :: c in s.commands && c !in done ==> s'.commands[c] == s.commands[c]
    requires forall c :: c in s.commands && c in done ==>
               && s'.commands[c].disposition == Terminal && s'.commands[c].item == s.commands[c].item
               && s'.commands[c].execution == s.commands[c].execution
               && s'.commands[c].checkpointed == s.commands[c].checkpointed
    ensures Linked(s')
  {
    NormalizeMovesOnly(RowsExcept(s.rows, done));
    hide Normalized;
    forall q | q in s'.rows ensures RowOk(s', q) { assert RowOk(s, q); }
    forall c | c in s'.commands ensures CommandOk(s', c) { assert CommandOk(s, c); }
  }

  lemma TerminalLinked(s: Store, turn: nat, outcome: string)
    requires Linked(s)
    ensures Linked(MarkTerminal(s, turn, outcome))
  {
    var done := set c | c in s.commands && s.commands[c].turn == Some(turn);
    hide Normalized;
    EndLinked(s, done, MarkTerminal(s, turn, outcome));
  }

  /** Ending an execution keeps the tables in agreement exactly when no waiting command is bound to it. */
  lemma ExecutionTerminalLinkedIff(s: Store, ref: string, outcome: string)
    requires Linked(s)
    ensures Linked(MarkExecutionTerminal(s, ref, outcome)) <==>
            forall c :: c in s.commands && s.commands[c].disposition == Queued ==> s.commands[c].execution != Some(ref)
  {
    hide MarkExecutionTerminal;
    if c :| c in s.commands && s.commands[c].disposition == Queued && s.commands[c].execution == Some(ref) {
      ExecutionTerminalBreaks(s, ref, outcome, c);
    } else {
      ExecutionTerminalLinked(s, ref, outcome);
    }
  }

  lemma ExecutionTerminalLinked(s: Store, ref: string, outcome: string)
    requires Linked(s)
    requires forall c :: c in s.commands && s.commands[c].disposition == Queued ==> s.commands[c].execution != Some(ref)
    ensures Linked(MarkExecutionTerminal(s, ref, outcome))
  {
    var bound := set c | c in s.commands && s.commands[c].execution == Some(ref);
    hide Normalized, Linked, RowOk, CommandOk;
    EndLinked(s, bound, MarkExecutionTerminal(s, ref, outcome));
  }

  lemma ExecutionTerminalBreaks(s: Store, ref: string, outcome: string, c: string)
    requires Linked(s) && c in s.commands
    requires s.commands[c].disposition == Queued && s.commands[c].execution == Some(ref)
    ensures !Linked(MarkExecutionTerminal(s, ref, outcome))
  {
    var bound := set c | c in s.commands && s.commands[c].execution == Some(ref);
    var s' := MarkExecutionTerminal(s, ref, outcome);
    assert CommandOk(s, c);
    NormalizeMovesOnly(RowsExcept(s.rows, bound));
    hide Normalized;
    assert s.commands[c].item.value !in s'.rows;
    assert !CommandOk(s', c);
  }

  lemma PauseLinked(s: Store, reason: string, restore: bool)
    requires Linked(s)
    ensures Linked(PauseQueue(s, reason, restore))
  {
    var s' := PauseQueue(s, reason, restore);
    forall q | q in s'.rows ensures RowOk(s', q) { assert RowOk(s, q); }
    forall c | c in s'.commands ensures CommandOk(s', c) { assert CommandOk(s, c); }
  }

  lemma ReopenLinked(s: Store)
    requires Linked(s) && Joined(s)
    ensures Linked(Reopen(s))
  {
    var s' := Reopen(s);
    forall q | q in s'.rows ensures RowOk(s', q) { assert RowOk(s, q); }
    forall c | c in s'.commands ensures CommandOk(s', c) { assert CommandOk(s, c); }
  }

  lemma RemovedLinked(s: Store, item: nat, outcome: string)
    requires Linked(s) && Joined(s) && item in s.rows
    ensures Linked(Removed(s, item, outcome))
  {
    var c := s.rows[item].command;
    OnlyRow(s, item);
    hide Normalized, Linked, RowsExcept;
    EndLinked(s, {c}, Removed(s, item, outcome));
  }

  /** A command has at most one row. */
  lemma OnlyRow(s: Store, item: nat)
    requires Linked(s) && item in s.rows
    ensures s.rows - {item} == RowsExcept(s.rows, {s.rows[item].command})
    ensures s.rows[item].command in s.commands
  {
    hide CommandOk;
    assert RowOk(s, item);
    forall q | q in s.rows && s.rows[q].command == s.rows[item].command ensures q == item { assert RowOk(s, q); }
  }

  lemma PrioritizeLinked(s: Store, item: nat, revision: int, key: string)
    requires Linked(s)
    ensures Linked(Prioritize(s, item, revision, key))
  {
    assert forall q :: q in s.rows ==> RowOk(s, q);
    PlaceKeepsLinked(s, Shifted(s.rows, item));
  }

  /** Moving an item only renumbers rows. */
  lemma MovePlaces(s: Store, item: nat, revision: int, target: int, key: string)
    ensures var s' := Move(s, item, revision, target, key);
            && SameButPlace(s.rows, s'.rows) && s'.commands == s.commands
            && forall k :: k in s.mutations ==> k in s'.mutations && s'.mutations[k] == s.mutations[k]
  {
    if Proceeds(s, item, revision, key, MoveEdit) {
      var q := Inserted(Without(Queue(s), item), item, target);
      MovedDistinct(s, item, target);
      hide Ordered, Without, Inserted, Queue, Renumber;
      RenumberMovesOnly(s.rows, q);
      hide SameButPlace, Distinct, Elems;
    }
  }

  lemma MoveLinked(s: Store, item: nat, revision: int, target: int, key: string)
    requires Linked(s)
    ensures Linked(Move(s, item, revision, target, key))
  {
    var s' := Move(s, item, revision, target, key);
    hide Move, Linked, SameButPlace;
    MovePlaces(s, item, revision, target, key);
    PlaceKeepsLinked(s, s'.rows);
    EditsKeepLinked(s.(rows := s'.rows), s');
  }

  lemma EditsKeepLinked(s: Store, s': Store)
    requires Linked(s) && s'.rows == s.rows && s'.commands == s.commands
    ensures Linked(s')
  {
    forall q | q in s'.rows ensures RowOk(s', q) { assert RowOk(s, q); }
    forall c | c in s'.commands ensures CommandOk(s', c) { assert CommandOk(s, c); }
  }

  lemma LinkedJoined(s: Store)
    requires Linked(s)
    ensures Joined(s)
  {
    assert forall q :: q in s.rows ==> RowOk(s, q);
  }

  lemma DeleteLinked(s: Store, item: nat, revision: int, key: string)
    requires Linked(s) && Joined(s)
    ensures Linked(DeleteItem(s, item, revision, key)) && Linked(RestoreDraft(s, item, revision, key))
  {
    hide Linked, Removed;
    RemovalLinked(s, item, "queue_deleted", DeleteItem(s, item, revision, key));
    RemovalLinked(s, item, "queue_restored", RestoreDraft(s, item, revision, key));
  }

  lemma ResumeLinked(s: Store, key: string)
    requires Linked(s)
    ensures Linked(Resume(s, key))
  {
    EditsKeepLinked(s, Resume(s, key));
  }

  lemma StepLinked(s: Store, op: Op)
    requires Linked(s) && Joined(s) && Unmarked(s) && FreshIds(s, op)
    ensures Linked(Step(s, op))
  {
    if op.ExecutionTerminalOp? { UnmarkedUnbound(s); ExecutionTerminalLinked(s, op.execution, op.outcome); }
    hide Linked, Joined, Unmarked, Accept, Claim, Checkpoint, Recover, MarkTerminal, MarkExecutionTerminal, PauseQueue,
         Reopen, Prioritize, Move, DeleteItem, RestoreDraft, Resume, FreshItem;
    match op
    case AcceptOp(r, busy, turn, item, now) => AcceptLinked(s, r, busy, turn, item, now);
    case ClaimOp(turn) => ClaimLinked(s, turn);
    case CheckpointOp(turn, ref, rebind) => CheckpointLinked(s, turn, ref, rebind);
    case RecoverOp(turn, item) => RecoverLinked(s, turn, item);
    case TerminalOp(turn, outcome) => TerminalLinked(s, turn, outcome);
    case ExecutionTerminalOp(ref, outcome) =>
    case PauseOp(reason, restore) => PauseLinked(s, reason, restore);
    case ResumeOp(key) => ResumeLinked(s, key);
    case DeleteOp(item, revision, key) => DeleteLinked(s, item, revision, key);
    case DraftOp(item, revision, key) => DeleteLinked(s, item, revision, key);
    case SendNowOp(item, revision, key) => PrioritizeLinked(s, item, revision, key);
    case MoveOp(item, revision, target, key) => MoveLinked(s, item, revision, target, key);
    case ReopenOp => ReopenLinked(s);
  }

  lemma UnmarkedUnbound(s: Store)
    requires Linked(s) && Unmarked(s)
    ensures forall c :: c in s.commands && s.commands[c].disposition == Queued ==> s.commands[c].execution.None?
  {
    forall c | c in s.commands && s.commands[c].disposition == Queued ensures s.commands[c].execution.None? {
      assert CommandOk(s, c);
    }
  }

  lemma RemovalLinked(s: Store, item: nat, outcome: string, s': Store)
    requires Linked(s) && Joined(s)
    requires s' == s || (item in s.rows && s'.rows == Removed(s, item, outcome).rows
                         && s'.commands == Removed(s, item, outcome).commands)
    ensures Linked(s')
  {
    hide Linked, Removed;
    if s' != s {
      RemovedLinked(s, item, outcome);
      EditsKeepLinked(Removed(s, item, outcome), s');
    }
  }

  /** Restoring dispatching rows leaves no checkpointed command waiting exactly when none of those
      rows is checkpointed. */
  lemma RestoreUnmarkedIff(s: Store, reason: string)
    requires Linked(s) && Joined(s) && Unmarked(s)
    ensures Unmarked(PauseQueue(s, reason, true)) <==> NothingCheckpointed(s)
  {
    var s' := PauseQueue(s, reason, true);
    forall c | c in s.commands ensures CommandOk(s, c) {}
    if q :| q in s.rows && s.rows[q].state == Dispatching && s.commands[s.rows[q].command].checkpointed {
      var c := s.rows[q].command;
      assert RowOk(s, q);
      assert s'.commands[c].disposition == Queued && s'.commands[c].checkpointed;
    }
  }

  lemma StepUnmarked(s: Store, op: Op)
    requires Linked(s) && Joined(s) && Unmarked(s)
    requires op.PauseOp? && op.restore ==> NothingCheckpointed(s)
    ensures Unmarked(Step(s, op))
  {
    hide Linked, Ordered, Normalized, NextPosition, Renumber, Requeued, Shifted, Without, Inserted, NothingCheckpointed;
    if op.PauseOp? && op.restore { RestoreUnmarkedIff(s, op.reason); }
  }

  // ------------------------------------- ending and restoring, on the sequence

  /** The listing depends only on the listed rows' ordering keys. */
  lemma OrderedCarries(rows: map<nat, Row>, rows': map<nat, Row>, ids: set<nat>)
    requires ids <= rows.Keys && ids <= rows'.Keys
    requires forall q :: q in ids ==>
               rows'[q].position == rows[q].position && rows'[q].createdAt == rows[q].createdAt
    ensures Ordered(rows', ids) == Ordered(rows, ids)
  {
    var q := Ordered(rows, ids);
    assert forall i :: 0 <= i < |q| ==> q[i] in Elems(q);
    hide Ordered;
    SortedCarries(rows, rows', q);
    SortedUnique(rows', Ordered(rows', ids), q);
  }

  lemma DroppingKeepsQueue(s: Store, done: set<string>, s': Store)
    requires s'.rows == Normalized(RowsExcept(s.rows, done))
    requires forall q :: q in s.rows && s.rows[q].state == Waiting ==> s.rows[q].command !in done
    ensures Queue(s') == Queue(s)
  {
    var kept := RowsExcept(s.rows, done);
    hide Ordered, Normalized;
    assert WaitingIds(kept) == WaitingIds(s.rows);
    OrderedCarries(s.rows, kept, WaitingIds(s.rows));
    NormalizeKeepsQueue(s.(rows := kept));
  }

  /** Ending a turn leaves the queue as it was. */
  lemma TerminalKeepsQueue(s: Store, turn: nat, outcome: string)
    requires Linked(s)
    ensures Queue(MarkTerminal(s, turn, outcome)) == Queue(s)
  {
    forall q | q in s.rows && s.rows[q].state == Waiting
      ensures s.rows[q].command in s.commands && s.commands[s.rows[q].command].turn.None?
    {
      assert RowOk(s, q) && CommandOk(s, s.rows[q].command);
    }
    hide Ordered, Normalized, Linked, RowsExcept, Queue;
    var done := set c | c in s.commands && s.commands[c].turn == Some(turn);
    DroppingKeepsQueue(s, done, MarkTerminal(s, turn, outcome));
  }

  /** Ending an execution leaves the queue as it was, when no waiting command is bound to it. */
  lemma ExecutionTerminalKeepsQueue(s: Store, ref: string, outcome: string)
    requires Linked(s)
    requires forall c :: c in s.commands && s.commands[c].disposition == Queued ==> s.commands[c].execution != Some(ref)
    ensures Queue(MarkExecutionTerminal(s, ref, outcome)) == Queue(s)
  {
    forall q | q in s.rows && s.rows[q].state == Waiting
      ensures s.rows[q].command in s.commands && s.commands[s.rows[q].command].execution != Some(ref)
    {
      assert RowOk(s, q) && CommandOk(s, s.rows[q].command);
    }
    hide Ordered, Normalized, Linked, RowsExcept, Queue;
    var bound := set c | c in s.commands && s.commands[c].execution == Some(ref);
    DroppingKeepsQueue(s, bound, MarkExecutionTerminal(s, ref, outcome));
  }

  lemma RequeuedQueue(s: Store, back: set<nat>, s': Store)
    requires back <= s.rows.Keys && s'.rows == Requeued(s.rows, back)
    ensures Queue(s') == Ordered(s.rows, WaitingIds(s.rows) + back)
  {
    assert WaitingIds(s'.rows) == WaitingIds(s.rows) + back;
    OrderedCarries(s.rows, s'.rows, WaitingIds(s'.rows));
  }

  /** Reopening puts every uncheckpointed dispatch back among the waiting rows, at its own place. */
  lemma ReopenQueue(s: Store)
    requires Joined(s)
    ensures Queue(Reopen(s)) == Ordered(s.rows, WaitingIds(s.rows) + UncertainRows(s))
  {
    hide Ordered;
    if UncertainRows(s) == {} {
      assert WaitingIds(s.rows) + UncertainRows(s) == WaitingIds(s.rows);
    } else {
      RequeuedQueue(s, UncertainRows(s), Reopen(s));
    }
  }

  /** So does pausing with restore, for every dispatch. */
  lemma PauseQueueOrder(s: Store, reason: string)
    ensures Queue(PauseQueue(s, reason, true)) == Ordered(s.rows, s.rows.Keys)
  {
    var back := set q | q in s.rows && s.rows[q].state == Dispatching;
    hide Ordered;
    RequeuedQueue(s, back, PauseQueue(s, reason, true));
    assert WaitingIds(s.rows) + back == s.rows.Keys;
  }

  function Restrict(q: seq<nat>, ids: set<nat>): (r: seq<nat>)
    ensures forall x :: x in r <==> x in q && x in ids
  {
    if q == [] then [] else (if q[0] in ids then [q[0]] else []) + Restrict(q[1..], ids)
  }

  lemma {:induction false} RestrictSorted(rows: map<nat, Row>, q: seq<nat>, ids: set<nat>)
    requires Sorted(rows, q)
    ensures Sorted(rows, Restrict(q, ids))
  {
    if q != [] {
      RestrictSorted(rows, q[1..], ids);
      var r := Restrict(q[1..], ids);
      forall j | 0 <= j < |r| ensures Before(rows, q[0], r[j]) {
        assert r[j] in q[1..];
        var k :| 0 <= k < |q[1..]| && q[1..][k] == r[j];
      }
    }
  }

  /** The rows that were waiting keep their order among themselves when others come back. */
  lemma ReopenKeepsOrder(s: Store)
    requires Joined(s)
    ensures Restrict(Queue(Reopen(s)), WaitingIds(s.rows)) == Queue(s)
  {
    ReopenQueue(s);
    var all := Ordered(s.rows, WaitingIds(s.rows) + UncertainRows(s));
    hide Reopen, UncertainRows, Restrict;
    RestrictSorted(s.rows, all, WaitingIds(s.rows));
    var r := Restrict(all, WaitingIds(s.rows));
    assert Elems(r) == WaitingIds(s.rows) by {
      forall x | x in WaitingIds(s.rows) ensures x in all { assert x in Elems(all); }
    }
    QueueIs(s, r);
  }

  /** A claimed row comes back at the head exactly when it still sorts before every row that waits or comes
      back with it. */
  lemma ReopenRestoresHeadIff(s: Store, item: nat)
    requires Joined(s) && item in UncertainRows(s)
    ensures Queue(Reopen(s)) != []
    ensures Queue(Reopen(s))[0] == item <==>
            forall w :: w in s.rows && w != item && (s.rows[w].state == Waiting || w in UncertainRows(s)) ==>
              Before(s.rows, item, w)
  {
    ReopenQueue(s);
    var all := Ordered(s.rows, WaitingIds(s.rows) + UncertainRows(s));
    assert item in s.rows;
    hide Reopen, UncertainRows, Ordered, Queue;
    assert item in Elems(all);
    forall w | w in s.rows && w != item && (s.rows[w].state == Waiting || w in UncertainRows(s)) && all[0] == item
      ensures Before(s.rows, item, w)
    {
      assert w in Elems(all);
      assert w in all;
    }
    assert all[0] in Elems(all);
  }

  // ---------------------------------------------------- what only ever grows

  predicate Used(s: Store, item: nat) {
    exists c :: c in s.commands && s.commands[c].item == Some(item)
  }

  /** Commands stay, with their identity; terminal ones stay terminal. */
  predicate CommandsGrow(s: Store, s': Store) {
    forall c :: c in s.commands ==>
      && c in s'.commands
      && s'.commands[c].key == s.commands[c].key && s'.commands[c].payload == s.commands[c].payload
      && (s.commands[c].item.Some? ==> s'.commands[c].item == s.commands[c].item)
      && (s.commands[c].disposition == Terminal ==> s'.commands[c].disposition == Terminal)
  }

  /** A row that changes in any way gets a higher revision. */
  predicate RowsAdvance(rows: map<nat, Row>, rows': map<nat, Row>) {
    forall q :: q in rows && q in rows' ==> rows'[q] == rows[q] || rows'[q].revision > rows[q].revision
  }

  /** A row that is gone never comes back under the same id. */
  predicate GoneStaysGone(s: Store, s': Store) {
    forall q :: q in s'.rows && q !in s.rows ==> !Used(s, q)
  }

  predicate Grows(s: Store, s': Store) {
    && CommandsGrow(s, s') && RowsAdvance(s.rows, s'.rows) && GoneStaysGone(s, s')
    && forall k :: k in s.mutations ==> k in s'.mutations && s'.mutations[k] == s.mutations[k]
  }

  /** Dropping rows and renumbering the rest. */
  lemma ShrinkGrows(s: Store, kept: map<nat, Row>, s': Store)
    requires kept.Keys <= s.rows.Keys && forall q :: q in kept ==> kept[q] == s.rows[q]
    requires s'.rows == Normalized(kept) && CommandsGrow(s, s')
    requires forall k :: k in s.mutations ==> k in s'.mutations && s'.mutations[k] == s.mutations[k]
    ensures Grows(s, s')
  {
    NormalizeMovesOnly(kept);
    hide Normalized, CommandsGrow, Used;
  }

  lemma TerminalGrows(s: Store, turn: nat, outcome: string)
    ensures Grows(s, MarkTerminal(s, turn, outcome))
  {
    hide Normalized, Grows;
    ShrinkGrows(s, RowsExcept(s.rows, set c | c in s.commands && s.commands[c].turn == Some(turn)),
                MarkTerminal(s, turn, outcome));
  }

  lemma ExecutionTerminalGrows(s: Store, ref: string, outcome: string)
    ensures Grows(s, MarkExecutionTerminal(s, ref, outcome))
  {
    hide Normalized, Grows;
    ShrinkGrows(s, RowsExcept(s.rows, set c | c in s.commands && s.commands[c].execution == Some(ref)),
                MarkExecutionTerminal(s, ref, outcome));
  }

  lemma RemovalGrows(s: Store, item: nat, outcome: string, s': Store)
    requires Joined(s)
    requires s' == s || (item in s.rows && s'.rows == Removed(s, item, outcome).rows
                         && s'.commands == Removed(s, item, outcome).commands)
    requires forall k :: k in s.mutations ==> k in s'.mutations && s'.mutations[k] == s.mutations[k]
    ensures Grows(s, s')
  {
    hide Normalized, Grows, Ended;
    if s' == s {
      GrowsSame(s);
    } else {
      RemovedCommands(s, item, outcome);
      ShrinkGrows(s, s.rows - {item}, s');
    }
  }

  lemma RemovedCommands(s: Store, item: nat, outcome: string)
    requires Joined(s) && item in s.rows
    ensures Removed(s, item, outcome).rows == Normalized(s.rows - {item})
    ensures CommandsGrow(s, Removed(s, item, outcome))
  {
    hide Normalized;
  }

  lemma GrowsSame(s: Store)
    ensures Grows(s, s)
  {
  }

  lemma DeleteGrows(s: Store, item: nat, revision: int, key: string)
    requires Joined(s)
    ensures Grows(s, DeleteItem(s, item, revision, key)) && Grows(s, RestoreDraft(s, item, revision, key))
  {
    hide Normalized, Grows;
    RemovalGrows(s, item, "queue_deleted", DeleteItem(s, item, revision, key));
    RemovalGrows(s, item, "queue_restored", RestoreDraft(s, item, revision, key));
  }

  lemma MoveGrows(s: Store, item: nat, revision: int, target: int, key: string)
    ensures Grows(s, Move(s, item, revision, target, key))
  {
    hide Move, Grows, SameButPlace;
    MovePlaces(s, item, revision, target, key);
    GrowsIfPlaced(s, Move(s, item, revision, target, key));
  }

  lemma GrowsIfPlaced(s: Store, s': Store)
    requires SameButPlace(s.rows, s'.rows) && s'.commands == s.commands
    requires forall k :: k in s.mutations ==> k in s'.mutations && s'.mutations[k] == s.mutations[k]
    ensures Grows(s, s')
  {
    hide Used;
  }

  lemma ClaimGrows(s: Store, turn: nat)
    requires Linked(s) && Joined(s)
    ensures Grows(s, Claim(s, turn))
  {
    if !IsPaused(s) && Queue(s) != [] {
      QueueMembers(s);
      var row := s.rows[Queue(s)[0]];
      assert RowOk(s, Queue(s)[0]) && CommandOk(s, row.command);
      hide Linked, Ordered, Queue;
    }
  }

  /** Rows that only change state, with a higher revision; ended commands stay ended. */
  lemma GrowsIfRequeued(s: Store, back: set<nat>, s': Store)
    requires s'.rows == Requeued(s.rows, back) && s'.mutations == s.mutations && CommandsGrow(s, s')
    ensures Grows(s, s')
  {
    hide Used, CommandsGrow;
  }

  lemma PauseCommandsGrow(s: Store, reason: string, restore: bool)
    requires Linked(s)
    ensures CommandsGrow(s, PauseQueue(s, reason, restore))
  {
    assert forall c :: c in s.commands ==> CommandOk(s, c);
    hide Linked;
  }

  lemma PauseGrows(s: Store, reason: string, restore: bool)
    requires Linked(s)
    ensures Grows(s, PauseQueue(s, reason, restore))
  {
    hide Linked, Used, Requeued, CommandsGrow;
    var s' := PauseQueue(s, reason, restore);
    PauseCommandsGrow(s, reason, restore);
    if restore {
      var back := set q | q in s.rows && s.rows[q].state == Dispatching;
      GrowsIfRequeued(s, back, s');
    }
  }

  lemma ReopenGrows(s: Store)
    requires Linked(s) && Joined(s)
    ensures Grows(s, Reopen(s))
  {
    if UncertainRows(s) != {} {
      assert forall c :: c in s.commands ==> CommandOk(s, c);
      hide Linked, Grows;
      GrowsIfRequeued(s, UncertainRows(s), Reopen(s));
    }
  }

  lemma AcceptGrows(s: Store, r: Request, busy: bool, turn: nat, item: nat, now: int)
    requires FreshItem(s, item)
    ensures Grows(s, Accept(s, r, busy, turn, item, now))
  {
    hide NextPosition;
  }

  lemma RecoverGrows(s: Store, turn: nat, item: nat)
    requires FreshItem(s, item)
    ensures Grows(s, Recover(s, turn, item))
  {
    hide NextPosition;
  }

  lemma CheckpointGrows(s: Store, turn: nat, ref: Option<string>, rebind: bool)
    ensures Grows(s, Checkpoint(s, turn, ref, rebind))
  {
    hide Used;
    assert CommandsGrow(s, Checkpoint(s, turn, ref, rebind));
  }

  lemma SendNowGrows(s: Store, item: nat, revision: int, key: string)
    requires Linked(s)
    ensures Grows(s, Prioritize(s, item, revision, key))
  {
    assert forall q :: q in s.rows ==> RowOk(s, q);
    hide Linked, Used;
    assert Prioritize(s, item, revision, key).rows.Keys == s.rows.Keys;
  }

  lemma ResumeGrows(s: Store, key: string)
    ensures Grows(s, Resume(s, key))
  {
    hide Used;
  }

  lemma StepGrows(s: Store, op: Op)
    requires Linked(s) && Joined(s) && FreshIds(s, op)
    ensures Grows(s, Step(s, op))
  {
    hide Linked, Joined, Grows, Accept, Claim, Checkpoint, Recover, MarkTerminal, MarkExecutionTerminal, PauseQueue,
         Reopen,
         Prioritize, Move, DeleteItem, RestoreDraft, Resume, FreshItem;
    match op
    case AcceptOp(r, busy, turn, item, now) => AcceptGrows(s, r, busy, turn, item, now);
    case ClaimOp(turn) => ClaimGrows(s, turn);
    case CheckpointOp(turn, ref, rebind) => CheckpointGrows(s, turn, ref, rebind);
    case RecoverOp(turn, item) => RecoverGrows(s, turn, item);
    case TerminalOp(turn, outcome) => TerminalGrows(s, turn, outcome);
    case ExecutionTerminalOp(ref, outcome) => ExecutionTerminalGrows(s, ref, outcome);
    case PauseOp(reason, restore) => PauseGrows(s, reason, restore);
    case ResumeOp(key) => ResumeGrows(s, key);
    case DeleteOp(item, revision, key) => DeleteGrows(s, item, revision, key);
    case DraftOp(item, revision, key) => DeleteGrows(s, item, revision, key);
    case SendNowOp(item, revision, key) => SendNowGrows(s, item, revision, key);
    case MoveOp(item, revision, target, key) => MoveGrows(s, item, revision, target, key);
    case ReopenOp => ReopenGrows(s);
  }

  // -------------------------------------------------------------- whole runs

  /** Fresh ids are fresh, and dispatching rows are only restored when none is checkpointed. */
  predicate Allowed(s: Store, op: Op)
    requires Joined(s)
  {
    FreshIds(s, op) && (op.PauseOp? && op.restore ==> NothingCheckpointed(s))
  }

  /** `states` is what the store goes through as `ops` run on a new store. */
  ghost predicate IsRun(states: seq<Store>, ops: seq<Op>) {
    && |states| == |ops| + 1 && states[0] == NEW_STORE
    && forall i :: 0 <= i < |ops| ==>
         Joined(states[i]) && Allowed(states[i], ops[i]) && states[i + 1] == Step(states[i], ops[i])
  }

  lemma {:induction false} RunLinked(states: seq<Store>, ops: seq<Op>, i: nat)
    requires IsRun(states, ops) && i < |states|
    ensures Linked(states[i]) && Unmarked(states[i]) && Joined(states[i])
  {
    if i > 0 {
      RunLinked(states, ops, i - 1);
      assert states[i] == Step(states[i - 1], ops[i - 1]);
      hide Linked, Unmarked, Step;
      StepLinked(states[i - 1], ops[i - 1]);
      StepUnmarked(states[i - 1], ops[i - 1]);
      LinkedJoined(states[i]);
    }
  }

  lemma GrowsTransitive(s: Store, s1: Store, s2: Store)
    requires Linked(s) && Grows(s, s1) && Grows(s1, s2)
    ensures Grows(s, s2)
  {
    forall q | q in s.rows && q in s2.rows
      ensures s2.rows[q] == s.rows[q] || s2.rows[q].revision > s.rows[q].revision
    {
      assert RowOk(s, q);
      assert s1.commands[s.rows[q].command].item == Some(q);
      assert Used(s1, q);
      assert q in s1.rows;
    }
    UsedStays(s, s1);
  }

  lemma UsedStays(s: Store, s': Store)
    requires CommandsGrow(s, s')
    ensures forall q: nat :: Used(s, q) ==> Used(s', q)
  {
    forall q: nat | Used(s, q) ensures Used(s', q) {
      var c :| c in s.commands && s.commands[c].item == Some(q);
      assert s'.commands[c].item == Some(q);
    }
  }

  lemma {:induction false} RunGrows(states: seq<Store>, ops: seq<Op>, i: nat, j: nat)
    requires IsRun(states, ops) && i <= j < |states|
    ensures Grows(states[i], states[j])
    decreases j
  {
    RunLinked(states, ops, i);
    if i < j {
      RunGrows(states, ops, i, j - 1);
      RunLinked(states, ops, j - 1);
      assert states[j] == Step(states[j - 1], ops[j - 1]);
      hide Linked, Unmarked, Step, Grows;
      StepGrows(states[j - 1], ops[j - 1]);
      GrowsTransitive(states[i], states[j - 1], states[j]);
    }
  }

  function RowsOf(s: Store, c: string): set<nat> {
    set q | q in s.rows && s.rows[q].command == c
  }

  /** No accepted command is lost or duplicated: it is still there at every later point, a terminal one
      is still terminal, a queued one has exactly one row and it waits, a running one that came through
      the queue has exactly one row and it is being dispatched, and any other has none. */
  lemma NoCommandLost(states: seq<Store>, ops: seq<Op>, i: nat, j: nat, c: string)
    requires IsRun(states, ops) && i <= j < |states| && c in states[i].commands
    ensures c in states[j].commands
    ensures states[j].commands[c].payload == states[i].commands[c].payload
    ensures states[i].commands[c].disposition == Terminal ==> states[j].commands[c].disposition == Terminal
    ensures var cmd := states[j].commands[c];
            match cmd.disposition
            case Queued => cmd.item.Some? && RowsOf(states[j], c) == {cmd.item.value}
                           && states[j].rows[cmd.item.value].state == Waiting
            case Running => if cmd.item.None? then RowsOf(states[j], c) == {}
                            else RowsOf(states[j], c) == {cmd.item.value}
                                 && states[j].rows[cmd.item.value].state == Dispatching
            case Terminal => RowsOf(states[j], c) == {}
  {
    RunGrows(states, ops, i, j);
    RunLinked(states, ops, j);
    var s := states[j];
    assert CommandOk(s, c);
    assert forall q :: q in s.rows ==> RowOk(s, q);
    hide Linked, Unmarked, IsRun;
  }

  /** Within one queue item, the revision determines the whole row over the whole run. */
  lemma RevisionPinsRow(states: seq<Store>, ops: seq<Op>, i: nat, j: nat, item: nat)
    requires IsRun(states, ops) && i <= j < |states| && item in states[i].rows && item in states[j].rows
    ensures states[i].rows[item].revision <= states[j].rows[item].revision
    ensures states[i].rows[item].revision == states[j].rows[item].revision ==>
              states[i].rows[item] == states[j].rows[item]
  {
    RunGrows(states, ops, i, j);
  }

  /** An edit that goes ahead with the revision of an earlier snapshot acts on exactly the row that
      snapshot showed. */
  lemma EditActsOnSnapshot(states: seq<Store>, ops: seq<Op>, i: nat, j: nat, item: nat, revision: int, key: string,
                           kind: Edit)
    requires IsRun(states, ops) && i <= j < |states|
    requires item in states[i].rows && states[i].rows[item].revision == revision
    requires Proceeds(states[j], item, revision, key, kind)
    ensures states[j].rows[item] == states[i].rows[item] && states[i].rows[item].state == Waiting
  {
    RevisionPinsRow(states, ops, i, j, item);
  }

  /** A removed row never comes back. */
  lemma RemovedStaysRemoved(states: seq<Store>, ops: seq<Op>, i: nat, j: nat, k: nat, item: nat)
    requires IsRun(states, ops) && i <= j <= k < |states|
    requires item in states[i].rows && item !in states[j].rows
    ensures item !in states[k].rows
  {
    RunGrows(states, ops, i, j);
    RunGrows(states, ops, j, k);
    RunLinked(states, ops, i);
    assert RowOk(states[i], item);
    assert states[j].commands[states[i].rows[item].command].item == Some(item);
    assert Used(states[j], item);
  }

  /** Once an edit is in the mutation log, repeating it at any later point changes nothing. */
  lemma EditsApplyOnce(states: seq<Store>, ops: seq<Op>, i: nat, j: nat, key: string, item: nat, revision: int,
                       target: int)
    requires IsRun(states, ops) && i <= j < |states| && key != "" && key in states[i].mutations
    ensures Joined(states[j]) && key in states[j].mutations && states[j].mutations[key] == states[i].mutations[key]
    ensures DeleteItem(states[j], item, revision, key) == states[j]
    ensures RestoreDraft(states[j], item, revision, key) == states[j]
    ensures Prioritize(states[j], item, revision, key) == states[j]
    ensures Move(states[j], item, revision, target, key) == states[j]
    ensures Resume(states[j], key) == states[j]
  {
    hide Linked, Unmarked, IsRun, CommandsGrow, RowsAdvance, GoneStaysGone, Removed, Queue, Without, Inserted, Renumber,
         Shifted;
    RunGrows(states, ops, i, j);
    RunLinked(states, ops, j);
  }

  // ------------------------------------------------------------- concrete runs

  lemma MaxUnique(rows: map<nat, Row>, p: int)
    requires p >= 1 && (forall q :: q in rows ==> rows[q].position < p) && (p == 1 || HasPosition(rows, p - 1))
    ensures p == NextPosition(rows)
  {
    hide NextPosition;
    var p' := NextPosition(rows);
    assert p' == 1 || HasPosition(rows, p' - 1);
  }

  const OLDER := Command("ka", Queued, None, Some(1), "", None, "first", false, 10)
  const NEWER := Command("kb", Queued, None, Some(2), "", None, "second", false, 20)

  const ACCEPT_A := AcceptOp(Request("a", "ka", true, "enqueue", "first"), true, 0, 1, 10)
  const ACCEPT_B := AcceptOp(Request("b", "kb", true, "enqueue", "second"), true, 0, 2, 20)

  const ONE := Store(map["a" := OLDER], map[1 := Row("a", 1, Waiting, "enqueue", 1, 10)], map[], None)
  const TWO := Store(
    map["a" := OLDER, "b" := NEWER],
    map[1 := Row("a", 1, Waiting, "enqueue", 1, 10), 2 := Row("b", 2, Waiting, "enqueue", 1, 20)], map[], None)
  const MOVED_UP := TWO.(
    rows := map[1 := Row("a", 2, Waiting, "enqueue", 2, 10), 2 := Row("b", 1, Waiting, "enqueue", 2, 20)])
  const CLAIMED := Store(
    map["a" := OLDER, "b" := NEWER.(disposition := Running, turn := Some(7))],
    map[1 := Row("a", 2, Waiting, "enqueue", 2, 10), 2 := Row("b", 1, Dispatching, "enqueue", 3, 20)], map[], None)
  const RENUMBERED := CLAIMED.(
    rows := map[1 := Row("a", 1, Waiting, "enqueue", 3, 10), 2 := Row("b", 1, Dispatching, "enqueue", 3, 20)])
  const TAKEN := Store(
    map["a" := OLDER.(disposition := Running, turn := Some(7))],
    map[1 := Row("a", 1, Dispatching, "enqueue", 2, 10)], map[], None)
  const BOUND := TAKEN.(
    commands := map["a" := OLDER.(disposition := Running, turn := Some(7), execution := Some("x"),
                                  checkpointed := true)])

  lemma AcceptsOne()
    ensures Joined(NEW_STORE) && Allowed(NEW_STORE, ACCEPT_A) && Step(NEW_STORE, ACCEPT_A) == ONE
  {
    hide NextPosition;
    MaxUnique(map[], 1);
  }

  lemma AcceptsTwo()
    ensures Joined(ONE) && Allowed(ONE, ACCEPT_B) && Step(ONE, ACCEPT_B) == TWO
  {
    hide NextPosition;
    assert ONE.rows[1].position == 1;
    assert HasPosition(ONE.rows, 2 - 1);
    MaxUnique(ONE.rows, 2);
  }

  lemma SwapsTwo()
    ensures Inserted(Without([1, 2], 2), 2, 1) == [2, 1] && Distinct([2, 1])
  {
    assert [1, 2][1..] == [2] && [2][1..] == [] && Without([2], 2) == [];
    assert Without([1, 2], 2) == [1];
  }

  lemma RenumbersTwo()
    requires Distinct([2, 1])
    ensures Elems([2, 1]) <= TWO.rows.Keys && Renumber(TWO.rows, [2, 1], 0) == MOVED_UP.rows
  {
    hide Renumber, Distinct;
    var q := [2, 1];
    var r := Renumber(TWO.rows, q, 0);
    assert r[q[0]] == Placed(TWO.rows[q[0]], 1) && r[q[1]] == Placed(TWO.rows[q[1]], 2);
    assert r.Keys == MOVED_UP.rows.Keys;
  }

  lemma MovesUp()
    ensures Joined(TWO) && Step(TWO, MoveOp(2, 1, 1, "")) == MOVED_UP
  {
    hide Ordered, Queue, Without, Inserted, Renumber, Sorted;
    TwoSorted();
    QueueIs(TWO, [1, 2]);
    MovedDistinct(TWO, 2, 1);
    SwapsTwo();
    RenumbersTwo();
  }

  lemma TwoSorted()
    ensures Sorted(TWO.rows, [1, 2]) && Elems([1, 2]) == WaitingIds(TWO.rows)
  {
  }

  lemma ClaimsHead()
    ensures Queue(MOVED_UP) == [2, 1] && Joined(MOVED_UP) && Step(MOVED_UP, ClaimOp(7)) == CLAIMED
  {
    hide Ordered, Queue;
    assert Elems([2, 1]) == WaitingIds(MOVED_UP.rows);
    QueueIs(MOVED_UP, [2, 1]);
    assert Claim(MOVED_UP, 7).commands == CLAIMED.commands;
    assert Claim(MOVED_UP, 7).rows == CLAIMED.rows;
  }

  lemma RenumbersOne()
    ensures Inserted(Without([1], 1), 1, 1) == [1]
    ensures Distinct([1]) && Elems([1]) <= CLAIMED.rows.Keys && Renumber(CLAIMED.rows, [1], 0) == RENUMBERED.rows
  {
    assert [1][1..] == [] && Without([1], 1) == [];
    var r := Renumber(CLAIMED.rows, [1], 0);
    assert [1][0] == 1 && r[1] == RENUMBERED.rows[1];
  }

  lemma OneWaits()
    ensures Sorted(CLAIMED.rows, [1]) && Elems([1]) == WaitingIds(CLAIMED.rows)
  {
  }

  lemma MovesAgain()
    ensures Queue(CLAIMED) == [1] && Joined(CLAIMED) && Step(CLAIMED, MoveOp(1, 2, 1, "")) == RENUMBERED
  {
    hide Ordered, Queue, Without, Inserted, Renumber, Sorted;
    OneWaits();
    QueueIs(CLAIMED, [1]);
    MovedDistinct(CLAIMED, 1, 1);
    RenumbersOne();
  }

  lemma RunExtends(states: seq<Store>, ops: seq<Op>, op: Op)
    requires IsRun(states, ops) && var s := states[|ops|]; Joined(s) && Allowed(s, op)
    ensures IsRun(states + [Step(states[|ops|], op)], ops + [op])
  {
    hide Step, Joined, Allowed;
  }

  lemma RunBegins()
    ensures IsRun([NEW_STORE], [])
  {
  }

  lemma OlderBehind()
    ensures Joined(RENUMBERED) && UncertainRows(RENUMBERED) == {2} && Queue(Reopen(RENUMBERED)) == [1, 2]
  {
    hide Queue, Ordered;
    var s := RENUMBERED;
    assert UncertainRows(s) == {2} && WaitingIds(s.rows) == {1};
    ReopenQueue(s);
    assert Elems([1, 2]) == {1, 2} == WaitingIds(s.rows) + UncertainRows(s);
    SortedUnique(s.rows, Ordered(s.rows, {1, 2}), [1, 2]);
  }

  /** It need not come back at the head: of two queued items the newer one is moved up and claimed, the older
      one is moved to the front of what is left and so gets the same position, and after a restart the older
      one is the head. */
  lemma ReopenCanMissHead()
    ensures IsRun([NEW_STORE] + [ONE] + [TWO] + [MOVED_UP] + [CLAIMED] + [RENUMBERED],
                  [] + [ACCEPT_A] + [ACCEPT_B] + [MoveOp(2, 1, 1, "")] + [ClaimOp(7)] + [MoveOp(1, 2, 1, "")])
    ensures Queue(MOVED_UP) == [2, 1] && Queue(CLAIMED) == [1]
    ensures Joined(RENUMBERED) && UncertainRows(RENUMBERED) == {2} && Queue(Reopen(RENUMBERED)) == [1, 2]
  {
    hide Step, Queue, IsRun, Joined, UncertainRows, Reopen, FreshItem, NothingCheckpointed;
    AcceptsOne();
    AcceptsTwo();
    MovesUp();
    ClaimsHead();
    MovesAgain();
    OlderBehind();
    RunBegins();
    RunExtends([NEW_STORE], [], ACCEPT_A);
    RunExtends([NEW_STORE] + [ONE], [] + [ACCEPT_A], ACCEPT_B);
    RunExtends([NEW_STORE] + [ONE] + [TWO], [] + [ACCEPT_A] + [ACCEPT_B], MoveOp(2, 1, 1, ""));
    RunExtends([NEW_STORE] + [ONE] + [TWO] + [MOVED_UP],
               [] + [ACCEPT_A] + [ACCEPT_B] + [MoveOp(2, 1, 1, "")], ClaimOp(7));
    RunExtends([NEW_STORE] + [ONE] + [TWO] + [MOVED_UP] + [CLAIMED],
               [] + [ACCEPT_A] + [ACCEPT_B] + [MoveOp(2, 1, 1, "")] + [ClaimOp(7)], MoveOp(1, 2, 1, ""));
  }

  lemma TakesOne()
    ensures Step(ONE, ClaimOp(7)) == TAKEN && Joined(TAKEN)
    ensures Step(TAKEN, CheckpointOp(7, Some("x"), false)) == BOUND && Joined(BOUND)
  {
    hide Ordered, Queue;
    assert Elems([1]) == WaitingIds(ONE.rows);
    QueueIs(ONE, [1]);
    assert Claim(ONE, 7).commands == TAKEN.commands && Claim(ONE, 7).rows == TAKEN.rows;
    assert Checkpoint(TAKEN, 7, Some("x"), false).commands == BOUND.commands;
  }

  /** An item is claimed and its execution checkpointed; it is restored to the queue, its execution ends, and
      the command is left queued with no row. */
  lemma RestoredCommandLosesRow()
    ensures IsRun([NEW_STORE] + [ONE] + [TAKEN] + [BOUND],
                  [] + [ACCEPT_A] + [ClaimOp(7)] + [CheckpointOp(7, Some("x"), false)])
    ensures Joined(BOUND) && !NothingCheckpointed(BOUND)
    ensures var s := MarkExecutionTerminal(PauseQueue(BOUND, "stopped", true), "x", "done");
            "a" in s.commands && s.commands["a"].disposition == Queued && s.rows == map[]
  {
    hide Step, IsRun, Joined, FreshItem, MarkExecutionTerminal, PauseQueue;
    AcceptsOne();
    AcceptsTwo();
    TakesOne();
    LosesRow();
    RunBegins();
    RunExtends([NEW_STORE], [], ACCEPT_A);
    RunExtends([NEW_STORE] + [ONE], [] + [ACCEPT_A], ClaimOp(7));
    RunExtends([NEW_STORE] + [ONE] + [TAKEN], [] + [ACCEPT_A] + [ClaimOp(7)], CheckpointOp(7, Some("x"), false));
    assert BOUND.rows[1].state == Dispatching;
  }

  lemma LosesRow()
    ensures var s := MarkExecutionTerminal(PauseQueue(BOUND, "stopped", true), "x", "done");
            "a" in s.commands && s.commands["a"].disposition == Queued && s.rows == map[]
  {
    hide Normalized;
    var s1 := PauseQueue(BOUND, "stopped", true);
    var bound := set c | c in s1.commands && s1.commands[c].execution == Some("x");
    assert "a" in bound && RowsExcept(s1.rows, bound) == map[];
    NormalizeMovesOnly(map[]);
  }
}

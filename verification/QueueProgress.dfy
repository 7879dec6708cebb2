/**
 What each transaction of the command store brings about (manager/coworker/conversation_commands.py), command
 by command and row by row, and what becomes of the queue's pause.
 */
module QueueProgress {
  import opened Wrappers
  import opened CommandQueue
  import opened QueueSafety

  // ------------------------------------------------------------ accept, claim

  /** A request is taken exactly when its key and its id are new and a busy conversation may queue it. It then
      runs at once in an idle conversation, and waits in a busy one; nothing else changes. */
  lemma AcceptTaken(s: Store, r: Request, busy: bool, turn: nat, item: nat, now: int)
    ensures var s' := Accept(s, r, busy, turn, item, now);
            if (exists c :: c in s.commands && s.commands[c].key == r.key) || r.command in s.commands
               || (busy && !r.enqueue)
            then s' == s
            else && r.command in s'.commands && s'.mutations == s.mutations && s'.pause == s.pause
                 && s'.commands == s.commands[r.command := s'.commands[r.command]]
                 && var c := s'.commands[r.command];
                    && c.key == r.key && c.payload == r.payload && c.createdAt == now && !c.checkpointed
                    && c.execution.None? && c.outcome == ""
                    && (if busy
                        then && c.disposition == Queued && c.turn.None? && c.item == Some(item) && item in s'.rows
                             && s'.rows == s.rows[item := s'.rows[item]]
                             && s'.rows[item] == Row(r.command, s'.rows[item].position, Waiting, r.delivery, 1, now)
                        else c.disposition == Running && c.turn == Some(turn) && c.item.None? && s'.rows == s.rows)
  {
  }

  /** Unless the queue is paused or empty, the head's row is being dispatched and its command runs under the
      given turn; nothing else changes. */
  lemma ClaimTaken(s: Store, turn: nat)
    requires Joined(s)
    ensures var s' := Claim(s, turn);
            if (s.pause.Some? && s.pause.value.paused) || Queue(s) == [] then s' == s
            else && Queue(s)[0] in s.rows && s.rows[Queue(s)[0]].command in s.commands
                 && var row, c := s.rows[Queue(s)[0]], s.commands[s.rows[Queue(s)[0]].command];
                    && s'.mutations == s.mutations && s'.pause == s.pause
                    && s'.commands == s.commands[row.command := c.(disposition := Running, turn := Some(turn))]
                    && s'.rows == s.rows[Queue(s)[0] := row.(state := Dispatching, revision := row.revision + 1)]
  {
    if Queue(s) != [] { QueueMembers(s); }
    hide Queue;
  }

  /** The command is running under this turn, did not come through the queue, and was never checkpointed. */
  predicate Lost(c: Command, turn: nat) {
    c.turn == Some(turn) && c.disposition == Running && c.item.None? && !c.checkpointed
  }

  /** One such command, if there is any, waits again at the end of a queue that is now paused. */
  lemma RecoverTaken(s: Store, turn: nat, item: nat)
    ensures var s' := Recover(s, turn, item);
            if forall c :: c in s.commands ==> !Lost(s.commands[c], turn) then s' == s
            else && s'.pause == Some(Pause(true, Some("restart_uncertain"))) && s'.mutations == s.mutations
                 && item in s'.rows && s'.rows == s.rows[item := s'.rows[item]]
                 && var c := s'.rows[item].command;
                    && c in s.commands && Lost(s.commands[c], turn)
                    && s'.commands == s.commands[c := s.commands[c].(disposition := Queued, turn := None,
                                                                     item := Some(item))]
                    && s'.rows[item] == Row(c, s'.rows[item].position, Waiting, "start_now", 1, s.commands[c].createdAt)
  {
  }

  // --------------------------------------------------------------- checkpoints

  /** A checkpoint is refused, without effect, exactly when a running command of the turn has one execution,
      another is given, and rebinding is not allowed. Otherwise it marks exactly the running commands of the
      turn. Each is bound to the given execution if rebinding is allowed or it had none, and else keeps its
      own. */
  lemma CheckpointBinds(s: Store, turn: nat, ref: Option<string>, rebind: bool, c: string)
    requires c in s.commands
    ensures var s', v := Checkpoint(s, turn, ref, rebind), s.commands[c];
            var refused := exists d ::
              && d in s.commands && s.commands[d].turn == Some(turn) && s.commands[d].disposition == Running
              && s.commands[d].execution.Some? && s.commands[d].execution.value != ""
              && ref.Some? && ref.value != "" && s.commands[d].execution != ref && !rebind;
            && s' == s.(commands := s'.commands) && s'.commands.Keys == s.commands.Keys
            && (refused ==> s' == s)
            && (!(v.turn == Some(turn) && v.disposition == Running) ==> s'.commands[c] == v)
            && (!refused && v.turn == Some(turn) && v.disposition == Running ==>
                  && s'.commands[c] == v.(checkpointed := true, execution := s'.commands[c].execution)
                  && (ref.Some? && ref.value != "" && rebind ==> s'.commands[c].execution == ref)
                  && (v.execution.Some? && v.execution.value != "" && !(ref.Some? && ref.value != "" && rebind) ==>
                        s'.commands[c].execution == v.execution)
                  && (v.execution.None? || v.execution.value == "" ==> s'.commands[c].execution == ref))
  {
  }

  /** Ending an execution ends exactly the running commands bound to it, with the outcome, and no other. */
  lemma ExecutionEnds(s: Store, ref: string, outcome: string, c: string)
    requires c in s.commands
    ensures var s', v := MarkExecutionTerminal(s, ref, outcome), s.commands[c];
            && s'.commands.Keys == s.commands.Keys
            && s'.commands[c] == if v.execution == Some(ref) && v.disposition == Running
                                 then v.(disposition := Terminal, outcome := outcome) else v
  {
    hide Normalized;
  }

  /** A turn that is checkpointed under an execution, rebinding allowed, ends when that execution does,
      whatever it was bound to before. */
  lemma ReboundTurnEnds(s: Store, turn: nat, ref: string, outcome: string, c: string)
    requires c in s.commands && s.commands[c].turn == Some(turn) && s.commands[c].disposition == Running && ref != ""
    ensures var s' := MarkExecutionTerminal(Checkpoint(s, turn, Some(ref), true), ref, outcome);
            && c in s'.commands && s'.commands[c].disposition == Terminal && s'.commands[c].outcome == outcome
            && forall q :: q in s'.rows ==> s'.rows[q].command != c
  {
    hide Checkpoint, MarkExecutionTerminal;
    CheckpointBinds(s, turn, Some(ref), true, c);
    var s1 := Checkpoint(s, turn, Some(ref), true);
    ExecutionEnds(s1, ref, outcome, c);
    EndedRowsGo(s1, ref, outcome, c);
  }

  lemma EndedRowsGo(s: Store, ref: string, outcome: string, c: string)
    requires c in s.commands && s.commands[c].execution == Some(ref)
    ensures forall q :: q in MarkExecutionTerminal(s, ref, outcome).rows ==>
              MarkExecutionTerminal(s, ref, outcome).rows[q].command != c
  {
    hide Normalized;
    var bound := set d | d in s.commands && s.commands[d].execution == Some(ref);
    NormalizeMovesOnly(RowsExcept(s.rows, bound));
  }

  /** Ending a turn ends exactly its commands, with the outcome; their rows go, and an emptied queue is no longer
      paused. */
  lemma TurnEnds(s: Store, turn: nat, outcome: string, c: string)
    requires c in s.commands
    ensures var s', v := MarkTerminal(s, turn, outcome), s.commands[c];
            && s'.commands.Keys == s.commands.Keys
            && s'.commands[c] == (if v.turn == Some(turn) then v.(disposition := Terminal, outcome := outcome) else v)
            && (v.turn == Some(turn) ==> forall q :: q in s'.rows ==> s'.rows[q].command != c)
            && (s'.rows == map[] ==> s'.pause.None?) && (s'.rows != map[] ==> s'.pause == s.pause)
  {
    hide Normalized;
    var done := set d | d in s.commands && s.commands[d].turn == Some(turn);
    NormalizeMovesOnly(RowsExcept(s.rows, done));
  }

  // ------------------------------------------------------------ pause and restart

  /** Pausing records its reason. With restore, every row that is being dispatched waits again and every command
      with a waiting row is queued; without it, nothing else changes. */
  lemma PauseTaken(s: Store, reason: string, restore: bool, q: nat, c: string)
    ensures var s' := PauseQueue(s, reason, restore);
            && s'.pause == Some(Pause(true, Some(reason))) && s'.mutations == s.mutations
            && s'.rows.Keys == s.rows.Keys && s'.commands.Keys == s.commands.Keys
            && (!restore ==> s'.rows == s.rows && s'.commands == s.commands)
            && (restore && q in s.rows ==>
                  s'.rows[q] == if s.rows[q].state == Dispatching
                                then s.rows[q].(state := Waiting, revision := s.rows[q].revision + 1) else s.rows[q])
            && (restore && c in s.commands ==>
                  s'.commands[c] == if s.commands[c].item.Some? && s.commands[c].item.value in s.rows
                                    then s.commands[c].(disposition := Queued, turn := None) else s.commands[c])
  {
  }

  /** Opening the store again. If a dispatched row's command was never checkpointed, the queue is paused, every
      such row waits again, and every unmarked command with a row is queued; otherwise nothing changes. */
  lemma ReopenTaken(s: Store, q: nat, c: string)
    requires Joined(s)
    ensures var s' := Reopen(s);
            if forall x :: x in s.rows && s.rows[x].state == Dispatching ==> s.commands[s.rows[x].command].checkpointed
            then s' == s
            else && s'.pause == Some(Pause(true, Some("restart_uncertain"))) && s'.mutations == s.mutations
                 && s'.rows.Keys == s.rows.Keys && s'.commands.Keys == s.commands.Keys
                 && (q in s.rows ==>
                       s'.rows[q] == if s.rows[q].state == Dispatching && !s.commands[s.rows[q].command].checkpointed
                                     then s.rows[q].(state := Waiting, revision := s.rows[q].revision + 1)
                                     else s.rows[q])
                 && (c in s.commands ==>
                       s'.commands[c] == if s.commands[c].item.Some? && s.commands[c].item.value in s.rows
                                            && !s.commands[c].checkpointed
                                         then s.commands[c].(disposition := Queued, turn := None) else s.commands[c])
  {
    var back := UncertainRows(s);
    if x :| x in s.rows && s.rows[x].state == Dispatching && !s.commands[s.rows[x].command].checkpointed {
      assert x in back;
    } else {
      assert back == {};
    }
  }

  // -------------------------------------------------------------------- edits

  /** An edit with a key was seen before exactly when that key is recorded; an empty key never is. */
  predicate Repeated(s: Store, key: string) { key != "" && key in s.mutations }

  /** The row is still the one the user saw, and is not being dispatched. */
  predicate AsShown(s: Store, item: nat, revision: int) {
    item in s.rows && s.rows[item].state == Waiting && s.rows[item].revision == revision
  }

  /** What is recorded of an edit that was made: all of it under its key, or nothing without one. */
  predicate Remembers(s: Store, s': Store, key: string, m: Mutation) {
    s'.mutations == if key == "" then s.mutations else s.mutations[key := m]
  }

  /** Removing a waiting item, for good or as a draft: its row goes and its command ends, and an emptied queue is
      no longer paused. It happens exactly once per key and only on the row that was shown. */
  lemma RemovalTaken(s: Store, item: nat, revision: int, key: string)
    requires Joined(s)
    ensures var s' := DeleteItem(s, item, revision, key);
            if Repeated(s, key) || !AsShown(s, item, revision) then s' == s
            else && RemovedFrom(s, s', item, "queue_deleted")
                 && Remembers(s, s', key, Mutation(DeleteEdit, Some(item), Done))
    ensures var s' := RestoreDraft(s, item, revision, key);
            if Repeated(s, key) || !AsShown(s, item, revision) then s' == s
            else && RemovedFrom(s, s', item, "queue_restored")
                 && Remembers(s, s', key, Mutation(DraftEdit, Some(item),
                                                   Payload(s.commands[s.rows[item].command].payload)))
  {
    hide Removed, RemovedFrom;
    if AsShown(s, item, revision) {
      RemovedTaken(s, item, "queue_deleted");
      RemovedTaken(s, item, "queue_restored");
    }
  }

  predicate RemovedFrom(s: Store, s': Store, item: nat, outcome: string)
    requires Joined(s) && item in s.rows
  {
    var c := s.rows[item].command;
    && s'.rows.Keys == s.rows.Keys - {item}
    && s'.commands == s.commands[c := s.commands[c].(disposition := Terminal, outcome := outcome)]
    && s'.pause == (if s'.rows == map[] then None else s.pause)
  }

  lemma RemovedTaken(s: Store, item: nat, outcome: string)
    requires Joined(s) && item in s.rows
    ensures RemovedFrom(s, Removed(s, item, outcome), item, outcome)
    ensures Removed(s, item, outcome).mutations == s.mutations
    ensures forall key, m :: RemovedFrom(s, Recorded(Removed(s, item, outcome), key, m), item, outcome)
  {
    hide Normalized;
    NormalizeMovesOnly(s.rows - {item});
  }

  /** Sending an item now unpauses the queue and touches no command. */
  lemma SendNowTaken(s: Store, item: nat, revision: int, key: string)
    ensures var s' := Prioritize(s, item, revision, key);
            if Repeated(s, key) || !AsShown(s, item, revision) then s' == s
            else && s'.commands == s.commands && s'.rows.Keys == s.rows.Keys && s'.pause == Some(Pause(false, None))
                 && Remembers(s, s', key, Mutation(SendNowEdit, Some(item), Done))
  {
  }

  /** Resuming unpauses the queue and remembers whether it was paused. */
  lemma ResumeTaken(s: Store, key: string)
    ensures var s' := Resume(s, key);
            if Repeated(s, key) then s' == s
            else && s'.commands == s.commands && s'.rows == s.rows && s'.pause == Some(Pause(false, None))
                 && Remembers(s, s', key, Mutation(ResumeEdit, None, Resumed(s.pause.Some? && s.pause.value.paused)))
  {
  }

  /** Where a target position lands among `n` items: at least first, at most last. */
  predicate LandsAt(target: int, n: nat, k: int) {
    && (target <= 1 ==> k == 0)
    && (1 <= target <= n ==> k == target - 1)
    && (target >= n ==> k == n - 1)
  }

  lemma InsertedLands(rest: seq<nat>, item: nat, target: int)
    ensures var q, k := Inserted(rest, item, target), Clamp(target, |rest|) - 1;
            && 0 <= k < |q| && LandsAt(target, |q|, k) && q[k] == item && q[..k] + q[k + 1..] == rest
  {
    var q, k := Inserted(rest, item, target), Clamp(target, |rest|) - 1;
    assert q[..k] == rest[..k] && q[k + 1..] == rest[k..];
  }

  /** A moved item stands at its target position, and the other items keep their order around it. */
  lemma MoveTaken(s: Store, item: nat, revision: int, target: int, key: string)
    ensures var s' := Move(s, item, revision, target, key);
            if Repeated(s, key) || !AsShown(s, item, revision) then s' == s
            else exists k :: && 0 <= k < |Queue(s')| && LandsAt(target, |Queue(s')|, k) && Queue(s')[k] == item
                             && Queue(s')[..k] + Queue(s')[k + 1..] == Without(Queue(s), item)
                             && Remembers(s, s', key, Mutation(MoveEdit, Some(item), MovedTo(k + 1)))
                             && s'.commands == s.commands && s'.pause == s.pause && s'.rows.Keys == s.rows.Keys
  {
    hide Queue, Without, Renumber, Ordered, Inserted, LandsAt, Elems, Distinct;
    MoveReinserts(s, item, revision, target, key);
    if !Repeated(s, key) && AsShown(s, item, revision) {
      var rest := Without(Queue(s), item);
      InsertedLands(rest, item, target);
      MovedDistinct(s, item, target);
      var k := Clamp(target, |rest|) - 1;
      assert Queue(Move(s, item, revision, target, key))[k] == item;
    }
  }
}

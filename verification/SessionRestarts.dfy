/**
 What a restart of the process takes back: a status that was decided in memory only, and a policy update
 that was applied in memory only. A status is lost exactly when the lease had run out at the last check,
 whatever lease the restart loads; an applied revision exactly then, with the update pending, or when
 another key's record has taken the session's row.
 */
module SessionRestarts {
  import opened Wrappers
  import opened LeaseCells
  import opened Sessions
  import opened SessionSafety
  import SessionRows

  // ------------------------------------------------------------- statuses

  /** The last lease check of a step that decides invocation `i` passes. */
  predicate Confirmed(s: State, i: nat, step: Step)
    requires i < |s.invs|
  {
    if step.Drive? then
      if step.driver.Terminal? || step.driver.Fail? then LeasePasses(s, i, step.driver.now')
      else step.driver.Unwind? && LeasePasses(s, i, step.driver.now)
    else
      step.Control? && step.caller.TakeOver? && step.caller.now + step.caller.ttl > step.caller.now''
  }

  /** What a step leaves of invocation `i`'s status: decided and written, decided in memory, or as it was. */
  predicate Settles(v: Invocation, v': Invocation, confirmed: bool) {
    v'.status == v.status || v'.durable == if confirmed then v'.status else v.durable
  }

  lemma ConcludedOnlyHeap(s: State, i: nat, status: Status, ref: nat)
    requires i < |s.invs| && ref < |s.heap| && s.stored.Some? && s.stored.value < |s.heap|
    ensures var s1 := ConcludedHeap(s, i, status, ref);
            s1 == s.(heap := s1.heap) && |s1.heap| == |s.heap|
  {
    hide Refreshed, Concluded, ApplyDesired;
  }

  /** A terminal write in SQLite: all of it, or the status in memory only. */
  lemma PersistSettles(s: State, i: nat, status: Status, ref: nat, holder: string, token: nat, now: int,
                       committed: Invocation, fenced: Invocation)
    requires s.sqlite && i < |s.invs| && ref < |s.heap| && s.stored.Some? && s.stored.value < |s.heap|
    ensures var s' := Persist(s, i, status, ref, holder, token, now, committed, fenced);
            var ok := Passes(s.cell, holder, token, now);
            && s'.sqlite && s'.cell == s.cell
            && s'.invs == s.invs[i := if ok then committed.(status := status, durable := status)
                                      else fenced.(status := status)]
            && s'.events == if ok then s.events + [Event(i, Some(status), token, s.restarts)] else s.events
  {
    hide ConcludedHeap, RecordRef;
    ConcludedOnlyHeap(s, i, status, ref);
  }

  lemma TerminalSettles(s: State, i: nat, status: Status, now: int, now': int, after: Pc)
    requires WellFormed(s) && s.sqlite && i < |s.invs| && InTry(s.invs[i])
    ensures var s' := DriverTerminal(s, i, status, now, now', after);
            && s'.sqlite == s.sqlite
            && |s'.invs| == |s.invs| && (forall j :: 0 <= j < |s.invs| && j != i ==> s'.invs[j] == s.invs[j])
            && Settles(s.invs[i], s'.invs[i], LeasePasses(s, i, now'))
            && (s'.invs[i].status != s.invs[i].status ==>
                  |s'.events| == |s.events| + if LeasePasses(s, i, now') then 1 else 0)
  {
    hide Persist;
    var v := s.invs[i];
    PersistSettles(s, i, status, v.local, v.holder, v.token, now', v.(streamed := true, pc := after, local := |s.heap|),
                   v.(pc := Unwinding, registered := false));
  }

  lemma MarkedOnly(s: State, i: nat, cleanly: bool)
    requires WellFormed(s) && i < |s.invs| && s.invs[i].pc == Unwinding
    ensures var s1 := Marked(s, i, cleanly);
            && s1 == s.(heap := s1.heap, invs := s1.invs) && |s1.heap| == |s.heap|
            && s1.invs == s.invs[i := s.invs[i].(status := s1.invs[i].status)]
            && forall r :: 0 <= r < |s.heap| ==> s1.heap[r].appliedRevision == s.heap[r].appliedRevision
  {
  }

  lemma SaveLocalOnly(s: State, i: nat)
    requires WellFormed(s) && i < |s.invs| && s.invs[i].pc != Done
    ensures var s1 := SaveLocal(s, i);
            && s1.sqlite == s.sqlite && s1.events == s.events && s1.cell == s.cell
            && s1.invs == s.invs[i := s.invs[i].(local := |s.heap|)]
  {
    hide Refreshed;
  }

  lemma UnwindSettles(s: State, i: nat, cleanly: bool, now: int)
    requires WellFormed(s) && i < |s.invs| && s.invs[i].pc == Unwinding
    ensures var s' := Unwound(s, i, cleanly, now);
            && s'.sqlite == s.sqlite
            && |s'.invs| == |s.invs| && (forall j :: 0 <= j < |s.invs| && j != i ==> s'.invs[j] == s.invs[j])
            && Settles(s.invs[i], s'.invs[i], LeasePasses(s, i, now)) && s'.events == s.events
  {
    hide Marked, SaveLocal, Release;
    MarkedOnly(s, i, cleanly);
    var s1 := Marked(s, i, cleanly);
    var s2 := SetInv(s1, i, s1.invs[i].(durable := s1.invs[i].status));
    SaveLocalOnly(s2, i);
  }

  lemma TakeOverSettles(s: State, i: nat, status: Status, holder: string, ttl: int, now: int, now': int, now'': int,
                        found: bool)
    requires WellFormed(s) && s.sqlite && i < |s.invs| && status != Active
    ensures var s' := TakenOver(s, i, status, holder, ttl, now, now', now'', found);
            && s'.sqlite == s.sqlite
            && |s'.invs| == |s.invs| && (forall j :: 0 <= j < |s.invs| && j != i ==> s'.invs[j] == s.invs[j])
            && Settles(s.invs[i], s'.invs[i], now + ttl > now'')
            && (s'.invs[i].status != s.invs[i].status ==>
                  |s'.events| == |s.events| + if now + ttl > now'' then 1 else 0)
  {
    hide Persist, Release;
    var cell := Acquire(s.cell, holder, ttl, now);
    if s.stored.Some? {
      PersistSettles(s.(cell := cell), i, status, s.stored.value, holder, cell.token, now'', s.invs[i], s.invs[i]);
    }
  }

  lemma DrivenSettles(s: State, i: nat, step: DriverStep, j: nat)
    requires WellFormed(s) && s.sqlite && i < |s.invs| && j < |s.invs|
    ensures var s' := Driven(s, i, step);
            && s'.sqlite && |s'.invs| == |s.invs| && (j != i ==> s'.invs[j] == s.invs[j])
            && (s'.invs[j].status != s.invs[j].status ==>
                  && (step.Terminal? || step.Fail? || step.Unwind?)
                  && Settles(s.invs[j], s'.invs[j], Confirmed(s, j, Drive(i, step)))
                  && |s'.events| == |s.events| + if !step.Unwind? && Confirmed(s, j, Drive(i, step)) then 1 else 0)
  {
    hide DriverTerminal, Unwound, SaveLocal, Settles, Emitted;
    var v := s.invs[i];
    if v.pc != Done { SaveLocalOnly(s, i); }
    if step.Emit? && v.pc == Streaming { EmittedOnly(s, i, step.now, step.merge, step.now'); }
    if step.Terminal? && v.pc == Streaming {
      var status := if step.finalized then step.status else Reported(v, step.status);
      TerminalSettles(s, i, status, step.now, step.now', Streaming);
    }
    if step.Fail? && InTry(v) { TerminalSettles(s, i, Failed, step.now, step.now', Closing); }
    if step.Unwind? && v.pc == Unwinding { UnwindSettles(s, i, step.cleanly, step.now); }
  }

  lemma EmittedOnly(s: State, i: nat, now: int, merge: bool, now': int)
    requires WellFormed(s) && i < |s.invs| && s.invs[i].pc == Streaming
    ensures var s' := Emitted(s, i, now, merge, now');
            && s'.sqlite == s.sqlite && s'.invs[i].status == s.invs[i].status
            && |s'.invs| == |s.invs| && (forall j :: 0 <= j < |s.invs| && j != i ==> s'.invs[j] == s.invs[j])
  {
    hide SaveLocal;
    SaveLocalOnly(Append(s, Event(i, None, s.invs[i].token, s.restarts)), i);
  }

  lemma ControlledSettles(s: State, i: nat, step: ControlStep, j: nat)
    requires WellFormed(s) && s.sqlite && i < |s.invs| && j < |s.invs|
    ensures var s' := Controlled(s, i, step);
            && s'.sqlite && |s'.invs| == |s.invs|
            && (s'.invs[j].status != s.invs[j].status ==>
                  && j == i && step.TakeOver?
                  && Settles(s.invs[j], s'.invs[j], Confirmed(s, j, Control(i, step)))
                  && |s'.events| == |s.events| + if Confirmed(s, j, Control(i, step)) then 1 else 0)
  {
    hide TakenOver, Settles, PutStored;
    if s.stored.None? {
      if step.TakeOver? {
        TakeOverSettles(s, i, Incomplete, step.holder, step.ttl, step.now, step.now', step.now'', false);
      }
    } else if step.TakeOver? {
      TakeOverSettles(s, i, if step.readback then Incomplete else Cancelled_, step.holder, step.ttl, step.now,
                      step.now', step.now'', step.found);
    } else {
      StoredOnly(s, i);
    }
  }

  lemma StoredOnly(s: State, i: nat)
    requires WellFormed(s) && s.stored.Some?
    ensures forall o: Session :: PutStored(s, o).sqlite == s.sqlite && PutStored(s, o).invs == s.invs
    ensures forall v: Invocation, o: Session :: i < |s.invs| ==>
              && PutStored(SetInv(s, i, v), o).sqlite == s.sqlite
              && PutStored(SetInv(s, i, v), o).invs == s.invs[i := v]
  {
  }

  /** Only a terminal, a failure, an unwinding driver or a takeover moves a status, and only its own. */
  lemma NextSettles(s: State, step: Step, i: nat)
    requires Inv(s) && s.sqlite && i < |s.invs| && s.invs[i].status == Active
    ensures var s' := Next(s, step);
            && s'.sqlite && i < |s'.invs|
            && (s'.invs[i].status != Active ==>
                  && Settles(s.invs[i], s'.invs[i], Confirmed(s, i, step))
                  && (step.Drive? || step.Control?)
                  && |s'.events| == |s.events| +
                       if !(step.Drive? && step.driver.Unwind?) && Confirmed(s, i, step) then 1 else 0)
  {
    hide TokensOk, StatusesOk, EventsOk, PoliciesOk, LinksOk, Driven, Controlled, Settles, Confirmed, PolicyUpdated,
         Started;
    StatusOf(s, i);
    if step.Drive? && step.i < |s.invs| { DrivenSettles(s, step.i, step.driver, i); }
    if step.Control? && step.i < |s.invs| { ControlledSettles(s, step.i, step.caller, i); }
    if step.Start? { StartedOnly(s, step.holder, step.ttl, step.now, step.source, step.initial, i); }
    if step.UpdatePolicy? { PolicyOnly(s, step.expected, step.delta, step.valid); }
  }

  lemma StartedOnly(s: State, holder: string, ttl: int, now: int, source: Option<nat>, initial: Option<Policy>, i: nat)
    requires WellFormed(s) && i < |s.invs|
    ensures var s' := Started(s, holder, ttl, now, source, initial);
            s'.sqlite == s.sqlite && i < |s'.invs| && s'.invs[i] == s.invs[i]
  {
  }

  lemma PolicyOnly(s: State, expected: nat, d: Delta, valid: bool)
    requires WellFormed(s)
    ensures var s' := PolicyUpdated(s, expected, d, valid); s'.sqlite == s.sqlite && s'.invs == s.invs
  {
  }

  /** A step that decides an invocation's status, whichever it is, survives any restart exactly when its last
      lease check passed; and, but for an unwinding driver, that is also exactly when it leaves an event. */
  lemma DecidedSurvivesRestartIff(s: State, step: Step, i: nat, loaded: Cell)
    requires Inv(s) && s.sqlite && i < |s.invs| && s.invs[i].status == Active
    requires i < |Next(s, step).invs| && Next(s, step).invs[i].status != Active
    ensures var s1 := Next(s, step);
            && WellFormed(s1) && i < |Next(s1, Restart(loaded)).invs|
            && (Next(s1, Restart(loaded)).invs[i].status == s1.invs[i].status <==> Confirmed(s, i, step))
            && |s1.events| == |s.events| +
                 if !(step.Drive? && step.driver.Unwind?) && Confirmed(s, i, step) then 1 else 0
  {
    hide TokensOk, StatusesOk, EventsOk, PoliciesOk, LinksOk, Confirmed, Driven, Controlled, Started, PolicyUpdated;
    NextKeeps(s, step);
    NextSettles(s, step, i);
    StatusOf(s, i);
  }

  // -------------------------------------------------------------- concrete runs

  lemma RunStep(s: State, a: Step, steps: seq<Step>)
    requires Inv(s)
    ensures Inv(Next(s, a)) && Run(s, [a] + steps) == Run(Next(s, a), steps)
  {
    hide TokensOk, StatusesOk, EventsOk, PoliciesOk, LinksOk, Next;
    NextKeeps(s, a);
    assert ([a] + steps)[1..] == steps;
  }

  lemma RunLast(s: State, a: Step)
    requires Inv(s)
    ensures Inv(Next(s, a)) && Run(s, [a]) == Next(s, a)
  {
    hide TokensOk, StatusesOk, EventsOk, PoliciesOk, LinksOk, Next;
    NextKeeps(s, a);
    assert [a][1..] == [];
  }

  const START := Start("h", 10, 0, None, Some(Policy("w", "n", "t")))

  /** The lease that `START` takes. */
  const LEFT := Cell(Some(Lease("h", 10, 1)), 1)

  lemma FirstStart()
    ensures var s := Next(Init(true), START);
            && |s.invs| == 1 && s.sqlite && s.invs[0].status == Active && s.invs[0].pc == Starting
            && !s.invs[0].registered && !s.invs[0].streamed && !s.invs[0].cancelAsked && s.asked == {}
            && !s.heap[s.stored.value].supportsResume && s.heap[s.stored.value].resumable.None?
            && s.cell == LEFT && s.disk.Some? && s.past == [] && s.invs[0].holder == "h" && s.invs[0].token == 1
            && s.stored.Some? && StoredDesired(s) == StoredApplied(s) == 1
            && s.heap[s.stored.value].control == Running && s.stored == Some(s.invs[0].local)
  {
  }

  /** A terminal of the driver whose lease runs out between the two checks. */
  lemma FencedTerminal(s: State, i: nat, status: Status, now: int, now': int, after: Pc)
    requires WellFormed(s) && s.sqlite && i < |s.invs| && InTry(s.invs[i])
    requires LeasePasses(s, i, now) && !LeasePasses(s, i, now')
    ensures DriverTerminal(s, i, status, now, now', after).invs[i].status == status
  {
    hide Persist;
    var v := s.invs[i];
    PersistSettles(s, i, status, v.local, v.holder, v.token, now', v.(streamed := true, pc := after, local := |s.heap|),
                   v.(pc := Unwinding, registered := false));
  }

  /** A run starts, its consumer goes away, and the driver unwinds after its lease has run out: the failed
      mark does not survive a restart. */
  lemma FailedMarkLostOnRestart(loaded: Cell)
    ensures Inv(Init(true))
    ensures var s := Run(Init(true), [START] + ([Drive(0, Leave)] + [Drive(0, Unwind(false, 100))]));
            |s.invs| == 1 && s.invs[0].status == Failed && Next(s, Restart(loaded)).invs[0].status != Failed
  {
    hide TokensOk, StatusesOk, EventsOk, PoliciesOk, LinksOk, Next, Run, WellFormed;
    InitOk(true);
    FirstStart();
    RunStep(Init(true), START, [Drive(0, Leave)] + [Drive(0, Unwind(false, 100))]);
    var s1 := Next(Init(true), START);
    RunStep(s1, Drive(0, Leave), [Drive(0, Unwind(false, 100))]);
    var s2 := Next(s1, Drive(0, Leave));
    LeaveUnwinds(s1);
    RunLast(s2, Drive(0, Unwind(false, 100)));
    UnwindFails(s2, 100);
    DecidedSurvivesRestartIff(s2, Drive(0, Unwind(false, 100)), 0, loaded);
  }

  lemma LeaveUnwinds(s: State)
    requires Inv(s) && s.invs != [] && s.invs[0].pc == Starting
    ensures var s' := Next(s, Drive(0, Leave));
            && s' == s.(invs := s'.invs) && |s'.invs| == |s.invs|
            && s'.invs[0] == s.invs[0].(pc := Unwinding, registered := false)
  {
  }

  lemma UnwindFails(s: State, now: int)
    requires Inv(s) && s.invs != [] && s.invs[0].pc == Unwinding && s.invs[0].status == Active
    ensures var s' := Next(s, Drive(0, Unwind(false, now)));
            |s'.invs| == |s.invs| && s'.invs[0].status == Failed
  {
    hide TokensOk, StatusesOk, EventsOk, PoliciesOk, LinksOk, SaveLocal;
    MarkedOnly(s, 0, false);
    var s1 := Marked(s, 0, false);
    SaveLocalOnly(SetInv(s1, 0, s1.invs[0].(durable := s1.invs[0].status)), 0);
  }

  /** A run fails at once and its lease runs out between the two checks: the failure does not survive. */
  lemma FailureLostOnRestart(loaded: Cell)
    ensures Inv(Init(true))
    ensures var s := Run(Init(true), [START] + [Drive(0, Fail(5, 50))]);
            |s.invs| == 1 && s.invs[0].status == Failed && Next(s, Restart(loaded)).invs[0].status != Failed
  {
    hide TokensOk, StatusesOk, EventsOk, PoliciesOk, LinksOk, Next, Run, WellFormed;
    InitOk(true);
    FirstStart();
    RunStep(Init(true), START, [Drive(0, Fail(5, 50))]);
    var s1 := Next(Init(true), START);
    RunLast(s1, Drive(0, Fail(5, 50)));
    FailDecides(s1, 5, 50);
    DecidedSurvivesRestartIff(s1, Drive(0, Fail(5, 50)), 0, loaded);
  }

  lemma FailDecides(s: State, now: int, now': int)
    requires Inv(s) && s.sqlite && s.invs != [] && InTry(s.invs[0]) && !s.invs[0].streamed
    requires LeasePasses(s, 0, now) && !LeasePasses(s, 0, now')
    ensures var s' := Next(s, Drive(0, Fail(now, now'))); |s'.invs| == |s.invs| && s'.invs[0].status == Failed
  {
    hide TokensOk, StatusesOk, EventsOk, PoliciesOk, LinksOk, DriverTerminal;
    TerminalSettles(s, 0, Failed, now, now', Closing);
    FencedTerminal(s, 0, Failed, now, now', Closing);
  }

  /** A run is left behind by a restart, the read-back takes it over, and its lease runs out between the
      two checks: `incomplete` does not survive the next restart. */
  lemma ReadbackLostOnRestart(loaded: Cell)
    ensures Inv(Init(true))
    ensures var s := Run(Init(true), [START] + ([Restart(LEFT)]
                                     + [Control(0, TakeOver(true, "r", 10, 20, 21, 50, true))]));
            |s.invs| == 1 && s.invs[0].status == Incomplete && Next(s, Restart(loaded)).invs[0].status != Incomplete
  {
    hide TokensOk, StatusesOk, EventsOk, PoliciesOk, LinksOk, Next, Run, WellFormed;
    var take := Control(0, TakeOver(true, "r", 10, 20, 21, 50, true));
    InitOk(true);
    FirstStart();
    RunStep(Init(true), START, [Restart(LEFT)] + [take]);
    var s1 := Next(Init(true), START);
    RunStep(s1, Restart(LEFT), [take]);
    var s2 := Next(s1, Restart(LEFT));
    RestartLeaves(s1);
    RunLast(s2, take);
    TakeOverDecides(s2);
    DecidedSurvivesRestartIff(s2, take, 0, loaded);
  }

  lemma RestartLeaves(s: State)
    requires Inv(s) && s.sqlite && s.invs != [] && s.invs[0].status == Active
    requires s.disk.Some?
    ensures var s' := Next(s, Restart(LEFT));
            && |s'.invs| == |s.invs| && s'.sqlite && s'.cell == LEFT && s'.stored.Some?
            && s'.invs[0].status == Active && !s'.invs[0].registered
  {
    StatusOf(s, 0);
  }

  lemma TakeOverDecides(s: State)
    requires Inv(s) && s.sqlite && s.invs != [] && s.invs[0].status == Active && !s.invs[0].registered
    requires s.cell.lease.Some? && s.cell.lease.value.expiresAtMs <= 20 && s.stored.Some?
    ensures var s' := Next(s, Control(0, TakeOver(true, "r", 10, 20, 21, 50, true)));
            |s'.invs| == |s.invs| && s'.invs[0].status == Incomplete
  {
    hide TokensOk, StatusesOk, EventsOk, PoliciesOk, LinksOk, Persist;
    var cell := Acquire(s.cell, "r", 10, 20);
    PersistSettles(s.(cell := cell), 0, Incomplete, s.stored.value, "r", cell.token, 50, s.invs[0], s.invs[0]);
  }

  /** A takeover that finds nothing supersedes the driver's lease, and the driver still marks the stored
      record idle when it leaves. */
  lemma FencedDriverIdlesRecord()
    ensures Inv(Init(true))
    ensures var take := Control(0, TakeOver(true, "r", 10, 20, 21, 22, false));
            var s := Run(Init(true), [START] + ([take] + [Drive(0, Leave)]));
            && |s.invs| == 1 && !Newest(s, s.invs[0]) && s.stored.Some?
            && IdlesStored(s, 0, Unwind(false, 100))
            && var s' := Next(s, Drive(0, Unwind(false, 100)));
               s.stored.value < |s'.heap| && s'.heap[s.stored.value] != s.heap[s.stored.value]
  {
    hide TokensOk, StatusesOk, EventsOk, PoliciesOk, LinksOk, Next, Run;
    var take := Control(0, TakeOver(true, "r", 10, 20, 21, 22, false));
    InitOk(true);
    FirstStart();
    RunStep(Init(true), START, [take] + [Drive(0, Leave)]);
    var s1 := Next(Init(true), START);
    RunStep(s1, take, [Drive(0, Leave)]);
    var s2 := Next(s1, take);
    TakeOverSupersedes(s1);
    RunLast(s2, Drive(0, Leave));
    LeaveUnwinds(s2);
    FencedDriverIsHarmless(Next(s2, Drive(0, Leave)), 0, Unwind(false, 100));
  }

  lemma TakeOverSupersedes(s: State)
    requires Inv(s) && s.invs != [] && s.invs[0].status == Active && !s.invs[0].registered
    requires s.cell.lease.Some? && s.cell.lease.value.expiresAtMs <= 20
    ensures var s' := Next(s, Control(0, TakeOver(true, "r", 10, 20, 21, 22, false)));
            s' == s.(cell := s'.cell) && s'.cell.token == s.cell.token + 1
  {
    hide TokensOk, StatusesOk, EventsOk, PoliciesOk, LinksOk, Persist;
  }

  // ------------------------------------------------------------ policy revisions

  /** An accepted update waits for the running invocation to end. */
  predicate Pending(s: State)
    requires WellFormed(s)
  {
    StoredApplied(s) < StoredDesired(s)
  }

  /** The session's own row carries another applied revision than memory does. */
  predicate Ahead(s: State)
    requires WellFormed(s)
  {
    s.disk.Some? && StoredApplied(s) != DiskApplied(s)
  }

  /** A terminal is written and rolled back: its first lease check passes and its second does not. */
  predicate RolledBack(s: State, step: Step) {
    if step.Drive? && step.i < |s.invs| then
      var v, d := s.invs[step.i], step.driver;
      && ((d.Terminal? && v.pc == Streaming && d.status != Active) || (d.Fail? && InTry(v)))
      && !v.streamed && LeasePasses(s, step.i, d.now) && !LeasePasses(s, step.i, d.now')
    else if step.Control? && step.i < |s.invs| && step.caller.TakeOver? then
      var v, c := s.invs[step.i], step.caller;
      && s.stored.Some? && v.status == Active && !v.registered && !Conflicts(s.cell, c.holder, c.now) && c.found
      && c.now + c.ttl > c.now' && c.now + c.ttl <= c.now''
    else false
  }

  /** A terminal is rolled back over a pending update, while the session's row is its own. */
  predicate Spoils(s: State, step: Step)
    requires WellFormed(s)
  {
    RolledBack(s, step) && Pending(s) && s.disk.Some?
  }

  lemma PersistApplies(s: State, i: nat, status: Status, ref: nat, holder: string, token: nat, now: int,
                       committed: Invocation, fenced: Invocation)
    requires WellFormed(s) && s.sqlite && i < |s.invs| && ref < |s.heap| && s.stored.Some?
    requires StoredApplied(s) <= StoredDesired(s)
    ensures var s' := Persist(s, i, status, ref, holder, token, now, committed, fenced);
            && s'.stored.Some? && s'.stored.value < |s'.heap|
            && var applied := s'.heap[s'.stored.value].appliedRevision;
               if Passes(s.cell, holder, token, now)
               then s'.disk.Some? && applied == s'.disk.value.appliedRevision
               else s'.disk == s.disk && applied == StoredDesired(s)
  {
    hide Concluded;
    ConcludedApplies(s, i, status, ref);
    ConcludedOnlyHeap(s, i, status, ref);
  }

  lemma ConcludedApplies(s: State, i: nat, status: Status, ref: nat)
    requires WellFormed(s) && i < |s.invs| && ref < |s.heap| && s.stored.Some?
    requires StoredApplied(s) <= StoredDesired(s)
    ensures var s1 := ConcludedHeap(s, i, status, ref);
            |s1.heap| == |s.heap| && s1.heap[s.stored.value].appliedRevision == StoredDesired(s)
  {
  }

  lemma SaveLocalApplies(s: State, i: nat)
    requires WellFormed(s) && i < |s.invs| && s.invs[i].pc != Done
    ensures WellFormed(SaveLocal(s, i)) && !Ahead(SaveLocal(s, i))
  {
    hide Refreshed;
  }

  lemma UnwoundApplies(s: State, i: nat, cleanly: bool, now: int)
    requires WellFormed(s) && i < |s.invs| && s.invs[i].pc == Unwinding && !Ahead(s)
    ensures var s' := Unwound(s, i, cleanly, now); WellFormed(s') && !Ahead(s')
  {
    hide Marked, SaveLocal, Release;
    MarkedOnly(s, i, cleanly);
    var s1 := Marked(s, i, cleanly);
    assert WellFormed(s1) && !Ahead(s1);
    var saved := SetInv(s1, i, s1.invs[i].(durable := s1.invs[i].status));
    SaveLocalApplies(saved, i);
    SaveLocalOnly(saved, i);
    var s2 := if LeasePasses(s1, i, now) then SaveLocal(saved, i) else s1;
    assert WellFormed(s2) && !Ahead(s2);
    FinishedApplies(s2, i);
  }

  lemma FinishedApplies(s: State, i: nat)
    requires WellFormed(s) && i < |s.invs| && !Ahead(s)
    ensures WellFormed(Finished(s, i)) && !Ahead(Finished(s, i))
  {
    hide Release;
  }

  lemma TerminalApplies(s: State, i: nat, status: Status, now: int, now': int, after: Pc)
    requires WellFormed(s) && s.sqlite && i < |s.invs| && InTry(s.invs[i]) && !Ahead(s)
    requires StoredApplied(s) <= StoredDesired(s) && WellFormed(DriverTerminal(s, i, status, now, now', after))
    ensures Ahead(DriverTerminal(s, i, status, now, now', after)) <==>
            LeasePasses(s, i, now) && !LeasePasses(s, i, now') && Pending(s) && s.disk.Some?
  {
    hide Persist;
    var v := s.invs[i];
    PersistApplies(s, i, status, v.local, v.holder, v.token, now', v.(streamed := true, pc := after, local := |s.heap|),
                   v.(pc := Unwinding, registered := false));
  }

  lemma EmittedApplies(s: State, i: nat, now: int, merge: bool, now': int)
    requires WellFormed(s) && i < |s.invs| && s.invs[i].pc == Streaming && !Ahead(s)
    ensures var s' := Emitted(s, i, now, merge, now'); WellFormed(s') && !Ahead(s')
  {
    hide SaveLocal;
    SaveLocalApplies(Append(s, Event(i, None, s.invs[i].token, s.restarts)), i);
  }

  lemma DrivenApplies(s: State, i: nat, step: DriverStep)
    requires WellFormed(s) && s.sqlite && i < |s.invs| && !Ahead(s) && StoredApplied(s) <= StoredDesired(s)
    requires WellFormed(Driven(s, i, step))
    ensures Ahead(Driven(s, i, step)) <==> Spoils(s, Drive(i, step))
  {
    hide DriverTerminal, Unwound, SaveLocal, Emitted;
    var v := s.invs[i];
    if v.pc != Done { SaveLocalApplies(s, i); }
    if step.Emit? && v.pc == Streaming { EmittedApplies(s, i, step.now, step.merge, step.now'); }
    if step.Terminal? && v.pc == Streaming && !v.streamed && step.status != Active {
      var status := if step.finalized then step.status else Reported(v, step.status);
      TerminalApplies(s, i, status, step.now, step.now', Streaming);
    }
    if step.Fail? && InTry(v) && !v.streamed { TerminalApplies(s, i, Failed, step.now, step.now', Closing); }
    if step.Unwind? && v.pc == Unwinding { UnwoundApplies(s, i, step.cleanly, step.now); }
  }

  lemma TakeOverApplies(s: State, i: nat, c: ControlStep)
    requires WellFormed(s) && s.sqlite && i < |s.invs| && !Ahead(s) && StoredApplied(s) <= StoredDesired(s)
    requires c.TakeOver? && WellFormed(Controlled(s, i, c))
    ensures Ahead(Controlled(s, i, c)) <==> Spoils(s, Control(i, c))
  {
    hide Persist, Release;
    var cell := Acquire(s.cell, c.holder, c.ttl, c.now);
    if s.stored.Some? {
      PersistApplies(s.(cell := cell), i, if c.readback then Incomplete else Cancelled_, s.stored.value, c.holder,
                     cell.token, c.now'', s.invs[i], s.invs[i]);
    }
  }

  lemma ControlledApplies(s: State, i: nat, c: ControlStep)
    requires WellFormed(s) && s.sqlite && i < |s.invs| && !Ahead(s) && StoredApplied(s) <= StoredDesired(s)
    requires WellFormed(Controlled(s, i, c))
    ensures Ahead(Controlled(s, i, c)) <==> Spoils(s, Control(i, c))
  {
    if c.TakeOver? {
      TakeOverApplies(s, i, c);
    } else {
      OtherControlApplies(s, i, c);
    }
  }

  lemma OtherControlApplies(s: State, i: nat, c: ControlStep)
    requires WellFormed(s) && i < |s.invs| && !Ahead(s) && !c.TakeOver? && WellFormed(Controlled(s, i, c))
    ensures !Ahead(Controlled(s, i, c))
  {
    hide TakenOver;
  }

  lemma StartedApplies(s: State, step: Step)
    requires WellFormed(s) && s.sqlite && !Ahead(s) && !step.Drive? && !step.Control? && WellFormed(Next(s, step))
    ensures !Ahead(Next(s, step))
  {
    hide Driven, Controlled, Release, Acquire;
  }

  /** The applied revision in memory parts from the one on disk exactly at such a step. */
  lemma AheadIff(s: State, step: Step)
    requires Inv(s) && s.sqlite && !Ahead(s)
    ensures WellFormed(Next(s, step))
    ensures Ahead(Next(s, step)) <==> Spoils(s, step)
  {
    hide TokensOk, StatusesOk, EventsOk, LinksOk, PoliciesOk, Driven, Controlled, RolledBack, Pending, Ahead, Started,
         PolicyUpdated, Grows;
    NextKeeps(s, step);
    AppliedBelowDesired(s);
    if step.Drive? && step.i < |s.invs| { DrivenApplies(s, step.i, step.driver); }
    else if step.Control? && step.i < |s.invs| { ControlledApplies(s, step.i, step.caller); }
    else if !step.Drive? && !step.Control? { StartedApplies(s, step); NotRolledBack(s, step); }
    else { NotRolledBack(s, step); }
  }

  lemma NotRolledBack(s: State, step: Step)
    requires (step.Drive? || step.Control?) ==> step.i >= |s.invs|
    ensures !RolledBack(s, step)
  {
  }

  lemma AppliedBelowDesired(s: State)
    requires Inv(s)
    ensures StoredApplied(s) <= StoredDesired(s) && (s.stored.Some? ==> StoredApplied(s) > 0)
  {
    if s.stored.Some? { PolicyOf(s, s.stored.value); }
  }

  /** One step on, a restart keeps the applied revision exactly when no terminal was rolled back over a
      pending update and the session's row holds its own record. */
  lemma AppliedSurvivesRestartIff(s: State, step: Step, loaded: Cell)
    requires Inv(s) && s.sqlite && !Ahead(s)
    ensures var s1 := Next(s, step);
            && WellFormed(s1) && WellFormed(Next(s1, Restart(loaded)))
            && (StoredApplied(Next(s1, Restart(loaded))) == StoredApplied(s1) <==>
                  !Spoils(s, step) && !Lost(s1))
  {
    hide TokensOk, StatusesOk, EventsOk, LinksOk, PoliciesOk, Spoils, Grows, Driven, Controlled, Started,
         PolicyUpdated;
    NextKeeps(s, step);
    NextKeeps(Next(s, step), Restart(loaded));
    AheadIff(s, step);
    NextSqlite(s, step);
    AppliedBelowDesired(Next(s, step));
    RestartLoads(Next(s, step), loaded);
  }

  lemma NextSqlite(s: State, step: Step)
    requires Inv(s) && s.sqlite
    ensures Next(s, step).sqlite
  {
    hide TokensOk, StatusesOk, EventsOk, LinksOk, PoliciesOk, Driven, Controlled;
    if step.Drive? && step.i < |s.invs| { DrivenSettles(s, step.i, step.driver, 0); }
    if step.Control? && step.i < |s.invs| { ControlledSettles(s, step.i, step.caller, 0); }
  }

  /** No terminal of the run is rolled back over a pending update. */
  ghost predicate NoneSpoils(s: State, steps: seq<Step>)
    requires Inv(s)
    decreases |steps|
  {
    if steps == [] then true
    else
      NextKeeps(s, steps[0]);
      !Spoils(s, steps[0]) && NoneSpoils(Next(s, steps[0]), steps[1..])
  }

  /** Over whole runs: as long as that does not happen, a restart at any point keeps the applied revision
      exactly when the session's row then holds its own record, whatever was written there before. */
  lemma {:induction false} AppliedSurvivesRun(s: State, steps: seq<Step>, loaded: Cell)
    requires Inv(s) && s.sqlite && !Ahead(s) && NoneSpoils(s, steps)
    ensures var s' := Run(s, steps);
            && WellFormed(Next(s', Restart(loaded)))
            && (StoredApplied(Next(s', Restart(loaded))) == StoredApplied(s') <==> !Lost(s'))
    decreases |steps|
  {
    hide TokensOk, StatusesOk, EventsOk, LinksOk, PoliciesOk, Spoils, Grows, Next;
    if steps == [] {
      NextKeeps(s, Restart(loaded));
      RestartLoads(s, loaded);
      AppliedBelowDesired(s);
    } else {
      NextKeeps(s, steps[0]);
      NextSqlite(s, steps[0]);
      AheadIff(s, steps[0]);
      AppliedSurvivesRun(Next(s, steps[0]), steps[1..], loaded);
    }
  }

  lemma RestartLoads(s: State, loaded: Cell)
    requires WellFormed(s) && s.sqlite && WellFormed(Next(s, Restart(loaded)))
    ensures StoredApplied(Next(s, Restart(loaded))) == DiskApplied(s)
  {
  }

  /** A run is updated while it goes on, completes, and its lease runs out between the two checks: revision
      2 is applied in memory, and a restart brings revision 1 back. */
  lemma AppliedRevisionLostOnRestart(d: Delta, loaded: Cell)
    requires d != Delta(None, None, None)
    ensures Inv(Init(true))
    ensures var s := Run(Init(true), [START] + ([UpdatePolicy(1, d, true)] + ([Drive(0, Register)]
                                     + [Drive(0, Terminal(Completed, false, 5, 50))])));
            && StoredApplied(s) == 2
            && WellFormed(Next(s, Restart(loaded))) && StoredApplied(Next(s, Restart(loaded))) == 1
  {
    hide TokensOk, StatusesOk, EventsOk, PoliciesOk, LinksOk, Next, Run, WellFormed;
    var update, register := UpdatePolicy(1, d, true), Drive(0, Register);
    var end := Drive(0, Terminal(Completed, false, 5, 50));
    InitOk(true);
    FirstStart();
    RunStep(Init(true), START, [update] + ([register] + [end]));
    var s1 := Next(Init(true), START);
    RunStep(s1, update, [register] + [end]);
    var s2 := Next(s1, update);
    UpdateWaits(s1, d);
    RunStep(s2, register, [end]);
    var s3 := Next(s2, register);
    RegisterStreams(s2);
    RunLast(s3, end);
    FencedEndApplies(s3, loaded);
  }

  lemma UpdateWaits(s: State, d: Delta)
    requires Inv(s) && s.stored.Some? && s.heap[s.stored.value].control == Running
    requires StoredDesired(s) == 1 && d != Delta(None, None, None)
    ensures var s' := Next(s, UpdatePolicy(1, d, true));
            && s' == s.(heap := s'.heap, stored := s'.stored, disk := s'.disk, submitted := s'.submitted)
            && WellFormed(s') && s'.stored.Some? && StoredDesired(s') == 2
            && StoredApplied(s') == StoredApplied(s) == DiskApplied(s')
  {
    NextKeeps(s, UpdatePolicy(1, d, true));
  }

  lemma RegisterStreams(s: State)
    requires Inv(s) && |s.invs| == 1 && s.invs[0].pc == Starting
    ensures var s' := Next(s, Drive(0, Register));
            && s' == s.(invs := s'.invs) && |s'.invs| == 1
            && s'.invs[0] == s.invs[0].(pc := Streaming, durable := s.invs[0].status, registered := true,
                                        intent := None, dispatched := false)
  {
  }

  lemma FencedEndApplies(s: State, loaded: Cell)
    requires Inv(s) && s.sqlite && |s.invs| == 1 && s.invs[0].pc == Streaming && !s.invs[0].streamed && s.stored.Some?
    requires LeasePasses(s, 0, 5) && !LeasePasses(s, 0, 50)
    requires StoredDesired(s) == 2 && StoredApplied(s) == DiskApplied(s) == 1
    ensures var s' := Next(s, Drive(0, Terminal(Completed, false, 5, 50)));
            && WellFormed(s') && StoredApplied(s') == 2
            && WellFormed(Next(s', Restart(loaded))) && StoredApplied(Next(s', Restart(loaded))) == 1
  {
    hide TokensOk, StatusesOk, EventsOk, PoliciesOk, LinksOk, Persist;
    var end := Drive(0, Terminal(Completed, false, 5, 50));
    var v := s.invs[0];
    NextKeeps(s, end);
    NextKeeps(Next(s, end), Restart(loaded));
    NextSqlite(s, end);
    PersistApplies(s, 0, Completed, v.local, v.holder, v.token, 50,
                   v.(streamed := true, pc := Streaming, local := |s.heap|), v.(pc := Unwinding, registered := false));
    RestartLoads(Next(s, end), loaded);
  }

  // ----------------------------------------------------------- a row overwritten

  /** The session of key `k` in the table of all keys: it survives a restart exactly when its own key wrote
      its row last (and has no empty name); otherwise the policies accepted for it are those of a lost record. */
  lemma SessionSurvivesRestartIff(ops: seq<SessionRows.RowOp>, k: SessionRows.SessionKey, s: State, loaded: Cell)
    requires Inv(s) && s.sqlite && s.stored.Some?
    requires s.disk.Some? <==> SessionRows.OwnRow(SessionRows.Run(ops), k).Some?
    ensures var s' := Next(s, Restart(loaded));
            var own := SessionRows.Named(k) && SessionRows.LastWriter(ops, SessionRows.RowName(k)) == Some(k);
            && (s'.stored.Some? <==> own)
            && (if own then s'.past == s.past && s'.submitted == s.submitted
                else s'.past == s.past + [s.submitted] && s'.submitted == [])
  {
    hide TokensOk, StatusesOk, EventsOk, PoliciesOk, LinksOk, SessionRows.RowName, SessionRows.Run,
         SessionRows.LastWriter;
    SessionRows.SurvivesReloadIff(ops, k);
  }

  /** A session gets an update, another key's record takes its row, and the process restarts: both revisions
      are gone, and the next run starts at revision 1 with whatever policy it brings. */
  lemma UpdateLostWithRow(d: Delta, q: Policy)
    requires d != Delta(None, None, None)
    ensures Inv(Init(true))
    ensures var s := Run(Init(true), [START] + ([UpdatePolicy(1, d, true)] + [Overwrite]));
            && Inv(s) && StoredDesired(s) == 2
            && var s' := Run(s, [Restart(EMPTY)] + [Start("g", 10, 20, None, Some(q))]);
               && StoredDesired(s') == StoredApplied(s') == 1 && s'.submitted == [q]
               && s'.past == [s.submitted] && |s.submitted| == 2
  {
    hide TokensOk, StatusesOk, EventsOk, PoliciesOk, LinksOk, Next, Run, WellFormed, Grows;
    var update, again := UpdatePolicy(1, d, true), Start("g", 10, 20, None, Some(q));
    InitOk(true);
    FirstStart();
    RunStep(Init(true), START, [update] + [Overwrite]);
    var s1 := Next(Init(true), START);
    RunStep(s1, update, [Overwrite]);
    var s2 := Next(s1, update);
    UpdateWaits(s1, d);
    RunLast(s2, Overwrite);
    var s3 := Next(s2, Overwrite);
    OverwriteLoses(s2);
    StoredOk(s3);
    RunStep(s3, Restart(EMPTY), [again]);
    RunLast(Next(s3, Restart(EMPTY)), again);
    StartsAfresh(Next(s3, Restart(EMPTY)), q);
  }

  lemma OverwriteLoses(s: State)
    requires Inv(s) && s.sqlite && s.stored.Some?
    ensures var s1 := Next(s, Overwrite);
            && WellFormed(s1) && s1.stored.Some? && StoredDesired(s1) == StoredDesired(s)
            && s1.submitted == s.submitted && s1.past == s.past
            && var s2 := Next(s1, Restart(EMPTY));
               && s2.stored.None? && s2.submitted == [] && s2.past == s.past + [s.submitted] && s2.cell == EMPTY
  {
  }

  lemma StartsAfresh(s: State, q: Policy)
    requires Inv(s) && s.stored.None? && s.cell == EMPTY
    ensures var s' := Next(s, Start("g", 10, 20, None, Some(q)));
            && WellFormed(s') && StoredDesired(s') == StoredApplied(s') == 1
            && s'.submitted == [q] && s'.past == s.past
  {
    hide TokensOk, StatusesOk, EventsOk, PoliciesOk, LinksOk;
  }
}

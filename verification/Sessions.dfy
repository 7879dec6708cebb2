/**
 The session execution protocol (haas/sessions.py over haas/stores/memory.py).

 One session, any number of invocations. A turn driver, a canceller, a read-back reconciler, a
 pauser, a continuer and a policy updater interleave; each step below is one stretch of code with no
 suspension point, and takes its own clock readings, which may be anything. Session records are
 objects: `put_session` stores a copy, so a driver can hold an object that is no longer the stored
 one. Invocation records are shared by reference with the store, so there is one status per
 invocation; `durable` is the status last written to disk.

 A restart loads what is on disk, and that need not be what this session wrote: its lease rows and its
 record's row are named by joining the session's key with bars, so another key can write the same rows
 (modules `Leases` and `SessionRows`).
 */
module Sessions {
  import opened Wrappers
  import opened LeaseCells

  // ------------------------------------------------------------------- records

  datatype ControlState = Idle | Running | Pausing | Paused | Resuming | Cancelling | Cancelled

  datatype Status = Active | Completed | Failed | Incomplete | Interrupted | Cancelled_

  datatype Policy = Policy(workspace: string, network: string, tools: string)

  /** A policy update replaces whole domains. */
  datatype Delta = Delta(workspace: Option<string>, network: Option<string>, tools: Option<string>)

  datatype Session = Session(
    control: ControlState, supportsResume: bool, resumable: Option<nat>,
    desired: Policy, applied: Policy, desiredRevision: nat, appliedRevision: nat)

  datatype Intent = PauseIntent | CancelIntent

  /** Where the generator `_drive` is: before `_active` is set, streaming, after a failure terminal
      was yielded, between the two halves of `finally`, or gone. */
  datatype Pc = Starting | Streaming | Closing | Unwinding | Done

  /** An invocation and the driver that runs it; `born` counts the restarts before it and `era` the
      session records lost before it. */
  datatype Invocation = Invocation(
    status: Status, durable: Status,
    continuedFrom: Option<nat>, policy: Policy, policyRevision: nat,
    holder: string, token: nat, born: nat, era: nat, pc: Pc, local: nat, streamed: bool,
    registered: bool, intent: Option<Intent>, dispatched: bool, cancelAsked: bool)

  datatype Event = Event(invocation: nat, terminal: Option<Status>, token: nat, life: nat)

  /** `submitted` lists the policies accepted for the session record there is, and `past` those of the
      records lost before it; `base` is the newest token the process found when it started. */
  datatype State = State(
    sqlite: bool,
    cell: Cell,
    heap: seq<Session>, stored: Option<nat>, disk: Option<Session>,
    invs: seq<Invocation>,
    events: seq<Event>,
    submitted: seq<Policy>, past: seq<seq<Policy>>,
    asked: set<nat>,
    restarts: nat, base: nat)

  function Init(sqlite: bool): State {
    State(sqlite, EMPTY, [], None, None, [], [], [], [], {}, 0, 0)
  }

  // ---------------------------------------------------------------- primitives

  /** Change a session object in place. */
  function SetObj(s: State, ref: nat, o: Session): State
    requires ref < |s.heap|
  {
    s.(heap := s.heap[ref := o])
  }

  /** `put_session`: the stored record becomes a copy, in memory and on disk. */
  function Put(s: State, o: Session): State {
    s.(heap := s.heap + [o], stored := Some(|s.heap|), disk := Some(o))
  }

  function SetInv(s: State, i: nat, v: Invocation): State
    requires i < |s.invs|
  {
    s.(invs := s.invs[i := v])
  }

  function Append(s: State, e: Event): State {
    s.(events := s.events + [e])
  }

  predicate Busy(c: ControlState) {
    c == Running || c == Pausing || c == Cancelling || c == Resuming
  }

  function WithControl(o: Session, c: ControlState): Session {
    o.(control := c, supportsResume := false, resumable := None)
  }

  /** `_apply_desired_policy` */
  function ApplyDesired(o: Session): Session {
    o.(applied := o.desired, appliedRevision := o.desiredRevision)
  }

  /** `_refresh_policy_state`: the object takes over the stored record's policy fields. */
  function Refreshed(s: State, ref: nat): Session
    requires ref < |s.heap| && (s.stored.Some? ==> s.stored.value < |s.heap|)
  {
    if s.stored.None? || s.stored.value == ref then s.heap[ref]
    else
      var now := s.heap[s.stored.value];
      s.heap[ref].(desired := now.desired, applied := now.applied,
                   desiredRevision := now.desiredRevision, appliedRevision := now.appliedRevision)
  }

  /** The mutate-and-put of a stored record that every control call performs. */
  function PutStored(s: State, o: Session): State
    requires s.stored.Some? && s.stored.value < |s.heap|
  {
    Put(SetObj(s, s.stored.value, o), o)
  }

  // ------------------------------------------------------------------- driver

  predicate LeasePasses(s: State, i: nat, now: int)
    requires i < |s.invs|
  {
    Passes(s.cell, s.invs[i].holder, s.invs[i].token, now)
  }

  /** The first half of `finally`: leave `_active`, then wait for the renewal task. */
  function Left(s: State, i: nat): State
    requires i < |s.invs|
  {
    SetInv(s, i, s.invs[i].(pc := Unwinding, registered := false))
  }

  predicate InTry(v: Invocation) {
    v.pc == Starting || v.pc == Streaming
  }

  /** The session object a terminal leaves behind: resumable only for a pause that took effect. */
  function Concluded(o: Session, i: nat, v: Invocation, status: Status): Session {
    if status == Interrupted && v.registered && v.intent == Some(PauseIntent)
    then o.(control := Paused, supportsResume := true, resumable := Some(i))
    else WithControl(o, Idle)
  }

  /** The record `_persist_terminal_event` writes, after its in-place changes: the caller's object
      `ref`, unless an update is pending; then the stored record with that update applied. */
  function ConcludedHeap(s: State, i: nat, status: Status, ref: nat): State
    requires i < |s.invs| && ref < |s.heap| && s.stored.Some? && s.stored.value < |s.heap|
  {
    var s1 := SetObj(s, ref, Concluded(Refreshed(s, ref), i, s.invs[i], status));
    var latest := s1.heap[s1.stored.value];
    if latest.desiredRevision > latest.appliedRevision
    then SetObj(s1, s1.stored.value, ApplyDesired(latest))
    else s1
  }

  function RecordRef(s: State, ref: nat): nat
    requires s.stored.Some? && s.stored.value < |s.heap|
  {
    var latest := s.heap[s.stored.value];
    if latest.desiredRevision > latest.appliedRevision then s.stored.value else ref
  }

  /** `_persist_terminal_event` after its lease check. The lease is checked again just before the
      event is appended; if it ran out in between, `fenced` is the invocation the caller is left with,
      the in-memory changes stay, and a SQLite store rolls the written records back. */
  function Persist(s: State, i: nat, status: Status, ref: nat, holder: string, token: nat, now: int,
                   committed: Invocation, fenced: Invocation): State
    requires i < |s.invs| && ref < |s.heap| && s.stored.Some? && s.stored.value < |s.heap|
  {
    var s1 := ConcludedHeap(s, i, status, ref);
    var record := s1.heap[RecordRef(s, ref)];
    if Passes(s.cell, holder, token, now) then
      var s2 := SetInv(Put(s1, record), i, committed.(status := status, durable := status));
      Append(s2, Event(i, Some(status), token, s.restarts))
    else if s.sqlite then
      SetInv(s1, i, fenced.(status := status))
    else
      SetInv(Put(s1, record), i, fenced.(status := status, durable := status))
  }

  /** A driver's terminal, from the stream or from `finalize_turn`, or its failure terminal. */
  function DriverTerminal(s: State, i: nat, status: Status, now: int, now': int, after: Pc): State
    requires WellFormed(s) && i < |s.invs| && InTry(s.invs[i])
  {
    var v := s.invs[i];
    if !LeasePasses(s, i, now) then Left(s, i)
    else Persist(s, i, status, v.local, v.holder, v.token, now',
                 v.(streamed := true, pc := after, local := |s.heap|),
                 v.(pc := Unwinding, registered := false))
  }

  /** In the stream a pause that the canceller overtook ends as cancelled; `finalize_turn`'s status is
      taken as it is. */
  function Reported(v: Invocation, status: Status): Status {
    if status == Interrupted && v.registered && v.intent == Some(CancelIntent) then Cancelled_ else status
  }

  /** Refresh the driver's object and put it (`_store_native_session_ref`, `_merge_actions`). */
  function SaveLocal(s: State, i: nat): State
    requires WellFormed(s) && i < |s.invs| && s.invs[i].pc != Done
  {
    var v := s.invs[i];
    var o := Refreshed(s, v.local);
    SetInv(Put(SetObj(s, v.local, o), o), i, v.(local := |s.heap|))
  }

  /** A driver that leaves without a terminal marks its invocation failed, in memory. */
  function Marked(s: State, i: nat, cleanly: bool): State
    requires WellFormed(s) && i < |s.invs| && s.invs[i].pc == Unwinding
  {
    var v := s.invs[i];
    if cleanly || v.status != Active then s
    else
      var mine := s.heap[v.local];
      var s1 := if Busy(mine.control) then SetObj(s, v.local, WithControl(mine, Idle)) else s;
      SetInv(s1, i, v.(status := Failed))
  }

  /** The second half of `finally`: write what is in memory if the lease still holds, then release. */
  function Unwound(s: State, i: nat, cleanly: bool, now: int): State
    requires WellFormed(s) && i < |s.invs| && s.invs[i].pc == Unwinding
  {
    var s1 := Marked(s, i, cleanly);
    var v := s1.invs[i];
    var s2 := if LeasePasses(s1, i, now) then SaveLocal(SetInv(s1, i, v.(durable := v.status)), i) else s1;
    Finished(s2, i)
  }

  function Finished(s: State, i: nat): State
    requires i < |s.invs|
  {
    var v := s.invs[i];
    SetInv(s, i, v.(pc := Done)).(cell := Release(s.cell, v.holder, Some(v.token)))
  }

  // -------------------------------------------------------------------- starts

  /** The lease is taken first and handed back by every refusal but one: an invalid initial policy
      raises with the lease still held. */
  function Started(s: State, holder: string, ttl: int, now: int, source: Option<nat>, initial: Option<Policy>): State
    requires WellFormed(s)
  {
    if Conflicts(s.cell, holder, now) then s else
    var cell := Acquire(s.cell, holder, ttl, now);
    var refused := s.(cell := Release(cell, holder, Some(cell.token)));
    var held := s.(cell := cell);
    if s.stored.None? then
      if initial.None? then held
      else if source.Some? then refused
      else
        var p := initial.value;
        var o := Session(Running, false, None, p, p, 1, 1);
        NewInvocation(Put(held.(submitted := [p]), o), o, holder, None)
    else
      var o := s.heap[s.stored.value];
      if o.appliedRevision < o.desiredRevision then refused
      else if o.control == Paused && source.None? then refused
      else if source.Some? && !Offers(o, source.value) then refused
      else
        var o' := if source.Some? then o.(control := Resuming) else WithControl(o, Running);
        NewInvocation(PutStored(held, o'), o', holder, source)
  }

  /** `session` is paused and resumable at invocation `x`. */
  predicate Offers(o: Session, x: nat) {
    o.control == Paused && o.supportsResume && o.resumable == Some(x)
  }

  /** The new invocation freezes the applied policy and its revision. */
  function NewInvocation(s: State, o: Session, holder: string, source: Option<nat>): State
    requires s.stored.Some?
  {
    s.(invs := s.invs + [Invocation(Active, Active, source, o.applied, o.appliedRevision, holder, s.cell.token,
                                    s.restarts, |s.past|, Starting, s.stored.value, false, false, None, false, false)])
  }

  // ------------------------------------------------------------ other actors

  /** Cancel or read-back of a running invocation that no live driver claims: take the lease, write
      the terminal, give the lease back. `found` is false when the turn or the app is gone. */
  function TakenOver(s: State, i: nat, status: Status, holder: string, ttl: int, now: int, now': int, now'': int,
                     found: bool): State
    requires WellFormed(s) && i < |s.invs|
  {
    if s.invs[i].status != Active || s.invs[i].registered || Conflicts(s.cell, holder, now) then s else
    var cell := Acquire(s.cell, holder, ttl, now);
    var held := s.(cell := cell);
    var v := s.invs[i];
    var s1 := if found && s.stored.Some? && Passes(cell, holder, cell.token, now')
              then Persist(held, i, status, held.stored.value, holder, cell.token, now'', v, v)
              else held;
    s1.(cell := Release(cell, holder, Some(cell.token)))
  }

  function Updated(p: Policy, d: Delta): Policy {
    Policy(if d.workspace.Some? then d.workspace.value else p.workspace,
           if d.network.Some? then d.network.value else p.network,
           if d.tools.Some? then d.tools.value else p.tools)
  }

  function PolicyUpdated(s: State, expected: nat, d: Delta, valid: bool): State
    requires WellFormed(s)
  {
    if s.stored.None? then s else
    var o := s.heap[s.stored.value];
    if expected != o.desiredRevision || !valid || d == Delta(None, None, None) then s else
    var p := Updated(o.desired, d);
    var o1 := o.(desired := p, desiredRevision := o.desiredRevision + 1);
    var o' := if Busy(o.control) then o1 else ApplyDesired(o1);
    PutStored(s.(submitted := s.submitted + [p]), o')
  }

  /** A new process loads what is on disk; every driver is gone. The lease rows give the cell `loaded`,
      whatever it is. A session whose row another key has overwritten is gone, and with it the policies
      accepted for it. */
  function Restarted(s: State, loaded: Cell): State {
    s.(cell := loaded,
       heap := if s.disk.Some? then [s.disk.value] else [],
       stored := if s.disk.Some? then Some(0) else None,
       invs := seq(|s.invs|, i requires 0 <= i < |s.invs| =>
                 s.invs[i].(status := s.invs[i].durable, pc := Done, local := 0, registered := false,
                            intent := None, dispatched := false, cancelAsked := false)),
       submitted := if Lost(s) then [] else s.submitted,
       past := if Lost(s) then s.past + [s.submitted] else s.past,
       asked := {},
       restarts := s.restarts + 1,
       base := loaded.token)
  }

  /** The session exists in memory and its row holds another key's record. */
  predicate Lost(s: State) {
    s.stored.Some? && s.disk.None?
  }

  // --------------------------------------------------------------------- steps

  /** Steps of an invocation's own driver. */
  datatype DriverStep =
    | RenewLease(ttl: int, now: int)
    | StoreRef(now: int)
    | Register
    | Emit(now: int, merge: bool, now': int)
    | Terminal(status: Status, finalized: bool, now: int, now': int)
    | Fail(now: int, now': int)
    | Leave
    | Unwind(cleanly: bool, now: int)

  /** Steps that other callers take about an invocation. */
  datatype ControlStep =
    | CancelAsk
    | CancelMark
    | PauseMark
    | ControlFail(was: ControlState)
    | CancelPaused
    | TakeOver(readback: bool, holder: string, ttl: int, now: int, now': int, now'': int, found: bool)
    | ContinueAsk

  /** `Overwrite` is a session of another key writing or deleting the same row. */
  datatype Step =
    | Start(holder: string, ttl: int, now: int, source: Option<nat>, initial: Option<Policy>)
    | Drive(i: nat, driver: DriverStep)
    | Control(i: nat, caller: ControlStep)
    | UpdatePolicy(expected: nat, delta: Delta, valid: bool)
    | Touch
    | Overwrite
    | Restart(loaded: Cell)

  /** References point into the heap, and a session exists while a driver does. */
  predicate WellFormed(s: State) {
    && (s.stored.Some? ==> s.stored.value < |s.heap|)
    && (s.stored.None? ==> s.heap == [] && s.disk.None?)
    && (forall i :: 0 <= i < |s.invs| && s.invs[i].pc != Done ==> s.invs[i].local < |s.heap|)
  }

  function Next(s: State, step: Step): State
    requires WellFormed(s)
  {
    match step
    case Start(holder, ttl, now, source, initial) =>
      if source.Some? && source.value !in s.asked then s
      else Started(s, holder, ttl, now, source, initial)
    case Drive(i, driver) => if i < |s.invs| then Driven(s, i, driver) else s
    case Control(i, caller) => if i < |s.invs| then Controlled(s, i, caller) else s
    case UpdatePolicy(expected, delta, valid) => PolicyUpdated(s, expected, delta, valid)
    case Touch => if s.stored.Some? then Put(s, s.heap[s.stored.value]) else s
    case Overwrite => if s.sqlite then s.(disk := None) else s
    case Restart(loaded) => if s.sqlite then Restarted(s, loaded) else s
  }

  function Driven(s: State, i: nat, step: DriverStep): State
    requires WellFormed(s) && i < |s.invs|
  {
    var v := s.invs[i];
    match step
    case RenewLease(ttl, now) =>
      if v.pc == Done then s else s.(cell := Renew(s.cell, v.holder, v.token, ttl, now))
    case StoreRef(now) =>
      if v.pc != Starting then s
      else if LeasePasses(s, i, now) then SaveLocal(s, i) else Left(s, i)
    case Register =>
      if v.pc != Starting then s
      else SetInv(s, i, v.(pc := Streaming, durable := v.status, registered := true, intent := None,
                           dispatched := false))
    case Emit(now, merge, now') => if v.pc != Streaming then s else Emitted(s, i, now, merge, now')
    case Terminal(status, finalized, now, now') =>
      if v.pc != Streaming || v.streamed || status == Active then s
      else DriverTerminal(s, i, if finalized then status else Reported(v, status), now, now', Streaming)
    case Fail(now, now') =>
      if !InTry(v) then s
      else if v.streamed then Left(s, i)
      else DriverTerminal(s, i, Failed, now, now', Closing)
    case Leave => if InTry(v) || v.pc == Closing then Left(s, i) else s
    case Unwind(cleanly, now) =>
      if v.pc != Unwinding || (cleanly && !v.streamed) then s else Unwound(s, i, cleanly, now)
  }

  /** A non-terminal event, appended and merged into the session only under the lease. */
  function Emitted(s: State, i: nat, now: int, merge: bool, now': int): State
    requires WellFormed(s) && i < |s.invs| && s.invs[i].pc == Streaming
  {
    if !LeasePasses(s, i, now) then Left(s, i)
    else
      var s1 := Append(s, Event(i, None, s.invs[i].token, s.restarts));
      if !merge then s1 else if LeasePasses(s, i, now') then SaveLocal(s1, i) else Left(s1, i)
  }

  function Controlled(s: State, i: nat, step: ControlStep): State
    requires WellFormed(s) && i < |s.invs|
  {
    var v := s.invs[i];
    if s.stored.None? then
      if step.TakeOver? then TakenOver(s, i, Incomplete, step.holder, step.ttl, step.now, step.now', step.now'', false)
      else s
    else
    var o := s.heap[s.stored.value];
    match step
    case CancelAsk =>
      if v.status == Active && v.registered then SetInv(s, i, v.(cancelAsked := true)) else s
    case CancelMark =>
      if !v.cancelAsked then s
      else PutStored(SetInv(s, i, v.(intent := Some(CancelIntent), dispatched := true)), WithControl(o, Cancelling))
    case PauseMark =>
      if v.status != Active || !v.registered || v.intent == Some(CancelIntent) then s
      else PutStored(SetInv(s, i, v.(intent := Some(PauseIntent), dispatched := true)), WithControl(o, Pausing))
    case ControlFail(was) =>
      if !v.dispatched || (was != Pausing && was != Cancelling) then s
      else
        var s1 := SetInv(s, i, v.(intent := None, dispatched := false));
        if o.control == was then PutStored(s1, o.(control := Running)) else s1
    case CancelPaused =>
      if v.status == Interrupted && o.supportsResume && o.resumable == Some(i)
      then PutStored(s, WithControl(o, Cancelled)) else s
    case TakeOver(readback, holder, ttl, now, now', now'', found) =>
      TakenOver(s, i, if readback then Incomplete else Cancelled_, holder, ttl, now, now', now'', found)
    case ContinueAsk =>
      if v.status == Interrupted && Offers(o, i) then s.(asked := s.asked + {i}) else s
  }
}

/**
 What the steps of the session protocol bring about: an accepted policy update, an accepted start, a terminal
 that is written, and the way from a pause to its continuation. Each is stated on the state after the step.
 */
module SessionProgress {
  import opened Wrappers
  import opened LeaseCells
  import opened Sessions
  import opened SessionSafety
  import opened SessionRestarts
  import opened SessionOrder

  /** The stored record. */
  function Stored(s: State): Session
    requires WellFormed(s) && s.stored.Some?
  {
    s.heap[s.stored.value]
  }

  // ----------------------------------------------------------- policy updates

  /** An update is accepted exactly for an existing session, at its desired revision, with a valid delta that
      gives some domain; anything else changes nothing. */
  predicate UpdateAccepted(s: State, expected: nat, d: Delta, valid: bool)
    requires WellFormed(s)
  {
    && s.stored.Some? && expected == Stored(s).desiredRevision && valid
    && (d.workspace.Some? || d.network.Some? || d.tools.Some?)
  }

  /** `p'` has the delta's value in each domain it gives and `p`'s in every other. */
  predicate Takes(p: Policy, d: Delta, p': Policy) {
    && (d.workspace.Some? ==> p'.workspace == d.workspace.value)
    && (d.workspace.None? ==> p'.workspace == p.workspace)
    && (d.network.Some? ==> p'.network == d.network.value)
    && (d.network.None? ==> p'.network == p.network)
    && (d.tools.Some? ==> p'.tools == d.tools.value)
    && (d.tools.None? ==> p'.tools == p.tools)
  }

  /** An accepted update becomes the desired policy under the next revision, in memory and on disk, domain by
      domain; it is applied at once exactly when the record does not say that a run is going on. */
  lemma UpdateTaken(s: State, expected: nat, d: Delta, valid: bool)
    requires Inv(s)
    ensures var s' := Next(s, UpdatePolicy(expected, d, valid));
            && (!UpdateAccepted(s, expected, d, valid) ==> s' == s)
            && (UpdateAccepted(s, expected, d, valid) ==>
                  && WellFormed(s') && s'.stored == Some(|s.heap|) && s'.disk == Some(Stored(s')) && SameRun(s, s')
                  && var o, o' := Stored(s), Stored(s');
                     && s'.heap[s.stored.value] == o'
                     && Takes(o.desired, d, o'.desired) && o'.desiredRevision == expected + 1
                     && o'.control == o.control && o'.supportsResume == o.supportsResume && o'.resumable == o.resumable
                     && (if o.control in {Running, Pausing, Cancelling, Resuming}
                         then o'.applied == o.applied && o'.appliedRevision == o.appliedRevision
                         else o'.applied == o'.desired && o'.appliedRevision == expected + 1))
  {
    hide TokensOk, StatusesOk, EventsOk, PoliciesOk, LinksOk;
  }

  // ------------------------------------------------------------------- starts

  /** A start goes through: its source is asked for, no other holder's lease is running, and the record has no
      update waiting and is paused exactly when the start continues what it offers. A first start needs a
      valid policy. */
  predicate StartAccepted(s: State, holder: string, now: int, source: Option<nat>, initial: Option<Policy>)
    requires WellFormed(s)
  {
    && (source.Some? ==> source.value in s.asked)
    && (s.cell.lease.Some? ==> s.cell.lease.value.expiresAtMs <= now || s.cell.lease.value.holder == holder)
    && (if s.stored.None? then initial.Some? && source.None?
        else && Stored(s).appliedRevision >= Stored(s).desiredRevision
             && (source.None? ==> Stored(s).control != Paused)
             && (source.Some? ==> Stored(s).control == Paused && Stored(s).supportsResume
                                  && Stored(s).resumable == source))
  }

  /** A start that goes through adds one running invocation: linked to its source, under the next token, with
      the record's applied policy. The record then says running, or resuming. Any other start adds none. */
  lemma StartTaken(s: State, holder: string, ttl: int, now: int, source: Option<nat>, initial: Option<Policy>)
    requires Inv(s)
    ensures var s' := Next(s, Start(holder, ttl, now, source, initial));
            && (!StartAccepted(s, holder, now, source, initial) ==>
                  s'.invs == s.invs && s'.stored == s.stored && s'.heap == s.heap && s'.disk == s.disk)
            && (StartAccepted(s, holder, now, source, initial) ==>
                  && WellFormed(s') && |s'.invs| == |s.invs| + 1 && s'.invs[..|s.invs|] == s.invs
                  && s'.events == s.events && s'.stored.Some? && s'.disk == Some(Stored(s'))
                  && s'.cell == Cell(Some(Lease(holder, now + ttl, s.cell.token + 1)), s.cell.token + 1)
                  && var v, o' := s'.invs[|s.invs|], Stored(s');
                     && v.status == Active && v.continuedFrom == source && v.holder == holder
                     && v.token == s.cell.token + 1 && v.pc == Starting
                     && v.policy == o'.applied && v.policyRevision == o'.appliedRevision == o'.desiredRevision
                     && o'.control == (if source.Some? then Resuming else Running)
                     && (s.stored.None? ==> v.policy == initial.value && v.policyRevision == 1)
                     && (s.stored.Some? ==> v.policy == Stored(s).applied
                                            && v.policyRevision == Stored(s).appliedRevision))
  {
    hide TokensOk, StatusesOk, EventsOk, PoliciesOk, LinksOk, OfferOk;
    if s.stored.Some? { StoredOk(s); }
  }

  /** What a start leaves of the lease: an acquire that is not granted leaves it alone; a start that is then
      refused has used up a token and gives the lease back, except that a first start with an invalid policy
      keeps it, and so keeps every other holder out for `ttl`. */
  lemma RefusedStartLease(s: State, holder: string, ttl: int, now: int, source: Option<nat>, initial: Option<Policy>)
    requires Inv(s) && !StartAccepted(s, holder, now, source, initial) && (source.Some? ==> source.value in s.asked)
    ensures var s' := Next(s, Start(holder, ttl, now, source, initial));
            if s.cell.lease.Some? && s.cell.lease.value.expiresAtMs > now && s.cell.lease.value.holder != holder
            then s'.cell == s.cell
            else if s.stored.None? && initial.None?
            then s'.cell == Cell(Some(Lease(holder, now + ttl, s.cell.token + 1)), s.cell.token + 1)
            else s'.cell == Cell(None, s.cell.token + 1)
  {
    hide TokensOk, StatusesOk, EventsOk, PoliciesOk, LinksOk;
  }

  // ------------------------------------------------------------- driver steps

  /** A renewal under a passing lease makes it run for `ttl` from then on; any other changes nothing. */
  lemma RenewTaken(s: State, i: nat, ttl: int, now: int, h: string, k: nat, m: int)
    requires Inv(s) && i < |s.invs|
    ensures var v, s' := s.invs[i], Next(s, Drive(i, RenewLease(ttl, now)));
            if v.pc != Done && LeasePasses(s, i, now)
            then && s' == s.(cell := s'.cell) && s'.cell.token == s.cell.token
                 && (Passes(s'.cell, h, k, m) <==> h == v.holder && k == v.token && m < now + ttl)
            else s' == s
  {
    hide TokensOk, StatusesOk, EventsOk, PoliciesOk, LinksOk;
  }

  /** The driver has left its `try` block and given up `_active`; nothing else changed. */
  predicate HasLeft(s: State, s': State, i: nat)
    requires i < |s.invs|
  {
    s' == s.(invs := s.invs[i := s.invs[i].(pc := Unwinding, registered := false)])
  }

  /** The driver's own object is stored, in memory and on disk, with the stored record's policies. */
  predicate HasSaved(s: State, s': State, i: nat)
    requires WellFormed(s) && i < |s.invs| && s.invs[i].pc != Done
  {
    && WellFormed(s') && s.stored.Some? && s'.stored == Some(|s.heap|) && s'.disk == Some(Stored(s'))
    && s'.invs == s.invs[i := s.invs[i].(local := |s.heap|)] && s'.cell == s.cell
    && var mine, o, o' := s.heap[s.invs[i].local], Stored(s), Stored(s');
       && o'.control == mine.control && o'.supportsResume == mine.supportsResume && o'.resumable == mine.resumable
       && o'.desired == o.desired && o'.applied == o.applied
       && o'.desiredRevision == o.desiredRevision && o'.appliedRevision == o.appliedRevision
  }

  lemma SaveTaken(s: State, i: nat)
    requires WellFormed(s) && s.stored.Some? && i < |s.invs| && s.invs[i].pc != Done
    ensures HasSaved(s, SaveLocal(s, i), i) && SaveLocal(s, i).events == s.events
  {
  }

  /** Before streaming, under its lease, the driver stores its record; without it, it leaves. */
  lemma StoreRefTaken(s: State, i: nat, now: int)
    requires Inv(s) && i < |s.invs|
    ensures var v, s' := s.invs[i], Next(s, Drive(i, StoreRef(now)));
            && (v.pc != Starting ==> s' == s)
            && (v.pc == Starting && LeasePasses(s, i, now) ==> HasSaved(s, s', i) && s'.events == s.events)
            && (v.pc == Starting && !LeasePasses(s, i, now) ==> HasLeft(s, s', i))
  {
    hide TokensOk, StatusesOk, EventsOk, PoliciesOk, LinksOk, SaveLocal, HasSaved;
    StatusOf(s, i);
    if s.invs[i].pc == Starting { SaveTaken(s, i); }
  }

  /** Registering claims the invocation, with its status written as it is and no intent against it. */
  lemma RegisterTaken(s: State, i: nat)
    requires Inv(s) && i < |s.invs|
    ensures var v, s' := s.invs[i], Next(s, Drive(i, Register));
            && (v.pc != Starting ==> s' == s)
            && (v.pc == Starting ==>
                  && s' == s.(invs := s'.invs) && |s'.invs| == |s.invs| && s'.invs == s.invs[i := s'.invs[i]]
                  && s'.invs[i].pc == Streaming && s'.invs[i].registered && s'.invs[i].intent.None?
                  && !s'.invs[i].dispatched && s'.invs[i].status == s'.invs[i].durable == v.status
                  && s'.invs[i].token == v.token && s'.invs[i].holder == v.holder && s'.invs[i].local == v.local)
  {
    hide TokensOk, StatusesOk, EventsOk, PoliciesOk, LinksOk;
  }

  /** A streamed event is appended exactly under the lease. One that carries actions is merged into the record
      if the lease still passes then; otherwise, and without a lease at all, the driver leaves. */
  lemma EmitTaken(s: State, i: nat, now: int, merge: bool, now': int)
    requires Inv(s) && i < |s.invs|
    ensures var v, s' := s.invs[i], Next(s, Drive(i, Emit(now, merge, now')));
            var e := Event(i, None, v.token, s.restarts);
            && (v.pc != Streaming ==> s' == s)
            && (v.pc == Streaming && !LeasePasses(s, i, now) ==> HasLeft(s, s', i))
            && (v.pc == Streaming && LeasePasses(s, i, now) ==>
                  && s'.events == s.events + [e]
                  && (!merge ==> s' == s.(events := s.events + [e]))
                  && (merge && LeasePasses(s, i, now') ==> HasSaved(s, s', i))
                  && (merge && !LeasePasses(s, i, now') ==> HasLeft(s.(events := s.events + [e]), s', i)))
  {
    hide TokensOk, StatusesOk, EventsOk, PoliciesOk, LinksOk, SaveLocal;
    StatusOf(s, i);
    if s.invs[i].pc == Streaming { SaveTaken(Append(s, Event(i, None, s.invs[i].token, s.restarts)), i); }
  }

  lemma LeaveTaken(s: State, i: nat)
    requires Inv(s) && i < |s.invs|
    ensures var v, s' := s.invs[i], Next(s, Drive(i, Leave));
            if v.pc == Starting || v.pc == Streaming || v.pc == Closing then HasLeft(s, s', i) else s' == s
  {
    hide TokensOk, StatusesOk, EventsOk, PoliciesOk, LinksOk;
  }

  /** Anyone who stores the record as it is makes its row its own again. */
  lemma TouchTaken(s: State)
    requires Inv(s)
    ensures var s' := Next(s, Touch);
            && (s.stored.None? ==> s' == s)
            && (s.stored.Some? ==> WellFormed(s') && s'.stored.Some? && Stored(s') == Stored(s) && SameRun(s, s')
                                   && s'.disk == Some(Stored(s)))
  {
    hide TokensOk, StatusesOk, EventsOk, PoliciesOk, LinksOk;
  }

  // ---------------------------------------------------------------- terminals

  /** The status a terminal decides: a pause that a cancel overtook in the stream ends as cancelled. */
  function Decision(v: Invocation, status: Status, finalized: bool): Status {
    if !finalized && status == Interrupted && v.registered && v.intent == Some(CancelIntent) then Cancelled_ else status
  }

  /** The record that is written is the stored one, an update of which is still waiting, and not the driver's. */
  predicate LeavesRecord(s: State, ref: nat)
    requires WellFormed(s) && s.stored.Some?
  {
    Stored(s).appliedRevision < Stored(s).desiredRevision && s.stored != Some(ref)
  }

  /** What the record says after an invocation was decided. */
  predicate SaysDecided(o: Session, i: nat, v: Invocation, decided: Status) {
    if decided == Interrupted && v.registered && v.intent == Some(PauseIntent)
    then o.control == Paused && o.supportsResume && o.resumable == Some(i)
    else o.control == Idle && !o.supportsResume && o.resumable.None?
  }

  lemma ConcludedRecord(s: State, i: nat, status: Status, ref: nat)
    requires Inv(s) && i < |s.invs| && s.stored.Some? && ref < |s.heap|
    ensures var s1 := ConcludedHeap(s, i, status, ref);
            && |s1.heap| == |s.heap| && RecordRef(s, ref) < |s.heap|
            && var o, o' := Stored(s), s1.heap[RecordRef(s, ref)];
               && o'.desired == o'.applied == o.desired
               && o'.desiredRevision == o'.appliedRevision == o.desiredRevision
               && (if LeavesRecord(s, ref)
                   then o'.control == o.control && o'.supportsResume == o.supportsResume && o'.resumable == o.resumable
                   else SaysDecided(o', i, s.invs[i], status))
  {
    hide TokensOk, StatusesOk, EventsOk, PoliciesOk, LinksOk, OfferOk;
    StoredOk(s);
  }

  lemma PersistWrites(s: State, i: nat, status: Status, ref: nat, holder: string, token: nat, now: int,
                      committed: Invocation, fenced: Invocation)
    requires Inv(s) && i < |s.invs| && s.stored.Some? && ref < |s.heap|
    requires Passes(s.cell, holder, token, now)
    ensures var s' := Persist(s, i, status, ref, holder, token, now, committed, fenced);
            && s'.stored == Some(|s.heap|) && |s'.heap| == |s.heap| + 1 && s'.disk == Some(s'.heap[|s.heap|])
            && s'.invs == s.invs[i := committed.(status := status, durable := status)]
            && s'.events == s.events + [Event(i, Some(status), token, s.restarts)] && s'.cell == s.cell
            && s'.sqlite == s.sqlite && s'.asked == s.asked
            && var o, o' := Stored(s), s'.heap[|s.heap|];
               && o'.desired == o'.applied == o.desired
               && o'.desiredRevision == o'.appliedRevision == o.desiredRevision
               && (if LeavesRecord(s, ref)
                   then o'.control == o.control && o'.supportsResume == o.supportsResume && o'.resumable == o.resumable
                   else SaysDecided(o', i, s.invs[i], status))
  {
    hide TokensOk, StatusesOk, EventsOk, PoliciesOk, LinksOk, ConcludedHeap, RecordRef, LeavesRecord, SaysDecided;
    ConcludedRecord(s, i, status, ref);
    ConcludedOnlyHeap(s, i, status, ref);
  }

  /** A driver's terminal whose lease passes both checks: the status is decided in memory and on disk and the
      event appended; any waiting update is applied; and the record says how the invocation ended, unless an
      update was waiting in a record that is not the driver's own object. */
  lemma TerminalTaken(s: State, i: nat, status: Status, finalized: bool, now: int, now': int)
    requires Inv(s) && i < |s.invs| && s.invs[i].pc == Streaming && !s.invs[i].streamed && status != Active
    requires LeasePasses(s, i, now) && LeasePasses(s, i, now')
    ensures var s' := Next(s, Drive(i, Terminal(status, finalized, now, now')));
            var decided := Decision(s.invs[i], status, finalized);
            && WellFormed(s') && s.stored.Some? && s'.stored.Some? && s'.disk == Some(Stored(s'))
            && |s'.invs| == |s.invs| && s'.stored == Some(|s.heap|) && s'.cell == s.cell
            && s'.sqlite == s.sqlite && s'.asked == s.asked
            && s'.invs == s.invs[i := s.invs[i].(status := decided, durable := decided, streamed := true,
                                                 local := |s.heap|)]
            && s'.events == s.events + [Event(i, Some(decided), s.invs[i].token, s.restarts)]
            && var o, o' := Stored(s), Stored(s');
               && o'.desired == o'.applied == o.desired
               && o'.desiredRevision == o'.appliedRevision == o.desiredRevision
               && (if LeavesRecord(s, s.invs[i].local)
                   then o'.control == o.control && o'.supportsResume == o.supportsResume && o'.resumable == o.resumable
                   else SaysDecided(o', i, s.invs[i], decided))
  {
    hide TokensOk, StatusesOk, EventsOk, PoliciesOk, LinksOk, Persist, LeavesRecord, SaysDecided;
    StatusOf(s, i);
    var v := s.invs[i];
    NextKeeps(s, Drive(i, Terminal(status, finalized, now, now')));
    PersistWrites(s, i, Decision(v, status, finalized), v.local, v.holder, v.token, now',
                  v.(streamed := true, pc := Streaming, local := |s.heap|), v.(pc := Unwinding, registered := false));
  }

  /** A failure before any terminal, under the lease, is a terminal of its own; after one, the driver leaves. */
  lemma FailTaken(s: State, i: nat, now: int, now': int)
    requires Inv(s) && i < |s.invs| && (s.invs[i].pc == Starting || s.invs[i].pc == Streaming)
    ensures s.invs[i].streamed || !LeasePasses(s, i, now) ==> HasLeft(s, Next(s, Drive(i, Fail(now, now'))), i)
    ensures !s.invs[i].streamed && LeasePasses(s, i, now) && LeasePasses(s, i, now') ==>
              var s' := Next(s, Drive(i, Fail(now, now')));
              && WellFormed(s') && s.stored.Some? && s'.stored == Some(|s.heap|) && s'.disk == Some(Stored(s'))
              && s'.invs == s.invs[i := s.invs[i].(status := Failed, durable := Failed, streamed := true, pc := Closing,
                                                   local := |s.heap|)]
              && s'.events == s.events + [Event(i, Some(Failed), s.invs[i].token, s.restarts)]
              && (!LeavesRecord(s, s.invs[i].local) ==>
                    Stored(s').control == Idle && !Stored(s').supportsResume && Stored(s').resumable.None?)
  {
    hide TokensOk, StatusesOk, EventsOk, PoliciesOk, LinksOk, Persist, LeavesRecord;
    StatusOf(s, i);
    var v := s.invs[i];
    NextKeeps(s, Drive(i, Fail(now, now')));
    if LeasePasses(s, i, now') {
      PersistWrites(s, i, Failed, v.local, v.holder, v.token, now',
                    v.(streamed := true, pc := Closing, local := |s.heap|), v.(pc := Unwinding, registered := false));
    }
  }

  /** A driver that unwinds without a terminal fails its invocation if that is still running. It writes the
      status exactly under its lease, and the lease goes if it is still its own. */
  lemma UnwindTaken(s: State, i: nat, now: int)
    requires Inv(s) && i < |s.invs| && s.invs[i].pc == Unwinding
    ensures var v, s' := s.invs[i], Next(s, Drive(i, Unwind(false, now)));
            && |s'.invs| == |s.invs| && s'.invs[i].pc == Done
            && s'.invs[i].status == (if v.status == Active then Failed else v.status)
            && s'.invs[i].durable == (if LeasePasses(s, i, now) then s'.invs[i].status else v.durable)
            && s'.cell == (if s.cell.lease.Some? && s.cell.lease.value.holder == v.holder
                              && s.cell.lease.value.token == v.token
                           then Cell(None, s.cell.token) else s.cell)
  {
    hide TokensOk, StatusesOk, EventsOk, PoliciesOk, LinksOk, SaveLocal, Marked;
    MarkedOnly(s, i, false);
    MarkFails(s, i);
    var s1 := Marked(s, i, false);
    SaveLocalOnly(SetInv(s1, i, s1.invs[i].(durable := s1.invs[i].status)), i);
  }

  lemma MarkFails(s: State, i: nat)
    requires WellFormed(s) && i < |s.invs| && s.invs[i].pc == Unwinding
    ensures Marked(s, i, false).invs[i].status == if s.invs[i].status == Active then Failed else s.invs[i].status
  {
  }

  /** A pause that took effect leaves the session resumable at its invocation exactly when no update waits in a
      record that is not the driver's own object (or the record offered that already). */
  lemma PauseResumableIff(s: State, i: nat, finalized: bool, now: int, now': int)
    requires Inv(s) && i < |s.invs| && s.invs[i].pc == Streaming && !s.invs[i].streamed
    requires s.invs[i].registered && s.invs[i].intent == Some(PauseIntent)
    requires LeasePasses(s, i, now) && LeasePasses(s, i, now')
    ensures var s' := Next(s, Drive(i, Terminal(Interrupted, finalized, now, now')));
            && WellFormed(s') && s.stored.Some? && s'.stored.Some?
            && (Stored(s').control == Paused && Stored(s').supportsResume && Stored(s').resumable == Some(i) <==>
                  || !LeavesRecord(s, s.invs[i].local)
                  || (Stored(s).control == Paused && Stored(s).supportsResume && Stored(s).resumable == Some(i)))
  {
    hide TokensOk, StatusesOk, EventsOk, PoliciesOk, LinksOk, Next, LeavesRecord;
    TerminalTaken(s, i, Interrupted, finalized, now, now');
  }

  /** A takeover that is granted, finds its turn and passes both checks ends a running invocation that no live
      driver claims: incomplete for a read-back, cancelled for a cancel. The record says idle, any waiting
      update is applied, and the lease is free again. */
  lemma TakeOverTaken(s: State, i: nat, readback: bool, holder: string, ttl: int, now: int, now': int, now'': int)
    requires Inv(s) && i < |s.invs| && s.invs[i].status == Active && !s.invs[i].registered && s.stored.Some?
    requires s.cell.lease.Some? ==> s.cell.lease.value.expiresAtMs <= now || s.cell.lease.value.holder == holder
    requires now + ttl > now' && now + ttl > now''
    ensures var s' := Next(s, Control(i, TakeOver(readback, holder, ttl, now, now', now'', true)));
            var decided := if readback then Incomplete else Cancelled_;
            && WellFormed(s') && s'.stored.Some? && s'.disk == Some(Stored(s'))
            && s'.cell == Cell(None, s.cell.token + 1)
            && s'.invs == s.invs[i := s.invs[i].(status := decided, durable := decided)]
            && s'.events == s.events + [Event(i, Some(decided), s.cell.token + 1, s.restarts)]
            && var o, o' := Stored(s), Stored(s');
               && o'.desired == o'.applied == o.desired
               && o'.desiredRevision == o'.appliedRevision == o.desiredRevision
               && o'.control == Idle && !o'.supportsResume && o'.resumable.None?
  {
    hide TokensOk, StatusesOk, EventsOk, PoliciesOk, LinksOk, Persist, Grows;
    var cell := Acquire(s.cell, holder, ttl, now);
    NextKeeps(s, Control(i, TakeOver(readback, holder, ttl, now, now', now'', true)));
    SetCellKeeps(s, cell);
    PersistWrites(s.(cell := cell), i, if readback then Incomplete else Cancelled_, s.stored.value, holder, cell.token,
                  now'', s.invs[i], s.invs[i]);
  }

  // ------------------------------------------------------------- control marks

  /** Only the stored record, and the control flags of invocation `i`, differ. */
  predicate OnlyMarks(s: State, s': State, i: nat)
    requires i < |s.invs|
  {
    && |s'.invs| == |s.invs| && SameButFlags(s.invs[i], s'.invs[i]) && s'.invs == s.invs[i := s'.invs[i]]
    && s'.events == s.events && s'.cell == s.cell && s'.asked == s.asked && s'.submitted == s.submitted
  }

  /** The record is what it was but for its control state, and offers nothing for resumption. */
  predicate NowSays(o: Session, o': Session, c: ControlState) {
    o' == o.(control := c, supportsResume := false, resumable := None)
  }

  /** A pause marks a running invocation that a driver claims, unless a cancel came first, and the record says
      pausing; so does the object that was stored before, which the driver may hold. Otherwise nothing
      changes. */
  lemma PauseTaken(s: State, i: nat)
    requires Inv(s) && i < |s.invs| && s.stored.Some?
    ensures var v, s' := s.invs[i], Next(s, Control(i, PauseMark));
            if v.status == Active && v.registered && v.intent != Some(CancelIntent)
            then && WellFormed(s') && s'.stored == Some(|s.heap|) && OnlyMarks(s, s', i)
                 && s'.invs[i].intent == Some(PauseIntent)
                 && NowSays(Stored(s), Stored(s'), Pausing) && s'.disk == Some(Stored(s'))
                 && s'.heap[s.stored.value] == Stored(s')
            else s' == s
  {
    hide TokensOk, StatusesOk, EventsOk, PoliciesOk, LinksOk;
  }

  /** A cancel is asked for while a driver claims the running invocation; its mark then overrides a pause, and
      the record says cancelling. */
  lemma CancelTaken(s: State, i: nat)
    requires Inv(s) && i < |s.invs| && s.stored.Some?
    ensures var v, s' := s.invs[i], Next(s, Control(i, CancelMark));
            if v.cancelAsked
            then && WellFormed(s') && s'.stored.Some? && OnlyMarks(s, s', i) && s'.invs[i].intent == Some(CancelIntent)
                 && NowSays(Stored(s), Stored(s'), Cancelling) && s'.disk == Some(Stored(s'))
                 && s'.heap[s.stored.value] == Stored(s')
            else s' == s
    ensures var v, s' := s.invs[i], Next(s, Control(i, CancelAsk));
            && OnlyMarks(s, s', i) && s' == s.(invs := s'.invs)
            && (s'.invs[i].cancelAsked <==> v.cancelAsked || (v.status == Active && v.registered))
  {
    hide TokensOk, StatusesOk, EventsOk, PoliciesOk, LinksOk;
  }

  /** Cancelling an interrupted invocation that the record offers for resumption revokes the offer; otherwise
      nothing changes. */
  lemma CancelPausedTaken(s: State, i: nat)
    requires Inv(s) && i < |s.invs| && s.stored.Some?
    ensures var s' := Next(s, Control(i, CancelPaused));
            if s.invs[i].status == Interrupted && Stored(s).supportsResume && Stored(s).resumable == Some(i)
            then && WellFormed(s') && s'.stored.Some? && SameRun(s, s') && s'.disk == Some(Stored(s'))
                 && NowSays(Stored(s), Stored(s'), Cancelled) && s'.heap[s.stored.value] == Stored(s')
            else s' == s
  {
    hide TokensOk, StatusesOk, EventsOk, PoliciesOk, LinksOk;
  }

  /** A dispatch that fails withdraws its intent, and the record says running again if it still says what the
      call had marked. */
  lemma ControlFailTaken(s: State, i: nat, was: ControlState)
    requires Inv(s) && i < |s.invs| && s.stored.Some? && s.invs[i].dispatched && (was == Pausing || was == Cancelling)
    ensures var s' := Next(s, Control(i, ControlFail(was)));
            && WellFormed(s') && s'.stored.Some? && OnlyMarks(s, s', i)
            && s'.invs[i].intent.None? && !s'.invs[i].dispatched
            && Stored(s') == (if Stored(s).control == was then Stored(s).(control := Running) else Stored(s))
  {
    hide TokensOk, StatusesOk, EventsOk, PoliciesOk, LinksOk;
  }

  // -------------------------------------------------- from a pause to its continuation

  /** The driver of a terminal that was written leaves, and its lease goes with it; the record stays. */
  lemma CleanExit(s: State, i: nat, now: int)
    requires Inv(s) && i < |s.invs| && s.invs[i].pc == Streaming && s.invs[i].streamed && s.stored.Some?
    requires s.stored == Some(s.invs[i].local) && LeasePasses(s, i, now)
    ensures Inv(Next(s, Drive(i, Leave)))
    ensures var s' := Next(Next(s, Drive(i, Leave)), Drive(i, Unwind(true, now)));
            && Inv(s') && s'.stored.Some? && Stored(s') == Stored(s) && s'.disk == Some(Stored(s))
            && s'.cell == Cell(None, s.cell.token) && s'.events == s.events && s'.asked == s.asked
            && s'.submitted == s.submitted && s'.sqlite == s.sqlite && s'.restarts == s.restarts
            && |s'.invs| == |s.invs| && s'.invs == s.invs[i := s'.invs[i]]
            && s'.invs[i].status == s'.invs[i].durable == s.invs[i].status
            && s'.invs[i].pc == Done && !s'.invs[i].registered
            && s'.invs[i].dispatched == s.invs[i].dispatched && s'.invs[i].cancelAsked == s.invs[i].cancelAsked
  {
    hide TokensOk, StatusesOk, EventsOk, PoliciesOk, LinksOk, Grows;
    NextKeeps(s, Drive(i, Leave));
    NextKeeps(Next(s, Drive(i, Leave)), Drive(i, Unwind(true, now)));
    StatusOf(s, i);
  }

  /** Continuing is granted exactly for an interrupted invocation that the record offers. */
  lemma AskTaken(s: State, i: nat)
    requires Inv(s) && i < |s.invs|
    ensures var s' := Next(s, Control(i, ContinueAsk));
            && s' == s.(asked := s'.asked)
            && s'.asked == if && s.invs[i].status == Interrupted && s.stored.Some?
                              && Stored(s).control == Paused && Stored(s).supportsResume
                              && Stored(s).resumable == Some(i)
                           then s.asked + {i} else s.asked
  {
    hide TokensOk, StatusesOk, EventsOk, PoliciesOk, LinksOk;
  }

  /** A pause, its interrupted terminal, the driver's exit, and the request to continue. */
  function PauseRun(i: nat, now: int): seq<Step> {
    [Control(i, PauseMark)] + ([Drive(i, Terminal(Interrupted, false, now, now))] + ([Drive(i, Leave)]
      + ([Drive(i, Unwind(true, now))] + [Control(i, ContinueAsk)])))
  }

  /** From every state in which a driver streams under its lease and no update waits: pausing it, letting it
      end and asking to continue leaves the session paused and resumable at that invocation. */
  lemma PauseTakesEffect(s: State, i: nat, now: int)
    requires Inv(s) && i < |s.invs| && s.invs[i].pc == Streaming && !s.invs[i].streamed && s.invs[i].registered
    requires s.invs[i].status == Active && s.invs[i].intent != Some(CancelIntent) && LeasePasses(s, i, now)
    requires s.stored.Some? && Stored(s).appliedRevision >= Stored(s).desiredRevision
    ensures var s' := Run(s, PauseRun(i, now));
            && Inv(s') && |s'.invs| == |s.invs| && s'.invs[i].status == s'.invs[i].durable == Interrupted
            && i in s'.asked && s'.cell.lease.None? && s'.stored.Some? && s'.disk == Some(Stored(s'))
            && Stored(s').control == Paused && Stored(s').supportsResume && Stored(s').resumable == Some(i)
            && Stored(s').appliedRevision >= Stored(s').desiredRevision
  {
    hide TokensOk, StatusesOk, EventsOk, PoliciesOk, LinksOk, Next, Run, Grows, Takes;
    var pause, end := Control(i, PauseMark), Drive(i, Terminal(Interrupted, false, now, now));
    var leave, unwind, ask := Drive(i, Leave), Drive(i, Unwind(true, now)), Control(i, ContinueAsk);
    PauseTaken(s, i);
    RunStep(s, pause, [end] + ([leave] + ([unwind] + [ask])));
    var s1 := Next(s, pause);
    TerminalTaken(s1, i, Interrupted, false, now, now);
    RunStep(s1, end, [leave] + ([unwind] + [ask]));
    var s2 := Next(s1, end);
    CleanExit(s2, i, now);
    RunStep(s2, leave, [unwind] + [ask]);
    RunStep(Next(s2, leave), unwind, [ask]);
    var s3 := Next(Next(s2, leave), unwind);
    StatusOf(s2, i);
    AskTaken(s3, i);
    RunLast(s3, ask);
    StatusOf(Next(s3, ask), i);
    DurableStays(s2, [leave] + ([unwind] + [ask]), i);
  }

  lemma DurableStays(s: State, steps: seq<Step>, i: nat)
    requires Inv(s) && i < |s.invs| && s.invs[i].durable != Active
    ensures i < |Run(s, steps).invs| && Run(s, steps).invs[i].durable == s.invs[i].durable
  {
    DecidedStaysDecided(s, steps, i);
  }

  /** And whoever continues it next, at whatever time, gets a new invocation linked to it, with the policy that
      is in force. */
  lemma PauseThenContinue(s: State, i: nat, now: int, holder: string, ttl: int, later: int)
    requires Inv(s) && i < |s.invs| && s.invs[i].pc == Streaming && !s.invs[i].streamed && s.invs[i].registered
    requires s.invs[i].status == Active && s.invs[i].intent != Some(CancelIntent) && LeasePasses(s, i, now)
    requires s.stored.Some? && Stored(s).appliedRevision >= Stored(s).desiredRevision
    ensures Inv(Run(s, PauseRun(i, now)))
    ensures var s' := Next(Run(s, PauseRun(i, now)), Start(holder, ttl, later, Some(i), None));
            && |s'.invs| == |s.invs| + 1 && s'.invs[|s.invs|].continuedFrom == Some(i)
            && s'.invs[|s.invs|].status == Active && WellFormed(s') && s'.stored.Some?
            && Stored(s').control == Resuming && s'.invs[|s.invs|].policyRevision == Stored(s').desiredRevision
  {
    hide TokensOk, StatusesOk, EventsOk, PoliciesOk, LinksOk, Next, Run, Grows, PauseRun;
    PauseTakesEffect(s, i, now);
    StartTaken(Run(s, PauseRun(i, now)), holder, ttl, later, Some(i), None);
  }

  // ------------------------------------------------------ an update during a run

  /** A run that is updated, then paused, and ends as interrupted under its lease is not resumable. */
  lemma PauseLostToUpdate(d: Delta)
    requires d != Delta(None, None, None)
    ensures Inv(Init(true))
    ensures var s := Run(Init(true), [START] + ([Drive(0, Register)] + ([UpdatePolicy(1, d, true)]
                                     + ([Control(0, PauseMark)] + [Drive(0, Terminal(Interrupted, false, 5, 5))]))));
            && |s.invs| == 1 && s.invs[0].status == Interrupted && s.stored.Some?
            && Stored(s).control == Pausing && !Stored(s).supportsResume
  {
    hide TokensOk, StatusesOk, EventsOk, PoliciesOk, LinksOk, Next, Run, Grows, Takes;
    var register, update, pause := Drive(0, Register), UpdatePolicy(1, d, true), Control(0, PauseMark);
    var end := Drive(0, Terminal(Interrupted, false, 5, 5));
    InitOk(true);
    FirstStart();
    RunStep(Init(true), START, [register] + ([update] + ([pause] + [end])));
    var s1 := Next(Init(true), START);
    RegisterStreams(s1);
    RunStep(s1, register, [update] + ([pause] + [end]));
    var s2 := Next(s1, register);
    UpdateTaken(s2, 1, d, true);
    RunStep(s2, update, [pause] + [end]);
    var s3 := Next(s2, update);
    PauseTaken(s3, 0);
    RunStep(s3, pause, [end]);
    var s4 := Next(s3, pause);
    TerminalTaken(s4, 0, Interrupted, false, 5, 5);
    RunLast(s4, end);
  }

  /** A run that is updated, completes under its lease and exits cleanly. */
  function UpdatedRun(d: Delta): seq<Step> {
    [START] + ([UpdatePolicy(1, d, true)] + ([Drive(0, Register)] + ([Drive(0, Terminal(Completed, false, 5, 5))]
      + ([Drive(0, Leave)] + [Drive(0, Unwind(true, 5))]))))
  }

  /** After it nothing runs and the update is applied, but the record still says running. */
  lemma UpdatedRunLeavesRunning(d: Delta)
    requires d != Delta(None, None, None)
    ensures Inv(Init(true))
    ensures var s := Run(Init(true), UpdatedRun(d));
            && Inv(s) && s.sqlite && |s.invs| == 1 && s.invs[0].status == s.invs[0].durable == Completed && Quiet(s)
            && s.stored.Some?
            && Stored(s).control == Running && Stored(s).appliedRevision == Stored(s).desiredRevision == 2
            && Stored(s).resumable.None? && !Stored(s).supportsResume
  {
    hide TokensOk, StatusesOk, EventsOk, PoliciesOk, LinksOk, Next, Run, Grows, Takes;
    var update, register := UpdatePolicy(1, d, true), Drive(0, Register);
    var end, leave, unwind := Drive(0, Terminal(Completed, false, 5, 5)), Drive(0, Leave), Drive(0, Unwind(true, 5));
    InitOk(true);
    FirstStart();
    RunStep(Init(true), START, [update] + ([register] + ([end] + ([leave] + [unwind]))));
    var s1 := Next(Init(true), START);
    UpdateTaken(s1, 1, d, true);
    RunStep(s1, update, [register] + ([end] + ([leave] + [unwind])));
    var s2 := Next(s1, update);
    RegisterStreams(s2);
    RunStep(s2, register, [end] + ([leave] + [unwind]));
    var s3 := Next(s2, register);
    TerminalTaken(s3, 0, Completed, false, 5, 5);
    RunStep(s3, end, [leave] + [unwind]);
    var s4 := Next(s3, end);
    CleanExit(s4, 0, 5);
    RunStep(s4, leave, [unwind]);
    RunLast(Next(s4, leave), unwind);
  }

  /** A second update then waits for the end of a run that is not there, and every start waits for the update:
      the session is stuck. */
  lemma SecondUpdateSticks(d: Delta)
    requires d != Delta(None, None, None)
    ensures Inv(Init(true)) && Inv(Run(Init(true), UpdatedRun(d)))
    ensures var s := Next(Run(Init(true), UpdatedRun(d)), UpdatePolicy(2, d, true));
            && Inv(s) && Stuck(s) && Quiet(s) && s.sqlite && AllWritten(s)
  {
    hide TokensOk, StatusesOk, EventsOk, PoliciesOk, LinksOk, Next, Run, Grows, UpdatedRun, Takes, Quiet;
    UpdatedRunLeavesRunning(d);
    var s, update := Run(Init(true), UpdatedRun(d)), UpdatePolicy(2, d, true);
    UpdateTaken(s, 2, d, true);
    NextKeeps(s, update);
    QuietStays(s, Next(s, update));
  }

  lemma QuietStays(s: State, s': State)
    requires Quiet(s) && SameRun(s, s')
    ensures Quiet(s')
  {
  }

  /** Memory and disk agree. */
  predicate AllWritten(s: State)
    requires WellFormed(s) && s.stored.Some?
  {
    s.disk == Some(Stored(s)) && forall i :: 0 <= i < |s.invs| ==> s.invs[i].durable == s.invs[i].status
  }

  /** A stuck session gets no event again, neither in this process nor, once it is all on disk, after a restart,
      whatever lease that loads. */
  lemma StuckAcrossRestart(s: State, loaded: Cell, steps: seq<Step>)
    requires Inv(s) && Stuck(s) && Quiet(s) && s.sqlite && AllWritten(s) && NoRestart(steps)
    ensures Run(s, steps).events == s.events
    ensures var s' := Next(s, Restart(loaded)); Inv(s') && Stuck(s') && Run(s', steps).events == s.events
  {
    hide TokensOk, StatusesOk, EventsOk, PoliciesOk, LinksOk, Run, Grows;
    NextKeeps(s, Restart(loaded));
    RestartQuiets(s, loaded);
    StuckForGood(s, steps);
    StuckForGood(Next(s, Restart(loaded)), steps);
  }
}

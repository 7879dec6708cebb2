/**
 What every step of the session protocol keeps, and what holds over whole runs: at most one terminal
 event per invocation, statuses that never change again, policy revisions that are lost only with the
 session's record, and continuation links that form chains.
 */
module SessionSafety {
  import opened Wrappers
  import opened LeaseCells
  import opened Sessions

  // ---------------------------------------------------------------- invariants

  /** Started by the process that is running now. */
  predicate Current(s: State, v: Invocation) {
    v.born == s.restarts
  }

  /** Fencing: the tokens of this process's invocations grow with each one and never pass the cell's
      newest. A restart may load any cell, so nothing is said across one. */
  predicate TokensOk(s: State) {
    && s.base <= s.cell.token
    && (forall i :: 0 <= i < |s.invs| ==> s.invs[i].born <= s.restarts)
    && (forall i :: 0 <= i < |s.invs| && s.invs[i].pc != Done ==> Current(s, s.invs[i]))
    && (forall i :: 0 <= i < |s.invs| && Current(s, s.invs[i]) ==>
          CellOk(s.cell) && s.base < s.invs[i].token <= s.cell.token)
    && (forall i, j :: 0 <= i < j < |s.invs| ==>
          && s.invs[i].born <= s.invs[j].born
          && (Current(s, s.invs[i]) ==> s.invs[i].token < s.invs[j].token))
  }

  /** No lease has been issued since the one this driver took. */
  predicate Newest(s: State, v: Invocation) {
    Current(s, v) && v.token == s.cell.token
  }

  predicate StatusOk(s: State, v: Invocation) {
    && (v.durable != Active ==> v.status == v.durable)
    && (InTry(v) && !v.streamed && Newest(s, v) ==> v.status == Active)
    && (v.streamed ==> v.durable != Active)
  }

  predicate StatusesOk(s: State) {
    forall i :: 0 <= i < |s.invs| ==> StatusOk(s, s.invs[i])
  }

  /** A terminal event is on disk with its invocation's status. */
  predicate EventOk(s: State, e: Event) {
    && e.invocation < |s.invs| && e.life <= s.restarts
    && (e.life == s.restarts ==> s.base < e.token <= s.cell.token)
    && (e.terminal.Some? ==> e.terminal.value != Active && s.invs[e.invocation].durable == e.terminal.value)
  }

  predicate EventsOk(s: State) {
    && (forall k :: 0 <= k < |s.events| ==> EventOk(s, s.events[k]))
    && (forall j, k :: 0 <= j < k < |s.events| ==> Follows(s.events[j], s.events[k]))
    && OneTerminalEach(s)
  }

  /** Events of one process come in token order. */
  predicate Follows(e: Event, e': Event) {
    e.life <= e'.life && (e.life == e'.life ==> e.token <= e'.token)
  }

  predicate OneTerminalEach(s: State) {
    forall j, k :: 0 <= j < k < |s.events| && s.events[j].terminal.Some? && s.events[k].terminal.Some? ==>
      s.events[j].invocation != s.events[k].invocation
  }

  /** A record's desired and applied policies are the ones submitted under its revisions. */
  predicate PolicyOk(submitted: seq<Policy>, o: Session) {
    && 1 <= o.appliedRevision <= o.desiredRevision <= |submitted|
    && o.desired == submitted[o.desiredRevision - 1]
    && o.applied == submitted[o.appliedRevision - 1]
  }

  /** The policies accepted for the session record of an era. */
  function Accepted(s: State, era: nat): seq<Policy>
    requires era <= |s.past|
  {
    if era < |s.past| then s.past[era] else s.submitted
  }

  predicate FrozenOk(s: State, v: Invocation) {
    && v.era <= |s.past|
    && 1 <= v.policyRevision <= |Accepted(s, v.era)| && v.policy == Accepted(s, v.era)[v.policyRevision - 1]
  }

  predicate PoliciesOk(s: State)
    requires WellFormed(s)
  {
    && (forall r :: 0 <= r < |s.heap| ==> PolicyOk(s.submitted, s.heap[r]))
    && (s.stored.Some? ==> s.heap[s.stored.value].desiredRevision == |s.submitted|)
    && (s.disk.Some? ==> PolicyOk(s.submitted, s.disk.value) && s.disk.value.desiredRevision == |s.submitted|)
    && (s.disk.Some? ==> s.disk.value.appliedRevision <= s.heap[s.stored.value].appliedRevision)
    && (s.stored.None? ==> s.submitted == [])
    && (forall i :: 0 <= i < |s.invs| ==> FrozenOk(s, s.invs[i]))
  }

  /** `x` has not been continued yet. */
  predicate Free(s: State, x: nat) {
    x < |s.invs| && forall y :: 0 <= y < |s.invs| ==> s.invs[y].continuedFrom != Some(x)
  }

  /** Whatever this record offers for resumption is still free. */
  predicate OfferOk(s: State, o: Session) {
    o.control == Paused && o.resumable.Some? ==> Free(s, o.resumable.value)
  }

  predicate LinksOk(s: State)
    requires WellFormed(s)
  {
    && (s.stored.Some? ==> OfferOk(s, s.heap[s.stored.value]))
    && (s.disk.Some? ==> OfferOk(s, s.disk.value))
    && (forall i :: 0 <= i < |s.invs| && Newest(s, s.invs[i]) && s.invs[i].pc != Done ==>
          OfferOk(s, s.heap[s.invs[i].local]))
    && (forall y :: 0 <= y < |s.invs| && s.invs[y].continuedFrom.Some? ==> s.invs[y].continuedFrom.value < y)
    && (forall y, z :: 0 <= y < z < |s.invs| && s.invs[y].continuedFrom.Some? ==>
          s.invs[y].continuedFrom != s.invs[z].continuedFrom)
    && (forall x :: x in s.asked ==> x < |s.invs| && s.invs[x].status == Interrupted)
    && (s.restarts == 0 ==>
          forall y :: 0 <= y < |s.invs| && s.invs[y].continuedFrom.Some? ==>
            && s.invs[y].continuedFrom.value < |s.invs|
            && s.invs[s.invs[y].continuedFrom.value].status == Interrupted)
  }

  predicate Inv(s: State) {
    && WellFormed(s) && TokensOk(s) && StatusesOk(s) && EventsOk(s) && PoliciesOk(s) && LinksOk(s)
  }

  // --------------------------------------------------- what only ever grows

  function DiskApplied(s: State): nat { if s.disk.Some? then s.disk.value.appliedRevision else 0 }

  function DiskDesired(s: State): nat { if s.disk.Some? then s.disk.value.desiredRevision else 0 }

  function StoredApplied(s: State): nat
    requires WellFormed(s)
  {
    if s.stored.Some? then s.heap[s.stored.value].appliedRevision else 0
  }

  function StoredDesired(s: State): nat
    requires WellFormed(s)
  {
    if s.stored.Some? then s.heap[s.stored.value].desiredRevision else 0
  }

  /** The applied revision the session's row carries or, while another key's record is there, will carry. */
  function Floor(s: State): nat
    requires WellFormed(s)
  {
    if s.disk.Some? then s.disk.value.appliedRevision else StoredApplied(s)
  }

  /** Nothing accepted is forgotten: a lost record's policies are kept as an era of their own. */
  predicate HistoryGrows(s: State, s': State) {
    && s.past <= s'.past
    && s.submitted <= if |s'.past| == |s.past| then s'.submitted else s'.past[|s.past|]
  }

  /** Holds across every step, restarts included. */
  predicate GrowsOnDisk(s: State, s': State)
    requires WellFormed(s) && WellFormed(s')
  {
    && |s.invs| <= |s'.invs|
    && (forall i :: 0 <= i < |s.invs| ==>
          && SameFrozen(s.invs[i], s'.invs[i])
          && (s.invs[i].durable != Active ==> s'.invs[i].durable == s.invs[i].durable))
    && s.events <= s'.events
    && HistoryGrows(s, s')
    && (|s'.past| == |s.past| ==> Floor(s) <= Floor(s'))
  }

  /** What is fixed when an invocation starts. */
  predicate SameFrozen(v: Invocation, v': Invocation) {
    && v'.continuedFrom == v.continuedFrom && v'.policy == v.policy && v'.policyRevision == v.policyRevision
    && v'.token == v.token && v'.born == v.born && v'.era == v.era
  }

  /** Holds in memory, as long as the process lives. */
  predicate Grows(s: State, s': State)
    requires WellFormed(s) && WellFormed(s')
  {
    && GrowsOnDisk(s, s')
    && (forall i :: 0 <= i < |s.invs| && s.invs[i].status != Active ==> s'.invs[i].status == s.invs[i].status)
    && s'.restarts == s.restarts && s'.base == s.base && |s'.past| == |s.past|
    && (forall k :: |s.events| <= k < |s'.events| ==> s'.events[k].life == s.restarts)
    && StoredApplied(s) <= StoredApplied(s') && StoredDesired(s) <= StoredDesired(s')
  }

  predicate Keeps(s: State, s': State)
    requires WellFormed(s)
  {
    Inv(s') && Grows(s, s')
  }

  lemma Then(s: State, s1: State, s2: State)
    requires WellFormed(s) && Keeps(s, s1) && Keeps(s1, s2)
    ensures Keeps(s, s2)
  {
    hide TokensOk, StatusesOk, EventsOk, PoliciesOk, LinksOk;
  }

  // ------------------------------------------------- primitives keep them

  /** A record that may be written anywhere. */
  predicate RecordOk(s: State, o: Session) {
    PolicyOk(s.submitted, o) && OfferOk(s, o)
  }

  /** Invocations advance one by one, and the cell's token does not go down. */
  predicate SameInvs(s: State, s': State) {
    && s'.restarts == s.restarts && s'.base == s.base && |s'.invs| == |s.invs| && s'.cell.token >= s.cell.token
    && (CellOk(s.cell) ==> CellOk(s'.cell))
    && (forall i :: 0 <= i < |s.invs| ==>
          && SameFrozen(s.invs[i], s'.invs[i])
          && (s.invs[i].pc == Done ==> s'.invs[i].pc == Done)
          && (s.invs[i].durable != Active ==> s'.invs[i].durable == s.invs[i].durable))
  }

  lemma TokensFrame(s: State, s': State)
    requires TokensOk(s) && SameInvs(s, s')
    ensures TokensOk(s')
  {
    forall i | 0 <= i < |s'.invs|
      ensures && s'.invs[i].born <= s'.restarts
              && (s'.invs[i].pc != Done ==> Current(s', s'.invs[i]))
              && (Current(s', s'.invs[i]) ==> CellOk(s'.cell) && s'.base < s'.invs[i].token <= s'.cell.token)
    {
      assert SameFrozen(s.invs[i], s'.invs[i]);
    }
    forall i, j | 0 <= i < j < |s'.invs|
      ensures && s'.invs[i].born <= s'.invs[j].born
              && (Current(s', s'.invs[i]) ==> s'.invs[i].token < s'.invs[j].token)
    {
      assert SameFrozen(s.invs[i], s'.invs[i]) && SameFrozen(s.invs[j], s'.invs[j]);
    }
  }

  lemma StatusesFrame(s: State, s': State)
    requires StatusesOk(s) && TokensOk(s) && s'.invs == s.invs
    requires s'.restarts == s.restarts && s'.cell.token >= s.cell.token
    ensures StatusesOk(s')
  {
    forall i | 0 <= i < |s'.invs| ensures StatusOk(s', s'.invs[i]) {
      assert StatusOk(s, s.invs[i]);
    }
  }

  lemma EventsFrame(s: State, s': State)
    requires EventsOk(s) && SameInvs(s, s') && s'.events == s.events
    ensures EventsOk(s')
  {
    forall k | 0 <= k < |s'.events| ensures EventOk(s', s'.events[k]) {
      assert EventOk(s, s.events[k]);
    }
  }

  lemma PoliciesFrame(s: State, s': State)
    requires WellFormed(s) && WellFormed(s') && PoliciesOk(s) && SameInvs(s, s')
    requires s' == s.(cell := s'.cell, invs := s'.invs, events := s'.events, asked := s'.asked)
    ensures PoliciesOk(s')
  {
    forall i | 0 <= i < |s'.invs| ensures FrozenOk(s', s'.invs[i]) {
      assert FrozenOk(s, s.invs[i]) && SameFrozen(s.invs[i], s'.invs[i]);
    }
  }

  lemma LinksFrame(s: State, s': State)
    requires WellFormed(s) && WellFormed(s') && LinksOk(s) && TokensOk(s)
    requires s' == s.(cell := s'.cell, events := s'.events) && s'.cell.token >= s.cell.token
    ensures LinksOk(s')
  {
    assert forall x :: Free(s', x) <==> Free(s, x);
    forall i | 0 <= i < |s'.invs| && Newest(s', s'.invs[i]) && s'.invs[i].pc != Done
      ensures OfferOk(s', s'.heap[s'.invs[i].local])
    {
      assert Newest(s, s.invs[i]);
    }
  }

  lemma SetObjLinks(s: State, ref: nat, o: Session)
    requires Inv(s) && ref < |s.heap| && OfferOk(s, o)
    ensures WellFormed(SetObj(s, ref, o)) && LinksOk(SetObj(s, ref, o))
  {
    hide TokensOk, StatusesOk, EventsOk, PoliciesOk;
    assert forall x :: Free(SetObj(s, ref, o), x) <==> Free(s, x);
  }

  lemma SetObjPolicies(s: State, ref: nat, o: Session)
    requires Inv(s) && ref < |s.heap| && PolicyOk(s.submitted, o)
    requires s.stored == Some(ref) ==>
               o.desiredRevision == |s.submitted| && o.appliedRevision >= s.heap[ref].appliedRevision
    ensures var s' := SetObj(s, ref, o); WellFormed(s') && PoliciesOk(s') && Grows(s, s')
  {
    hide TokensOk, StatusesOk, EventsOk, LinksOk;
    var s' := SetObj(s, ref, o);
    assert forall i :: 0 <= i < |s.invs| ==> FrozenOk(s, s.invs[i]);
  }

  lemma SetObjKeeps(s: State, ref: nat, o: Session)
    requires Inv(s) && ref < |s.heap| && RecordOk(s, o)
    requires s.stored == Some(ref) ==>
               o.desiredRevision == |s.submitted| && o.appliedRevision >= s.heap[ref].appliedRevision
    ensures Keeps(s, SetObj(s, ref, o))
  {
    hide TokensOk, StatusesOk, EventsOk, PoliciesOk, LinksOk, Grows;
    var s' := SetObj(s, ref, o);
    SetObjLinks(s, ref, o);
    SetObjPolicies(s, ref, o);
    TokensFrame(s, s');
    StatusesFrame(s, s');
    EventsFrame(s, s');
  }

  lemma PutLinks(s: State, o: Session)
    requires Inv(s) && OfferOk(s, o)
    ensures WellFormed(Put(s, o)) && LinksOk(Put(s, o))
  {
    hide TokensOk, StatusesOk, EventsOk, PoliciesOk;
    assert forall x :: Free(Put(s, o), x) <==> Free(s, x);
  }

  lemma PutPolicies(s: State, o: Session)
    requires Inv(s) && PolicyOk(s.submitted, o) && o.desiredRevision == |s.submitted|
    requires o.appliedRevision >= StoredApplied(s)
    ensures WellFormed(Put(s, o)) && PoliciesOk(Put(s, o)) && Grows(s, Put(s, o))
  {
    hide TokensOk, StatusesOk, EventsOk, LinksOk;
    assert forall i :: 0 <= i < |s.invs| ==> FrozenOk(s, s.invs[i]);
  }

  lemma PutKeeps(s: State, o: Session)
    requires Inv(s) && RecordOk(s, o) && o.desiredRevision == |s.submitted|
    requires o.appliedRevision >= StoredApplied(s)
    ensures Keeps(s, Put(s, o))
  {
    hide TokensOk, StatusesOk, EventsOk, PoliciesOk, LinksOk, Grows;
    PutLinks(s, o);
    PutPolicies(s, o);
    TokensFrame(s, Put(s, o));
    StatusesFrame(s, Put(s, o));
    EventsFrame(s, Put(s, o));
  }

  /** An invocation's fixed fields stay, a decided status stays, and the new one is consistent. */
  predicate Advances(s: State, v: Invocation, v': Invocation) {
    && SameFrozen(v, v') && (v'.pc != Done ==> v.pc != Done)
    && (v.status != Active ==> v'.status == v.status)
    && (v.durable != Active ==> v'.durable == v.durable)
    && StatusOk(s, v')
    && (v'.pc != Done ==> v'.local < |s.heap| && (Newest(s, v') ==> OfferOk(s, s.heap[v'.local])))
  }

  /** Only the control flags differ. */
  predicate SameButFlags(v: Invocation, v': Invocation) {
    v' == v.(intent := v'.intent, dispatched := v'.dispatched, cancelAsked := v'.cancelAsked)
  }

  lemma FlagsAdvance(s: State, i: nat, v: Invocation)
    requires Inv(s) && i < |s.invs| && SameButFlags(s.invs[i], v)
    ensures Advances(s, s.invs[i], v)
  {
    hide EventsOk, PoliciesOk, TokensOk;
  }

  lemma SetInvLinks(s: State, i: nat, v: Invocation)
    requires Inv(s) && i < |s.invs| && Advances(s, s.invs[i], v)
    ensures WellFormed(SetInv(s, i, v)) && LinksOk(SetInv(s, i, v))
  {
    hide TokensOk, StatusesOk, EventsOk, PoliciesOk;
    var s' := SetInv(s, i, v);
    assert forall y :: 0 <= y < |s.invs| ==> s'.invs[y].continuedFrom == s.invs[y].continuedFrom;
    assert forall x :: Free(s, x) ==> Free(s', x);
    assert forall y :: 0 <= y < |s.invs| && s.invs[y].status == Interrupted ==> s'.invs[y].status == Interrupted;
  }

  lemma SetInvStatuses(s: State, i: nat, v: Invocation)
    requires Inv(s) && i < |s.invs| && Advances(s, s.invs[i], v)
    ensures StatusesOk(SetInv(s, i, v)) && SameInvs(s, SetInv(s, i, v))
  {
    hide TokensOk, EventsOk, PoliciesOk, LinksOk, OfferOk;
  }

  lemma SetInvKeeps(s: State, i: nat, v: Invocation)
    requires Inv(s) && i < |s.invs| && Advances(s, s.invs[i], v)
    ensures Keeps(s, SetInv(s, i, v))
  {
    hide TokensOk, StatusesOk, EventsOk, PoliciesOk, LinksOk, OfferOk;
    SetInvLinks(s, i, v);
    SetInvStatuses(s, i, v);
    TokensFrame(s, SetInv(s, i, v));
    EventsFrame(s, SetInv(s, i, v));
    PoliciesFrame(s, SetInv(s, i, v));
  }

  lemma SetCellKeeps(s: State, c: Cell)
    requires Inv(s) && (CellOk(s.cell) ==> CellOk(c)) && c.token >= s.cell.token
    ensures Keeps(s, s.(cell := c))
  {
    hide TokensOk, StatusesOk, EventsOk, PoliciesOk, LinksOk;
    var s' := s.(cell := c);
    TokensFrame(s, s');
    StatusesFrame(s, s');
    EventsFrame(s, s');
    PoliciesFrame(s, s');
    LinksFrame(s, s');
  }

  lemma AppendEvents(s: State, e: Event)
    requires Inv(s) && EventOk(s, e) && e.token == s.cell.token && e.life == s.restarts
    requires e.terminal.Some? ==> NoTerminal(s, e.invocation)
    ensures EventsOk(Append(s, e))
  {
    hide TokensOk, StatusesOk, PoliciesOk, LinksOk;
    var s' := Append(s, e);
    forall k | 0 <= k < |s'.events| ensures EventOk(s', s'.events[k]) {
      assert k < |s.events| ==> s'.events[k] == s.events[k] && EventOk(s, s.events[k]);
    }
    forall j, k | 0 <= j < k < |s'.events| ensures Follows(s'.events[j], s'.events[k]) {
      assert s'.events[j] == s.events[j] && EventOk(s, s.events[j]);
      assert k < |s.events| ==> s'.events[k] == s.events[k];
    }
  }

  lemma AppendKeeps(s: State, e: Event)
    requires Inv(s) && EventOk(s, e) && e.token == s.cell.token && e.life == s.restarts
    requires e.terminal.Some? ==> NoTerminal(s, e.invocation)
    ensures Keeps(s, Append(s, e))
  {
    hide TokensOk, StatusesOk, EventsOk, PoliciesOk, LinksOk;
    AppendEvents(s, e);
    TokensFrame(s, Append(s, e));
    StatusesFrame(s, Append(s, e));
    PoliciesFrame(s, Append(s, e));
    LinksFrame(s, Append(s, e));
  }

  predicate NoTerminal(s: State, i: nat) {
    forall k :: 0 <= k < |s.events| ==> !(s.events[k].invocation == i && s.events[k].terminal.Some?)
  }

  lemma PutStoredKeeps(s: State, o: Session)
    requires Inv(s) && s.stored.Some? && RecordOk(s, o) && o.desiredRevision == |s.submitted|
    requires o.appliedRevision >= StoredApplied(s)
    ensures Keeps(s, PutStored(s, o))
  {
    hide TokensOk, StatusesOk, EventsOk, PoliciesOk, LinksOk, Grows;
    var s1 := SetObj(s, s.stored.value, o);
    SetObjKeeps(s, s.stored.value, o);
    PutKeeps(s1, o);
    Then(s, s1, Put(s1, o));
  }

  // ------------------------------------------------------ facts read off Inv

  lemma StatusOf(s: State, i: nat)
    requires Inv(s) && i < |s.invs|
    ensures StatusOk(s, s.invs[i])
    ensures Current(s, s.invs[i]) ==> s.base < s.invs[i].token <= s.cell.token && CellOk(s.cell)
    ensures s.invs[i].pc != Done ==> Current(s, s.invs[i]) && s.stored.Some?
  {
  }

  lemma StoredOk(s: State)
    requires Inv(s) && s.stored.Some?
    ensures var o := s.heap[s.stored.value]; RecordOk(s, o) && o.desiredRevision == |s.submitted|
  {
  }

  lemma PolicyOf(s: State, ref: nat)
    requires Inv(s) && ref < |s.heap|
    ensures PolicyOk(s.submitted, s.heap[ref])
    ensures s.stored == Some(ref) ==> s.heap[ref].desiredRevision == |s.submitted|
  {
  }

  lemma RefreshedOk(s: State, ref: nat)
    requires Inv(s) && s.stored.Some? && ref < |s.heap|
    ensures var o := Refreshed(s, ref);
            && PolicyOk(s.submitted, o) && o.desiredRevision == |s.submitted|
            && o.appliedRevision == StoredApplied(s)
  {
  }

  lemma LocalOffer(s: State, i: nat)
    requires Inv(s) && i < |s.invs| && s.invs[i].pc != Done && Newest(s, s.invs[i])
    ensures OfferOk(s, s.heap[s.invs[i].local])
  {
    hide StatusesOk, EventsOk, PoliciesOk, TokensOk;
  }

  lemma NoTerminalYet(s: State, i: nat)
    requires Inv(s) && i < |s.invs| && s.invs[i].status == Active
    ensures NoTerminal(s, i)
  {
    assert s.invs[i].durable == Active;
  }

  /** The driver holding the newest token runs the newest invocation, which nothing continues yet. */
  lemma NewestIsFree(s: State, i: nat)
    requires Inv(s) && i < |s.invs| && Newest(s, s.invs[i])
    ensures i == |s.invs| - 1 && Free(s, i)
  {
    hide StatusesOk, EventsOk, PoliciesOk;
    var last := |s.invs| - 1;
    assert s.invs[last].token <= s.cell.token;
    assert forall y :: 0 <= y < |s.invs| && s.invs[y].continuedFrom == Some(i) ==> i < y;
  }

  // --------------------------------------------------------- driver steps

  lemma LeftKeeps(s: State, i: nat)
    requires Inv(s) && i < |s.invs| && s.invs[i].pc != Done
    ensures Keeps(s, Left(s, i))
  {
    StatusOf(s, i);
    if Newest(s, s.invs[i]) { LocalOffer(s, i); }
    hide TokensOk, StatusesOk, EventsOk, PoliciesOk, LinksOk, Grows;
    SetInvKeeps(s, i, s.invs[i].(pc := Unwinding, registered := false));
  }

  lemma SaveLocalKeeps(s: State, i: nat)
    requires Inv(s) && i < |s.invs| && s.invs[i].pc != Done && Newest(s, s.invs[i])
    ensures var s' := SaveLocal(s, i);
            Keeps(s, s') && |s'.invs| == |s.invs| && s'.invs[i].pc == s.invs[i].pc
  {
    hide TokensOk, StatusesOk, EventsOk, PoliciesOk, LinksOk, Grows;
    var v := s.invs[i];
    var o := Refreshed(s, v.local);
    LocalOffer(s, i);
    StatusOf(s, i);
    RefreshedOk(s, v.local);
    var s1 := SetObj(s, v.local, o);
    SetObjKeeps(s, v.local, o);
    PutKeeps(s1, o);
    var s2 := Put(s1, o);
    SetInvKeeps(s2, i, v.(local := |s.heap|));
    Then(s, s1, s2);
    Then(s, s2, SetInv(s2, i, v.(local := |s.heap|)));
  }

  lemma ConcludedHeapKeeps(s: State, i: nat, status: Status, ref: nat)
    requires Inv(s) && i < |s.invs| && ref < |s.heap| && s.stored.Some?
    requires s.invs[i].registered ==> Free(s, i)
    ensures var s' := ConcludedHeap(s, i, status, ref);
            var record := s'.heap[RecordRef(s, ref)];
            && Keeps(s, s') && s' == s.(heap := s'.heap) && |s'.heap| == |s.heap|
            && RecordOk(s', record) && record.desiredRevision == |s'.submitted|
            && record.appliedRevision == StoredApplied(s')
  {
    hide TokensOk, StatusesOk, EventsOk, PoliciesOk, LinksOk, Grows;
    var o := Concluded(Refreshed(s, ref), i, s.invs[i], status);
    StoredOk(s);
    RefreshedOk(s, ref);
    var s1 := SetObj(s, ref, o);
    SetObjKeeps(s, ref, o);
    StoredOk(s1);
    var latest := s1.heap[s1.stored.value];
    if latest.desiredRevision > latest.appliedRevision {
      SetObjKeeps(s1, s1.stored.value, ApplyDesired(latest));
      Then(s, s1, SetObj(s1, s1.stored.value, ApplyDesired(latest)));
    }
  }

  /** What the caller of `Persist` may turn its invocation into. */
  predicate ValidAfter(s: State, i: nat, v: Invocation, committed: bool)
    requires i < |s.invs|
  {
    var was := s.invs[i];
    && SameFrozen(was, v) && v.durable == was.durable
    && (v.local == was.local || (committed && v.local == |s.heap|))
    && (v.streamed ==> committed)
    && (Newest(s, v) ==> v.streamed || !InTry(v))
    && (v.pc == Done <==> was.pc == Done)
  }

  /** Invocation, session and event written together. */
  lemma CommitKeeps(s: State, i: nat, status: Status, record: Session, v: Invocation)
    requires Inv(s) && i < |s.invs| && s.invs[i].status == Active && status != Active
    requires NoTerminal(s, i) && RecordOk(s, record) && record.desiredRevision == |s.submitted|
    requires record.appliedRevision == StoredApplied(s)
    requires ValidAfter(s, i, v, true) && s.base < s.cell.token
    ensures var s2 := SetInv(Put(s, record), i, v.(status := status, durable := status));
            Keeps(s, s2) && Keeps(s, Append(s2, Event(i, Some(status), s.cell.token, s.restarts)))
  {
    hide TokensOk, StatusesOk, EventsOk, PoliciesOk, LinksOk, Grows;
    StatusOf(s, i);
    PutKeeps(s, record);
    var s1 := Put(s, record);
    if Newest(s, s.invs[i]) && s.invs[i].pc != Done { LocalOffer(s1, i); }
    var v' := v.(status := status, durable := status);
    var s2 := SetInv(s1, i, v');
    SetInvKeeps(s1, i, v');
    Then(s, s1, s2);
    AppendKeeps(s2, Event(i, Some(status), s.cell.token, s.restarts));
    Then(s, s2, Append(s2, Event(i, Some(status), s.cell.token, s.restarts)));
  }

  /** In memory only: the status is decided, nothing was written. */
  lemma RollbackKeeps(s: State, i: nat, status: Status, v: Invocation)
    requires Inv(s) && i < |s.invs| && s.invs[i].status == Active
    requires ValidAfter(s, i, v, false)
    ensures Keeps(s, SetInv(s, i, v.(status := status)))
  {
    hide TokensOk, StatusesOk, EventsOk, PoliciesOk, LinksOk, Grows;
    StatusOf(s, i);
    if Newest(s, s.invs[i]) && s.invs[i].pc != Done { LocalOffer(s, i); }
    SetInvKeeps(s, i, v.(status := status));
  }

  /** The terminal write, by whoever holds the newest token, on an invocation still running. */
  lemma PersistKeeps(s: State, i: nat, status: Status, ref: nat, holder: string, token: nat, now: int,
                     committed: Invocation, fenced: Invocation)
    requires Inv(s) && i < |s.invs| && ref < |s.heap| && s.stored.Some?
    requires s.invs[i].status == Active && status != Active && s.base < token == s.cell.token
    requires s.invs[i].registered ==> Free(s, i)
    requires ValidAfter(s, i, committed, true) && ValidAfter(s, i, fenced, false)
    ensures Keeps(s, Persist(s, i, status, ref, holder, token, now, committed, fenced))
  {
    hide TokensOk, StatusesOk, EventsOk, PoliciesOk, LinksOk, ConcludedHeap, OfferOk, Grows;
    NoTerminalYet(s, i);
    ConcludedHeapKeeps(s, i, status, ref);
    var s1 := ConcludedHeap(s, i, status, ref);
    var record := s1.heap[RecordRef(s, ref)];
    CommitKeeps(s1, i, status, record, committed);
    CommitKeeps(s1, i, status, record, fenced);
    RollbackKeeps(s1, i, status, fenced);
    Then(s, s1, Persist(s, i, status, ref, holder, token, now, committed, fenced));
  }

  lemma DriverTerminalKeeps(s: State, i: nat, status: Status, now: int, now': int, after: Pc)
    requires Inv(s) && i < |s.invs| && InTry(s.invs[i]) && !s.invs[i].streamed && status != Active && after != Done
    ensures Keeps(s, DriverTerminal(s, i, status, now, now', after))
  {
    var v := s.invs[i];
    StatusOf(s, i);
    if LeasePasses(s, i, now) {
      NewestIsFree(s, i);
      hide TokensOk, StatusesOk, EventsOk, PoliciesOk, LinksOk, Persist, Grows;
      PersistKeeps(s, i, status, v.local, v.holder, v.token, now',
                   v.(streamed := true, pc := after, local := |s.heap|),
                   v.(pc := Unwinding, registered := false));
    } else {
      LeftKeeps(s, i);
    }
  }

  lemma MarkedKeeps(s: State, i: nat, cleanly: bool)
    requires Inv(s) && i < |s.invs| && s.invs[i].pc == Unwinding
    ensures var s' := Marked(s, i, cleanly);
            Keeps(s, s') && |s'.invs| == |s.invs| && s'.invs[i].pc == Unwinding
  {
    hide TokensOk, StatusesOk, EventsOk, PoliciesOk, LinksOk, Grows;
    Unchanged(s);
    var v := s.invs[i];
    var mine := s.heap[v.local];
    if !cleanly && v.status == Active {
      var s1 := if Busy(mine.control) then SetObj(s, v.local, WithControl(mine, Idle)) else s;
      if Busy(mine.control) {
        PolicyOf(s, v.local);
        SetObjKeeps(s, v.local, WithControl(mine, Idle));
      }
      FailedAdvance(s1, i);
      SetInvKeeps(s1, i, v.(status := Failed));
      Then(s, s1, SetInv(s1, i, v.(status := Failed)));
    }
  }

  lemma FailedAdvance(s: State, i: nat)
    requires Inv(s) && i < |s.invs| && s.invs[i].pc == Unwinding && s.invs[i].status == Active
    ensures Advances(s, s.invs[i], s.invs[i].(status := Failed))
  {
    hide EventsOk, PoliciesOk, TokensOk;
  }

  lemma FinishedKeeps(s: State, i: nat)
    requires Inv(s) && i < |s.invs| && s.invs[i].pc != Done
    ensures Keeps(s, Finished(s, i))
  {
    StatusOf(s, i);
    hide TokensOk, StatusesOk, EventsOk, PoliciesOk, LinksOk, Grows;
    var v := s.invs[i];
    var s1 := SetInv(s, i, v.(pc := Done));
    SetInvKeeps(s, i, v.(pc := Done));
    SetCellKeeps(s1, Release(s.cell, v.holder, Some(v.token)));
    Then(s, s1, Finished(s, i));
  }

  lemma UnwoundKeeps(s: State, i: nat, cleanly: bool, now: int)
    requires Inv(s) && i < |s.invs| && s.invs[i].pc == Unwinding
    ensures Keeps(s, Unwound(s, i, cleanly, now))
  {
    hide TokensOk, StatusesOk, EventsOk, PoliciesOk, LinksOk, Marked, SaveLocal, Finished, Grows;
    MarkedKeeps(s, i, cleanly);
    var s1 := Marked(s, i, cleanly);
    StatusOf(s1, i);
    var v := s1.invs[i];
    if LeasePasses(s1, i, now) {
      LocalOffer(s1, i);
      var s2 := SetInv(s1, i, v.(durable := v.status));
      SetInvKeeps(s1, i, v.(durable := v.status));
      SaveLocalKeeps(s2, i);
      FinishedKeeps(SaveLocal(s2, i), i);
      Then(s, s1, s2);
      Then(s, s2, SaveLocal(s2, i));
      Then(s, SaveLocal(s2, i), Unwound(s, i, cleanly, now));
    } else {
      FinishedKeeps(s1, i);
      Then(s, s1, Unwound(s, i, cleanly, now));
    }
  }

  // ----------------------------------------------------------------- starts

  lemma NewInvocationLinks(s: State, o: Session, holder: string, source: Option<nat>)
    requires Inv(s) && s.stored.Some? && o == s.heap[s.stored.value] && o.control != Paused
    requires s.disk == Some(o)
    requires CellOk(s.cell) && s.base < s.cell.token
    requires forall i :: 0 <= i < |s.invs| && Current(s, s.invs[i]) ==> s.invs[i].token < s.cell.token
    requires source.Some? ==> Free(s, source.value) && s.invs[source.value].status == Interrupted
    ensures WellFormed(NewInvocation(s, o, holder, source)) && LinksOk(NewInvocation(s, o, holder, source))
  {
    hide TokensOk, StatusesOk, EventsOk, PoliciesOk;
    var s' := NewInvocation(s, o, holder, source);
    assert forall i :: 0 <= i < |s.invs| ==> s'.invs[i] == s.invs[i];
  }

  lemma NewInvocationPolicies(s: State, o: Session, holder: string, source: Option<nat>)
    requires Inv(s) && s.stored.Some? && o == s.heap[s.stored.value]
    ensures var s' := NewInvocation(s, o, holder, source); WellFormed(s') && PoliciesOk(s') && Grows(s, s')
  {
    hide TokensOk, StatusesOk, EventsOk, LinksOk;
    PolicyOf(s, s.stored.value);
    var s' := NewInvocation(s, o, holder, source);
    assert forall i :: 0 <= i < |s.invs| ==> s'.invs[i] == s.invs[i] && FrozenOk(s, s.invs[i]);
  }

  lemma NewInvocationTokens(s: State, o: Session, holder: string, source: Option<nat>)
    requires Inv(s) && s.stored.Some? && CellOk(s.cell) && s.base < s.cell.token
    requires forall i :: 0 <= i < |s.invs| && Current(s, s.invs[i]) ==> s.invs[i].token < s.cell.token
    ensures TokensOk(NewInvocation(s, o, holder, source))
  {
    hide StatusesOk, EventsOk, LinksOk, PoliciesOk;
    var s' := NewInvocation(s, o, holder, source);
    assert forall i :: 0 <= i < |s.invs| ==> s'.invs[i] == s.invs[i];
  }

  lemma NewInvocationEvents(s: State, o: Session, holder: string, source: Option<nat>)
    requires Inv(s) && s.stored.Some?
    ensures StatusesOk(NewInvocation(s, o, holder, source)) && EventsOk(NewInvocation(s, o, holder, source))
  {
    hide TokensOk, LinksOk, PoliciesOk;
    var s' := NewInvocation(s, o, holder, source);
    assert forall i :: 0 <= i < |s.invs| ==> s'.invs[i] == s.invs[i] && StatusOk(s, s.invs[i]);
    assert forall k :: 0 <= k < |s.events| ==> EventOk(s, s.events[k]);
  }

  lemma NewInvocationKeeps(s: State, o: Session, holder: string, source: Option<nat>)
    requires Inv(s) && s.stored.Some? && o == s.heap[s.stored.value] && o.control != Paused
    requires s.disk == Some(o)
    requires CellOk(s.cell) && s.base < s.cell.token
    requires forall i :: 0 <= i < |s.invs| && Current(s, s.invs[i]) ==> s.invs[i].token < s.cell.token
    requires source.Some? ==> Free(s, source.value) && s.invs[source.value].status == Interrupted
    ensures Keeps(s, NewInvocation(s, o, holder, source))
  {
    hide TokensOk, StatusesOk, EventsOk, PoliciesOk, LinksOk, Grows;
    NewInvocationLinks(s, o, holder, source);
    NewInvocationPolicies(s, o, holder, source);
    NewInvocationTokens(s, o, holder, source);
    NewInvocationEvents(s, o, holder, source);
  }

  function FirstInvocation(s: State, p: Policy, holder: string): State {
    var o := Session(Running, false, None, p, p, 1, 1);
    NewInvocation(Put(s.(submitted := [p]), o), o, holder, None)
  }

  lemma FirstInvocationKeeps(s: State, p: Policy, holder: string)
    requires Inv(s) && s.stored.None? && CellOk(s.cell) && s.base < s.cell.token
    requires forall i :: 0 <= i < |s.invs| && Current(s, s.invs[i]) ==> s.invs[i].token < s.cell.token
    ensures Keeps(s, FirstInvocation(s, p, holder))
  {
    hide LinksOk, PoliciesOk, Grows, TokensOk, StatusesOk, EventsOk;
    FirstInvocationLinks(s, p, holder);
    FirstInvocationPolicies(s, p, holder);
    FirstInvocationTokens(s, p, holder);
    FirstInvocationEvents(s, p, holder);
  }

  lemma FirstInvocationLinks(s: State, p: Policy, holder: string)
    requires Inv(s) && s.stored.None?
    ensures var s' := FirstInvocation(s, p, holder); WellFormed(s') && LinksOk(s')
  {
    hide TokensOk, StatusesOk, EventsOk, PoliciesOk;
    var s' := FirstInvocation(s, p, holder);
    assert forall i :: 0 <= i < |s.invs| ==> s'.invs[i] == s.invs[i];
  }

  lemma FirstInvocationPolicies(s: State, p: Policy, holder: string)
    requires Inv(s) && s.stored.None?
    ensures var s' := FirstInvocation(s, p, holder); WellFormed(s') && PoliciesOk(s') && Grows(s, s')
  {
    hide TokensOk, StatusesOk, EventsOk, LinksOk;
    var s' := FirstInvocation(s, p, holder);
    assert s'.past == s.past;
    assert forall i :: 0 <= i < |s.invs| ==> s'.invs[i] == s.invs[i] && FrozenOk(s, s.invs[i]);
  }

  lemma FirstInvocationTokens(s: State, p: Policy, holder: string)
    requires Inv(s) && s.stored.None? && CellOk(s.cell) && s.base < s.cell.token
    requires forall i :: 0 <= i < |s.invs| && Current(s, s.invs[i]) ==> s.invs[i].token < s.cell.token
    ensures TokensOk(FirstInvocation(s, p, holder))
  {
    hide StatusesOk, EventsOk, LinksOk, PoliciesOk;
    var s' := FirstInvocation(s, p, holder);
    assert forall i :: 0 <= i < |s.invs| ==> s'.invs[i] == s.invs[i];
  }

  lemma FirstInvocationEvents(s: State, p: Policy, holder: string)
    requires Inv(s) && s.stored.None?
    ensures StatusesOk(FirstInvocation(s, p, holder)) && EventsOk(FirstInvocation(s, p, holder))
  {
    hide TokensOk, LinksOk, PoliciesOk;
    var s' := FirstInvocation(s, p, holder);
    assert forall i :: 0 <= i < |s.invs| ==> s'.invs[i] == s.invs[i] && StatusOk(s, s.invs[i]);
    assert forall k :: 0 <= k < |s.events| ==> EventOk(s, s.events[k]);
  }

  lemma NextInvocationKeeps(s: State, held: State, holder: string, source: Option<nat>)
    requires Inv(s) && Keeps(s, held) && s.stored.Some? && held == s.(cell := held.cell)
    requires held.cell.token > s.cell.token && CellOk(held.cell)
    requires source.Some? ==> source.value in s.asked && Offers(s.heap[s.stored.value], source.value)
    ensures var o := s.heap[s.stored.value];
            var o' := if source.Some? then o.(control := Resuming) else WithControl(o, Running);
            Keeps(s, NewInvocation(PutStored(held, o'), o', holder, source))
  {
    hide TokensOk, StatusesOk, EventsOk, PoliciesOk, LinksOk, Grows;
    StoredOk(held);
    AskedInterrupted(s);
    TokensBelow(s);
    var o := s.heap[s.stored.value];
    var o' := if source.Some? then o.(control := Resuming) else WithControl(o, Running);
    PutStoredKeeps(held, o');
    var s1 := PutStored(held, o');
    NewInvocationKeeps(s1, o', holder, source);
    Then(s, held, s1);
    Then(s, s1, NewInvocation(s1, o', holder, source));
  }

  lemma AskedInterrupted(s: State)
    requires Inv(s)
    ensures forall x :: x in s.asked ==> x < |s.invs| && s.invs[x].status == Interrupted
  {
  }

  lemma TokensBelow(s: State)
    requires Inv(s)
    ensures s.base <= s.cell.token
    ensures forall i :: 0 <= i < |s.invs| && Current(s, s.invs[i]) ==> s.invs[i].token <= s.cell.token
  {
  }

  lemma StartedKeeps(s: State, holder: string, ttl: int, now: int, source: Option<nat>, initial: Option<Policy>)
    requires Inv(s) && (source.Some? ==> source.value in s.asked)
    ensures Keeps(s, Started(s, holder, ttl, now, source, initial))
  {
    hide TokensOk, StatusesOk, EventsOk, PoliciesOk, LinksOk, Grows, NewInvocation;
    if !Conflicts(s.cell, holder, now) {
      var cell := Acquire(s.cell, holder, ttl, now);
      SetCellKeeps(s, Release(cell, holder, Some(cell.token)));
      SetCellKeeps(s, cell);
      var held := s.(cell := cell);
      if s.stored.None? {
        if initial.Some? && source.None? {
          TokensBelow(s);
          FirstInvocationKeeps(held, initial.value, holder);
          Then(s, held, Started(s, holder, ttl, now, source, initial));
        }
      } else if source.None? || Offers(s.heap[s.stored.value], source.value) {
        NextInvocationKeeps(s, held, holder, source);
      }
    } else {
      Unchanged(s);
    }
  }

  lemma Unchanged(s: State)
    requires Inv(s)
    ensures Keeps(s, s) && GrowsOnDisk(s, s)
  {
  }

  // ------------------------------------------------------------ other actors

  lemma TakenOverKeeps(s: State, i: nat, status: Status, holder: string, ttl: int, now: int, now': int, now'': int,
                       found: bool)
    requires Inv(s) && i < |s.invs| && status != Active
    ensures Keeps(s, TakenOver(s, i, status, holder, ttl, now, now', now'', found))
  {
    TokensBelow(s);
    hide TokensOk, StatusesOk, EventsOk, PoliciesOk, LinksOk, Grows, Persist;
    if s.invs[i].status != Active || s.invs[i].registered || Conflicts(s.cell, holder, now) {
      Unchanged(s);
    } else {
      var cell := Acquire(s.cell, holder, ttl, now);
      var held := s.(cell := cell);
      var v := s.invs[i];
      SetCellKeeps(s, cell);
      var s1 := if found && s.stored.Some? && Passes(cell, holder, cell.token, now')
                then Persist(held, i, status, held.stored.value, holder, cell.token, now'', v, v)
                else held;
      if found && s.stored.Some? && Passes(cell, holder, cell.token, now') {
        PersistKeeps(held, i, status, held.stored.value, holder, cell.token, now'', v, v);
        PersistCell(held, i, status, held.stored.value, holder, cell.token, now'', v, v);
        Then(s, held, s1);
      }
      SetCellKeeps(s1, Release(cell, holder, Some(cell.token)));
      Then(s, s1, TakenOver(s, i, status, holder, ttl, now, now', now'', found));
    }
  }

  lemma PersistCell(s: State, i: nat, status: Status, ref: nat, holder: string, token: nat, now: int,
                    committed: Invocation, fenced: Invocation)
    requires i < |s.invs| && ref < |s.heap| && s.stored.Some? && s.stored.value < |s.heap|
    ensures Persist(s, i, status, ref, holder, token, now, committed, fenced).cell == s.cell
  {
  }

  /** A new revision is submitted and becomes the stored record's desired one, applied at once
      unless a run is in progress. */
  predicate Revises(s: State, o: Session, p: Policy)
    requires WellFormed(s) && s.stored.Some?
  {
    var was := s.heap[s.stored.value];
    && o.control == was.control && o.resumable == was.resumable
    && o.desired == p && o.desiredRevision == |s.submitted| + 1
    && ((o.applied == was.applied && o.appliedRevision == was.appliedRevision)
        || (o.applied == p && o.appliedRevision == o.desiredRevision))
  }

  lemma RevisionPolicies(s: State, o: Session, p: Policy)
    requires Inv(s) && s.stored.Some? && Revises(s, o, p)
    ensures var s' := PutStored(s.(submitted := s.submitted + [p]), o);
            WellFormed(s') && PoliciesOk(s') && Grows(s, s')
  {
    hide TokensOk, StatusesOk, EventsOk, LinksOk;
    StoredOk(s);
    var s' := PutStored(s.(submitted := s.submitted + [p]), o);
    assert forall r :: 0 <= r < |s.heap| ==> PolicyOk(s'.submitted, s.heap[r]);
    assert forall i :: 0 <= i < |s.invs| ==> FrozenOk(s', s.invs[i]);
  }

  lemma RevisionKeeps(s: State, o: Session, p: Policy)
    requires Inv(s) && s.stored.Some? && Revises(s, o, p)
    ensures Keeps(s, PutStored(s.(submitted := s.submitted + [p]), o))
  {
    hide TokensOk, StatusesOk, EventsOk, PoliciesOk, LinksOk, Grows;
    var s' := PutStored(s.(submitted := s.submitted + [p]), o);
    RevisionPolicies(s, o, p);
    RevisionLinks(s, o, p);
    TokensFrame(s, s');
    StatusesFrame(s, s');
    EventsFrame(s, s');
  }

  lemma RevisionLinks(s: State, o: Session, p: Policy)
    requires Inv(s) && s.stored.Some? && Revises(s, o, p)
    ensures var s' := PutStored(s.(submitted := s.submitted + [p]), o); WellFormed(s') && LinksOk(s')
  {
    hide TokensOk, StatusesOk, EventsOk, PoliciesOk;
    var s' := PutStored(s.(submitted := s.submitted + [p]), o);
    assert forall x :: Free(s, x) ==> Free(s', x);
  }

  lemma PolicyUpdatedKeeps(s: State, expected: nat, d: Delta, valid: bool)
    requires Inv(s)
    ensures Keeps(s, PolicyUpdated(s, expected, d, valid))
  {
    if PolicyUpdated(s, expected, d, valid) == s {
      Unchanged(s);
    } else {
      StoredOk(s);
      hide TokensOk, StatusesOk, EventsOk, PoliciesOk, LinksOk, Grows;
      var o := s.heap[s.stored.value];
      var p := Updated(o.desired, d);
      var o1 := o.(desired := p, desiredRevision := o.desiredRevision + 1);
      RevisionKeeps(s, if Busy(o.control) then o1 else ApplyDesired(o1), p);
    }
  }

  lemma RestartedKeeps(s: State, loaded: Cell)
    requires Inv(s)
    ensures Inv(Restarted(s, loaded)) && GrowsOnDisk(s, Restarted(s, loaded))
  {
    hide TokensOk, StatusesOk, EventsOk, PoliciesOk, LinksOk, GrowsOnDisk;
    RestartedLinks(s, loaded);
    RestartedPolicies(s, loaded);
    RestartedTokens(s, loaded);
    RestartedEvents(s, loaded);
  }

  lemma RestartedTokens(s: State, loaded: Cell)
    requires Inv(s)
    ensures TokensOk(Restarted(s, loaded))
  {
    hide StatusesOk, EventsOk, PoliciesOk, LinksOk;
  }

  lemma RestartedEvents(s: State, loaded: Cell)
    requires Inv(s)
    ensures StatusesOk(Restarted(s, loaded)) && EventsOk(Restarted(s, loaded))
  {
    hide TokensOk, PoliciesOk, LinksOk;
    assert forall k :: 0 <= k < |s.events| ==> EventOk(s, s.events[k]);
  }

  lemma RestartedLinks(s: State, loaded: Cell)
    requires Inv(s)
    ensures WellFormed(Restarted(s, loaded)) && LinksOk(Restarted(s, loaded))
  {
    hide TokensOk, StatusesOk, EventsOk, PoliciesOk;
    assert forall x :: Free(s, x) ==> Free(Restarted(s, loaded), x);
  }

  lemma RestartedPolicies(s: State, loaded: Cell)
    requires Inv(s)
    ensures WellFormed(Restarted(s, loaded)) && PoliciesOk(Restarted(s, loaded)) && GrowsOnDisk(s, Restarted(s, loaded))
  {
    hide TokensOk, StatusesOk, EventsOk, LinksOk;
  }

  // ----------------------------------------------------------- every step

  lemma DrivenKeeps(s: State, i: nat, step: DriverStep)
    requires Inv(s) && i < |s.invs|
    ensures Keeps(s, Driven(s, i, step))
  {
    hide TokensOk, StatusesOk, EventsOk, PoliciesOk, LinksOk, Grows, Left, SaveLocal, DriverTerminal, Unwound, Emitted;
    var v := s.invs[i];
    StatusOf(s, i);
    if Newest(s, v) && v.pc != Done { LocalOffer(s, i); }
    Unchanged(s);
    match step
    case RenewLease(ttl, now) => SetCellKeeps(s, Renew(s.cell, v.holder, v.token, ttl, now));
    case StoreRef(now) =>
      if v.pc == Starting { if LeasePasses(s, i, now) { SaveLocalKeeps(s, i); } else { LeftKeeps(s, i); } }
    case Register =>
      if v.pc == Starting {
        SetInvKeeps(s, i, v.(pc := Streaming, durable := v.status, registered := true, intent := None,
                             dispatched := false));
      }
    case Emit(now, merge, now') => if v.pc == Streaming { EmittedKeeps(s, i, now, merge, now'); }
    case Terminal(status, finalized, now, now') =>
      if v.pc == Streaming && !v.streamed && status != Active {
        DriverTerminalKeeps(s, i, if finalized then status else Reported(v, status), now, now', Streaming);
      }
    case Fail(now, now') =>
      if InTry(v) {
        if v.streamed { LeftKeeps(s, i); } else { DriverTerminalKeeps(s, i, Failed, now, now', Closing); }
      }
    case Leave => if InTry(v) || v.pc == Closing { LeftKeeps(s, i); }
    case Unwind(cleanly, now) => if v.pc == Unwinding { UnwoundKeeps(s, i, cleanly, now); }
  }

  lemma EmittedKeeps(s: State, i: nat, now: int, merge: bool, now': int)
    requires Inv(s) && i < |s.invs| && s.invs[i].pc == Streaming
    ensures Keeps(s, Emitted(s, i, now, merge, now'))
  {
    var v := s.invs[i];
    StatusOf(s, i);
    hide TokensOk, StatusesOk, EventsOk, PoliciesOk, LinksOk, Grows, SaveLocal, Left;
    if LeasePasses(s, i, now) {
      var s1 := Append(s, Event(i, None, v.token, s.restarts));
      AppendKeeps(s, Event(i, None, v.token, s.restarts));
      if LeasePasses(s, i, now') { SaveLocalKeeps(s1, i); Then(s, s1, SaveLocal(s1, i)); }
      LeftKeeps(s1, i);
      Then(s, s1, Left(s1, i));
    } else {
      LeftKeeps(s, i);
    }
  }

  lemma MarkStepKeeps(s: State, i: nat, step: ControlStep)
    requires Inv(s) && i < |s.invs| && s.stored.Some? && (step.CancelMark? || step.PauseMark? || step.ControlFail?)
    ensures Keeps(s, Controlled(s, i, step))
  {
    hide TokensOk, StatusesOk, EventsOk, PoliciesOk, LinksOk, Grows, GrowsOnDisk, TakenOver, PutStored, SetInv;
    Unchanged(s);
    if step.CancelMark? { MarksKeep(s, i, Some(CancelIntent), true, Cancelling); }
    else if step.PauseMark? { MarksKeep(s, i, Some(PauseIntent), true, Pausing); }
    else { MarksKeep(s, i, None, false, Running); }
  }

  lemma ControlledKeeps(s: State, i: nat, step: ControlStep)
    requires Inv(s) && i < |s.invs|
    ensures Keeps(s, Controlled(s, i, step))
  {
    if s.stored.None? {
      hide TokensOk, StatusesOk, EventsOk, PoliciesOk, LinksOk, Grows, GrowsOnDisk, TakenOver;
      Unchanged(s);
      if step.TakeOver? {
        TakenOverKeeps(s, i, Incomplete, step.holder, step.ttl, step.now, step.now', step.now'', false);
      }
    } else if step.CancelMark? || step.PauseMark? || step.ControlFail? {
      MarkStepKeeps(s, i, step);
    } else {
      hide TokensOk, StatusesOk, EventsOk, PoliciesOk, LinksOk, Grows, GrowsOnDisk, TakenOver, PutStored, SetInv;
      Unchanged(s);
      if step.CancelAsk? { SetFlagsKeeps(s, i, s.invs[i].(cancelAsked := true)); }
      else if step.CancelPaused? { CancelPausedKeeps(s); }
      else if step.TakeOver? {
        TakenOverKeeps(s, i, if step.readback then Incomplete else Cancelled_, step.holder, step.ttl, step.now,
                       step.now', step.now'', step.found);
      } else if s.invs[i].status == Interrupted { AskKeeps(s, i); }
    }
  }

  lemma CancelPausedKeeps(s: State)
    requires Inv(s) && s.stored.Some?
    ensures Keeps(s, PutStored(s, WithControl(s.heap[s.stored.value], Cancelled)))
  {
    StoredOk(s);
    PutStoredKeeps(s, WithControl(s.heap[s.stored.value], Cancelled));
  }

  lemma AskKeeps(s: State, i: nat)
    requires Inv(s) && i < |s.invs| && s.invs[i].status == Interrupted
    ensures Keeps(s, s.(asked := s.asked + {i}))
  {
    hide TokensOk, StatusesOk, EventsOk, PoliciesOk, LinksOk;
    var s' := s.(asked := s.asked + {i});
    AskLinks(s, i);
    TokensFrame(s, s');
    StatusesFrame(s, s');
    EventsFrame(s, s');
    PoliciesFrame(s, s');
  }

  lemma AskLinks(s: State, i: nat)
    requires Inv(s) && i < |s.invs| && s.invs[i].status == Interrupted
    ensures var s' := s.(asked := s.asked + {i}); WellFormed(s') && LinksOk(s')
  {
    hide TokensOk, StatusesOk, EventsOk, PoliciesOk;
    assert forall x :: Free(s, x) ==> Free(s.(asked := s.asked + {i}), x);
  }

  lemma MarkKeeps(s: State, i: nat, v: Invocation, o: Session)
    requires Inv(s) && i < |s.invs| && s.stored.Some? && SameButFlags(s.invs[i], v)
    requires o.control != Paused && PolicyOk(s.submitted, o) && o.desiredRevision == |s.submitted|
    requires o.appliedRevision == StoredApplied(s)
    ensures Keeps(s, PutStored(SetInv(s, i, v), o))
  {
    hide TokensOk, StatusesOk, EventsOk, PoliciesOk, LinksOk, Grows;
    var s1 := SetInv(s, i, v);
    SetFlagsKeeps(s, i, v);
    PutStoredKeeps(s1, o);
    Then(s, s1, PutStored(s1, o));
  }

  lemma MarksKeep(s: State, i: nat, intent: Option<Intent>, dispatched: bool, c: ControlState)
    requires Inv(s) && i < |s.invs| && s.stored.Some? && c != Paused
    ensures var v := s.invs[i].(intent := intent, dispatched := dispatched);
            var o := s.heap[s.stored.value];
            && Keeps(s, SetInv(s, i, v))
            && Keeps(s, PutStored(SetInv(s, i, v), WithControl(o, c)))
            && Keeps(s, PutStored(SetInv(s, i, v), o.(control := c)))
  {
    hide TokensOk, StatusesOk, EventsOk, PoliciesOk, LinksOk, Grows, PutStored, SetInv, Free;
    StoredOk(s);
    var v := s.invs[i].(intent := intent, dispatched := dispatched);
    var o := s.heap[s.stored.value];
    SetFlagsKeeps(s, i, v);
    MarkKeeps(s, i, v, WithControl(o, c));
    MarkKeeps(s, i, v, o.(control := c));
  }

  lemma SetFlagsKeeps(s: State, i: nat, v: Invocation)
    requires Inv(s) && i < |s.invs| && SameButFlags(s.invs[i], v)
    ensures Keeps(s, SetInv(s, i, v))
  {
    FlagsAdvance(s, i, v);
    SetInvKeeps(s, i, v);
  }

  lemma TouchKeeps(s: State)
    requires Inv(s) && s.stored.Some?
    ensures Keeps(s, Put(s, s.heap[s.stored.value]))
  {
    StoredOk(s);
    hide TokensOk, StatusesOk, EventsOk, PoliciesOk, LinksOk, Grows;
    PutKeeps(s, s.heap[s.stored.value]);
  }

  lemma OverwriteKeeps(s: State)
    requires Inv(s)
    ensures Keeps(s, s.(disk := None))
  {
    hide TokensOk, StatusesOk, EventsOk, LinksOk;
    var s' := s.(disk := None);
    TokensFrame(s, s');
    StatusesFrame(s, s');
    EventsFrame(s, s');
    OverwriteLinks(s);
    assert forall i :: 0 <= i < |s.invs| ==> FrozenOk(s, s.invs[i]);
  }

  lemma OverwriteLinks(s: State)
    requires Inv(s)
    ensures WellFormed(s.(disk := None)) && LinksOk(s.(disk := None))
  {
    hide TokensOk, StatusesOk, EventsOk, PoliciesOk;
    assert forall x :: Free(s, x) ==> Free(s.(disk := None), x);
  }

  /** Every step keeps the invariant and loses nothing that was written, but for a restart that finds another
      key's record in the session's row: that begins a new era. Every step but a restart loses nothing in
      memory either. A restart may load any cell. */
  lemma NextKeeps(s: State, step: Step)
    requires Inv(s)
    ensures if step.Restart? then Inv(Next(s, step)) && GrowsOnDisk(s, Next(s, step)) else Keeps(s, Next(s, step))
  {
    hide TokensOk, StatusesOk, EventsOk, PoliciesOk, LinksOk, Driven, Controlled, Started, PolicyUpdated, Restarted,
         Put, GrowsOnDisk;
    Unchanged(s);
    match step
    case Start(holder, ttl, now, source, initial) =>
      if source.None? || source.value in s.asked { StartedKeeps(s, holder, ttl, now, source, initial); }
    case Drive(i, driver) => if i < |s.invs| { DrivenKeeps(s, i, driver); }
    case Control(i, caller) => if i < |s.invs| { ControlledKeeps(s, i, caller); }
    case UpdatePolicy(expected, delta, valid) => PolicyUpdatedKeeps(s, expected, delta, valid);
    case Touch => if s.stored.Some? { TouchKeeps(s); }
    case Overwrite => OverwriteKeeps(s);
    case Restart(loaded) => RestartedKeeps(s, loaded);
  }

  // ---------------------------------------------------------------- whole runs

  lemma InitOk(sqlite: bool)
    ensures Inv(Init(sqlite))
  {
  }

  function Run(s: State, steps: seq<Step>): (s': State)
    requires Inv(s)
    ensures WellFormed(s')
    decreases |steps|
  {
    if steps == [] then s
    else NextKeeps(s, steps[0]); Run(Next(s, steps[0]), steps[1..])
  }

  lemma {:induction false} RunKeeps(s: State, steps: seq<Step>)
    requires Inv(s)
    ensures Inv(Run(s, steps))
    decreases |steps|
  {
    hide TokensOk, StatusesOk, EventsOk, PoliciesOk, LinksOk, Next;
    if steps != [] {
      NextKeeps(s, steps[0]);
      RunKeeps(Next(s, steps[0]), steps[1..]);
    }
  }

  predicate NoRestart(steps: seq<Step>) {
    forall k :: 0 <= k < |steps| ==> !steps[k].Restart?
  }

  lemma {:induction false} RunGrows(s: State, steps: seq<Step>)
    requires Inv(s)
    ensures GrowsOnDisk(s, Run(s, steps))
    ensures NoRestart(steps) ==> Grows(s, Run(s, steps))
    decreases |steps|
  {
    hide TokensOk, StatusesOk, EventsOk, PoliciesOk, LinksOk, Next;
    Unchanged(s);
    if steps != [] {
      NextKeeps(s, steps[0]);
      RunGrows(Next(s, steps[0]), steps[1..]);
    }
  }

  /** Over every interleaving of drivers, cancels, read-backs, lease expiries, takeovers and restarts, whether
      or not they bring the lease and the session record back, an invocation gets at most one terminal
      event, and that event's status is the invocation's. */
  lemma AtMostOneTerminal(sqlite: bool, steps: seq<Step>)
    ensures Inv(Init(sqlite))
    ensures var s := Run(Init(sqlite), steps);
            && (forall j, k :: 0 <= j < k < |s.events| && s.events[j].terminal.Some? && s.events[k].terminal.Some? ==>
                  s.events[j].invocation != s.events[k].invocation)
            && (forall k :: 0 <= k < |s.events| && s.events[k].terminal.Some? ==>
                  && s.events[k].invocation < |s.invs|
                  && s.invs[s.events[k].invocation].status == s.events[k].terminal.value)
  {
    InitOk(sqlite);
    RunKeeps(Init(sqlite), steps);
    var s := Run(Init(sqlite), steps);
    hide PoliciesOk, LinksOk;
    assert forall k :: 0 <= k < |s.events| ==> EventOk(s, s.events[k]);
    assert forall i :: 0 <= i < |s.invs| ==> StatusOk(s, s.invs[i]);
  }

  /** The events of one process are in token order, so no stale driver's event follows a newer driver's. */
  lemma EventsFollowTokens(sqlite: bool, steps: seq<Step>)
    ensures Inv(Init(sqlite))
    ensures var s := Run(Init(sqlite), steps);
            forall j, k :: 0 <= j < k < |s.events| ==>
              && s.events[j].life <= s.events[k].life
              && (s.events[j].life == s.events[k].life ==> s.events[j].token <= s.events[k].token)
  {
    InitOk(sqlite);
    RunKeeps(Init(sqlite), steps);
    hide TokensOk, StatusesOk, PoliciesOk, LinksOk, Run;
    var s := Run(Init(sqlite), steps);
    assert forall j, k :: 0 <= j < k < |s.events| ==> Follows(s.events[j], s.events[k]);
  }

  /** A status that left `running` never changes again while the process lives, and a status that was
      written never changes again at all. */
  lemma DecidedStaysDecided(s: State, steps: seq<Step>, i: nat)
    requires Inv(s) && i < |s.invs|
    ensures i < |Run(s, steps).invs|
    ensures s.invs[i].durable != Active ==>
              Run(s, steps).invs[i].durable == Run(s, steps).invs[i].status == s.invs[i].durable
    ensures NoRestart(steps) && s.invs[i].status != Active ==> Run(s, steps).invs[i].status == s.invs[i].status
  {
    RunGrows(s, steps);
    RunKeeps(s, steps);
    StatusOf(Run(s, steps), i);
  }

  /** The driver marks the stored record idle in place: it leaves without a terminal, its own object is the
      stored one, and that record says a run is going on. */
  predicate IdlesStored(s: State, i: nat, step: DriverStep)
    requires WellFormed(s) && i < |s.invs|
  {
    && step.Unwind? && !step.cleanly && s.invs[i].pc == Unwinding && s.invs[i].status == Active
    && s.stored == Some(s.invs[i].local) && Busy(s.heap[s.invs[i].local].control)
  }

  /** A driver that lost its lease to a newer one changes neither the event log, nor which session record
      is stored, nor what is on disk, nor the lease, nor any other invocation; and it changes the contents
      of the stored record exactly when it marks it idle in place. */
  lemma FencedDriverIsHarmless(s: State, i: nat, step: DriverStep)
    requires Inv(s) && i < |s.invs| && !Newest(s, s.invs[i])
    ensures var s' := Next(s, Drive(i, step));
            && s'.events == s.events && s'.stored == s.stored && s'.disk == s.disk && s'.cell == s.cell
            && |s'.invs| == |s.invs|
            && (forall j :: 0 <= j < |s.invs| && j != i ==> s'.invs[j] == s.invs[j])
            && (IdlesStored(s, i, step) ==> s.stored.Some?)
            && (s.stored.Some? ==>
                  && s.stored.value < |s'.heap|
                  && (s'.heap[s.stored.value] == s.heap[s.stored.value] <==> !IdlesStored(s, i, step)))
  {
    hide TokensOk, StatusesOk, EventsOk, PoliciesOk, LinksOk, SaveLocal, Persist, Emitted, Unwound;
    StatusOf(s, i);
    assert s.invs[i].pc != Done ==> forall now :: !LeasePasses(s, i, now);
    if s.invs[i].pc == Streaming { FencedEmitsNothing(s, i); }
    if s.invs[i].pc == Unwinding && step.Unwind? { FencedUnwinds(s, i, step.cleanly, step.now); }
  }

  lemma MarkedInPlace(s: State, i: nat, cleanly: bool, now: int)
    requires WellFormed(s) && i < |s.invs| && s.invs[i].pc == Unwinding
    ensures var s' := Marked(s, i, cleanly);
            && s' == s.(heap := s'.heap, invs := s'.invs) && |s'.invs| == |s.invs| && |s'.heap| == |s.heap|
            && (forall j :: 0 <= j < |s.invs| && j != i ==> s'.invs[j] == s.invs[j])
            && s'.invs[i] == s.invs[i].(status := s'.invs[i].status)
            && (s'.heap[s.stored.value] == s.heap[s.stored.value] <==> !IdlesStored(s, i, Unwind(cleanly, now)))
  {
  }

  lemma FencedUnwinds(s: State, i: nat, cleanly: bool, now: int)
    requires WellFormed(s) && i < |s.invs| && s.invs[i].pc == Unwinding && forall now :: !LeasePasses(s, i, now)
    requires CellOk(s.cell) && s.invs[i].token != s.cell.token
    ensures var s' := Unwound(s, i, cleanly, now);
            && s'.events == s.events && s'.stored == s.stored && s'.disk == s.disk && s'.cell == s.cell
            && |s'.invs| == |s.invs|
            && (forall j :: 0 <= j < |s.invs| && j != i ==> s'.invs[j] == s.invs[j])
            && |s'.heap| == |s.heap|
            && (s'.heap[s.stored.value] == s.heap[s.stored.value] <==> !IdlesStored(s, i, Unwind(cleanly, now)))
  {
    hide Marked, SaveLocal, IdlesStored;
    MarkedInPlace(s, i, cleanly, now);
  }

  lemma FencedEmitsNothing(s: State, i: nat)
    requires WellFormed(s) && i < |s.invs| && s.invs[i].pc == Streaming && forall now :: !LeasePasses(s, i, now)
    ensures forall now, merge, now' :: Emitted(s, i, now, merge, now') == Left(s, i)
  {
    hide SaveLocal, Left;
  }

  /** At every restart of the run, the session's row holds its own record. */
  ghost predicate RowsKept(s: State, steps: seq<Step>)
    requires Inv(s)
    decreases |steps|
  {
    if steps == [] then true
    else
      NextKeeps(s, steps[0]);
      !(s.sqlite && steps[0].Restart? && Lost(s)) && RowsKept(Next(s, steps[0]), steps[1..])
  }

  lemma RestartLoses(s: State, loaded: Cell)
    requires Inv(s)
    ensures |Next(s, Restart(loaded)).past| == |s.past| <==> !(s.sqlite && Lost(s))
  {
  }

  /** A run stays in the era of its first state exactly when each restart finds the session's own record. */
  lemma {:induction false} RowsKeptIff(s: State, steps: seq<Step>)
    requires Inv(s)
    ensures |s.past| <= |Run(s, steps).past|
    ensures |Run(s, steps).past| == |s.past| <==> RowsKept(s, steps)
    decreases |steps|
  {
    hide TokensOk, StatusesOk, EventsOk, PoliciesOk, LinksOk, Next, Lost;
    if steps != [] {
      NextKeeps(s, steps[0]);
      if steps[0].Restart? { RestartLoses(s, steps[0].loaded); }
      RowsKeptIff(Next(s, steps[0]), steps[1..]);
    }
  }

  /** Policy updates are lost exactly with the session's record. While each restart finds the session's own
      row, every accepted update stays accepted and neither revision on disk goes down; in one process
      neither goes down in memory. Across a loss the era's accepted policies are still the ones its
      invocations froze. The stored record always carries the last update accepted for it. */
  lemma PolicyUpdatesSurvive(s: State, steps: seq<Step>)
    requires Inv(s)
    ensures var s' := Run(s, steps);
            && |s.invs| <= |s'.invs| && HistoryGrows(s, s')
            && (|s'.past| == |s.past| <==> RowsKept(s, steps))
            && (s'.stored.Some? ==>
                  StoredDesired(s') == |s'.submitted| && PolicyOk(s'.submitted, s'.heap[s'.stored.value]))
            && (s'.stored.None? ==> s'.submitted == [])
            && (RowsKept(s, steps) ==> s.submitted <= s'.submitted)
            && (RowsKept(s, steps) && s.stored.Some? ==> s'.stored.Some?)
            && (RowsKept(s, steps) && s'.disk.Some? ==>
                  DiskDesired(s) <= DiskDesired(s') && DiskApplied(s) <= DiskApplied(s'))
            && (NoRestart(steps) ==> StoredDesired(s) <= StoredDesired(s') && StoredApplied(s) <= StoredApplied(s'))
            && (forall i :: 0 <= i < |s'.invs| ==> FrozenOk(s', s'.invs[i]))
            && (forall i :: 0 <= i < |s.invs| ==> SameFrozen(s.invs[i], s'.invs[i]))
  {
    RunGrows(s, steps);
    RunKeeps(s, steps);
    RowsKeptIff(s, steps);
    var s' := Run(s, steps);
    hide TokensOk, StatusesOk, EventsOk, LinksOk, RowsKept, Run;
    if s'.stored.Some? { StoredOk(s'); PolicyOf(s', s'.stored.value); }
  }

  lemma OnlyStartsAddInvocations(s: State, step: Step)
    requires Inv(s) && !step.Start?
    ensures |Next(s, step).invs| == |s.invs|
  {
    if step.Drive? && step.i < |s.invs| { DrivenCount(s, step.i, step.driver); }
    if step.Control? && step.i < |s.invs| { ControlledCount(s, step.i, step.caller); }
    hide TokensOk, StatusesOk, EventsOk, PoliciesOk, LinksOk, Driven, Controlled;
  }

  lemma DrivenCount(s: State, i: nat, step: DriverStep)
    requires WellFormed(s) && i < |s.invs|
    ensures |Driven(s, i, step).invs| == |s.invs|
  {
    if InTry(s.invs[i]) {
      forall status, now, now', after ensures |DriverTerminal(s, i, status, now, now', after).invs| == |s.invs| {
        hide Refreshed, Concluded;
      }
    }
    hide DriverTerminal;
  }

  lemma ControlledCount(s: State, i: nat, step: ControlStep)
    requires WellFormed(s) && i < |s.invs|
    ensures |Controlled(s, i, step).invs| == |s.invs|
  {
  }

  /** No run starts while an accepted update waits: a new invocation freezes the newest revision. */
  lemma StartFreezesNewestPolicy(s: State, step: Step)
    requires Inv(s) && |Next(s, step).invs| > |s.invs|
    ensures var s' := Next(s, step);
            && step.Start? && |s'.invs| == |s.invs| + 1
            && (s.stored.Some? ==> StoredApplied(s) == StoredDesired(s) && s'.submitted == s.submitted)
            && s'.invs[|s.invs|].policyRevision == |s'.submitted|
  {
    if !step.Start? { OnlyStartsAddInvocations(s, step); }
    if s.stored.Some? { StoredOk(s); }
    hide TokensOk, StatusesOk, EventsOk, PoliciesOk, LinksOk, Driven, Controlled, PolicyUpdated, Restarted;
  }

  /** Continuations form chains: a link points to an earlier invocation, so no cycle; no two
      invocations continue the same one, so no fork; and until a restart the source is interrupted. */
  lemma ContinuationsFormChains(sqlite: bool, steps: seq<Step>)
    ensures Inv(Init(sqlite))
    ensures var s := Run(Init(sqlite), steps);
            && (forall y :: 0 <= y < |s.invs| && s.invs[y].continuedFrom.Some? ==> s.invs[y].continuedFrom.value < y)
            && (forall y, z :: 0 <= y < z < |s.invs| && s.invs[y].continuedFrom.Some? ==>
                  s.invs[y].continuedFrom != s.invs[z].continuedFrom)
            && (s.restarts == 0 ==>
                  forall y :: 0 <= y < |s.invs| && s.invs[y].continuedFrom.Some? ==>
                    s.invs[s.invs[y].continuedFrom.value].status == Interrupted)
  {
    InitOk(sqlite);
    RunKeeps(Init(sqlite), steps);
  }
}

/**
 The order of a session's event log across restarts. Events carry the fencing token they were appended
 under; within one process the tokens never go down (`SessionSafety.EventsFollowTokens`). A restart loads
 the token from the lease rows, and those can be lost, so the order of the whole log rests on the token
 that comes back.
 */
module SessionOrder {
  import opened Wrappers
  import opened LeaseCells
  import opened Sessions
  import opened SessionSafety
  import opened SessionRestarts
  import Leases

  predicate Ordered(events: seq<Event>) {
    forall j, k :: 0 <= j < k < |events| ==> events[j].token <= events[k].token
  }

  function LastToken(events: seq<Event>): nat {
    if events == [] then 0 else events[|events| - 1].token
  }

  /** No earlier process left an event above the first token this one issues. */
  predicate Anchored(s: State) {
    forall k :: 0 <= k < |s.events| && s.events[k].life < s.restarts ==> s.events[k].token <= s.base + 1
  }

  // --------------------------------------------------------- order is kept

  lemma GrowthKeepsOrder(s: State, s': State)
    requires Inv(s) && Keeps(s, s') && Ordered(s.events) && Anchored(s)
    ensures Ordered(s'.events) && Anchored(s')
  {
    hide TokensOk, StatusesOk, PoliciesOk, LinksOk;
    assert forall k :: 0 <= k < |s.events| ==> s'.events[k] == s.events[k];
    forall j, k | 0 <= j < k < |s'.events| ensures s'.events[j].token <= s'.events[k].token {
      assert Follows(s'.events[j], s'.events[k]) && EventOk(s', s'.events[k]);
    }
  }

  lemma RestartKeepsOrder(s: State, loaded: Cell)
    requires Inv(s) && s.sqlite && Ordered(s.events) && LastToken(s.events) <= loaded.token + 1
    ensures var s' := Next(s, Restart(loaded)); Ordered(s'.events) && Anchored(s')
  {
  }

  /** Every restart of the run loads a token no more than one below the last event's. */
  ghost predicate OrderCarried(s: State, steps: seq<Step>)
    requires Inv(s)
    decreases |steps|
  {
    if steps == [] then true
    else
      NextKeeps(s, steps[0]);
      && (s.sqlite && steps[0].Restart? ==> LastToken(s.events) <= steps[0].loaded.token + 1)
      && OrderCarried(Next(s, steps[0]), steps[1..])
  }

  /** The log of a whole run, restarts included, is in token order as long as each restart carries it. */
  lemma {:induction false} OrderOverRun(s: State, steps: seq<Step>)
    requires Inv(s) && Ordered(s.events) && Anchored(s) && OrderCarried(s, steps)
    ensures Ordered(Run(s, steps).events)
    decreases |steps|
  {
    hide TokensOk, StatusesOk, EventsOk, PoliciesOk, LinksOk, Next, Ordered, Anchored, Grows, LastToken;
    if steps != [] {
      NextKeeps(s, steps[0]);
      if !steps[0].Restart? {
        GrowthKeepsOrder(s, Next(s, steps[0]));
      } else if s.sqlite {
        RestartKeepsOrder(s, steps[0].loaded);
      } else {
        MemoryStays(s, steps[0].loaded);
      }
      OrderOverRun(Next(s, steps[0]), steps[1..]);
    }
  }

  lemma MemoryStays(s: State, loaded: Cell)
    requires WellFormed(s) && !s.sqlite
    ensures Next(s, Restart(loaded)) == s
  {
  }

  lemma {:induction false} OneProcessCarries(s: State, steps: seq<Step>)
    requires Inv(s) && NoRestart(steps)
    ensures OrderCarried(s, steps)
    decreases |steps|
  {
    hide TokensOk, StatusesOk, EventsOk, PoliciesOk, LinksOk, Next, Grows;
    if steps != [] {
      NextKeeps(s, steps[0]);
      OneProcessCarries(Next(s, steps[0]), steps[1..]);
    }
  }

  /** No restart of the run loads a token below the one the process before it ended with. */
  ghost predicate TokensKept(s: State, steps: seq<Step>)
    requires Inv(s)
    decreases |steps|
  {
    if steps == [] then true
    else
      NextKeeps(s, steps[0]);
      && (s.sqlite && steps[0].Restart? ==> s.cell.token <= steps[0].loaded.token)
      && TokensKept(Next(s, steps[0]), steps[1..])
  }

  lemma LastTokenBelow(s: State)
    requires Inv(s) && Anchored(s)
    ensures LastToken(s.events) <= s.cell.token + 1
  {
    hide StatusesOk, PoliciesOk, LinksOk;
    if s.events != [] { assert EventOk(s, s.events[|s.events| - 1]); }
  }

  lemma {:induction false} KeptTokensCarry(s: State, steps: seq<Step>)
    requires Inv(s) && Ordered(s.events) && Anchored(s) && TokensKept(s, steps)
    ensures OrderCarried(s, steps)
    decreases |steps|
  {
    hide TokensOk, StatusesOk, EventsOk, PoliciesOk, LinksOk, Next, Ordered, Anchored, Grows, LastToken;
    if steps != [] {
      NextKeeps(s, steps[0]);
      LastTokenBelow(s);
      if !steps[0].Restart? {
        GrowthKeepsOrder(s, Next(s, steps[0]));
      } else if s.sqlite {
        RestartKeepsOrder(s, steps[0].loaded);
      } else {
        MemoryStays(s, steps[0].loaded);
      }
      KeptTokensCarry(Next(s, steps[0]), steps[1..]);
    }
  }

  /** Over every run whose restarts bring the token back, the whole log is in token order, across processes
      too. */
  lemma KeptTokensKeepOrder(sqlite: bool, steps: seq<Step>)
    requires Inv(Init(sqlite)) && TokensKept(Init(sqlite), steps)
    ensures Ordered(Run(Init(sqlite), steps).events)
  {
    hide Run, TokensKept, OrderCarried, Inv;
    KeptTokensCarry(Init(sqlite), steps);
    OrderOverRun(Init(sqlite), steps);
  }

  // ------------------------------------------------------- sessions that end

  /** Every driver is gone and nothing is under way, as after a restart. */
  predicate Quiet(s: State) {
    && s.asked == {}
    && forall i :: 0 <= i < |s.invs| ==>
         s.invs[i].pc == Done && !s.invs[i].registered && !s.invs[i].dispatched && !s.invs[i].cancelAsked
  }

  predicate Resumable(s: State, o: Session) {
    && o.supportsResume && o.resumable.Some? && o.resumable.value < |s.invs|
    && s.invs[o.resumable.value].status == Interrupted
  }

  predicate NoneActive(s: State) {
    forall i :: 0 <= i < |s.invs| ==> s.invs[i].status != Active
  }

  /** No invocation runs, none can be resumed, and every start is refused: the record is paused, or an
      update waits for the end of a run that the record says is going on. */
  predicate Stuck(s: State)
    requires WellFormed(s)
  {
    && s.stored.Some? && NoneActive(s)
    && var o := s.heap[s.stored.value];
       && !Resumable(s, o)
       && (o.control == Paused || (Busy(o.control) && o.appliedRevision < o.desiredRevision))
  }

  lemma RestartQuiets(s: State, loaded: Cell)
    requires Inv(s) && s.sqlite
    ensures var s' := Next(s, Restart(loaded));
            && Quiet(s') && s'.cell == loaded && s'.events == s.events
            && s'.restarts == s.restarts + 1 && s'.base == loaded.token
  {
  }

  /** Nothing gets a stuck session going again in the same process. */
  lemma StuckStays(s: State, step: Step)
    requires Inv(s) && Stuck(s) && Quiet(s) && !step.Restart?
    ensures var s' := Next(s, step);
            WellFormed(s') && Stuck(s') && Quiet(s') && s'.events == s.events
  {
    hide TokensOk, StatusesOk, EventsOk, PoliciesOk, LinksOk, Grows, Persist, DriverTerminal, Unwound, SaveLocal,
         Emitted, NewInvocation;
    NextKeeps(s, step);
  }

  lemma {:induction false} StuckForGood(s: State, steps: seq<Step>)
    requires Inv(s) && Stuck(s) && Quiet(s) && NoRestart(steps)
    ensures Run(s, steps).events == s.events
    decreases |steps|
  {
    hide TokensOk, StatusesOk, EventsOk, PoliciesOk, LinksOk, Next, Stuck, Quiet, Grows;
    if steps != [] {
      NextKeeps(s, steps[0]);
      StuckStays(s, steps[0]);
      StuckForGood(Next(s, steps[0]), steps[1..]);
    }
  }

  // --------------------------------------------------- sessions that go on

  /** A moment at which nobody's lease is running. */
  function Clock(s: State): int {
    if s.cell.lease.Some? then s.cell.lease.value.expiresAtMs else 0
  }

  const POLICY := Policy("w", "n", "t")

  /** A start will be accepted. */
  predicate Startable(s: State)
    requires WellFormed(s)
  {
    s.stored.Some? ==>
      var o := s.heap[s.stored.value]; o.control != Paused && o.appliedRevision >= o.desiredRevision
  }

  lemma StartBegins(s: State)
    requires Inv(s) && Startable(s)
    ensures var s' := Next(s, Start("n", 2, Clock(s), None, Some(POLICY)));
            && |s'.invs| == |s.invs| + 1 && s'.events == s.events && s'.restarts == s.restarts
            && s'.sqlite == s.sqlite && s'.disk.Some? && s'.disk.value.control == Running
            && s'.disk.value.appliedRevision >= s'.disk.value.desiredRevision
            && s'.cell == Cell(Some(Lease("n", Clock(s) + 2, s.cell.token + 1)), s.cell.token + 1)
            && var v := s'.invs[|s.invs|]; v.pc == Starting && v.holder == "n" && v.token == s.cell.token + 1
  {
    hide TokensOk, StatusesOk, EventsOk, PoliciesOk, LinksOk;
  }

  lemma RegisterEmits(s: State, i: nat, now: int)
    requires Inv(s) && i < |s.invs| && s.invs[i].pc == Starting && LeasePasses(s, i, now)
    ensures var s1 := Next(s, Drive(i, Register));
            && WellFormed(s1)
            && var s2 := Next(s1, Drive(i, Emit(now, false, now)));
               && s2.events == s.events + [Event(i, None, s.invs[i].token, s.restarts)]
               && s2 == s.(invs := s2.invs, events := s2.events) && |s2.invs| == |s.invs|
  {
    hide TokensOk, StatusesOk, EventsOk, PoliciesOk, LinksOk;
  }

  /** A start that is accepted, and the first event of its driver. */
  function Emission(s: State): seq<Step> {
    [Start("n", 2, Clock(s), None, Some(POLICY))]
    + ([Drive(|s.invs|, Register)] + [Drive(|s.invs|, Emit(Clock(s), false, Clock(s)))])
  }

  lemma StartEmits(s: State)
    requires Inv(s) && Startable(s)
    ensures NoRestart(Emission(s))
    ensures var s' := Run(s, Emission(s));
            && s'.events == s.events + [Event(|s.invs|, None, s.cell.token + 1, s.restarts)]
            && |s'.invs| == |s.invs| + 1 && s'.restarts == s.restarts
            && s'.sqlite == s.sqlite && s'.disk.Some? && s'.disk.value.control == Running
            && s'.disk.value.appliedRevision >= s'.disk.value.desiredRevision
  {
    hide TokensOk, StatusesOk, EventsOk, PoliciesOk, LinksOk, Next, Run, Startable, Clock, Grows;
    var start, register := Start("n", 2, Clock(s), None, Some(POLICY)), Drive(|s.invs|, Register);
    var emit := Drive(|s.invs|, Emit(Clock(s), false, Clock(s)));
    RunStep(s, start, [register] + [emit]);
    StartBegins(s);
    var s1 := Next(s, start);
    RunStep(s1, register, [emit]);
    RunLast(Next(s1, register), emit);
    RegisterEmits(s1, |s.invs|, Clock(s));
  }

  lemma TakeOverEmits(s: State, i: nat) returns (steps: seq<Step>)
    requires Inv(s) && s.sqlite && i < |s.invs| && s.invs[i].status == Active && !s.invs[i].registered && s.stored.Some?
    ensures NoRestart(steps)
    ensures Run(s, steps).events == s.events + [Event(i, Some(Incomplete), s.cell.token + 1, s.restarts)]
  {
    hide TokensOk, StatusesOk, EventsOk, PoliciesOk, LinksOk, Persist, Run, Grows;
    var t := Clock(s);
    var take := Control(i, TakeOver(true, "n", 2, t, t, t, true));
    steps := [take];
    RunLast(s, take);
    var cell := Acquire(s.cell, "n", 2, t);
    PersistSettles(s.(cell := cell), i, Incomplete, s.stored.value, "n", cell.token, t, s.invs[i], s.invs[i]);
  }

  const DELTA := Delta(Some("w"), None, None)

  /** What steps that only change the record leave alone. */
  predicate SameRun(s: State, s': State) {
    && s'.sqlite == s.sqlite && s'.cell == s.cell && s'.events == s.events && s'.invs == s.invs
    && s'.asked == s.asked && s'.restarts == s.restarts
  }

  lemma UpdateOpens(s: State)
    requires Inv(s) && s.stored.Some? && s.heap[s.stored.value].control != Paused
    requires !Busy(s.heap[s.stored.value].control)
    ensures var s' := Next(s, UpdatePolicy(StoredDesired(s), DELTA, true));
            WellFormed(s') && Startable(s') && SameRun(s, s')
  {
    hide TokensOk, StatusesOk, EventsOk, PoliciesOk, LinksOk;
  }

  lemma CancelOpens(s: State)
    requires Inv(s) && s.stored.Some? && Resumable(s, s.heap[s.stored.value])
    ensures var s' := Next(s, Control(s.heap[s.stored.value].resumable.value, CancelPaused));
            && WellFormed(s') && s'.stored.Some? && s'.heap[s'.stored.value].control == Cancelled && SameRun(s, s')
  {
    hide TokensOk, StatusesOk, EventsOk, PoliciesOk, LinksOk, TakenOver;
  }

  lemma OpenEmits(s: State) returns (steps: seq<Step>)
    requires Inv(s) && (s.stored.Some? ==> s.heap[s.stored.value].control != Paused)
    requires s.stored.Some? && Busy(s.heap[s.stored.value].control) ==> Startable(s)
    ensures NoRestart(steps)
    ensures Run(s, steps).events == s.events + [Event(|s.invs|, None, s.cell.token + 1, s.restarts)]
  {
    hide TokensOk, StatusesOk, EventsOk, PoliciesOk, LinksOk, Next, Run, Emission, Grows;
    if Startable(s) {
      StartEmits(s);
      steps := Emission(s);
    } else {
      var update := UpdatePolicy(StoredDesired(s), DELTA, true);
      UpdateOpens(s);
      RunStep(s, update, Emission(Next(s, update)));
      StartEmits(Next(s, update));
      steps := [update] + Emission(Next(s, update));
    }
  }

  /** A session that is not stuck after a restart gets an event under the first token that is issued. */
  lemma GoesOn(s: State) returns (steps: seq<Step>)
    requires Inv(s) && s.sqlite && Quiet(s) && !Stuck(s)
    ensures NoRestart(steps)
    ensures var events := Run(s, steps).events;
            |events| == |s.events| + 1 && s.events <= events && events[|s.events|].token == s.cell.token + 1
  {
    hide TokensOk, StatusesOk, EventsOk, PoliciesOk, LinksOk, Next, Run, Grows;
    if s.stored.Some? && !NoneActive(s) {
      var i :| 0 <= i < |s.invs| && s.invs[i].status == Active;
      steps := TakeOverEmits(s, i);
    } else if s.stored.Some? && Resumable(s, s.heap[s.stored.value]) {
      var cancel := Control(s.heap[s.stored.value].resumable.value, CancelPaused);
      CancelOpens(s);
      NextKeeps(s, cancel);
      var rest := OpenEmits(Next(s, cancel));
      RunStep(s, cancel, rest);
      steps := [cancel] + rest;
    } else {
      steps := OpenEmits(s);
    }
  }

  // --------------------------------------------------------------- theorems

  /** Whatever happens next in this process, the log stays in token order. */
  ghost predicate KeepsOrder(s: State)
    requires Inv(s)
  {
    forall steps: seq<Step> :: NoRestart(steps) ==> Ordered(Run(s, steps).events)
  }

  /** After a restart that loads `loaded`, the process keeps the log in token order exactly when the first
      token it issues is at least the last event's, or the session is stuck and gets no event at all. */
  lemma OrderSurvivesRestartIff(s: State, loaded: Cell)
    requires Inv(s) && s.sqlite && Ordered(s.events)
    ensures var s' := Next(s, Restart(loaded));
            Inv(s') && (KeepsOrder(s') <==> LastToken(s.events) <= loaded.token + 1 || Stuck(s'))
  {
    hide TokensOk, StatusesOk, EventsOk, PoliciesOk, LinksOk, Next, Run, Stuck, Anchored, Ordered, Quiet, Grows;
    NextKeeps(s, Restart(loaded));
    var s' := Next(s, Restart(loaded));
    RestartQuiets(s, loaded);
    NextSqlite(s, Restart(loaded));
    if Stuck(s') {
      forall steps: seq<Step> | NoRestart(steps) ensures Ordered(Run(s', steps).events) {
        StuckForGood(s', steps);
      }
    } else if LastToken(s.events) <= loaded.token + 1 {
      RestartKeepsOrder(s, loaded);
      forall steps: seq<Step> | NoRestart(steps) ensures Ordered(Run(s', steps).events) {
        OneProcessCarries(s', steps);
        OrderOverRun(s', steps);
      }
    } else {
      var steps := GoesOn(s');
      FallsBack(s.events, Run(s', steps).events);
    }
  }

  lemma FallsBack(events: seq<Event>, events': seq<Event>)
    requires events <= events' && |events| < |events'| && events'[|events|].token < LastToken(events)
    ensures !Ordered(events')
  {
    assert events'[|events| - 1] == events[|events| - 1];
  }

  /** The token comes back: the store's rows carry the token of a bar-free key, so whatever order they are
      read in, the restart keeps the token and the log stays in order (`Leases.ReopenKeepsTokenIff`). */
  lemma KeptLeaseKeepsOrder(ops: seq<Leases.StoreOp>, k: Leases.SessionKey, last: set<string>, s: State)
    requires Inv(s) && s.sqlite && Ordered(s.events) && Anchored(s)
    requires var store := Leases.Run(Leases.NEW_STORE, ops);
             s.cell == store.cell(k) && s.cell.token > 0 && Leases.BarFree(k) && Leases.RowsCarry(store, k)
    ensures var store := Leases.Run(Leases.NEW_STORE, ops);
            var s' := Next(s, Restart(Leases.Next(store, Leases.Reopen(last)).cell(k)));
            Inv(s') && s'.cell.token == s.cell.token && KeepsOrder(s')
  {
    hide StatusesOk, PoliciesOk, LinksOk, Next, Leases.Run, Leases.Next, Leases.BarFree, KeepsOrder, Leases.RowsCarry,
         Stuck;
    Leases.ReopenKeepsTokenIff(ops, k);
    var loaded := Leases.Next(Leases.Run(Leases.NEW_STORE, ops), Leases.Reopen(last)).cell(k);
    LastTokenBelow(s);
    OrderSurvivesRestartIff(s, loaded);
    RestartQuiets(s, loaded);
  }

  // ------------------------------------------------------------ a concrete run

  /** A second run takes over an expired lease (token 2) and appends an event; a restart finds no lease rows
      for the session; the next run starts at token 1 again, and its event follows the other one. */
  lemma OrderLostOnRestart()
    ensures Inv(Init(true))
    ensures var s1 := Run(Init(true), [START]);
            && Inv(s1)
            && var s2 := Run(s1, Emission(s1));
               && Inv(s2) && s2.events == [Event(1, None, 2, 0)]
               && var s3 := Next(s2, Restart(EMPTY));
                  && Inv(s3)
                  && Run(s3, Emission(s3)).events == [Event(1, None, 2, 0), Event(2, None, 1, 1)]
  {
    hide TokensOk, StatusesOk, EventsOk, PoliciesOk, LinksOk, Next, Run, WellFormed, Grows, Emission;
    InitOk(true);
    FirstStart();
    RunLast(Init(true), START);
    var s1 := Run(Init(true), [START]);
    NoEventsYet();
    StartEmits(s1);
    RunKeeps(s1, Emission(s1));
    var s2 := Run(s1, Emission(s1));
    NextKeeps(s2, Restart(EMPTY));
    RestartReopens(s2, EMPTY);
    StartEmits(Next(s2, Restart(EMPTY)));
  }

  lemma NoEventsYet()
    ensures var s := Next(Init(true), START); s.events == [] && s.restarts == 0
  {
  }

  lemma RestartReopens(s: State, loaded: Cell)
    requires Inv(s) && s.sqlite && s.disk.Some? && s.disk.value.control == Running
    requires s.disk.value.appliedRevision >= s.disk.value.desiredRevision
    ensures var s' := Next(s, Restart(loaded));
            && WellFormed(s') && Startable(s') && s'.cell == loaded && s'.events == s.events
            && |s'.invs| == |s.invs| && s'.restarts == s.restarts + 1
  {
  }
}

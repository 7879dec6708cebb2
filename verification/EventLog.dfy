/**
 The session event log (haas/events.py, haas/stores/memory.py) and the two ways it is read back
 (haas/api.py): replay after a `Last-Event-ID`, and cursor paging.

 Event ids are their numbers; the stored text only pads them to a fixed width.
 */
module EventLog {
  import opened Wrappers

  datatype Event = Event(id: nat, invocation: Option<string>, sequence: nat, kind: string)

  type Log = seq<Event>

  datatype Key = Key(app: string, user: string, session: string)

  // -------------------------------------------------------------------- logs

  /** The events of one invocation, or of none. */
  function Only(log: Log, invocation: Option<string>): Log {
    if log == [] then []
    else Only(log[..|log| - 1], invocation)
         + (if log[|log| - 1].invocation == invocation then [log[|log| - 1]] else [])
  }

  lemma {:induction false} OnlyConcat(a: Log, b: Log, invocation: Option<string>)
    ensures Only(a + b, invocation) == Only(a, invocation) + Only(b, invocation)
  {
    if b == [] {
      assert a + b == a;
    } else {
      assert (a + b)[..|a + b| - 1] == a + b[..|b| - 1];
      OnlyConcat(a, b[..|b| - 1], invocation);
    }
  }

  /** Ids increase along the log and stay below `next`. */
  predicate Increasing(log: Log, next: nat) {
    && (forall i, j :: 0 <= i < j < |log| ==> log[i].id < log[j].id)
    && (forall i :: 0 <= i < |log| ==> log[i].id < next)
  }

  /** An invocation's events are numbered 0, 1, 2, ...; an event of no invocation by its place in the log. */
  ghost predicate Numbered(log: Log) {
    && (forall invocation: string, k :: 0 <= k < |Only(log, Some(invocation))| ==>
          Only(log, Some(invocation))[k].sequence == k)
    && (forall i :: 0 <= i < |log| && log[i].invocation.None? ==> log[i].sequence == i)
  }

  ghost predicate LogOk(log: Log, next: nat) { Increasing(log, next) && Numbered(log) }

  function NextSequence(log: Log, invocation: Option<string>): nat {
    if invocation.Some? then |Only(log, invocation)| else |log|
  }

  lemma AppendOk(log: Log, next: nat, invocation: Option<string>, kind: string)
    requires LogOk(log, next)
    ensures LogOk(log + [Event(next, invocation, NextSequence(log, invocation), kind)], next + 1)
  {
    var e := Event(next, invocation, NextSequence(log, invocation), kind);
    var log' := log + [e];
    assert log'[..|log|] == log;
    forall i: string, k | 0 <= k < |Only(log', Some(i))| ensures Only(log', Some(i))[k].sequence == k {
      assert Only(log', Some(i)) == Only(log, Some(i)) + if invocation == Some(i) then [e] else [];
    }
  }

  // ----------------------------------------------------------- reading by id

  function Find(log: Log, id: nat): (r: Option<nat>)
    ensures r.Some? ==> r.value < |log| && log[r.value].id == id
    ensures r.None? ==> forall e :: e in log ==> e.id != id
  {
    if log == [] then None
    else if log[0].id == id then Some(0)
    else
      match Find(log[1..], id)
      case None => None
      case Some(i) => Some(i + 1)
  }

  lemma FindIs(log: Log, next: nat, i: nat)
    requires Increasing(log, next) && i < |log|
    ensures Find(log, log[i].id) == Some(i)
  {
    assert log[i] in log;
  }

  /** `read_session`; `None` is the cursor that is not in the log. */
  function ReadSession(log: Log, cursor: Option<nat>): Option<Log> {
    match cursor
    case None => Some(log)
    case Some(id) =>
      match Find(log, id)
      case None => None
      case Some(i) => Some(log[i + 1..])
  }

  // ------------------------------------------------------------------ replay

  /** The streaming endpoint's replay: the cursor's invocation, after the cursor. */
  function Replay(log: Log, cursor: nat): Option<Log> {
    match Find(log, cursor)
    case None => None
    case Some(i) => Some(Only(log[i + 1..], log[i].invocation))
  }

  /** Replaying after an invocation's event number k returns exactly its events k + 1, k + 2, ... */
  lemma ReplayIsRest(log: Log, next: nat, i: nat)
    requires LogOk(log, next) && i < |log| && log[i].invocation.Some?
    ensures var own := Only(log, log[i].invocation);
            && log[i].sequence < |own| && own[log[i].sequence] == log[i]
            && Replay(log, log[i].id) == Some(own[log[i].sequence + 1..])
  {
    FindIs(log, next, i);
    var inv := log[i].invocation;
    assert log == log[..i + 1] + log[i + 1..];
    OnlyConcat(log[..i + 1], log[i + 1..], inv);
    var before := Only(log[..i + 1], inv);
    assert before[|before| - 1] == log[i];
    assert Only(log, Some(inv.value))[|before| - 1].sequence == |before| - 1;
  }

  // ------------------------------------------------------------------ paging

  datatype Page = Page(data: Log, next: Option<nat>)

  datatype PageError = BadLimit | OffsetExpired

  function GetPage(log: Log, cursor: Option<nat>, limit: int): Result<Page, PageError> {
    if limit < 1 || limit > 1000 then Err(BadLimit)
    else
      match ReadSession(log, cursor)
      case None => Err(OffsetExpired)
      case Some(events) =>
        if |events| > limit then Ok(Page(events[..limit], Some(events[limit - 1].id))) else Ok(Page(events, None))
  }

  /** Reading is refused exactly for a limit outside 1 to 1000, or else for a cursor that no event of the log has;
      replay is refused exactly for such a cursor. */
  lemma RefusedIff(log: Log, cursor: Option<nat>, limit: int, id: nat)
    ensures GetPage(log, cursor, limit) == Err(BadLimit) <==> limit < 1 || limit > 1000
    ensures GetPage(log, cursor, limit) == Err(OffsetExpired) <==>
            1 <= limit <= 1000 && cursor.Some? && forall i :: 0 <= i < |log| ==> log[i].id != cursor.value
    ensures Replay(log, id).None? <==> forall i :: 0 <= i < |log| ==> log[i].id != id
  {
    hide Find, Only;
    assert forall i :: 0 <= i < |log| ==> log[i] in log;
  }

  function Upto(log: Log, n: nat): Option<nat>
    requires n <= |log|
  {
    if n == 0 then None else Some(log[n - 1].id)
  }

  /** One page from position `n`: at most `limit` events, all of them unless a cursor is given, and the
      cursor stands for the position after the page. */
  lemma PageFrom(log: Log, next: nat, n: nat, limit: int)
    requires Increasing(log, next) && n <= |log| && 1 <= limit <= 1000
    ensures var r := GetPage(log, Upto(log, n), limit);
            && r.Ok? && n + |r.value.data| <= |log| && |r.value.data| <= limit
            && r.value.data == log[n..n + |r.value.data|]
            && (r.value.next.None? ==> n + |r.value.data| == |log|)
            && (r.value.next.Some? ==> |r.value.data| == limit && r.value.next == Upto(log, n + limit))
  {
    if n > 0 { FindIs(log, next, n - 1); }
    assert n == 0 ==> log[0..] == log;
  }

  /** The position a cursor stands for: just after its event. */
  function Position(log: Log, cursor: Option<nat>): (n: nat)
    ensures n <= |log|
  {
    match cursor
    case None => 0
    case Some(id) => (match Find(log, id) case None => |log| case Some(i) => i + 1)
  }

  /** Following the returned cursor to the end of a log that stands still. */
  function Follow(log: Log, next: nat, cursor: Option<nat>, limit: int): Log
    requires Increasing(log, next)
    decreases |log| - Position(log, cursor)
  {
    match GetPage(log, cursor, limit)
    case Err(_) => []
    case Ok(page) =>
      CursorAdvances(log, next, cursor, limit);
      if page.next.Some? then page.data + Follow(log, next, page.next, limit) else page.data
  }

  lemma NoCursor(log: Log)
    ensures Position(log, None) == 0
  {
  }

  lemma CursorAdvances(log: Log, next: nat, cursor: Option<nat>, limit: int)
    requires Increasing(log, next) && GetPage(log, cursor, limit).Ok?
    ensures var page := GetPage(log, cursor, limit).value;
            && cursor == Upto(log, Position(log, cursor))
            && (page.next.Some? ==> Position(log, page.next) == Position(log, cursor) + limit <= |log|)
  {
    LimitTaken(log, cursor, limit);
    var n := Position(log, cursor);
    PageFrom(log, next, n, limit);
    if n + limit <= |log| { FindIs(log, next, n + limit - 1); }
  }

  /** From the first page on, with any limit the endpoint takes, following the returned cursors ends and
      gives the whole log, without gap or repeat. */
  lemma {:induction false} FollowGivesLog(log: Log, next: nat, cursor: Option<nat>, limit: int)
    requires Increasing(log, next) && GetPage(log, cursor, limit).Ok?
    ensures Follow(log, next, cursor, limit) == log[Position(log, cursor)..]
    ensures cursor == None ==> Follow(log, next, cursor, limit) == log
    decreases |log| - Position(log, cursor)
  {
    hide GetPage, Find, Increasing, Upto, Position;
    LimitTaken(log, cursor, limit);
    CursorAdvances(log, next, cursor, limit);
    NoCursor(log);
    var n := Position(log, cursor);
    PageFrom(log, next, n, limit);
    var page := GetPage(log, cursor, limit).value;
    if page.next.Some? {
      PageFrom(log, next, n + limit, limit);
      FollowGivesLog(log, next, page.next, limit);
      assert log[n..] == log[n..n + limit] + log[n + limit..];
    }
    assert log[0..] == log;
  }

  /** Pages fetched one after the other, with any limits, from a log that grows between the fetches. */
  ghost predicate Fetched(logs: seq<Log>, limits: seq<int>, pages: seq<Page>) {
    && |logs| == |limits| == |pages|
    && (forall k :: 0 <= k < |pages| ==>
          GetPage(logs[k], if k == 0 then None else pages[k - 1].next, limits[k]) == Ok(pages[k]))
    && (forall k :: 0 <= k < |pages| - 1 ==> pages[k].next.Some?)
    && (forall k :: 0 < k < |logs| ==> logs[k - 1] <= logs[k])
  }

  /** The data of the first `n` pages. */
  function Data(pages: seq<Page>, n: nat): Log
    requires n <= |pages|
  {
    if n == 0 then [] else Data(pages, n - 1) + pages[n - 1].data
  }

  /** The pages together are always a prefix of the log, and all of it once no cursor comes back. */
  lemma {:induction false} PagesAreContiguous(logs: seq<Log>, limits: seq<int>, pages: seq<Page>, next: nat, n: nat)
    requires Fetched(logs, limits, pages) && 0 < n <= |pages|
    requires forall k :: 0 <= k < |logs| ==> Increasing(logs[k], next)
    ensures Data(pages, n) <= logs[n - 1]
    ensures match pages[n - 1].next
            case None => Data(pages, n) == logs[n - 1]
            case Some(_) => pages[n - 1].next == Upto(logs[n - 1], |Data(pages, n)|)
    decreases n
  {
    hide GetPage, Increasing;
    var log, start := logs[n - 1], |Data(pages, n - 1)|;
    if n > 1 {
      PagesAreContiguous(logs, limits, pages, next, n - 1);
      assert logs[n - 2] <= log && pages[n - 2].next.Some?;
    }
    assert GetPage(log, Upto(log, start), limits[n - 1]) == Ok(pages[n - 1]);
    LimitTaken(log, Upto(log, start), limits[n - 1]);
    PageFrom(log, next, start, limits[n - 1]);
    assert Data(pages, n) == log[..start] + log[start..start + |pages[n - 1].data|];
  }

  lemma LimitTaken(log: Log, cursor: Option<nat>, limit: int)
    requires GetPage(log, cursor, limit).Ok?
    ensures 1 <= limit <= 1000
  {
  }

  // ------------------------------------------------------------------- store

  predicate InOrder(events: Log) { forall i, j :: 0 <= i < j < |events| ==> events[i].sequence <= events[j].sequence }

  function Insert(e: Event, events: Log): Log {
    if events == [] || e.sequence <= events[0].sequence then [e] + events else [events[0]] + Insert(e, events[1..])
  }

  /** `sorted(events, key=sequenceNumber)` */
  function BySequence(events: Log): Log {
    if events == [] then [] else Insert(events[0], BySequence(events[1..]))
  }

  lemma {:induction false} SortedAlready(events: Log)
    requires InOrder(events)
    ensures BySequence(events) == events
  {
    if events != [] { SortedAlready(events[1..]); }
  }

  function After(events: Log, after: int): Log {
    if events == [] then []
    else (if events[0].sequence > after then [events[0]] else []) + After(events[1..], after)
  }

  lemma {:induction false} AfterIsSuffix(events: Log, from: nat, after: int)
    requires forall k :: 0 <= k < |events| ==> events[k].sequence == from + k
    ensures After(events, after) ==
            if after < from then events else if after - from >= |events| then [] else events[after - from + 1..]
  {
    if events != [] { AfterIsSuffix(events[1..], from + 1, after); }
  }

  class EventStore {
    var next: nat
    var bySession: map<Key, Log>
    var byInvocation: map<(Key, string), Log>

    function LogOf(key: Key): Log
      reads this
    {
      if key in bySession then bySession[key] else []
    }

    function IndexOf(key: Key, invocation: string): Log
      reads this
    {
      if (key, invocation) in byInvocation then byInvocation[(key, invocation)] else []
    }

    /** Each log is well numbered, and each invocation index is the log filtered by invocation. */
    ghost predicate Valid()
      reads this
    {
      && (forall key :: LogOk(LogOf(key), next))
      && (forall key, invocation :: IndexOf(key, invocation) == Only(LogOf(key), Some(invocation)))
    }

    constructor ()
      ensures Valid() && bySession == map[] && byInvocation == map[]
    {
      next, bySession, byInvocation := 0, map[], map[];
    }

    /** `append_typed` and `append`. */
    method Append(key: Key, invocation: Option<string>, kind: string) returns (e: Event)
      requires Valid()
      modifies this
      ensures Valid() && next == old(next) + 1
      ensures e == Event(old(next), invocation, NextSequence(old(LogOf(key)), invocation), kind)
      ensures LogOf(key) == old(LogOf(key)) + [e]
      ensures forall k :: k != key ==> LogOf(k) == old(LogOf(k))
    {
      hide LogOk, Only;
      ghost var log := LogOf(key);
      var existing;
      match invocation {
        case Some(i) => existing := ReadInvocation(key, i, -1);
        case None => existing := LogOf(key);
      }
      e := Event(next, invocation, |existing|, kind);
      AppendOk(log, next, invocation, kind);
      OnlyAppended(log, e);
      next := next + 1;
      if invocation.Some? {
        byInvocation := byInvocation[(key, invocation.value) := IndexOf(key, invocation.value) + [e]];
      }
      bySession := bySession[key := LogOf(key) + [e]];
      forall k ensures LogOk(LogOf(k), next) {
        if k != key { NextGrows(old(LogOf(k)), old(next)); }
      }
      forall k, i ensures IndexOf(k, i) == Only(LogOf(k), Some(i)) {
        assert old(IndexOf(k, i)) == Only(old(LogOf(k)), Some(i));
      }
    }

    /** `read_invocation`: the filtered log from the event after number `after` on. */
    method ReadInvocation(key: Key, invocation: string, after: int) returns (events: Log)
      requires Valid()
      ensures var own := Only(LogOf(key), Some(invocation));
              events == if after < 0 then own else if after >= |own| then [] else own[after + 1..]
    {
      hide Only, BySequence, After;
      var own := IndexOf(key, invocation);
      IndexNumbered(LogOf(key), next, invocation);
      SortedAlready(own);
      events := After(BySequence(own), after);
      AfterIsSuffix(own, 0, after);
    }
  }

  lemma IndexNumbered(log: Log, next: nat, invocation: string)
    requires LogOk(log, next)
    ensures var own := Only(log, Some(invocation)); forall k :: 0 <= k < |own| ==> own[k].sequence == k
  {
    hide Only;
  }

  lemma OnlyAppended(log: Log, e: Event)
    ensures forall i: string ::
              Only(log + [e], Some(i)) == Only(log, Some(i)) + if e.invocation == Some(i) then [e] else []
  {
    assert (log + [e])[..|log|] == log;
  }

  lemma NextGrows(log: Log, next: nat)
    requires LogOk(log, next)
    ensures LogOk(log, next + 1)
  {
    hide Numbered;
  }
}

/**
 Session leases with fencing tokens (haas/stores/memory.py, haas/stores/sqlite.py).

 One session key owns a cell: the current lease, if any, and the last token issued. Each cell is
 mirrored by two durable rows, `lease` and `lease_token`, whose row key is the three parts of the
 session key joined by '|'. A cell with its two rows is a slot. Two keys can share a row key when one of
 them has a bar in its app or user name, so the run theorems are about the whole store and all its keys.
 */
module Leases {
  import opened Wrappers
  import opened LeaseCells

  datatype SessionKey = SessionKey(app: string, user: string, session: string)

  datatype LeaseError = LeaseConflict | LeaseFenced

  // ------------------------------------------------------- row key encoding

  const BAR: char := '|'

  /** Index of the first bar in `s`, or `|s|`. */
  function FirstBar(s: string): (i: nat)
    ensures i <= |s|
    ensures forall j :: 0 <= j < i ==> s[j] != BAR
    ensures i < |s| ==> s[i] == BAR
  {
    if s == [] || s[0] == BAR then 0 else 1 + FirstBar(s[1..])
  }

  function Head(s: string): string { s[..FirstBar(s)] }

  function Tail(s: string): string { if FirstBar(s) < |s| then s[FirstBar(s) + 1..] else [] }

  function Join(p: string, q: string): string { p + [BAR] + q }

  /** `"|".join(key)` */
  function Encode(k: SessionKey): string {
    Join(k.app, Join(k.user, k.session))
  }

  /** The row key has the three parts that `split("|", 2)` needs. */
  predicate Decodable(r: string) {
    BAR in r && BAR in Tail(r)
  }

  /** `split("|", 2)`: the third part keeps every later bar. */
  function Decode(r: string): SessionKey {
    SessionKey(Head(r), Head(Tail(r)), Tail(Tail(r)))
  }

  /** What the caller must respect for its rows to come back under the same key. */
  predicate BarFree(k: SessionKey) {
    BAR !in k.app && BAR !in k.user
  }

  lemma JoinSplit(s: string)
    requires BAR in s
    ensures Join(Head(s), Tail(s)) == s && BAR !in Head(s)
  {
  }

  lemma SplitJoin(p: string, q: string)
    ensures BAR in Join(p, q)
    ensures BAR in q ==> BAR in Tail(Join(p, q))
    ensures BAR !in p ==> Head(Join(p, q)) == p && Tail(Join(p, q)) == q
  {
    var s := Join(p, q);
    assert s[|p|] == BAR;
    assert forall j :: 0 <= j < |p| ==> s[j] == p[j];
    var i := FirstBar(s);
    assert s[i + 1..][|p| - i..] == q;
  }

  /** A key survives the row encoding exactly when neither name contains a bar. */
  lemma KeyRoundTrip(k: SessionKey)
    ensures Decodable(Encode(k))
    ensures Decode(Encode(k)) == k <==> BarFree(k)
  {
    hide FirstBar, Join, Head, Tail;
    SplitJoin(k.user, k.session);
    SplitJoin(k.app, Join(k.user, k.session));
    if !BarFree(k) {
      JoinSplit(Encode(k));
      JoinSplit(Tail(Encode(k)));
    }
  }

  /** Every decodable row key re-encodes to itself, so distinct rows load under distinct keys. */
  lemma DecodeEncode(r: string)
    requires Decodable(r)
    ensures Encode(Decode(r)) == r
    ensures BarFree(Decode(r))
  {
    hide FirstBar, Join, Head, Tail;
    JoinSplit(r);
    JoinSplit(Tail(r));
  }

  lemma EncodeInjective(k: SessionKey, k': SessionKey)
    requires BarFree(k) && BarFree(k') && Encode(k) == Encode(k')
    ensures k == k'
  {
    hide Encode, Decode;
    KeyRoundTrip(k);
    KeyRoundTrip(k');
  }

  // ----------------------------------------------------------------- one slot

  /** A cell, its durable rows, and the tokens of the lease-guarded event appends made so far. */
  datatype Slot = Slot(cell: Cell, leaseRow: Option<Lease>, tokenRow: Option<Lease>, appended: seq<nat>)

  const NEW_SLOT := Slot(EMPTY, None, None, [])

  datatype Op =
    | AcquireOp(holder: string, ttl: int, now: int)
    | RenewOp(holder: string, token: nat, ttl: int, now: int)
    | ReleaseOp(holder: string, owned: Option<nat>)
    | AppendOp(holder: string, token: nat, now: int)

  /** The cell `_load` rebuilds. Both rows set the token; the one read last wins. A key whose names
      contain a bar is loaded under another key, so its own cell starts empty. */
  function Loaded(s: Slot, barFree: bool, tokenRowLast: bool): Cell {
    if !barFree then EMPTY
    else Cell(s.leaseRow,
              if s.tokenRow.Some? && (s.leaseRow.None? || tokenRowLast) then s.tokenRow.value.token
              else if s.leaseRow.Some? then s.leaseRow.value.token else 0)
  }

  predicate LoadedFrom(c: Cell, s: Slot, barFree: bool) {
    c == Loaded(s, barFree, true) || c == Loaded(s, barFree, false)
  }

  function Step(s: Slot, op: Op): Slot {
    match op
    case AcquireOp(holder, ttl, now) =>
      if Conflicts(s.cell, holder, now) then s
      else
        var cell := Acquire(s.cell, holder, ttl, now);
        s.(cell := cell, leaseRow := cell.lease, tokenRow := cell.lease)
    case RenewOp(holder, token, ttl, now) =>
      if Passes(s.cell, holder, token, now)
      then var cell := Renew(s.cell, holder, token, ttl, now); s.(cell := cell, leaseRow := cell.lease)
      else s
    case ReleaseOp(holder, owned) =>
      var cell := Release(s.cell, holder, owned);
      if cell == s.cell then s else s.(cell := cell, leaseRow := None)
    case AppendOp(holder, token, now) =>
      if Passes(s.cell, holder, token, now) then s.(appended := s.appended + [token]) else s
  }

  /** The rows mirror the cell. */
  predicate Mirrored(s: Slot) {
    && CellOk(s.cell)
    && s.leaseRow == s.cell.lease
    && (if s.tokenRow.Some? then s.tokenRow.value.token == s.cell.token else s.cell == EMPTY)
  }

  predicate NonDecreasing(xs: seq<nat>) {
    forall i, j :: 0 <= i < j < |xs| ==> xs[i] <= xs[j]
  }

  /** Appends so far are ordered and none carries a token newer than the cell's. */
  predicate AppendsOk(s: Slot) {
    NonDecreasing(s.appended) && forall i :: 0 <= i < |s.appended| ==> s.appended[i] <= s.cell.token
  }

  /** What is right about a slot in memory. */
  predicate MemoryOk(s: Slot) { CellOk(s.cell) && AppendsOk(s) }

  /** Loading mirrored rows gives back the cell, whatever order the rows come in. */
  lemma ReopenIsIdentity(s: Slot, tokenRowLast: bool)
    requires Mirrored(s)
    ensures Loaded(s, true, tokenRowLast) == s.cell
  {
  }

  lemma OneStep(s: Slot, op: Op)
    requires MemoryOk(s)
    ensures MemoryOk(Step(s, op)) && (Mirrored(s) ==> Mirrored(Step(s, op)))
    ensures s.cell.token <= Step(s, op).cell.token
    ensures s.appended <= Step(s, op).appended
  {
  }

  // ----------------------------------------------------------- the whole store

  /** Every key's cell and every row, with the tokens of each key's appends. */
  datatype Store = Store(
    cell: SessionKey -> Cell,
    leaseRow: string -> Option<Lease>,
    tokenRow: string -> Option<Lease>,
    appended: SessionKey -> seq<nat>)

  const NEW_STORE := Store(_ => EMPTY, _ => None, _ => None, _ => [])

  function View(s: Store, k: SessionKey): Slot {
    Slot(s.cell(k), s.leaseRow(Encode(k)), s.tokenRow(Encode(k)), s.appended(k))
  }

  /** An operation on one key, or closing and loading the store; `last` holds the row keys whose
      `lease_token` row is read after their `lease` row. */
  datatype StoreOp = At(key: SessionKey, op: Op) | Reopen(last: set<string>)

  function Next(s: Store, o: StoreOp): Store {
    match o
    case At(a, op) =>
      var v := Step(View(s, a), op);
      Store(k => if k == a then v.cell else s.cell(k),
            r => if r == Encode(a) then v.leaseRow else s.leaseRow(r),
            r => if r == Encode(a) then v.tokenRow else s.tokenRow(r),
            k => if k == a then v.appended else s.appended(k))
    case Reopen(last) => s.(cell := k => Loaded(View(s, k), BarFree(k), Encode(k) in last))
  }

  /** What key `k` sees of key `a` moving its slot to `v`: the rows, when they share them. */
  function Seen(v: Slot, w: Slot, k: SessionKey, a: SessionKey): Slot {
    if k == a then v
    else if Encode(k) == Encode(a) then w.(leaseRow := v.leaseRow, tokenRow := v.tokenRow)
    else w
  }

  lemma ViewAfter(s: Store, a: SessionKey, op: Op, k: SessionKey)
    ensures View(Next(s, At(a, op)), k) == Seen(Step(View(s, a), op), View(s, k), k, a)
  {
    hide Step, Encode;
  }

  function Run(s: Store, ops: seq<StoreOp>): Store
    decreases |ops|
  {
    if ops == [] then s else Run(Next(s, ops[0]), ops[1..])
  }

  /** No other key that shares `k`'s rows ever asks for a lease. */
  predicate OnlyOwner(ops: seq<StoreOp>, k: SessionKey) {
    forall i :: 0 <= i < |ops| && ops[i].At? && ops[i].op.AcquireOp? && Encode(ops[i].key) == Encode(k) ==>
      ops[i].key == k
  }

  predicate NoReopen(ops: seq<StoreOp>) { forall i :: 0 <= i < |ops| ==> ops[i].At? }

  /** The rows mirror `k`'s cell, and no other key that shares them has a lease to write there. */
  ghost predicate RowsOk(s: Store, k: SessionKey) {
    Mirrored(View(s, k)) && forall a :: a != k && Encode(a) == Encode(k) ==> s.cell(a).lease.None?
  }

  /** `k` is bar-free and the only one to acquire under its row key, or the store is never reopened. */
  ghost predicate Guarded(s: Store, ops: seq<StoreOp>, k: SessionKey) {
    && MemoryOk(View(s, k))
    && (NoReopen(ops) || (BarFree(k) && RowsOk(s, k) && OnlyOwner(ops, k)))
  }

  lemma NewGuarded(ops: seq<StoreOp>, k: SessionKey)
    requires NoReopen(ops) || (BarFree(k) && OnlyOwner(ops, k))
    ensures Guarded(NEW_STORE, ops, k)
  {
  }

  /** Bar-free keys share no row, so a run whose acquiring keys are all bar-free guards each of them. */
  lemma BarFreeGuards(ops: seq<StoreOp>, k: SessionKey)
    requires BarFree(k)
    requires forall i :: 0 <= i < |ops| && ops[i].At? && ops[i].op.AcquireOp? ==> BarFree(ops[i].key)
    ensures OnlyOwner(ops, k)
  {
    hide Encode, BarFree;
    forall i | 0 <= i < |ops| && ops[i].At? && ops[i].op.AcquireOp? && Encode(ops[i].key) == Encode(k)
      ensures ops[i].key == k
    {
      EncodeInjective(ops[i].key, k);
    }
  }

  /** A key without a lease that does not acquire writes no row. */
  lemma IdleKeyWritesNothing(v: Slot, op: Op)
    requires v.cell.lease.None? && !op.AcquireOp?
    ensures Step(v, op) == v
  {
  }

  lemma RowsStayOk(s: Store, o: StoreOp, k: SessionKey)
    requires BarFree(k) && RowsOk(s, k) && MemoryOk(View(s, k)) && OnlyOwner([o], k)
    ensures RowsOk(Next(s, o), k)
  {
    hide Step, Encode, Loaded, BarFree, MemoryOk, Mirrored;
    if o.At? {
      assert [o][0] == o;
      ViewAfter(s, o.key, o.op, k);
      OneStep(View(s, k), o.op);
      if o.key != k && Encode(o.key) == Encode(k) { IdleKeyWritesNothing(View(s, o.key), o.op); }
    } else {
      ReopenRowsOk(s, o.last, k);
    }
  }

  lemma ReopenRowsOk(s: Store, last: set<string>, k: SessionKey)
    requires BarFree(k) && RowsOk(s, k)
    ensures RowsOk(Next(s, Reopen(last)), k) && View(Next(s, Reopen(last)), k) == View(s, k)
  {
    hide Encode, BarFree;
    forall a | a != k && Encode(a) == Encode(k) ensures !BarFree(a) {
      if BarFree(a) { EncodeInjective(a, k); }
    }
  }

  lemma GuardedStep(s: Store, ops: seq<StoreOp>, k: SessionKey)
    requires ops != [] && Guarded(s, ops, k)
    ensures Guarded(Next(s, ops[0]), ops[1..], k)
    ensures s.cell(k).token <= Next(s, ops[0]).cell(k).token && s.appended(k) <= Next(s, ops[0]).appended(k)
    ensures ops[0].Reopen? ==> View(Next(s, ops[0]), k) == View(s, k)
  {
    hide Step, Encode, Loaded, BarFree, MemoryOk, RowsOk;
    var o := ops[0];
    if o.At? {
      ViewAfter(s, o.key, o.op, k);
      OneStep(View(s, k), o.op);
      if o.key != k { RowsDoNotMatter(View(s, k), View(Next(s, o), k)); }
    } else {
      ReopenRowsOk(s, o.last, k);
    }
    if !NoReopen(ops) {
      assert OnlyOwner([o], k);
      RowsStayOk(s, o, k);
    }
  }

  lemma RowsDoNotMatter(v: Slot, w: Slot)
    requires MemoryOk(v) && v.cell == w.cell && v.appended == w.appended
    ensures MemoryOk(w)
  {
  }

  // ----------------------------------------------------------------- theorems

  /** Along any guarded run the issued token never goes down, a live lease carries the newest one, and
      lease-guarded appends carry non-decreasing tokens. */
  lemma {:induction false} TokensOverRun(s: Store, ops: seq<StoreOp>, k: SessionKey)
    requires Guarded(s, ops, k)
    ensures MemoryOk(View(Run(s, ops), k))
    ensures s.cell(k).token <= Run(s, ops).cell(k).token
    ensures s.appended(k) <= Run(s, ops).appended(k)
    decreases |ops|
  {
    hide Next, Guarded, View, MemoryOk;
    if ops == [] {
      GuardedIsOk(s, ops, k);
    } else {
      GuardedStep(s, ops, k);
      TokensOverRun(Next(s, ops[0]), ops[1..], k);
    }
  }

  lemma GuardedIsOk(s: Store, ops: seq<StoreOp>, k: SessionKey)
    requires Guarded(s, ops, k)
    ensures MemoryOk(View(s, k))
  {
  }

  /** A successful acquire anywhere in a guarded run issues a token that no earlier lease and no earlier
      append of the key carries, and (with a positive time to live) that token passes at once. */
  lemma AcquireIssuesFreshToken(ops: seq<StoreOp>, k: SessionKey, holder: string, ttl: int, now: int)
    requires NoReopen(ops) || (BarFree(k) && OnlyOwner(ops, k))
    ensures var s := Run(NEW_STORE, ops);
            var s' := Next(s, At(k, AcquireOp(holder, ttl, now)));
            !Conflicts(s.cell(k), holder, now) ==>
              && s'.cell(k).token > s.cell(k).token
              && (forall t :: t in s.appended(k) ==> t < s'.cell(k).token)
              && (ttl > 0 ==> Passes(s'.cell(k), holder, s'.cell(k).token, now))
  {
    NewGuarded(ops, k);
    TokensOverRun(NEW_STORE, ops, k);
  }

  /** At any moment at most one (holder, token) passes, and it is the newest one issued. */
  lemma OnePasser(ops: seq<StoreOp>, k: SessionKey, holder: string, token: nat, holder': string, token': nat,
                  now: int, now': int)
    requires NoReopen(ops) || (BarFree(k) && OnlyOwner(ops, k))
    requires Passes(Run(NEW_STORE, ops).cell(k), holder, token, now)
    requires Passes(Run(NEW_STORE, ops).cell(k), holder', token', now')
    ensures holder == holder' && token == token' == Run(NEW_STORE, ops).cell(k).token
  {
    NewGuarded(ops, k);
    TokensOverRun(NEW_STORE, ops, k);
  }

  /** A token below the newest one never passes again, for any holder, whatever happens later. */
  lemma SupersededNeverPasses(s: Store, ops: seq<StoreOp>, k: SessionKey, holder: string, token: nat, now: int)
    requires Guarded(s, ops, k) && token < s.cell(k).token
    ensures !Passes(Run(s, ops).cell(k), holder, token, now)
  {
    TokensOverRun(s, ops, k);
  }

  function ClockOf(o: StoreOp, from: int): int {
    if o.Reopen? || o.op.ReleaseOp? then from else o.op.now
  }

  /** Clock readings of the run do not go backwards, from `from` up to `until`. */
  predicate Monotone(ops: seq<StoreOp>, from: int, until: int) {
    if ops == [] then from <= until
    else from <= ClockOf(ops[0], from) && Monotone(ops[1..], ClockOf(ops[0], from), until)
  }

  lemma StaysFenced(s: Store, o: StoreOp, k: SessionKey, holder: string, token: nat, from: int)
    requires MemoryOk(View(s, k)) && token <= s.cell(k).token && !Passes(s.cell(k), holder, token, from)
    requires o.At? && from <= ClockOf(o, from)
    ensures !Passes(Next(s, o).cell(k), holder, token, ClockOf(o, from))
  {
    ViewAfter(s, o.key, o.op, k);
  }

  /** Once an issued (holder, token) fails `assert_lease` it fails for good: a lease that ran out, was
      released or was taken over cannot be revived by its old owner. */
  lemma {:induction false} FencedForever(s: Store, ops: seq<StoreOp>, k: SessionKey, holder: string, token: nat,
                                         from: int, until: int)
    requires Guarded(s, ops, k) && token <= s.cell(k).token
    requires !Passes(s.cell(k), holder, token, from)
    requires Monotone(ops, from, until)
    ensures !Passes(Run(s, ops).cell(k), holder, token, until)
    decreases |ops|
  {
    hide Next, Guarded, MemoryOk;
    if ops != [] {
      GuardedIsOk(s, ops, k);
      GuardedStep(s, ops, k);
      if ops[0].At? { StaysFenced(s, ops[0], k, holder, token, from); }
      FencedForever(Next(s, ops[0]), ops[1..], k, holder, token, ClockOf(ops[0], from), until);
    }
  }

  // ------------------------------------------------------ how long a lease runs

  /** No lease of another holder is running at `now`. */
  predicate Available(c: Cell, holder: string, now: int) {
    c.lease.Some? ==> c.lease.value.expiresAtMs <= now || c.lease.value.holder == holder
  }

  /** An acquire is granted exactly when no other holder's lease is running. The new lease then runs for `ttl`:
      up to that moment its holder and token pass, nothing else does, and every other holder is refused; from
      that moment on nothing passes and anyone is granted. */
  lemma AcquiredRuns(s: Store, k: SessionKey, holder: string, ttl: int, now: int, h: string, t: nat, m: int)
    ensures var s' := Next(s, At(k, AcquireOp(holder, ttl, now)));
            && (!Available(s.cell(k), holder, now) ==> s'.cell(k) == s.cell(k))
            && (Available(s.cell(k), holder, now) ==>
                  && s'.cell(k).token == s.cell(k).token + 1
                  && (Passes(s'.cell(k), h, t, m) <==> h == holder && t == s.cell(k).token + 1 && m < now + ttl)
                  && (Available(s'.cell(k), h, m) <==> h == holder || m >= now + ttl))
  {
    hide Encode;
  }

  /** A renewal by the holder and token of a running lease makes it run for `ttl` from then on; any other
      renewal changes nothing. */
  lemma RenewalExtends(s: Store, k: SessionKey, holder: string, token: nat, ttl: int, now: int, h: string, t: nat,
                       m: int)
    ensures var lease, s' := s.cell(k).lease, Next(s, At(k, RenewOp(holder, token, ttl, now)));
            if lease.Some? && lease.value.holder == holder && lease.value.token == token
               && now < lease.value.expiresAtMs
            then && s'.cell(k).token == s.cell(k).token
                 && (Passes(s'.cell(k), h, t, m) <==> h == holder && t == token && m < now + ttl)
                 && (Available(s'.cell(k), h, m) <==> h == holder || m >= now + ttl)
            else s'.cell(k) == s.cell(k)
  {
    hide Encode;
  }

  /** A release by the holder, with the lease's token or with none, frees the key at once and keeps the
      counter; any other release changes nothing. */
  lemma ReleaseFrees(s: Store, k: SessionKey, holder: string, owned: Option<nat>, h: string, t: nat, m: int)
    ensures var lease, s' := s.cell(k).lease, Next(s, At(k, ReleaseOp(holder, owned)));
            if lease.Some? && lease.value.holder == holder && (owned.Some? ==> owned.value == lease.value.token)
            then s'.cell(k).token == s.cell(k).token && !Passes(s'.cell(k), h, t, m) && Available(s'.cell(k), h, m)
            else s'.cell(k) == s.cell(k)
  {
    hide Encode;
  }

  /** Someone else's operation on `k`, before `until`, or any operation on another key. */
  predicate ByOthers(o: StoreOp, k: SessionKey, holder: string, until: int) {
    && o.At?
    && (o.key == k ==> o.op.holder != holder && (o.op.AcquireOp? ==> o.op.now < until))
  }

  /** Mutual exclusion: until it runs out, nothing that others do, on this key or any other, touches a lease. */
  lemma {:induction false} LeaseExcludes(s: Store, ops: seq<StoreOp>, k: SessionKey)
    requires s.cell(k).lease.Some?
    requires forall i :: 0 <= i < |ops| ==>
               ByOthers(ops[i], k, s.cell(k).lease.value.holder, s.cell(k).lease.value.expiresAtMs)
    ensures Run(s, ops).cell(k) == s.cell(k)
    decreases |ops|
  {
    hide Encode;
    if ops != [] {
      assert ByOthers(ops[0], k, s.cell(k).lease.value.holder, s.cell(k).lease.value.expiresAtMs);
      LeaseExcludes(Next(s, ops[0]), ops[1..], k);
    }
  }

  // ------------------------------------------------- what a reopen brings back

  /** The rows under `k`'s row key carry `k`'s own token. */
  predicate RowsCarry(s: Store, k: SessionKey) {
    && s.tokenRow(Encode(k)).Some? && s.tokenRow(Encode(k)).value.token == s.cell(k).token
    && (s.leaseRow(Encode(k)).Some? ==> s.leaseRow(Encode(k)).value.token == s.cell(k).token)
  }

  /** A row key that has a lease row has a token row. */
  ghost predicate TokenRowsKept(s: Store) {
    && (forall r :: s.leaseRow(r).Some? ==> s.tokenRow(r).Some?)
    && (forall k :: s.cell(k).lease.Some? ==> s.tokenRow(Encode(k)).Some?)
  }

  lemma StepKeepsTokenRows(s: Store, o: StoreOp)
    requires TokenRowsKept(s)
    ensures TokenRowsKept(Next(s, o))
  {
    hide Encode, BarFree;
  }

  lemma {:induction false} RunKeepsTokenRows(s: Store, ops: seq<StoreOp>)
    requires TokenRowsKept(s)
    ensures TokenRowsKept(Run(s, ops))
    decreases |ops|
  {
    hide Next, TokenRowsKept;
    if ops != [] {
      StepKeepsTokenRows(s, ops[0]);
      RunKeepsTokenRows(Next(s, ops[0]), ops[1..]);
    }
  }

  /** After any run of any keys, a reopen keeps an issued token, whatever order the rows are read in,
      exactly when the key is bar-free and both rows carry that token. */
  lemma ReopenKeepsTokenIff(ops: seq<StoreOp>, k: SessionKey)
    requires Run(NEW_STORE, ops).cell(k).token > 0
    ensures var s := Run(NEW_STORE, ops);
            (forall last :: Next(s, Reopen(last)).cell(k).token == s.cell(k).token) <==> BarFree(k) && RowsCarry(s, k)
  {
    hide Run, Encode, BarFree;
    RunKeepsTokenRows(NEW_STORE, ops);
    var s := Run(NEW_STORE, ops);
    var r := Encode(k);
    assert Next(s, Reopen({})).cell(k) == Loaded(View(s, k), BarFree(k), false);
    assert Next(s, Reopen({r})).cell(k) == Loaded(View(s, k), BarFree(k), true) by { assert r in {r}; }
  }

  /** The other keys leave `k`'s rows alone. */
  predicate RowsLeftAlone(ops: seq<StoreOp>, k: SessionKey) {
    forall i :: 0 <= i < |ops| && ops[i].At? && Encode(ops[i].key) == Encode(k) ==> ops[i].key == k
  }

  lemma {:induction false} MirrorLasts(s: Store, ops: seq<StoreOp>, k: SessionKey)
    requires BarFree(k) && Mirrored(View(s, k)) && RowsLeftAlone(ops, k)
    ensures Mirrored(View(Run(s, ops), k))
    decreases |ops|
  {
    hide Step, Encode, BarFree, Mirrored, Loaded;
    if ops != [] {
      if ops[0].At? {
        ViewAfter(s, ops[0].key, ops[0].op, k);
        MirrorStep(View(s, k), ops[0].op);
      } else {
        ReopenIsIdentity(View(s, k), Encode(k) in ops[0].last);
      }
      MirrorLasts(Next(s, ops[0]), ops[1..], k);
    }
  }

  lemma MirrorStep(v: Slot, op: Op)
    requires Mirrored(v)
    ensures Mirrored(Step(v, op))
  {
  }

  /** The rows carry the key's token when the key was the last to write them: it acquired, and since then
      no other key touched that row key. What happened before does not matter. */
  lemma LastWriterKeepsToken(s: Store, k: SessionKey, holder: string, ttl: int, now: int, ops: seq<StoreOp>)
    requires BarFree(k) && !Conflicts(s.cell(k), holder, now) && RowsLeftAlone(ops, k)
    ensures RowsCarry(Run(Next(s, At(k, AcquireOp(holder, ttl, now))), ops), k)
  {
    hide Encode, BarFree, Run;
    var s1 := Next(s, At(k, AcquireOp(holder, ttl, now)));
    MirrorLasts(s1, ops, k);
    CarriedToken(s1, ops, k);
  }

  /** Token rows never go, so a slot that mirrors its rows after an acquire has one. */
  lemma {:induction false} CarriedToken(s: Store, ops: seq<StoreOp>, k: SessionKey)
    requires s.tokenRow(Encode(k)).Some?
    ensures Run(s, ops).tokenRow(Encode(k)).Some?
    decreases |ops|
  {
    hide Encode;
    if ops != [] { CarriedToken(Next(s, ops[0]), ops[1..], k); }
  }

  /** When another key was the last to acquire under the row key, a reopen gives `k` that key's token, so
      `k` keeps its own only if the two numbers happen to agree. */
  lemma RivalWriteIsLoaded(s: Store, k: SessionKey, rival: SessionKey, holder: string, ttl: int, now: int,
                           last: set<string>)
    requires BarFree(k) && rival != k && Encode(rival) == Encode(k) && !Conflicts(s.cell(rival), holder, now)
    ensures var s1 := Next(s, At(rival, AcquireOp(holder, ttl, now)));
            && s1.cell(k) == s.cell(k)
            && Next(s1, Reopen(last)).cell(k) == Cell(Some(Lease(holder, now + ttl, s.cell(rival).token + 1)),
                                                      s.cell(rival).token + 1)
            && (Next(s1, Reopen(last)).cell(k).token == s.cell(k).token <==> s.cell(rival).token + 1 == s.cell(k).token)
  {
    hide Encode, BarFree;
  }

  const OWNER := SessionKey("a", "u", "v|s")
  const RIVAL := SessionKey("a", "u|v", "s")

  lemma SharedRow()
    ensures Encode(OWNER) == Encode(RIVAL) && BarFree(OWNER) && !BarFree(RIVAL)
  {
    assert Encode(OWNER) == "a|u|v|s" && Encode(RIVAL) == "a|u|v|s";
    assert RIVAL.user[1] == BAR;
  }

  lemma RunTwo(s: Store, o: StoreOp, p: StoreOp)
    ensures Run(s, [o, p]) == Next(Next(s, o), p)
  {
    var s1, s2 := Next(s, o), Next(Next(s, o), p);
    assert [o, p][1..] == [p] && [p][1..] == [];
    calc {
      Run(s, [o, p]);
      Run(s1, [p]);
      Run(s2, []);
      s2;
    }
  }

  /** A bar-free key loses its token to a key with a bar that shares its row: token 2 was issued, and after
      the reopen token 1 passes again. */
  lemma SharedRowLosesToken()
    ensures BarFree(OWNER)
    ensures var s0 := Run(NEW_STORE, [At(OWNER, AcquireOp("h", 10, 0)), At(OWNER, AcquireOp("h", 10, 1))]);
            var s := Run(s0, [At(RIVAL, AcquireOp("h", 10, 2)), Reopen({})]);
            && s0.cell(OWNER).token == 2
            && s.cell(OWNER).token == 1 && Passes(s.cell(OWNER), "h", 1, 3)
  {
    hide Encode, BarFree, Run;
    SharedRow();
    RunTwo(NEW_STORE, At(OWNER, AcquireOp("h", 10, 0)), At(OWNER, AcquireOp("h", 10, 1)));
    var s := Run(NEW_STORE, [At(OWNER, AcquireOp("h", 10, 0)), At(OWNER, AcquireOp("h", 10, 1))]);
    RunTwo(s, At(RIVAL, AcquireOp("h", 10, 2)), Reopen({}));
    assert OWNER != RIVAL;
    assert s.cell(RIVAL) == EMPTY;
    RivalWriteIsLoaded(s, OWNER, RIVAL, "h", 10, 2, {});
  }

  /** A key with a bar loses its token to its own row: after the reopen counting starts over. */
  lemma BarLosesToken(k: SessionKey)
    requires !BarFree(k)
    ensures var s := Run(NEW_STORE, [At(k, AcquireOp("h", 10, 0)), Reopen({})]);
            s.cell(k).token == 0 && Next(s, At(k, AcquireOp("g", 10, 1))).cell(k).token == 1
  {
    hide Encode, BarFree, Run;
    RunTwo(NEW_STORE, At(k, AcquireOp("h", 10, 0)), Reopen({}));
    var s := Run(NEW_STORE, [At(k, AcquireOp("h", 10, 0)), Reopen({})]);
    assert s.cell(k) == EMPTY;
    ViewAfter(s, k, AcquireOp("g", 10, 1), k);
    assert View(Next(s, At(k, AcquireOp("g", 10, 1))), k).cell == Acquire(EMPTY, "g", 10, 1);
  }

  // ----------------------------------------------------------- the store class

  /** `SQLiteStore`'s lease part: the two dictionaries it inherits and the rows it writes. */
  class LeaseStore {
    var leases: map<SessionKey, Lease>
    var tokens: map<SessionKey, nat>
    var leaseRows: map<string, Lease>
    var tokenRows: map<string, Lease>

    ghost predicate Valid()
      reads this
    {
      && leases.Keys <= tokens.Keys
      && (forall r :: r in leaseRows ==> Decodable(r))
      && (forall r :: r in tokenRows ==> Decodable(r))
    }

    ghost function SlotOf(key: SessionKey): Slot
      reads this
    {
      Slot(Cell(if key in leases then Some(leases[key]) else None, if key in tokens then tokens[key] else 0),
           if Encode(key) in leaseRows then Some(leaseRows[Encode(key)]) else None,
           if Encode(key) in tokenRows then Some(tokenRows[Encode(key)]) else None,
           [])
    }

    constructor ()
      ensures Valid()
      ensures forall k :: SlotOf(k) == NEW_SLOT
    {
      leases, tokens, leaseRows, tokenRows := map[], map[], map[], map[];
    }

    method AcquireLease(key: SessionKey, holder: string, ttl: int, now: int) returns (r: Result<Lease, LeaseError>)
      requires Valid()
      modifies this
      ensures Valid()
      ensures forall k :: SlotOf(k) == Seen(Step(old(SlotOf(key)), AcquireOp(holder, ttl, now)), old(SlotOf(k)), k, key)
      ensures r.Err? <==> Conflicts(old(SlotOf(key).cell), holder, now)
      ensures r.Ok? ==> SlotOf(key).cell.lease == Some(r.value)
      ensures r.Ok? ==> r.value == Lease(holder, now + ttl, old(SlotOf(key)).cell.token + 1)
    {
      hide Encode, Decode, Decodable;
      KeyRoundTrip(key);
      if key in leases && leases[key].expiresAtMs > now && leases[key].holder != holder {
        return Err(LeaseConflict);
      }
      var token := (if key in tokens then tokens[key] else 0) + 1;
      var lease := Lease(holder, now + ttl, token);
      tokens := tokens[key := token];
      leases := leases[key := lease];
      leaseRows := leaseRows[Encode(key) := lease];
      tokenRows := tokenRows[Encode(key) := lease];
      r := Ok(lease);
    }

    method AssertLease(key: SessionKey, holder: string, token: nat, now: int) returns (ok: bool)
      ensures ok <==> Passes(SlotOf(key).cell, holder, token, now)
    {
      ok := && key in leases
            && leases[key].expiresAtMs > now
            && leases[key].holder == holder
            && leases[key].token == token;
    }

    method RenewLease(key: SessionKey, holder: string, token: nat, ttl: int, now: int)
      returns (r: Result<Lease, LeaseError>)
      requires Valid()
      modifies this
      ensures Valid()
      ensures forall k ::
                SlotOf(k) == Seen(Step(old(SlotOf(key)), RenewOp(holder, token, ttl, now)), old(SlotOf(k)), k, key)
      ensures r.Ok? <==> Passes(old(SlotOf(key)).cell, holder, token, now)
      ensures r.Ok? ==> r.value == Lease(holder, now + ttl, token) && SlotOf(key).cell.lease == Some(r.value)
    {
      hide Encode, Decode, Decodable;
      KeyRoundTrip(key);
      var ok := AssertLease(key, holder, token, now);
      if !ok {
        return Err(LeaseFenced);
      }
      var lease := Lease(holder, now + ttl, token);
      leases := leases[key := lease];
      leaseRows := leaseRows[Encode(key) := lease];
      r := Ok(lease);
    }

    method ReleaseLease(key: SessionKey, holder: string, owned: Option<nat>)
      requires Valid()
      modifies this
      ensures Valid()
      ensures forall k :: SlotOf(k) == Seen(Step(old(SlotOf(key)), ReleaseOp(holder, owned)), old(SlotOf(k)), k, key)
    {
      hide Encode, Decode, Decodable;
      if key in leases && leases[key].holder == holder && (owned.None? || leases[key].token == owned.value) {
        leases := leases - {key};
        leaseRows := leaseRows - {Encode(key)};
      }
    }

    /** `_load`: rebuild both dictionaries from the rows, one row at a time in no particular order. */
    method Reopen()
      requires Valid()
      modifies `leases, `tokens
      ensures Valid()
      ensures forall k :: LoadedFrom(SlotOf(k).cell, old(SlotOf(k)), BarFree(k))
    {
      hide Encode, Decode, Decodable;
      leases, tokens := map[], map[];
      var todoLease, todoToken := leaseRows.Keys, tokenRows.Keys;
      ghost var last: set<SessionKey> := {};
      while todoLease != {} || todoToken != {}
        invariant leases.Keys <= tokens.Keys
        invariant todoLease <= leaseRows.Keys && todoToken <= tokenRows.Keys
        invariant forall k :: k in leases <==> (BarFree(k) && Encode(k) in leaseRows.Keys - todoLease)
        invariant forall k :: k in leases ==> leases[k] == leaseRows[Encode(k)]
        invariant forall k :: k in tokens <==>
                    (BarFree(k) && Encode(k) in (leaseRows.Keys - todoLease) + (tokenRows.Keys - todoToken))
        invariant forall k :: k in tokens && k in last ==>
                    Encode(k) in tokenRows.Keys - todoToken && tokens[k] == tokenRows[Encode(k)].token
        invariant forall k :: k in tokens && k !in last ==>
                    Encode(k) in leaseRows.Keys - todoLease && tokens[k] == leaseRows[Encode(k)].token
        decreases |todoLease| + |todoToken|
      {
        if
        case todoLease != {} =>
          var r :| r in todoLease;
          RowBelongsTo(r);
          var key := Decode(r);
          leases := leases[key := leaseRows[r]];
          tokens := tokens[key := leaseRows[r].token];
          last := last - {key};
          todoLease := todoLease - {r};
        case todoToken != {} =>
          var r :| r in todoToken;
          RowBelongsTo(r);
          var key := Decode(r);
          tokens := tokens[key := tokenRows[r].token];
          last := last + {key};
          todoToken := todoToken - {r};
      }
      forall k ensures LoadedFrom(SlotOf(k).cell, old(SlotOf(k)), BarFree(k)) {
        assert SlotOf(k).cell == Loaded(old(SlotOf(k)), BarFree(k), k in last);
      }
    }
  }

  lemma OtherRows(key: SessionKey)
    ensures BarFree(key) ==> forall k :: k != key && BarFree(k) ==> Encode(k) != Encode(key)
  {
    hide Encode;
    forall k | BarFree(key) && k != key && BarFree(k) ensures Encode(k) != Encode(key) {
      if Encode(k) == Encode(key) { EncodeInjective(k, key); }
    }
  }

  /** A row is loaded under one key, the only bar-free key that writes it. */
  lemma RowBelongsTo(r: string)
    requires Decodable(r)
    ensures BarFree(Decode(r)) && Encode(Decode(r)) == r
    ensures forall k :: BarFree(k) && Encode(k) == r ==> k == Decode(r)
  {
    hide Encode, Decode, Decodable;
    DecodeEncode(r);
    OtherRows(Decode(r));
  }
}

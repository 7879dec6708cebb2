/**
 The artifact store (haas/artifacts/store.py): a metadata index, a listing per session, and an in-process
 content store with an eviction loop.

 Paths are given as `safe_relative_path` returns them (`None` when it rejects), file ids are fresh draws,
 the digest is a given function, and the clock is read by the caller.
 */
module Artifacts {
  import opened Wrappers
  import opened Text

  datatype Policy = Policy(maxFileBytes: nat, maxFiles: nat, maxPublishFiles: nat, maxContentBytes: nat)

  datatype Scope = Scope(app: string, user: string, session: string)

  /** One path of one owner in one session. */
  datatype Slot = Slot(scope: Scope, owner: string, path: string)

  datatype File = File(slot: Slot, media: string, digest: string, size: nat)

  datatype Failure = PathRejected | TooLarge | TooManyFiles | TooManyPublished

  datatype State = State(files: map<string, File>, lists: map<Scope, seq<string>>, content: map<string, Bytes>)

  const EMPTY := State(map[], map[], map[])

  // --------------------------------------------------------------- listings

  function Ids(s: State, scope: Scope): seq<string> { if scope in s.lists then s.lists[scope] else [] }

  predicate IsFor(files: map<string, File>, id: string, slot: Slot) { id in files && files[id].slot == slot }

  /** The listed ids for the slot, in order. */
  function Matching(files: map<string, File>, ids: seq<string>, slot: Slot): seq<string> {
    if ids == [] then []
    else Matching(files, ids[..|ids| - 1], slot)
         + (if IsFor(files, ids[|ids| - 1], slot) then [ids[|ids| - 1]] else [])
  }

  function Others(files: map<string, File>, ids: seq<string>, slot: Slot): seq<string> {
    if ids == [] then []
    else Others(files, ids[..|ids| - 1], slot)
         + (if IsFor(files, ids[|ids| - 1], slot) then [] else [ids[|ids| - 1]])
  }

  lemma {:induction false} Split(files: map<string, File>, ids: seq<string>, slot: Slot)
    ensures |Matching(files, ids, slot)| + |Others(files, ids, slot)| == |ids|
    ensures forall x :: x in Matching(files, ids, slot) <==> x in ids && IsFor(files, x, slot)
    ensures forall x :: x in Others(files, ids, slot) <==> x in ids && !IsFor(files, x, slot)
  {
    if ids != [] {
      Split(files, ids[..|ids| - 1], slot);
      assert ids == ids[..|ids| - 1] + [ids[|ids| - 1]];
    }
  }

  predicate Distinct(ids: seq<string>) { forall i, j :: 0 <= i < j < |ids| ==> ids[i] != ids[j] }

  lemma {:induction false} OthersDistinct(files: map<string, File>, ids: seq<string>, slot: Slot)
    requires Distinct(ids)
    ensures Distinct(Others(files, ids, slot))
  {
    if ids != [] {
      OthersDistinct(files, ids[..|ids| - 1], slot);
      Split(files, ids[..|ids| - 1], slot);
    }
  }

  /** The slot's latest listed file. */
  function Current(s: State, slot: Slot): (r: Option<string>)
    ensures r.Some? ==> r.value in Ids(s, slot.scope) && IsFor(s.files, r.value, slot)
  {
    Split(s.files, Ids(s, slot.scope), slot);
    var m := Matching(s.files, Ids(s, slot.scope), slot);
    if m == [] then None
    else
      assert m[|m| - 1] in m;
      Some(m[|m| - 1])
  }

  /** What is listed for other slots is not touched by dropping one slot's files, nor by adding one. */
  lemma {:induction false} MatchingOthers(files: map<string, File>, ids: seq<string>, slot: Slot, other: Slot)
    requires other != slot
    ensures Matching(files, Others(files, ids, slot), other) == Matching(files, ids, other)
  {
    if ids != [] {
      var front, last := Others(files, ids[..|ids| - 1], slot), ids[|ids| - 1];
      MatchingOthers(files, ids[..|ids| - 1], slot, other);
      if !IsFor(files, last, slot) { assert (front + [last])[..|front|] == front; } else { assert front + [] == front; }
    }
  }

  lemma {:induction false} MatchingSameFiles(files: map<string, File>, files': map<string, File>, ids: seq<string>,
                                             slot: Slot)
    requires forall x :: x in ids ==> (IsFor(files, x, slot) <==> IsFor(files', x, slot))
    ensures Matching(files', ids, slot) == Matching(files, ids, slot)
    ensures Others(files', ids, slot) == Others(files, ids, slot)
  {
    if ids != [] {
      assert ids[|ids| - 1] in ids && forall x :: x in ids[..|ids| - 1] ==> x in ids;
      MatchingSameFiles(files, files', ids[..|ids| - 1], slot);
    }
  }

  // -------------------------------------------------------------- operations

  function Add(s: State, id: string, f: File, bytes: Option<Bytes>): State {
    State(s.files[id := f], s.lists[f.slot.scope := Ids(s, f.slot.scope) + [id]],
          if bytes.Some? then s.content[id := bytes.value] else s.content)
  }

  /** `register` of an upload; without content it is metadata only. */
  function Upload(s: State, p: Policy, id: string, f: File, bytes: Bytes, store: bool): Result<State, Failure> {
    if |bytes| > p.maxFileBytes then Err(TooLarge)
    else if |Ids(s, f.slot.scope)| >= p.maxFiles then Err(TooManyFiles)
    else Ok(Add(s, id, f, if store then Some(bytes) else None))
  }

  predicate Unchanged(s: State, f: File) {
    var c := Current(s, f.slot);
    c.Some? && s.files[c.value].digest == f.digest && s.files[c.value].media == f.media
  }

  function Replaced(s: State, id: string, f: File, bytes: Bytes): State {
    var ids := Ids(s, f.slot.scope);
    var gone := Matching(s.files, ids, f.slot);
    State(s.files[id := f], s.lists[f.slot.scope := Others(s.files, ids, f.slot) + [id]],
          s.content[id := bytes] - (set x | x in gone))
  }

  /** `register_produced` */
  function Publish(s: State, p: Policy, id: string, f: File, bytes: Bytes): Result<State, Failure> {
    var ids := Ids(s, f.slot.scope);
    if Unchanged(s, f) then Ok(s)
    else if |ids| - |Matching(s.files, ids, f.slot)| + 1 > p.maxPublishFiles then Err(TooManyPublished)
    else if |bytes| > p.maxFileBytes then Err(TooLarge)
    else Ok(Replaced(s, id, f, bytes))
  }

  function InScope(s: State, scope: Scope): set<string> { set x | x in s.files && s.files[x].slot.scope == scope }

  /** `delete_session` */
  function Delete(s: State, scope: Scope): State {
    State(s.files - InScope(s, scope), s.lists - {scope}, s.content - InScope(s, scope))
  }

  // --------------------------------------------------------------- invariant

  ghost predicate ListOk(s: State, scope: Scope) {
    Distinct(Ids(s, scope)) && forall x :: x in Ids(s, scope) ==> x in s.files && s.files[x].slot.scope == scope
  }

  predicate Listed(s: State, id: string) { id in s.files && id in Ids(s, s.files[id].slot.scope) }

  /** Only listed files hold content, and it is the content their digest was taken of. */
  ghost predicate Inv(s: State, digest: Bytes -> string) {
    && (forall scope :: ListOk(s, scope))
    && (forall id :: id in s.content ==> Listed(s, id) && digest(s.content[id]) == s.files[id].digest)
  }

  lemma AddKeeps(s: State, digest: Bytes -> string, id: string, f: File, bytes: Option<Bytes>)
    requires Inv(s, digest) && id !in s.files && (bytes.Some? ==> f.digest == digest(bytes.value))
    ensures Inv(Add(s, id, f, bytes), digest)
  {
    var s' := Add(s, id, f, bytes);
    forall scope ensures ListOk(s', scope) { assert ListOk(s, scope); }
    forall x | x in s'.content ensures Listed(s', x) && digest(s'.content[x]) == s'.files[x].digest {
      if x != id { assert Listed(s, x); }
    }
  }

  lemma ReplacedKeeps(s: State, digest: Bytes -> string, id: string, f: File, bytes: Bytes)
    requires Inv(s, digest) && id !in s.files && f.digest == digest(bytes)
    ensures Inv(Replaced(s, id, f, bytes), digest)
  {
    hide Others, Matching, Distinct;
    var s' := Replaced(s, id, f, bytes);
    var ids := Ids(s, f.slot.scope);
    Split(s.files, ids, f.slot);
    forall scope ensures ListOk(s', scope) {
      assert ListOk(s, scope);
      if scope == f.slot.scope { ReplacedListOk(s, id, f, bytes); }
    }
    forall x | x in s'.content ensures Listed(s', x) && digest(s'.content[x]) == s'.files[x].digest {
      if x != id { assert Listed(s, x); }
    }
  }

  lemma ReplacedListOk(s: State, id: string, f: File, bytes: Bytes)
    requires ListOk(s, f.slot.scope) && id !in s.files
    ensures ListOk(Replaced(s, id, f, bytes), f.slot.scope)
  {
    hide Others, Matching;
    var ids := Ids(s, f.slot.scope);
    Split(s.files, ids, f.slot);
    OthersDistinct(s.files, ids, f.slot);
  }

  lemma DeleteKeeps(s: State, digest: Bytes -> string, scope: Scope)
    requires Inv(s, digest)
    ensures Inv(Delete(s, scope), digest)
  {
    var s' := Delete(s, scope);
    forall sc ensures ListOk(s', sc) { assert ListOk(s, sc); }
    forall x | x in s'.content ensures Listed(s', x) && digest(s'.content[x]) == s'.files[x].digest {
      assert Listed(s, x);
    }
  }

  // ------------------------------------------------------- last write wins

  lemma MatchingAppend(files: map<string, File>, ids: seq<string>, id: string, slot: Slot)
    ensures Matching(files, ids + [id], slot) ==
            Matching(files, ids, slot) + if IsFor(files, id, slot) then [id] else []
  {
    assert (ids + [id])[..|ids|] == ids;
  }

  lemma AddedCurrent(s: State, digest: Bytes -> string, id: string, f: File, bytes: Option<Bytes>, slot: Slot)
    requires Inv(s, digest) && id !in s.files
    ensures Current(Add(s, id, f, bytes), slot) == if slot == f.slot then Some(id) else Current(s, slot)
  {
    hide Matching, Others, Listed;
    var s' := Add(s, id, f, bytes);
    var ids := Ids(s, slot.scope);
    assert ListOk(s, slot.scope);
    MatchingSameFiles(s.files, s'.files, ids, slot);
    MatchingAppend(s'.files, ids, id, slot);
  }

  lemma ReplacedCurrent(s: State, digest: Bytes -> string, id: string, f: File, bytes: Bytes, slot: Slot)
    requires Inv(s, digest) && id !in s.files
    ensures Current(Replaced(s, id, f, bytes), slot) == if slot == f.slot then Some(id) else Current(s, slot)
  {
    hide Matching, Others, Listed;
    var s' := Replaced(s, id, f, bytes);
    var ids := Ids(s, slot.scope);
    var kept := Others(s.files, ids, f.slot);
    assert ListOk(s, slot.scope);
    Split(s.files, ids, f.slot);
    MatchingSameFiles(s.files, s'.files, ids, slot);
    MatchingSameFiles(s.files, s'.files, kept, slot);
    MatchingAppend(s'.files, kept, id, slot);
    if slot != f.slot { MatchingOthers(s.files, ids, f.slot, slot); }
  }

  lemma DeletedCurrent(s: State, digest: Bytes -> string, scope: Scope, slot: Slot)
    requires Inv(s, digest)
    ensures Current(Delete(s, scope), slot) == if slot.scope == scope then None else Current(s, slot)
  {
    var s' := Delete(s, scope);
    if slot.scope != scope {
      assert ListOk(s, slot.scope);
      MatchingSameFiles(s.files, s'.files, Ids(s, slot.scope), slot);
    }
  }

  // -------------------------------------------------------------------- runs

  datatype Op =
    | UploadOp(id: string, slot: Slot, media: string, bytes: Bytes, store: bool)
    | PublishOp(id: string, slot: Slot, media: string, bytes: Bytes)
    | DeleteOp(scope: Scope)

  function FileOf(slot: Slot, media: string, bytes: Bytes, digest: Bytes -> string): File {
    File(slot, media, digest(bytes), |bytes|)
  }

  function Attempt(s: State, p: Policy, digest: Bytes -> string, op: Op): Result<State, Failure> {
    match op
    case UploadOp(id, slot, media, bytes, store) => Upload(s, p, id, FileOf(slot, media, bytes, digest), bytes, store)
    case PublishOp(id, slot, media, bytes) => Publish(s, p, id, FileOf(slot, media, bytes, digest), bytes)
    case DeleteOp(scope) => Ok(Delete(s, scope))
  }

  function Next(s: State, p: Policy, digest: Bytes -> string, op: Op): State {
    var r := Attempt(s, p, digest, op);
    if r.Ok? then r.value else s
  }

  /** What was written last, by slot. */
  datatype Written = Written(media: string, bytes: Bytes)

  function Record(book: map<Slot, Written>, ok: bool, op: Op): map<Slot, Written> {
    if !ok then book
    else
      match op
      case UploadOp(_, slot, media, bytes, _) => book[slot := Written(media, bytes)]
      case PublishOp(_, slot, media, bytes) => book[slot := Written(media, bytes)]
      case DeleteOp(scope) => map slot | slot in book && slot.scope != scope :: book[slot]
  }

  /** The state, with the plain map beside it, after `ops` on a new store. */
  function Run(p: Policy, digest: Bytes -> string, ops: seq<Op>): (State, map<Slot, Written>) {
    if ops == [] then (EMPTY, map[])
    else
      var before := Run(p, digest, ops[..|ops| - 1]);
      var op := ops[|ops| - 1];
      (Next(before.0, p, digest, op), Record(before.1, Attempt(before.0, p, digest, op).Ok?, op))
  }

  predicate FreshId(s: State, op: Op) { op.DeleteOp? || op.id !in s.files }

  ghost predicate FreshIds(p: Policy, digest: Bytes -> string, ops: seq<Op>) {
    forall k :: 0 <= k < |ops| ==> FreshId(Run(p, digest, ops[..k]).0, ops[k])
  }

  /** The store shows the map: the same slots, and for each the digest and media type written last. */
  ghost predicate Shows(s: State, digest: Bytes -> string, book: map<Slot, Written>) {
    forall slot ::
      && (slot in book <==> Current(s, slot).Some?)
      && (slot in book ==>
            var f := s.files[Current(s, slot).value];
            f.digest == digest(book[slot].bytes) && f.media == book[slot].media && Sized(f, digest))
  }

  /** The size is that of some bytes with the file's digest. */
  ghost predicate Sized(f: File, digest: Bytes -> string) {
    exists b :: f.digest == digest(b) && f.size == |b|
  }

  lemma UploadShows(s: State, digest: Bytes -> string, book: map<Slot, Written>, id: string, slot: Slot, media: string,
                    bytes: Bytes, held: Option<Bytes>)
    requires Inv(s, digest) && Shows(s, digest, book) && id !in s.files && (held.Some? ==> held.value == bytes)
    ensures var s' := Add(s, id, FileOf(slot, media, bytes, digest), held);
            Inv(s', digest) && Shows(s', digest, book[slot := Written(media, bytes)])
  {
    hide Inv, Current;
    var f := FileOf(slot, media, bytes, digest);
    AddKeeps(s, digest, id, f, held);
    forall x: Slot ensures Current(Add(s, id, f, held), x) == if x == slot then Some(id) else Current(s, x) {
      AddedCurrent(s, digest, id, f, held, x);
    }
  }

  lemma ReplaceShows(s: State, digest: Bytes -> string, book: map<Slot, Written>, id: string, slot: Slot, media: string,
                     bytes: Bytes)
    requires Inv(s, digest) && Shows(s, digest, book) && id !in s.files
    ensures var s' := Replaced(s, id, FileOf(slot, media, bytes, digest), bytes);
            Inv(s', digest) && Shows(s', digest, book[slot := Written(media, bytes)])
  {
    hide Inv, Current, Matching, Others;
    var f := FileOf(slot, media, bytes, digest);
    ReplacedKeeps(s, digest, id, f, bytes);
    forall x: Slot ensures Current(Replaced(s, id, f, bytes), x) == if x == slot then Some(id) else Current(s, x) {
      ReplacedCurrent(s, digest, id, f, bytes, x);
    }
  }

  lemma DeleteShows(s: State, digest: Bytes -> string, book: map<Slot, Written>, scope: Scope)
    requires Inv(s, digest) && Shows(s, digest, book)
    ensures Inv(Delete(s, scope), digest) && Shows(Delete(s, scope), digest, Record(book, true, DeleteOp(scope)))
  {
    hide Inv, Current;
    DeleteKeeps(s, digest, scope);
    forall x: Slot ensures Current(Delete(s, scope), x) == if x.scope == scope then None else Current(s, x) {
      DeletedCurrent(s, digest, scope, x);
    }
  }

  /** Publishing what is already there leaves the map as it is. */
  lemma UnchangedShows(s: State, digest: Bytes -> string, book: map<Slot, Written>, slot: Slot, media: string,
                       bytes: Bytes)
    requires Shows(s, digest, book) && Unchanged(s, FileOf(slot, media, bytes, digest))
    ensures Shows(s, digest, book[slot := Written(media, bytes)])
  {
    hide Current;
  }

  lemma NextShows(s: State, p: Policy, digest: Bytes -> string, book: map<Slot, Written>, op: Op)
    requires Inv(s, digest) && Shows(s, digest, book) && FreshId(s, op)
    ensures Inv(Next(s, p, digest, op), digest)
    ensures Shows(Next(s, p, digest, op), digest, Record(book, Attempt(s, p, digest, op).Ok?, op))
  {
    hide Inv, Shows, Matching, Unchanged, Replaced, Add, Delete;
    match op
    case UploadOp(id, slot, media, bytes, store) =>
      UploadShows(s, digest, book, id, slot, media, bytes, if store then Some(bytes) else None);
    case PublishOp(id, slot, media, bytes) =>
      if Unchanged(s, FileOf(slot, media, bytes, digest)) {
        UnchangedShows(s, digest, book, slot, media, bytes);
      } else {
        ReplaceShows(s, digest, book, id, slot, media, bytes);
      }
    case DeleteOp(scope) => DeleteShows(s, digest, book, scope);
  }

  lemma EmptyShows(digest: Bytes -> string)
    ensures Inv(EMPTY, digest) && Shows(EMPTY, digest, map[])
  {
  }

  lemma {:induction false} RunShows(p: Policy, digest: Bytes -> string, ops: seq<Op>)
    requires FreshIds(p, digest, ops)
    ensures Inv(Run(p, digest, ops).0, digest) && Shows(Run(p, digest, ops).0, digest, Run(p, digest, ops).1)
  {
    hide Inv, Shows, Next, Record, Attempt;
    if ops == [] {
      EmptyShows(digest);
    } else {
      var n := |ops| - 1;
      forall k | 0 <= k < n ensures FreshId(Run(p, digest, ops[..n][..k]).0, ops[..n][k]) {
        assert ops[..n][..k] == ops[..k];
      }
      RunShows(p, digest, ops[..n]);
      NextShows(Run(p, digest, ops[..n]).0, p, digest, Run(p, digest, ops[..n]).1, ops[n]);
    }
  }

  /** Over every run, artifacts are a last-write-wins map per owner and session: each path's listed file
      has the digest and media type written last, and the bytes it holds are the bytes written last. */
  lemma LastWriteWins(p: Policy, digest: Bytes -> string, ops: seq<Op>, slot: Slot)
    requires FreshIds(p, digest, ops) && forall b, b' :: digest(b) == digest(b') ==> b == b'
    ensures var (s, book) := Run(p, digest, ops);
            && (slot in book <==> Current(s, slot).Some?)
            && (slot in book ==>
                  var id := Current(s, slot).value;
                  && s.files[id].digest == digest(book[slot].bytes) && s.files[id].media == book[slot].media
                  && s.files[id].size == |book[slot].bytes|
                  && (id in s.content ==> s.content[id] == book[slot].bytes))
  {
    hide Run, Current;
    RunShows(p, digest, ops);
  }

  // ------------------------------------------------------- quota and content

  /** An upload is refused exactly for its size, or else because the session's listing is full; what is accepted
      leaves the listing within its quota, one file longer. */
  lemma UploadIff(s: State, p: Policy, id: string, f: File, bytes: Bytes, store: bool)
    ensures var r, n := Upload(s, p, id, f, bytes, store), |Ids(s, f.slot.scope)|;
            && (r == Err(TooLarge) <==> |bytes| > p.maxFileBytes)
            && (r == Err(TooManyFiles) <==> |bytes| <= p.maxFileBytes && n >= p.maxFiles)
            && (r.Ok? <==> |bytes| <= p.maxFileBytes && n < p.maxFiles)
            && (r.Ok? ==> |Ids(r.value, f.slot.scope)| == n + 1 <= p.maxFiles)
            && (r.Ok? ==> (id in r.value.content <==> store || id in s.content))
  {
  }

  /** A publish that changes nothing is always accepted. Any other is refused exactly when the listing, without
      the files it supersedes, has no room for one more, or else for its size. */
  lemma PublishIff(s: State, p: Policy, id: string, f: File, bytes: Bytes)
    ensures var r := Publish(s, p, id, f, bytes);
            var room := |Others(s.files, Ids(s, f.slot.scope), f.slot)| < p.maxPublishFiles;
            && (Unchanged(s, f) ==> r == Ok(s))
            && (!Unchanged(s, f) ==>
                  && (r == Err(TooManyPublished) <==> !room)
                  && (r == Err(TooLarge) <==> room && |bytes| > p.maxFileBytes)
                  && (r.Ok? <==> room && |bytes| <= p.maxFileBytes))
  {
    hide Matching, Others, Unchanged, Replaced;
    Split(s.files, Ids(s, f.slot.scope), f.slot);
  }

  /** After a publish the listing is within the publish quota, unless the publish found nothing to change
      and uploads had already filled the listing beyond it. */
  lemma PublishQuotaIff(s: State, p: Policy, id: string, f: File, bytes: Bytes)
    requires Publish(s, p, id, f, bytes).Ok?
    ensures |Ids(Publish(s, p, id, f, bytes).value, f.slot.scope)| <= p.maxPublishFiles <==>
            !Unchanged(s, f) || |Ids(s, f.slot.scope)| <= p.maxPublishFiles
  {
    hide Matching, Others, Unchanged;
    Split(s.files, Ids(s, f.slot.scope), f.slot);
  }

  const SESSION := Scope("app", "user", "session")
  const A_TXT := Slot(SESSION, "me", "a.txt")
  const B_TXT := Slot(SESSION, "me", "b.txt")
  const ROOMY := Policy(10, 10, 1, 10)

  /** The state after the two uploads of the next lemma. */
  function TwoUploads(digest: Bytes -> string, x: Bytes, y: Bytes): State {
    State(map["a" := FileOf(A_TXT, "text/plain", x, digest), "b" := FileOf(B_TXT, "text/plain", y, digest)],
          map[SESSION := ["a", "b"]], map["a" := x, "b" := y])
  }

  lemma FirstUpload(digest: Bytes -> string, x: Bytes, store: bool)
    requires |x| <= 10
    ensures Next(EMPTY, ROOMY, digest, UploadOp("a", A_TXT, "text/plain", x, store)) ==
            State(map["a" := FileOf(A_TXT, "text/plain", x, digest)], map[SESSION := ["a"]],
                  if store then map["a" := x] else map[])
  {
    assert Ids(EMPTY, SESSION) + ["a"] == ["a"];
  }

  lemma TwoUploadsRun(digest: Bytes -> string, x: Bytes, y: Bytes)
    requires |x| <= 10 && |y| <= 10
    ensures var ops := [UploadOp("a", A_TXT, "text/plain", x, true), UploadOp("b", B_TXT, "text/plain", y, true)];
            Run(ROOMY, digest, ops).0 == TwoUploads(digest, x, y)
  {
    var a, b := UploadOp("a", A_TXT, "text/plain", x, true), UploadOp("b", B_TXT, "text/plain", y, true);
    assert [a, b][..1] == [a] && [a][..0] == [];
    var s1 := State(map["a" := FileOf(A_TXT, "text/plain", x, digest)], map[SESSION := ["a"]], map["a" := x]);
    FirstUpload(digest, x, true);
    assert Run(ROOMY, digest, [a]).0 == s1;
    assert Next(s1, ROOMY, digest, b) == TwoUploads(digest, x, y) by { assert ["a"] + ["b"] == ["a", "b"]; }
  }

  /** Two files are uploaded, the publish quota is one, and publishing the second one's own bytes is
      accepted beyond it. */
  lemma UnchangedPublishBeyondQuota(digest: Bytes -> string, x: Bytes, y: Bytes)
    requires |x| <= 10 && |y| <= 10
    ensures var ops := [UploadOp("a", A_TXT, "text/plain", x, true), UploadOp("b", B_TXT, "text/plain", y, true)];
            var s := Run(ROOMY, digest, ops).0;
            && Attempt(s, ROOMY, digest, PublishOp("c", B_TXT, "text/plain", y)) == Ok(s)
            && |Ids(s, SESSION)| > ROOMY.maxPublishFiles
  {
    hide Run;
    TwoUploadsRun(digest, x, y);
    var s := TwoUploads(digest, x, y);
    assert ["a", "b"][..1] == ["a"] && ["a"][..0] == [];
    assert Matching(s.files, [], B_TXT) == [];
    assert Matching(s.files, ["a"], B_TXT) == [];
    assert Matching(s.files, ["a", "b"], B_TXT) == ["b"];
  }

  /** A file is registered as metadata only, its own bytes are then published, and they do not read back. */
  lemma MetadataOnlyPublish(digest: Bytes -> string, x: Bytes)
    requires |x| <= 10
    ensures var s := Run(ROOMY, digest, [UploadOp("a", A_TXT, "text/plain", x, false)]).0;
            && Attempt(s, ROOMY, digest, PublishOp("b", A_TXT, "text/plain", x)) == Ok(s)
            && Current(s, A_TXT) == Some("a") && "a" !in s.content
  {
    var a := UploadOp("a", A_TXT, "text/plain", x, false);
    var s := State(map["a" := FileOf(A_TXT, "text/plain", x, digest)], map[SESSION := ["a"]], map[]);
    assert [a][..0] == [];
    FirstUpload(digest, x, false);
    assert ["a"][..0] == [] && Matching(s.files, [], A_TXT) == [];
    assert Matching(s.files, ["a"], A_TXT) == ["a"];
  }

  /** After a publish the path reads back as the published bytes, unless it was unchanged and its listed
      file is metadata only. */
  lemma PublishedBytesIff(s: State, p: Policy, digest: Bytes -> string, id: string, slot: Slot, media: string,
                          bytes: Bytes)
    requires Inv(s, digest) && id !in s.files && forall b, b' :: digest(b) == digest(b') ==> b == b'
    requires Publish(s, p, id, FileOf(slot, media, bytes, digest), bytes).Ok?
    ensures var s' := Publish(s, p, id, FileOf(slot, media, bytes, digest), bytes).value;
            var c := Current(s', slot);
            && c.Some? && (c.value in s'.content ==> s'.content[c.value] == bytes)
            && (c.value in s'.content <==>
                  !Unchanged(s, FileOf(slot, media, bytes, digest)) || Current(s, slot).value in s.content)
  {
    hide Current, Others, Matching;
    var f := FileOf(slot, media, bytes, digest);
    if !Unchanged(s, f) {
      ReplacedCurrent(s, digest, id, f, bytes, slot);
      Split(s.files, Ids(s, slot.scope), slot);
      assert ListOk(s, slot.scope);
    }
  }

  /** A file that is still listed after a step still holds the very bytes it held. */
  lemma StepKeepsContent(s: State, p: Policy, digest: Bytes -> string, op: Op, id: string)
    requires Inv(s, digest) && FreshId(s, op) && id in s.content && Listed(Next(s, p, digest, op), id)
    ensures id in Next(s, p, digest, op).content && Next(s, p, digest, op).content[id] == s.content[id]
  {
    hide Matching, Others, Current, ListOk;
    assert Listed(s, id);
    if op.PublishOp? {
      Split(s.files, Ids(s, op.slot.scope), op.slot);
    }
  }

  /** The operation supersedes the file, or deletes its session. */
  predicate Retires(s: State, p: Policy, digest: Bytes -> string, op: Op, id: string) {
    && id in s.files
    && if op.DeleteOp? then op.scope == s.files[id].slot.scope
       else
         && op.PublishOp? && op.slot == s.files[id].slot && Attempt(s, p, digest, op).Ok?
         && !Unchanged(s, FileOf(op.slot, op.media, op.bytes, digest))
  }

  /** A listed file leaves the listing exactly when it is superseded or its session is deleted. */
  lemma UnlistedIff(s: State, p: Policy, digest: Bytes -> string, op: Op, id: string)
    requires Inv(s, digest) && FreshId(s, op) && Listed(s, id)
    ensures !Listed(Next(s, p, digest, op), id) <==> Retires(s, p, digest, op, id)
  {
    hide Matching, Others, Current, Unchanged;
    assert ListOk(s, s.files[id].slot.scope);
    if op.PublishOp? { Split(s.files, Ids(s, op.slot.scope), op.slot); }
  }

  /** Nothing in the stretch from `i` to `j` supersedes the file or deletes its session. */
  ghost predicate LeftAlone(p: Policy, digest: Bytes -> string, ops: seq<Op>, i: nat, j: nat, id: string)
    requires i <= j <= |ops|
  {
    forall k :: i <= k < j ==> !Retires(Run(p, digest, ops[..k]).0, p, digest, ops[k], id)
  }

  /** From any point of any run, a file with content stays listed and keeps its exact bytes until it is
      superseded or its session is deleted. */
  lemma {:induction false} ListedKeepsBytes(p: Policy, digest: Bytes -> string, ops: seq<Op>, i: nat, j: nat,
                                            id: string)
    requires FreshIds(p, digest, ops) && i <= j <= |ops| && id in Run(p, digest, ops[..i]).0.content
    requires LeftAlone(p, digest, ops, i, j, id)
    ensures var s, s' := Run(p, digest, ops[..i]).0, Run(p, digest, ops[..j]).0;
            Listed(s', id) && id in s'.content && s'.content[id] == s.content[id]
    decreases j
  {
    hide Inv, Next, Listed, Retires, Attempt, Record, FreshId, Run;
    if i == j {
      PrefixShows(p, digest, ops, i);
      ContentIsListed(Run(p, digest, ops[..i]).0, digest, id);
    } else {
      ListedKeepsBytes(p, digest, ops, i, j - 1, id);
      PrefixShows(p, digest, ops, j - 1);
      RunStep(p, digest, ops, j);
      var s := Run(p, digest, ops[..j - 1]).0;
      assert FreshId(s, ops[j - 1]) && !Retires(s, p, digest, ops[j - 1], id);
      UnlistedIff(s, p, digest, ops[j - 1], id);
      StepKeepsContent(s, p, digest, ops[j - 1], id);
    }
  }

  lemma ContentIsListed(s: State, digest: Bytes -> string, id: string)
    requires Inv(s, digest) && id in s.content
    ensures Listed(s, id)
  {
  }

  lemma PrefixShows(p: Policy, digest: Bytes -> string, ops: seq<Op>, i: nat)
    requires FreshIds(p, digest, ops) && i <= |ops|
    ensures Inv(Run(p, digest, ops[..i]).0, digest)
  {
    hide Inv, Shows, Run, FreshId;
    var before := ops[..i];
    forall k | 0 <= k < |before| ensures FreshId(Run(p, digest, before[..k]).0, before[k]) {
      assert before[..k] == ops[..k];
    }
    RunShows(p, digest, before);
  }

  lemma RunStep(p: Policy, digest: Bytes -> string, ops: seq<Op>, j: nat)
    requires 0 < j <= |ops|
    ensures Run(p, digest, ops[..j]).0 == Next(Run(p, digest, ops[..j - 1]).0, p, digest, ops[j - 1])
  {
    hide Next, Record, Attempt;
    assert ops[..j][..j - 1] == ops[..j - 1];
  }

  // ---------------------------------------------------------------- eviction

  ghost function Held(content: map<string, Bytes>): nat
    decreases |content|
  {
    if content == map[] then 0
    else
      var k :| k in content;
      |content[k]| + Held(content - {k})
  }

  lemma {:induction false} HeldWithout(content: map<string, Bytes>, k: string)
    requires k in content
    ensures Held(content) == |content[k]| + Held(content - {k})
    decreases |content|
  {
    var l :| l in content && Held(content) == |content[l]| + Held(content - {l});
    if l != k {
      HeldWithout(content - {l}, k);
      HeldWithout(content - {k}, l);
      assert content - {l} - {k} == content - {k} - {l};
    }
  }

  function ListedIds(lists: map<Scope, seq<string>>): set<string> {
    set scope, i | scope in lists && 0 <= i < |lists[scope]| :: lists[scope][i]
  }

  lemma OldestExists(access: map<string, int>, ids: set<string>)
    requires ids != {} && ids <= access.Keys
    ensures exists x :: x in ids && forall y :: y in ids ==> access[x] <= access[y]
  {
    var x :| x in ids;
    if ids != {x} {
      OldestExists(access, ids - {x});
      var y :| y in ids - {x} && forall z :: z in ids - {x} ==> access[y] <= access[z];
      assert (access[x] <= access[y] && forall z :: z in ids ==> access[x] <= access[z])
             || (forall z :: z in ids ==> access[y] <= access[z]);
    }
  }

  /** Only listed files hold content, so there is never anything to evict. */
  lemma NothingToEvict(s: State, digest: Bytes -> string)
    requires Inv(s, digest)
    ensures s.content.Keys <= ListedIds(s.lists)
  {
    forall id | id in s.content ensures id in ListedIds(s.lists) {
      assert Listed(s, id);
      var scope := s.files[id].slot.scope;
      var i :| 0 <= i < |Ids(s, scope)| && Ids(s, scope)[i] == id;
    }
  }

  /** So the content ceiling is kept by an upload exactly when the upload fits under it as things stand. */
  lemma CeilingKeptIff(s: State, p: Policy, digest: Bytes -> string, id: string, f: File, bytes: Bytes)
    requires Inv(s, digest) && id !in s.files && Upload(s, p, id, f, bytes, true).Ok?
    ensures Held(Upload(s, p, id, f, bytes, true).value.content) <= p.maxContentBytes <==>
            Held(s.content) + |bytes| <= p.maxContentBytes
  {
    var content := Upload(s, p, id, f, bytes, true).value.content;
    HeldWithout(content, id);
    assert content - {id} == s.content;
  }

  /** So is it by a publish that changes something, with the superseded bytes taken off. */
  lemma CeilingKeptByPublishIff(s: State, p: Policy, digest: Bytes -> string, id: string, f: File, bytes: Bytes)
    requires Inv(s, digest) && id !in s.files && Publish(s, p, id, f, bytes).Ok? && !Unchanged(s, f)
    ensures var gone := Matching(s.files, Ids(s, f.slot.scope), f.slot);
            Held(Publish(s, p, id, f, bytes).value.content) <= p.maxContentBytes <==>
            Held(s.content - (set x | x in gone)) + |bytes| <= p.maxContentBytes
  {
    hide Held, Others, Matching, Unchanged;
    var gone := Matching(s.files, Ids(s, f.slot.scope), f.slot);
    var hidden := set x | x in gone;
    Split(s.files, Ids(s, f.slot.scope), f.slot);
    assert ListOk(s, f.slot.scope) && id !in hidden;
    var content := Publish(s, p, id, f, bytes).value.content;
    assert content == s.content[id := bytes] - hidden;
    HeldWithout(content, id);
    assert content - {id} == s.content - hidden;
  }

  /** One upload larger than the ceiling is held in full. */
  lemma CeilingExceeded(p: Policy, id: string, f: File, bytes: Bytes)
    requires p.maxContentBytes < |bytes| <= p.maxFileBytes && p.maxFiles > 0
    ensures Upload(EMPTY, p, id, f, bytes, true).Ok?
    ensures Held(Upload(EMPTY, p, id, f, bytes, true).value.content) > p.maxContentBytes
  {
    var content := Upload(EMPTY, p, id, f, bytes, true).value.content;
    HeldWithout(content, id);
    assert content - {id} == map[];
  }

  class ArtifactStore {
    const policy: Policy
    const digest: Bytes -> string
    var files: map<string, File>
    var lists: map<Scope, seq<string>>
    var content: map<string, Bytes>
    var access: map<string, int>

    function Now(): State
      reads this
    {
      State(files, lists, content)
    }

    ghost predicate Valid()
      reads this
    {
      Inv(Now(), digest) && access.Keys == content.Keys
    }

    constructor (policy: Policy, digest: Bytes -> string)
      ensures Valid() && Now() == EMPTY && this.policy == policy && this.digest == digest
    {
      this.policy, this.digest := policy, digest;
      files, lists, content, access := map[], map[], map[], map[];
    }

    method ContentBytes() returns (n: nat)
      ensures n == Held(content)
    {
      var rest := content;
      n := 0;
      while rest != map[]
        invariant n + Held(rest) == Held(content)
        decreases |rest|
      {
        var k :| k in rest;
        HeldWithout(rest, k);
        n := n + |rest[k]|;
        rest := rest - {k};
      }
    }

    /** `_evict_if_needed`: drop unlisted content, least recently accessed first, until within the
        ceiling or nothing unlisted is left. */
    method Evict()
      requires access.Keys == content.Keys
      modifies `content, `access
      ensures access.Keys == content.Keys <= old(content).Keys
      ensures forall x :: x in content ==> content[x] == old(content)[x] && access[x] == old(access)[x]
      ensures forall x :: x in old(content) && x in ListedIds(lists) ==> x in content
      ensures Held(content) <= policy.maxContentBytes || content.Keys <= ListedIds(lists)
      ensures forall x, y :: x in old(content) && x !in content && y in content && y !in ListedIds(lists) ==>
                old(access)[x] <= old(access)[y]
      ensures old(content).Keys <= ListedIds(lists) ==> content == old(content)
    {
      hide Held, ListedIds;
      var current := ListedIds(lists);
      var total := ContentBytes();
      while total > policy.maxContentBytes
        invariant access.Keys == content.Keys <= old(content).Keys && total == Held(content)
        invariant forall x :: x in content ==> content[x] == old(content)[x] && access[x] == old(access)[x]
        invariant forall x :: x in old(content) && x in current ==> x in content
        invariant forall x, y :: x in old(content) && x !in content && y in content && y !in current ==>
                    old(access)[x] <= old(access)[y]
        decreases |content|
      {
        var victims := content.Keys - current;
        if victims == {} {
          assert forall x :: x in content.Keys && x !in current ==> x in victims;
          assert old(content).Keys <= current ==> content == old(content);
          return;
        }
        OldestExists(access, victims);
        var oldest :| oldest in victims && forall y :: y in victims ==> access[oldest] <= access[y];
        content := content - {oldest};
        access := access - {oldest};
        total := ContentBytes();
      }
      assert old(content).Keys <= current ==> content == old(content);
    }

    /** The shared part of `register`: record, listing, content, eviction. */
    method Store(id: string, f: File, bytes: Option<Bytes>, now: int)
      requires Valid() && id !in files && (bytes.Some? ==> f.digest == digest(bytes.value))
      modifies this
      ensures Valid() && Now() == Add(old(Now()), id, f, bytes)
    {
      hide Inv, ListedIds, Held;
      AddKeeps(Now(), digest, id, f, bytes);
      files := files[id := f];
      lists := lists[f.slot.scope := Ids(Now(), f.slot.scope) + [id]];
      if bytes.Some? {
        content := content[id := bytes.value];
        access := access[id := now];
        NothingToEvict(Now(), digest);
        Evict();
      }
    }

    method Register(id: string, scope: Scope, owner: string, path: Option<string>, media: string, bytes: Bytes,
                    store: bool,
                    now: int) returns (r: Result<File, Failure>)
      requires Valid() && id !in files
      modifies this
      ensures Valid()
      ensures path.None? ==> r == Err(PathRejected) && Now() == old(Now())
      ensures path.Some? ==>
                var f := FileOf(Slot(scope, owner, path.value), media, bytes, digest);
                match Upload(old(Now()), policy, id, f, bytes, store)
                case Ok(s) => r == Ok(f) && Now() == s
                case Err(e) => r == Err(e) && Now() == old(Now())
    {
      hide Inv;
      if path.None? { return Err(PathRejected); }
      var f := FileOf(Slot(scope, owner, path.value), media, bytes, digest);
      if |bytes| > policy.maxFileBytes { return Err(TooLarge); }
      if |Ids(Now(), scope)| >= policy.maxFiles { return Err(TooManyFiles); }
      Store(id, f, if store then Some(bytes) else None, now);
      return Ok(f);
    }

    method RegisterProduced(id: string, scope: Scope, owner: string, path: Option<string>, media: string,
                            bytes: Bytes, now: int)
      returns (r: Result<(File, bool), Failure>)
      requires Valid() && id !in files
      modifies this
      ensures Valid()
      ensures path.None? ==> r == Err(PathRejected) && Now() == old(Now())
      ensures path.Some? ==>
                var f := FileOf(Slot(scope, owner, path.value), media, bytes, digest);
                match Publish(old(Now()), policy, id, f, bytes)
                case Ok(s) => r.Ok? && r.value.1 == !Unchanged(old(Now()), f) && Now() == s
                case Err(e) => r == Err(e) && Now() == old(Now())
    {
      hide Inv, Matching, Others, Add, Replaced;
      if path.None? { return Err(PathRejected); }
      ghost var s := Now();
      var f := FileOf(Slot(scope, owner, path.value), media, bytes, digest);
      var current := Ids(Now(), scope);
      var matching := Matching(files, current, f.slot);
      if matching != [] {
        LastMatches(Now(), f.slot);
        var last := files[matching[|matching| - 1]];
        if last.digest == f.digest && last.media == f.media { return Ok((last, false)); }
      }
      if |current| - |matching| + 1 > policy.maxPublishFiles { return Err(TooManyPublished); }
      if |bytes| > policy.maxFileBytes { return Err(TooLarge); }
      ReplacedKeeps(s, digest, id, f, bytes);
      ListsOk(s, digest, scope);
      HidingReplaces(s, id, f, bytes);
      Store(id, f, Some(bytes), now);
      var hidden := set x | x in matching;
      var kept := Without(lists[scope], hidden);
      lists := lists[scope := kept];
      content := content - hidden;
      access := access - hidden;
      return Ok((f, true));
    }

    method DeleteSession(scope: Scope)
      requires Valid()
      modifies this
      ensures Valid() && Now() == Delete(old(Now()), scope)
    {
      hide Inv;
      DeleteKeeps(Now(), digest, scope);
      lists := lists - {scope};
      var gone := set x | x in files && files[x].slot.scope == scope;
      files, content, access := files - gone, content - gone, access - gone;
    }

    /** `read_content`: the bytes held for a file of this owner; anything else looks missing. */
    method ReadContent(id: string, owner: Option<string>, now: int) returns (r: Option<Bytes>)
      requires Valid()
      modifies `access
      ensures Valid() && Now() == old(Now())
      ensures r.Some? <==> id in files && (owner.Some? ==> files[id].slot.owner == owner.value) && id in content
      ensures r.Some? ==> r.value == content[id]
    {
      if id !in files || (owner.Some? && files[id].slot.owner != owner.value) { return None; }
      if id in content { access := access[id := now]; }
      if id !in content { return None; }
      return Some(content[id]);
    }
  }

  function Without(ids: seq<string>, hidden: set<string>): seq<string> {
    if ids == [] then []
    else Without(ids[..|ids| - 1], hidden) + (if ids[|ids| - 1] in hidden then [] else [ids[|ids| - 1]])
  }

  lemma LastMatches(s: State, slot: Slot)
    ensures var m := Matching(s.files, Ids(s, slot.scope), slot);
            && (m == [] <==> Current(s, slot).None?)
            && (m != [] ==> Current(s, slot) == Some(m[|m| - 1]) && m[|m| - 1] in s.files)
  {
  }

  lemma {:induction false} WithoutIsOthers(files: map<string, File>, ids: seq<string>, slot: Slot, hidden: set<string>)
    requires forall x :: x in ids ==> (x in hidden <==> IsFor(files, x, slot))
    ensures Without(ids, hidden) == Others(files, ids, slot)
  {
    if ids != [] {
      assert ids[|ids| - 1] in ids && forall x :: x in ids[..|ids| - 1] ==> x in ids;
      WithoutIsOthers(files, ids[..|ids| - 1], slot, hidden);
    }
  }

  lemma ListsOk(s: State, digest: Bytes -> string, scope: Scope)
    requires Inv(s, digest)
    ensures ListOk(s, scope)
  {
  }

  /** Adding the new version and then hiding the ones listed before is one replacement. */
  lemma HidingReplaces(s: State, id: string, f: File, bytes: Bytes)
    requires id !in s.files && ListOk(s, f.slot.scope)
    ensures var s1 := Add(s, id, f, Some(bytes));
            var gone := Matching(s.files, Ids(s, f.slot.scope), f.slot);
            var hidden := set x | x in gone;
            && f.slot.scope in s1.lists
            && State(s1.files, s1.lists[f.slot.scope := Without(s1.lists[f.slot.scope], hidden)], s1.content - hidden)
               == Replaced(s, id, f, bytes)
  {
    hide Matching, Others, Distinct, Without;
    var ids := Ids(s, f.slot.scope);
    var gone := Matching(s.files, ids, f.slot);
    var hidden := set x | x in gone;
    HiddenListed(s, id, f);
    var s1 := Add(s, id, f, Some(bytes));
    var kept := Without(ids + [id], hidden);
    assert s1.lists[f.slot.scope := kept] == s.lists[f.slot.scope := kept];
  }

  lemma HiddenListed(s: State, id: string, f: File)
    requires id !in s.files && ListOk(s, f.slot.scope)
    ensures var ids := Ids(s, f.slot.scope);
            var gone := Matching(s.files, ids, f.slot);
            Without(ids + [id], set x | x in gone) == Others(s.files, ids, f.slot) + [id]
  {
    hide Matching, Others, Distinct;
    var ids := Ids(s, f.slot.scope);
    var gone := Matching(s.files, ids, f.slot);
    var hidden := set x | x in gone;
    Split(s.files, ids, f.slot);
    WithoutIsOthers(s.files, ids, f.slot, hidden);
    assert (ids + [id])[..|ids|] == ids;
  }
}

/**
 Auto-compaction of long histories (manager/coworker/compaction.py): where the verbatim tail begins, what
 is kept of the user's words over any chain of compactions, and what the model is sent.

 A message carries its role, its text, the ids of the tool calls it makes, the call it answers, and the
 length of its serialized form.
 */
module Compaction {
  import opened Wrappers
  import opened Text

  datatype Role = System | User | Assistant | Tool | Notice

  datatype Message = Message(role: Role, text: string, calls: seq<string>, answers: string, size: nat)

  type History = seq<Message>

  // ---------------------------------------------------------------- boundary

  function Size(h: History): nat { if h == [] then 0 else h[0].size + Size(h[1..]) }

  /** `estimate_tokens` */
  function Tokens(h: History): nat { Size(h) / 4 }

  function Start(h: History): nat { if h != [] && h[0].role == System then 1 else 0 }

  predicate Is(h: History, role: Role, from: nat, i: int) { from <= i < |h| && h[i].role == role }

  predicate Fits(h: History, keep: int, i: int) { 0 <= i <= |h| && Tokens(h[i..]) <= keep }

  /** The first message of this role, from `from` on, whose suffix fits. */
  ghost predicate Earliest(h: History, role: Role, from: nat, keep: int, i: int) {
    Is(h, role, from, i) && Fits(h, keep, i) && forall j :: Is(h, role, from, j) && j < i ==> !Fits(h, keep, j)
  }

  ghost predicate NoneFits(h: History, role: Role, from: nat, keep: int) {
    forall i :: Is(h, role, from, i) ==> !Fits(h, keep, i)
  }

  ghost predicate Last(h: History, role: Role, from: nat, i: int) {
    Is(h, role, from, i) && forall j :: Is(h, role, from, j) ==> j <= i
  }

  ghost predicate NoneOf(h: History, role: Role, from: nat) { forall i :: !Is(h, role, from, i) }

  /** Inside the last turn: its earliest step that fits, else its last step, else its user message. */
  ghost predicate PickedInside(h: History, keep: int, u: nat, b: nat) {
    || Earliest(h, Assistant, u + 1, keep, b)
    || (NoneFits(h, Assistant, u + 1, keep) && Last(h, Assistant, u + 1, b))
    || (NoneOf(h, Assistant, u + 1) && b == u)
  }

  /** With no user message: the earliest step that fits, unless that is message 0, else the last step. */
  ghost predicate PickedStep(h: History, keep: int, b: nat) {
    || (Earliest(h, Assistant, Start(h), keep, b) && b != 0)
    || ((NoneFits(h, Assistant, Start(h), keep) || Earliest(h, Assistant, Start(h), keep, 0))
        && Last(h, Assistant, Start(h), b))
  }

  /** The candidate that `pick_boundary` settles on. */
  ghost predicate Picked(h: History, keep: int, b: nat) {
    || Earliest(h, User, Start(h), keep, b)
    || (NoneFits(h, User, Start(h), keep) && exists u :: Last(h, User, Start(h), u) && PickedInside(h, keep, u, b))
    || (NoneOf(h, User, Start(h)) && PickedStep(h, keep, b))
  }

  /** A suffix fits exactly when a quarter of its serialized length, rounded down, is within the budget. */
  lemma FitsIff(h: History, keep: int, i: nat)
    requires i <= |h|
    ensures Fits(h, keep, i) <==> Size(h[i..]) < 4 * (keep + 1)
  {
  }

  /** A shorter suffix has no more tokens. */
  lemma {:induction false} SuffixFits(h: History, keep: int, i: nat, j: nat)
    requires i <= j <= |h| && Fits(h, keep, i)
    ensures Fits(h, keep, j)
  {
    SizeShrinks(h[i..], j - i);
    assert h[i..][j - i..] == h[j..];
  }

  lemma {:induction false} SizeShrinks(h: History, k: nat)
    requires k <= |h|
    ensures Size(h[k..]) <= Size(h)
  {
    if k > 0 {
      SizeShrinks(h[1..], k - 1);
      assert h[1..][k - 1..] == h[k..];
    } else {
      assert h[0..] == h;
    }
  }

  lemma {:induction false} SizeOfLast(h: History)
    requires h != []
    ensures Size(h) == Size(h[..|h| - 1]) + h[|h| - 1].size
  {
    if |h| > 1 {
      SizeOfLast(h[1..]);
      assert h[1..][..|h| - 2] == h[..|h| - 1][1..];
    }
  }

  method EstimateTokens(h: History) returns (n: nat)
    ensures n == Tokens(h) && 4 * n <= Size(h) < 4 * n + 4
  {
    var total := 0;
    for i := 0 to |h|
      invariant total == Size(h[..i])
    {
      SizeOfLast(h[..i + 1]);
      assert h[..i + 1][..i] == h[..i];
      total := total + h[i].size;
    }
    assert h[..|h|] == h;
    return total / 4;
  }

  /** `_turn_starts` */
  method TurnStarts(h: History, start: nat) returns (users: seq<nat>, assistants: seq<nat>)
    requires start <= |h|
    ensures Listing(h, User, start, users) && Listing(h, Assistant, start, assistants)
  {
    hide Is, Listing;
    users, assistants := [], [];
    NothingListed(h, User, start);
    NothingListed(h, Assistant, start);
    for i := start to |h|
      invariant Listing(h[..i], User, start, users) && Listing(h[..i], Assistant, start, assistants)
    {
      assert h[..i + 1][..i] == h[..i] && h[..i + 1][i] == h[i];
      ListingGrows(h[..i + 1], User, start, users);
      ListingGrows(h[..i + 1], Assistant, start, assistants);
      if h[i].role == User {
        users := users + [i];
      } else if h[i].role == Assistant {
        assistants := assistants + [i];
      }
    }
    assert h[..|h|] == h;
  }

  /** All indices of the role, in increasing order. */
  ghost predicate Listing(h: History, role: Role, from: nat, at: seq<nat>) {
    && (forall k, l :: 0 <= k < l < |at| ==> at[k] < at[l])
    && (forall i: nat :: i in at <==> Is(h, role, from, i))
  }

  lemma NothingListed(h: History, role: Role, from: nat)
    requires from <= |h|
    ensures Listing(h[..from], role, from, [])
  {
  }

  lemma ListingGrows(h: History, role: Role, from: nat, at: seq<nat>)
    requires h != [] && from < |h| && Listing(h[..|h| - 1], role, from, at)
    ensures Listing(h, role, from, if h[|h| - 1].role == role then at + [|h| - 1] else at)
  {
    hide Is;
    var n := |h| - 1;
    var at' := if h[n].role == role then at + [n] else at;
    forall k, l | 0 <= k < l < |at'| ensures at'[k] < at'[l] {
      assert at'[k] == at[k] && at[k] in at;
      IsBefore(h, role, from, at'[k]);
    }
    forall i: nat ensures i in at' <==> Is(h, role, from, i) {
      IsBefore(h, role, from, i);
      assert i in at' <==> i in at || (i == n && h[n].role == role);
    }
  }

  lemma IsBefore(h: History, role: Role, from: nat, i: int)
    requires h != [] && from < |h|
    ensures Is(h, role, from, i) <==> Is(h[..|h| - 1], role, from, i) || (i == |h| - 1 && h[i].role == role)
    ensures Is(h[..|h| - 1], role, from, i) ==> i < |h| - 1
  {
  }

  /** `_fit` */
  method Fit(h: History, keep: int, role: Role, from: nat, at: seq<nat>) returns (r: Option<nat>)
    requires Listing(h, role, from, at)
    ensures r.None? ==> NoneFits(h, role, from, keep)
    ensures r.Some? ==> Earliest(h, role, from, keep, r.value)
  {
    hide Tokens;
    for k := 0 to |at|
      invariant forall l :: 0 <= l < k ==> !Fits(h, keep, at[l])
    {
      assert at[k] in at;
      var tokens := EstimateTokens(h[at[k]..]);
      if tokens <= keep {
        assert Fits(h, keep, at[k]);
        return Some(at[k]);
      }
    }
    return None;
  }

  lemma LastListed(h: History, role: Role, from: nat, at: seq<nat>)
    requires Listing(h, role, from, at)
    ensures at == [] ==> NoneOf(h, role, from)
    ensures at != [] ==> Last(h, role, from, at[|at| - 1])
  {
    if at != [] {
      forall j | Is(h, role, from, j) ensures j <= at[|at| - 1] {
        var k :| 0 <= k < |at| && at[k] == j;
      }
    }
  }

  method After(h: History, at: seq<nat>, u: nat) returns (inside: seq<nat>)
    requires Listing(h, Assistant, Start(h), at) && u >= Start(h)
    ensures Listing(h, Assistant, u + 1, inside)
  {
    inside := [];
    for k := 0 to |at|
      invariant forall x: nat :: x in inside <==> x in at[..k] && x > u
      invariant forall l, m :: 0 <= l < m < |inside| ==> inside[l] < inside[m]
    {
      forall l | 0 <= l < |inside| ensures inside[l] < at[k] {
        assert inside[l] in inside;
        var m :| 0 <= m < k && at[m] == inside[l];
      }
      assert at[..k + 1] == at[..k] + [at[k]];
      if at[k] > u { inside := inside + [at[k]]; }
    }
    assert at[..|at|] == at;
  }

  /** `pick_boundary` */
  method PickBoundary(h: History, keep: int) returns (r: Option<nat>)
    ensures match r
            case Some(b) => Picked(h, keep, b) && b > if h != [] && h[0].role == System then 1 else 0
            case None => forall b: nat :: Picked(h, keep, b) ==> b <= if h != [] && h[0].role == System then 1 else 0
  {
    hide Fits, Listing, Is;
    var start := Start(h);
    var users, assistants := TurnStarts(h, start);
    LastListed(h, User, start, users);
    LastListed(h, Assistant, start, assistants);
    var boundary := Fit(h, keep, User, start, users);
    if boundary.None? && users != [] {
      var u := users[|users| - 1];
      UserAfterStart(h, u);
      var inside := After(h, assistants, u);
      LastListed(h, Assistant, u + 1, inside);
      boundary := Fit(h, keep, Assistant, u + 1, inside);
      if boundary.None? {
        boundary := Some(if inside != [] then inside[|inside| - 1] else u);
      }
    }
    if boundary.None? {
      boundary := Fit(h, keep, Assistant, start, assistants);
      if boundary.None? || boundary.value == 0 {
        boundary := if assistants != [] then Some(assistants[|assistants| - 1]) else None;
      }
    }
    if boundary.Some? { PickedUnique(h, keep); } else { NothingPicked(h, keep); }
    if boundary.None? || boundary.value <= start { return None; }
    return boundary;
  }

  lemma UserAfterStart(h: History, u: nat)
    requires Last(h, User, Start(h), u)
    ensures u >= Start(h)
  {
  }

  lemma NothingPicked(h: History, keep: int)
    requires NoneOf(h, User, Start(h)) && NoneOf(h, Assistant, Start(h))
    ensures forall b :: !Picked(h, keep, b)
  {
  }

  /** The rules leave no choice. */
  lemma PickedUnique(h: History, keep: int)
    ensures forall b, b' :: Picked(h, keep, b) && Picked(h, keep, b') ==> b == b'
  {
    hide Fits;
  }

  // ------------------------------------------------------- what the pick means

  predicate Heads(h: History, b: nat) { b < |h| && (h[b].role == User || h[b].role == Assistant) }

  /** When some user turn fits, the pick is the earliest such turn, and it and everything after it fit. */
  lemma EarliestTurnThatFits(h: History, keep: int, b: nat)
    requires Picked(h, keep, b) && !NoneFits(h, User, Start(h), keep)
    ensures Earliest(h, User, Start(h), keep, b)
    ensures forall i :: b <= i <= |h| ==> Fits(h, keep, i)
  {
    forall i | b <= i <= |h| ensures Fits(h, keep, i) { SuffixFits(h, keep, b, i); }
  }

  /** The tail never starts with a tool result, and the last turn is cut only when it does not fit. */
  lemma PickHeads(h: History, keep: int, b: nat)
    requires Picked(h, keep, b)
    ensures Heads(h, b)
    ensures forall u :: Last(h, User, Start(h), u) && b > u ==> !Fits(h, keep, u)
  {
    hide Fits;
  }

  /** With no user message and everything fitting from an assistant message 0, the earliest fitting step
      is not taken; otherwise it is. */
  lemma StepPickIff(h: History, keep: int, first: nat, b: nat)
    requires NoneOf(h, User, Start(h)) && Earliest(h, Assistant, Start(h), keep, first) && Picked(h, keep, b)
    ensures b == first <==> first != 0 || Last(h, Assistant, Start(h), 0)
  {
    hide Fits;
  }

  const TWO_STEPS: History := [Message(Assistant, "hello", [], "", 8), Message(Assistant, "again", [], "", 8)]

  /** Everything fits the budget, and the first step is dropped all the same. */
  lemma FittingStepDropped()
    ensures Fits(TWO_STEPS, 100, 0) && Picked(TWO_STEPS, 100, 1)
  {
    assert Size(TWO_STEPS[0..]) == 16 by { assert TWO_STEPS[0..][1..][1..] == []; }
    assert Is(TWO_STEPS, Assistant, 0, 0) && Is(TWO_STEPS, Assistant, 0, 1);
    assert NoneOf(TWO_STEPS, User, 0);
  }

  // ------------------------------------------------------ the user's messages

  const CLIP := 600
  const LIMIT := 40

  /** Runs of white space become one space; long texts are cut. */
  function Kept(text: string): string {
    var t := Joined(Words(text, ""));
    if |t| > CLIP then t[..CLIP - 1] + "\U{2026}" else t
  }

  predicate Speaks(m: Message) { m.role == User && Joined(Words(m.text, "")) != "" }

  /** `extract_user_messages`, one message at a time. */
  function Extract(span: History): seq<string> {
    if span == [] then []
    else Extract(span[..|span| - 1]) + (if Speaks(span[|span| - 1]) then [Kept(span[|span| - 1].text)] else [])
  }

  method ExtractUserMessages(span: History) returns (out: seq<string>)
    ensures out == Extract(span)
  {
    hide Kept, Speaks;
    out := [];
    for i := 0 to |span|
      invariant out == Extract(span[..i])
    {
      assert span[..i + 1][..i] == span[..i];
      if Speaks(span[i]) { out := out + [Kept(span[i].text)]; }
    }
    assert span[..|span|] == span;
  }

  lemma {:induction false} ExtractConcat(a: History, b: History)
    ensures Extract(a + b) == Extract(a) + Extract(b)
  {
    hide Kept, Speaks;
    if b == [] {
      assert a + b == a;
    } else {
      var n := |b| - 1;
      assert (a + b)[..|a + b| - 1] == a + b[..n];
      ExtractConcat(a, b[..n]);
    }
  }

  /** A message with something to keep: the user's, with any text at all. */
  predicate HasWords(m: Message) { m.role == User && NonSpace(m.text) != "" }

  function Speakers(span: History): seq<nat> {
    if span == [] then []
    else
      var n := |span| - 1;
      if HasWords(span[n]) then Speakers(span[..n]) + [n] else Speakers(span[..n])
  }

  /** `ids` are, in order, exactly the messages of the span that have words. */
  predicate AreSpeakers(span: History, ids: seq<nat>) {
    && (forall i, j :: 0 <= i < j < |ids| ==> ids[i] < ids[j])
    && (forall i :: 0 <= i < |ids| ==> ids[i] < |span|)
    && (forall k :: 0 <= k < |span| ==> (k in ids <==> HasWords(span[k])))
  }

  lemma OneMore(span: History, m: Message, ids: seq<nat>)
    requires AreSpeakers(span, ids)
    ensures AreSpeakers(span + [m], if HasWords(m) then ids + [|span|] else ids)
  {
    hide HasWords;
    var span', n := span + [m], |span|;
    var ids' := if HasWords(m) then ids + [n] else ids;
    forall k | 0 <= k < |span'| ensures k in ids' <==> HasWords(span'[k]) {
      assert k in ids' <==> k in ids || (k == n && HasWords(m));
      if k < n { assert span'[k] == span[k]; }
    }
  }

  lemma {:induction false} SpeakersAre(span: History)
    ensures AreSpeakers(span, Speakers(span))
  {
    hide HasWords, AreSpeakers;
    if span == [] {
      assert AreSpeakers([], []) by { NoSpeakers(); }
    } else {
      var n := |span| - 1;
      SpeakersAre(span[..n]);
      OneMore(span[..n], span[n], Speakers(span[..n]));
      assert span[..n] + [span[n]] == span;
    }
  }

  lemma NoSpeakers()
    ensures AreSpeakers([], [])
  {
  }

  /** `t` says what `text` says: the same words with one blank between them, and at most 600 characters, the
      last of them an ellipsis when something was cut off. */
  ghost predicate KeepsText(t: string, text: string) {
    exists full :: SingleSpaced(full) && Words(full, "") == Words(text, "")
                   && if |full| <= 600 then t == full else t == full[..599] + "\U{2026}"
  }

  lemma KeptKeeps(text: string)
    ensures KeepsText(Kept(text), text)
    ensures Joined(Words(text, "")) != "" <==> NonSpace(text) != ""
  {
    var words := Words(text, "");
    WordsCover(text, "");
    WordsJoined(words);
    JoinedSpaced(words);
    var full := Joined(words);
    assert SingleSpaced(full) && Words(full, "") == Words(text, "");
    if words != [] { assert Concat(words) == words[0] + Concat(words[1..]) && words[0] != ""; }
  }

  /** What is extracted from a span: one text for each user message that has any, in order, with its words. */
  lemma {:induction false} ExtractKeepsWords(span: History)
    ensures |Extract(span)| == |Speakers(span)|
    ensures forall k :: 0 <= k < |Extract(span)| ==>
              Speakers(span)[k] < |span| && KeepsText(Extract(span)[k], span[Speakers(span)[k]].text)
  {
    hide KeepsText, Kept, Words, Joined, NonSpace;
    if span != [] {
      var n := |span| - 1;
      ExtractKeepsWords(span[..n]);
      KeptKeeps(span[n].text);
    }
  }

  function Newest(s: seq<string>): seq<string> { if |s| <= LIMIT then s else s[|s| - LIMIT..] }

  /** `_cap_user_messages` */
  function Cap(messages: seq<string>, dropped: nat): (seq<string>, nat) {
    if |messages| <= LIMIT then (messages, dropped)
    else (messages[|messages| - LIMIT..], dropped + |messages| - LIMIT)
  }

  // --------------------------------------------------------------- compaction

  datatype State = State(boundary: nat, summary: string, users: seq<string>, dropped: nat, trimmed: bool)

  function From(prior: Option<State>): nat { if prior.Some? then prior.value.boundary else 0 }
  function Users(prior: Option<State>): seq<string> { if prior.Some? then prior.value.users else [] }
  function Dropped(prior: Option<State>): nat { if prior.Some? then prior.value.dropped else 0 }

  /** What both kinds of compaction do with the span between the old and the new boundary. */
  predicate Compacts(h: History, prior: Option<State>, s: State) {
    && From(prior) < s.boundary && Heads(h, s.boundary)
    && (s.users, s.dropped) == Cap(Users(prior) + Extract(h[From(prior)..s.boundary]), Dropped(prior))
  }

  /** `build_state`, given what the summarizer returns; `Err` when it fails. */
  method BuildState(h: History, keep: int, prior: Option<State>, summary: Option<string>)
    returns (r: Result<Option<State>, string>)
    ensures r.Ok? && r.value.Some? ==>
              var s := r.value.value;
              && Compacts(h, prior, s) && Picked(h, keep, s.boundary) && s.boundary > Start(h)
              && !s.trimmed && summary == Some(s.summary)
    ensures r == Ok(None) <==>
            forall b: nat :: Picked(h, keep, b) ==> b <= Start(h) || (prior.Some? && b <= From(prior))
    ensures r.Err? ==> summary.None?
  {
    hide Extract, Picked;
    var boundary := PickBoundary(h, keep);
    PickedUnique(h, keep);
    if boundary.None? || (prior.Some? && boundary.value <= prior.value.boundary) { return Ok(None); }
    PickHeads(h, keep, boundary.value);
    if summary.None? { return Err("summarizer returned an empty summary"); }
    var span := h[From(prior)..boundary.value];
    var users := ExtractUserMessages(span);
    var capped := Cap(Users(prior) + users, Dropped(prior));
    return Ok(Some(State(boundary.value, summary.value, capped.0, capped.1, false)));
  }

  /** How far a trim wants to advance: the fraction, rounded down, at least one. */
  function Advance(remaining: nat, fraction: real): nat {
    var step := (remaining as real * fraction).Floor;
    if step < 1 then 1 else step
  }

  const TRIM_NOTE := "(Older turns were trimmed to fit the context window; no summary is available for them. "
                     + "Re-read files and re-run commands if earlier results are needed.)"

  /** `trim_state` */
  method TrimState(h: History, prior: Option<State>, fraction: real) returns (r: Option<State>)
    ensures r.Some? ==>
              var s := r.value;
              && Compacts(h, prior, s) && s.trimmed && |h| - From(prior) > 2
              && s.summary == (if prior.Some? && prior.value.summary != ""
                               then prior.value.summary + "\n\n" + TRIM_NOTE else TRIM_NOTE)
              && s.boundary >= From(prior) + Advance(|h| - From(prior), fraction)
              && forall i :: From(prior) + Advance(|h| - From(prior), fraction) <= i < s.boundary ==> !Heads(h, i)
    ensures r.None? ==>
              || |h| - From(prior) <= 2
              || forall i: nat :: i >= From(prior) + Advance(|h| - From(prior), fraction) ==> !Heads(h, i)
  {
    hide Extract, Advance;
    var start := From(prior);
    if |h| - start <= 2 { return None; }
    var target := start + Advance(|h| - start, fraction);
    AdvancePositive(|h| - start, fraction);
    var i := target;
    while i < |h| && h[i].role != User && h[i].role != Assistant
      invariant target <= i
      invariant forall j :: target <= j < i ==> !Heads(h, j)
    {
      i := i + 1;
    }
    if i >= |h| { return None; }
    var users := ExtractUserMessages(h[start..i]);
    var capped := Cap(Users(prior) + users, Dropped(prior));
    var before := if prior.Some? && prior.value.summary != "" then prior.value.summary + "\n\n" else "";
    return Some(State(i, before + TRIM_NOTE, capped.0, capped.1, true));
  }

  /** The fraction rounded down, but at least one. */
  lemma AdvancePositive(remaining: nat, fraction: real)
    ensures Advance(remaining, fraction) >= 1
    ensures remaining as real * fraction < 1.0 ==> Advance(remaining, fraction) == 1
    ensures remaining as real * fraction >= 1.0 ==>
              Advance(remaining, fraction) as real <= remaining as real * fraction
              < Advance(remaining, fraction) as real + 1.0
  {
  }

  // -------------------------------------------------- chains of compactions

  /** The state says about `h` what one extraction over everything before the boundary would say. */
  predicate Faithful(h: History, s: State) {
    && 0 < s.boundary && Heads(h, s.boundary)
    && s.users == Newest(Extract(h[..s.boundary]))
    && |s.users| + s.dropped == |Extract(h[..s.boundary])|
  }

  lemma NewestConcat(a: seq<string>, b: seq<string>)
    ensures Newest(Newest(a) + b) == Newest(a + b)
  {
  }

  /** Capping what was already capped is capping the whole. */
  lemma CapNewest(all: seq<string>, more: seq<string>, dropped: nat)
    requires |Newest(all)| + dropped == |all|
    ensures var capped := Cap(Newest(all) + more, dropped);
            capped.0 == Newest(all + more) && |capped.0| + capped.1 == |all + more|
  {
    NewestConcat(all, more);
  }

  lemma CompactKeepsFaithful(h: History, h': History, prior: Option<State>, s: State)
    requires h <= h' && (prior.Some? ==> Faithful(h, prior.value)) && Compacts(h', prior, s)
    ensures Faithful(h', s)
  {
    hide Extract, Cap, Newest;
    var from := From(prior);
    var all := Extract(h'[..from]);
    assert h'[..s.boundary] == h'[..from] + h'[from..s.boundary];
    ExtractConcat(h'[..from], h'[from..s.boundary]);
    if prior.Some? {
      assert h'[..from] == h[..from];
    } else {
      assert h'[..0] == [];
      ExtractNone();
    }
    CapNewest(all, Extract(h'[from..s.boundary]), Dropped(prior));
  }

  lemma ExtractNone()
    ensures Extract([]) == [] && Newest([]) == []
  {
  }

  /** Compactions number 0, 1, ... of one session, each on the history as it then was. */
  predicate IsChain(hs: seq<History>, states: seq<State>) {
    && |hs| == |states|
    && (forall k :: 0 <= k < |states| ==> Compacts(hs[k], if k == 0 then None else Some(states[k - 1]), states[k]))
    && (forall k :: 0 < k < |hs| ==> hs[k - 1] <= hs[k])
  }

  /** Over any chain of summaries and trims on a growing history, the kept messages are the last 40 of a
      one-shot extraction, kept plus dropped is its length, and the boundary strictly increases. */
  lemma {:induction false} ChainIsOneShot(hs: seq<History>, states: seq<State>, k: nat)
    requires IsChain(hs, states) && k < |states|
    ensures Faithful(hs[k], states[k])
    ensures forall j :: 0 <= j < k ==> states[j].boundary < states[k].boundary
  {
    hide Faithful, Cap, Extract;
    if k == 0 {
      CompactKeepsFaithful(hs[0], hs[0], None, states[0]);
    } else {
      ChainIsOneShot(hs, states, k - 1);
      CompactKeepsFaithful(hs[k - 1], hs[k], Some(states[k - 1]), states[k]);
    }
  }

  /** Over any such chain, the state holds the words of the last 40 user messages before its boundary, in
      order, and counts the others. */
  lemma ChainKeepsWords(hs: seq<History>, states: seq<State>, k: nat)
    requires IsChain(hs, states) && k < |states|
    ensures states[k].boundary <= |hs[k]|
    ensures var ids, s := Speakers(hs[k][..states[k].boundary]), states[k];
            && |s.users| == (if |ids| <= 40 then |ids| else 40) && |s.users| + s.dropped == |ids|
            && forall j :: 0 <= j < |s.users| ==>
                 ids[s.dropped + j] < |hs[k]| && KeepsText(s.users[j], hs[k][ids[s.dropped + j]].text)
  {
    hide Extract, KeepsText, Speakers;
    ChainIsOneShot(hs, states, k);
    ExtractKeepsWords(hs[k][..states[k].boundary]);
  }

  // ------------------------------------------------------------ outbound view

  /** `apply_to_outbound`, given the text of the compacted block. */
  function Outbound(h: History, state: Option<State>, block: Message): History {
    if state.None? || state.value.boundary <= 0 || state.value.boundary >= |h| then h
    else (if h != [] && h[0].role == System then [h[0]] else []) + [block] + h[state.value.boundary..]
  }

  /** A tool result follows, within its step, the assistant message that made the call. */
  predicate Answered(h: History, t: nat)
    requires t < |h|
  {
    exists a :: 0 <= a < t && Calls(h, a, t) && forall i :: a < i < t ==> !Heads(h, i)
  }

  predicate Calls(h: History, a: nat, t: nat)
    requires a < |h| && t < |h|
  {
    h[a].role == Assistant && h[t].answers in h[a].calls
  }

  predicate WellFormed(h: History) {
    forall t :: 0 <= t < |h| && h[t].role == Tool ==> Answered(h, t)
  }

  /** Compaction at any user or assistant message keeps every call with its results, in order, and so the
      view is well-formed as the history was. */
  lemma OutboundWellFormed(h: History, s: State, block: Message)
    requires WellFormed(h) && block.role == User && (s.boundary < |h| ==> Heads(h, s.boundary))
    ensures WellFormed(Outbound(h, Some(s), block))
  {
    var view := Outbound(h, Some(s), block);
    if 0 < s.boundary < |h| {
      var lead := |view| - (|h| - s.boundary);
      assert forall i :: lead <= i < |view| ==> view[i] == h[i - lead + s.boundary];
      forall t | 0 <= t < |view| && view[t].role == Tool ensures Answered(view, t) {
        var t0 := t - lead + s.boundary;
        assert Answered(h, t0);
        var a :| 0 <= a < t0 && Calls(h, a, t0) && forall i :: a < i < t0 ==> !Heads(h, i);
        assert a >= s.boundary;
        assert Calls(view, a - s.boundary + lead, t);
        assert forall i :: a - s.boundary + lead < i < t ==> Heads(view, i) == Heads(h, i - lead + s.boundary);
      }
    }
  }

  /** At every point of a chain, and after any further growth, the model is sent a well-formed view. */
  lemma ChainViewWellFormed(hs: seq<History>, states: seq<State>, k: nat, h: History, block: Message)
    requires IsChain(hs, states) && k < |states| && hs[k] <= h && WellFormed(h) && block.role == User
    ensures WellFormed(Outbound(h, Some(states[k]), block))
    ensures var b, lead := states[k].boundary, if h != [] && h[0].role == System then 2 else 1;
            var view := Outbound(h, Some(states[k]), block);
            && 0 < b < |h| && |view| == lead + |h| - b && h[b..] == view[lead..]
            && view[lead - 1] == block && (lead == 2 ==> view[0] == h[0])
  {
    hide Extract, Cap, WellFormed;
    ChainIsOneShot(hs, states, k);
    OutboundWellFormed(h, states[k], block);
  }
}

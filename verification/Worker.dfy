/**
 The container-private worker (haas/runtime/worker.py): an exclusive running marker, a receipt, a
 signature, then the marker's removal, with a crash possible after any file effect.

 The three files of one (generation, execution id) and the processes working on them form a transition
 system. A crash is a process that never steps again. `PrivateWorker.Run` is the same program as one
 imperative method, stopped after any number of its effects.
 */
module Worker {
  import opened Wrappers
  import opened Text

  // ------------------------------------------------------------------ values

  type Event = string

  /** The envelope's fields; `None` where the JSON value has the wrong type. */
  datatype Envelope = Envelope(version: int, generation: int, executionId: Option<string>, request: Option<string>)

  /** Canonical JSON, SHA-256 and HMAC under the generation token, as given functions. */
  datatype Suite = Suite(
    canonical: Event -> Bytes, parse: Bytes -> Option<Event>,
    digest: Envelope -> string, mac: (string, Bytes) -> string)

  const LF: Byte := 10
  const CR: Byte := 13

  predicate OneLine(b: Bytes) { LF !in b && CR !in b }

  /** JSON escapes line breaks and parses back; hex digests are words; digest and MAC do not collide. */
  ghost predicate Lawful(c: Suite) {
    && (forall e :: OneLine(c.canonical(e)) && c.parse(c.canonical(e)) == Some(e))
    && (forall v :: IsWord(c.digest(v)))
    && (forall v, v' :: c.digest(v) == c.digest(v') ==> v == v')
    && (forall d, b :: IsWord(c.mac(d, b)))
    && (forall d, b, d', b' :: c.mac(d, b) == c.mac(d', b') ==> d == d' && b == b')
  }

  // ------------------------------------------------------- receipt encoding

  function Encoded(c: Suite, events: seq<Event>): Bytes {
    if events == [] then [] else c.canonical(events[0]) + [LF] + Encoded(c, events[1..])
  }

  /** Index of the first line break, or the length. */
  function FirstBreak(b: Bytes): (i: nat)
    ensures i <= |b| && OneLine(b[..i]) && (i < |b| ==> b[i] == LF || b[i] == CR)
  {
    if b == [] || b[0] == LF || b[0] == CR then 0
    else
      var i := FirstBreak(b[1..]);
      assert b[..i + 1] == [b[0]] + b[1..][..i];
      i + 1
  }

  /** `bytes.splitlines` */
  function SplitLines(b: Bytes): seq<Bytes>
    decreases |b|
  {
    if b == [] then []
    else
      var i := FirstBreak(b);
      if i == |b| then [b]
      else if b[i] == CR && i + 1 < |b| && b[i + 1] == LF then [b[..i]] + SplitLines(b[i + 2..])
      else [b[..i]] + SplitLines(b[i + 1..])
  }

  /** Parse lines until one fails; says what was yielded and whether that was all. */
  function ParseLines(c: Suite, lines: seq<Bytes>): (seq<Event>, bool) {
    if lines == [] then ([], true)
    else
      match c.parse(lines[0])
      case None => ([], false)
      case Some(e) => var rest := ParseLines(c, lines[1..]); ([e] + rest.0, rest.1)
  }

  lemma {:induction false} FirstBreakIs(line: Bytes, rest: Bytes)
    requires OneLine(line)
    ensures FirstBreak(line + [LF] + rest) == |line|
  {
    var b := line + [LF] + rest;
    if line != [] {
      assert b[0] == line[0] && b[1..] == line[1..] + [LF] + rest;
      FirstBreakIs(line[1..], rest);
    }
  }

  lemma SplitFirst(line: Bytes, rest: Bytes)
    requires OneLine(line)
    ensures SplitLines(line + [LF] + rest) == [line] + SplitLines(rest)
  {
    var b := line + [LF] + rest;
    FirstBreakIs(line, rest);
    hide FirstBreak;
    assert b[|line|] == LF && b[..|line|] == line && b[|line| + 1..] == rest;
  }

  /** Reading back a receipt gives the events that were written. */
  lemma {:induction false} ReceiptRoundTrip(c: Suite, events: seq<Event>)
    requires Lawful(c)
    ensures ParseLines(c, SplitLines(Encoded(c, events))) == (events, true)
  {
    hide SplitLines;
    if events == [] {
      assert SplitLines([]) == [] by { NoLines(); }
    } else {
      SplitFirst(c.canonical(events[0]), Encoded(c, events[1..]));
      ReceiptRoundTrip(c, events[1..]);
      assert [events[0]] + events[1..] == events;
    }
  }

  lemma NoLines()
    ensures SplitLines([]) == []
  {
  }

  // -------------------------------------------------------- signature text

  function SignatureText(request: string, mac: string): string { request + " " + mac + "\n" }

  lemma SignatureRoundTrip(request: string, mac: string)
    requires IsWord(request) && IsWord(mac)
    ensures Words(SignatureText(request, mac), "") == [request, mac]
  {
    var tail := " " + mac + "\n";
    assert SignatureText(request, mac) == request + tail;
    WordsOf("", request, tail);
    assert tail[1..] == mac + "\n";
    WordsOf("", mac, "\n");
    assert "" + request == request && "" + mac == mac;
    assert "\n"[1..] == "";
  }

  // ------------------------------------------------------------- processes

  datatype Files = Files(receipt: Option<Bytes>, signature: Option<string>, running: Option<string>)

  /** `Refused` yields nothing; `Broken` yields some events, then fails. */
  datatype Outcome = Full(events: seq<Event>) | Broken(events: seq<Event>) | Refused(code: string)

  /** What the process does next. */
  datatype Pc =
    | Checking
    | Marking
    | Noting
    | Executing
    | Awaiting(call: nat)
    | Storing(events: seq<Event>)
    | Signing(events: seq<Event>)
    | Unlinking(events: seq<Event>)
    | Reading
    | Verifying(encoded: Bytes)
    | Finished(outcome: Outcome)

  /** `late`: the marker was created although a receipt was already there. */
  datatype Process = Process(envelope: Envelope, pc: Pc, late: bool)

  /** One executor call, recorded when it begins; `None` until it returns, and for good when it raises or the
      process crashes inside it. */
  datatype Execution = Execution(envelope: Envelope, events: Option<seq<Event>>, late: bool)

  datatype World = World(files: Files, processes: seq<Process>, log: seq<Execution>)

  const FRESH := World(Files(None, None, None), [], [])

  /** The verdict on a receipt and a signature that were both read. */
  function Replayed(c: Suite, envelope: Envelope, encoded: Bytes, signature: string): Outcome {
    var words := Words(signature, "");
    if |words| != 2 then Refused("private_worker_receipt_incomplete")
    else if words[0] != c.digest(envelope) then Refused("private_worker_execution_conflict")
    else if words[1] != c.mac(words[0], encoded) then Refused("private_worker_receipt_invalid")
    else
      var parsed := ParseLines(c, SplitLines(encoded));
      if parsed.1 then Full(parsed.0) else Broken(parsed.0)
  }

  function Begin(w: World, envelope: Envelope): World {
    w.(processes := w.processes + [Process(envelope, Checking, false)])
  }

  function At(w: World, i: nat, pc: Pc): World
    requires i < |w.processes|
  {
    w.(processes := w.processes[i := w.processes[i].(pc := pc)])
  }

  /** The next file effect or read of process `i`; `result` is what the executor would return, if asked. */
  function Next(c: Suite, w: World, i: nat, result: Option<seq<Event>>): (w': World)
    requires i < |w.processes|
    ensures |w'.processes| == |w.processes|
    ensures forall j :: 0 <= j < |w.processes| && j != i ==> w'.processes[j] == w.processes[j]
  {
    var p := w.processes[i];
    var f := w.files;
    match p.pc
    case Checking => At(w, i, if f.receipt.Some? || f.signature.Some? then Reading else Marking)
    case Marking =>
      if f.running.Some? then At(w, i, Finished(Refused("private_worker_execution_ambiguous")))
      else w.(files := f.(running := Some("")),
              processes := w.processes[i := p.(pc := Noting, late := f.receipt.Some?)])
    case Noting => At(w, i, Executing).(files := f.(running := Some(c.digest(p.envelope))))
    case Executing => At(w, i, Awaiting(|w.log|)).(log := w.log + [Execution(p.envelope, None, p.late)])
    case Awaiting(call) =>
      if result.None? || call >= |w.log| then At(w, i, Finished(Refused("private_worker_failed")))
      else At(w, i, Storing(result.value)).(log := w.log[call := w.log[call].(events := result)])
    case Storing(events) => At(w, i, Signing(events)).(files := f.(receipt := Some(Encoded(c, events))))
    case Signing(events) =>
      var d := c.digest(p.envelope);
      At(w, i, Unlinking(events)).(files := f.(signature := Some(SignatureText(d, c.mac(d, Encoded(c, events))))))
    case Unlinking(events) =>
      if f.running.None? then At(w, i, Finished(Refused("private_worker_failed")))
      else At(w, i, Finished(Full(events))).(files := f.(running := None))
    case Reading =>
      At(w, i, match f.receipt
               case None => Finished(Refused("private_worker_receipt_incomplete"))
               case Some(encoded) => Verifying(encoded))
    case Verifying(encoded) =>
      At(w, i, Finished(match f.signature
                        case None => Refused("private_worker_receipt_incomplete")
                        case Some(text) => Replayed(c, p.envelope, encoded, text)))
    case Finished(_) => w
  }

  datatype Move = BeginRun(envelope: Envelope) | StepOf(process: nat, result: Option<seq<Event>>)

  function Moved(c: Suite, w: World, m: Move): World {
    match m
    case BeginRun(envelope) => Begin(w, envelope)
    case StepOf(i, result) => if i < |w.processes| then Next(c, w, i, result) else w
  }

  function After(c: Suite, w: World, moves: seq<Move>): World {
    if moves == [] then w else Moved(c, After(c, w, moves[..|moves| - 1]), moves[|moves| - 1])
  }

  // ------------------------------------------------------------- invariant

  /** Holding the marker. */
  predicate Holds(p: Process) {
    p.pc.Noting? || p.pc.Executing? || p.pc.Awaiting? || p.pc.Storing? || p.pc.Signing? || p.pc.Unlinking?
  }

  /** The events were returned by the executor for this envelope. */
  ghost predicate Produced(log: seq<Execution>, envelope: Envelope, events: seq<Event>) {
    exists k :: 0 <= k < |log| && log[k].envelope == envelope && log[k].events == Some(events)
  }

  ghost predicate Signed(c: Suite, log: seq<Execution>, text: string) {
    exists v, events :: Produced(log, v, events) && text == Signature(c, v, events)
  }

  function Signature(c: Suite, v: Envelope, events: seq<Event>): string {
    SignatureText(c.digest(v), c.mac(c.digest(v), Encoded(c, events)))
  }

  /** What a process knows about the executor log. */
  ghost predicate ProcessOk(log: seq<Execution>, p: Process) {
    && (p.pc.Storing? || p.pc.Signing? || p.pc.Unlinking? ==> Produced(log, p.envelope, p.pc.events))
    && (p.pc.Finished? && p.pc.outcome.Full? ==> Produced(log, p.envelope, p.pc.outcome.events))
    && (p.pc.Noting? || p.pc.Executing? ==> (p.late <==> log != []))
    && (p.pc.Awaiting? ==> p.pc.call < |log| && log[p.pc.call].envelope == p.envelope && log[p.pc.call].events.None?)
  }

  predicate MarkerOk(w: World) {
    && (forall i :: 0 <= i < |w.processes| && Holds(w.processes[i]) ==> w.files.running.Some?)
    && (forall i, j :: 0 <= i < j < |w.processes| ==> !(Holds(w.processes[i]) && Holds(w.processes[j])))
  }

  /** Only the first execution can be in time; every later one overtook a receipt. */
  ghost predicate LogOk(c: Suite, w: World) {
    && (forall k :: 0 <= k < |w.log| ==> (w.log[k].late <==> k > 0))
    && (w.files.receipt.Some? ==> w.log != [])
    && (w.log != [] && w.files.receipt.None? ==> w.files.running.Some?)
    && (w.log != [] && w.files.receipt.None? ==>
          forall i :: 0 <= i < |w.processes| && Holds(w.processes[i]) ==>
            !w.processes[i].pc.Unlinking? && !w.processes[i].pc.Signing?)
    && (w.files.signature.Some? ==> Signed(c, w.log, w.files.signature.value))
  }

  ghost predicate Inv(c: Suite, w: World) {
    && MarkerOk(w) && LogOk(c, w)
    && (forall i :: 0 <= i < |w.processes| ==> ProcessOk(w.log, w.processes[i]))
  }

  lemma ProducedGrows(log: seq<Execution>, x: Execution)
    ensures forall v, events :: Produced(log, v, events) ==> Produced(log + [x], v, events)
    ensures x.events.Some? ==> Produced(log + [x], x.envelope, x.events.value)
  {
    forall v, events | Produced(log, v, events) ensures Produced(log + [x], v, events) {
      var k :| 0 <= k < |log| && log[k].envelope == v && log[k].events == Some(events);
      assert (log + [x])[k] == log[k];
    }
    assert (log + [x])[|log|] == x;
  }

  lemma SignedGrows(c: Suite, log: seq<Execution>, x: Execution, text: string)
    requires Signed(c, log, text)
    ensures Signed(c, log + [x], text)
  {
    var v, events :| Produced(log, v, events) && text == Signature(c, v, events);
    ProducedGrows(log, x);
    assert Produced(log + [x], v, events);
  }

  /** A process that moves without touching the log or the files. */
  lemma QuietKeeps(c: Suite, w: World, i: nat, pc: Pc)
    requires Inv(c, w) && i < |w.processes|
    requires ProcessOk(w.log, w.processes[i].(pc := pc))
    requires !Holds(w.processes[i].(pc := pc))
    ensures Inv(c, At(w, i, pc))
  {
    hide ProcessOk, Signed;
    assert forall j :: 0 <= j < |w.processes| ==> ProcessOk(w.log, w.processes[j]);
  }

  lemma MarkKeeps(c: Suite, w: World, i: nat, result: Option<seq<Event>>)
    requires Inv(c, w) && i < |w.processes| && w.processes[i].pc.Marking?
    ensures Inv(c, Next(c, w, i, result))
  {
    if w.files.running.Some? {
      QuietKeeps(c, w, i, Finished(Refused("private_worker_execution_ambiguous")));
    } else {
      hide Signed, Produced;
      assert forall j :: 0 <= j < |w.processes| ==> ProcessOk(w.log, w.processes[j]);
    }
  }

  lemma ExecuteKeeps(c: Suite, w: World, i: nat, result: Option<seq<Event>>)
    requires Inv(c, w) && i < |w.processes| && w.processes[i].pc.Executing?
    ensures Inv(c, Next(c, w, i, result))
  {
    hide Signed, Produced;
    var w' := Next(c, w, i, result);
    var x := Execution(w.processes[i].envelope, None, w.processes[i].late);
    assert ProcessOk(w.log, w.processes[i]);
    ProducedGrows(w.log, x);
    if w.files.signature.Some? { SignedGrows(c, w.log, x, w.files.signature.value); }
    forall j | 0 <= j < |w'.processes| ensures ProcessOk(w'.log, w'.processes[j]) {
      assert ProcessOk(w.log, w.processes[j]);
      assert j != i ==> !Holds(w.processes[j]);
    }
  }

  /** Filling in what a call returned takes nothing from what other calls produced. */
  lemma ProducedFills(log: seq<Execution>, k: nat, events: seq<Event>)
    requires k < |log| && log[k].events.None?
    ensures var log' := log[k := log[k].(events := Some(events))];
            && (forall v, es :: Produced(log, v, es) ==> Produced(log', v, es))
            && Produced(log', log[k].envelope, events)
  {
    var log' := log[k := log[k].(events := Some(events))];
    forall v, es | Produced(log, v, es) ensures Produced(log', v, es) {
      var l :| 0 <= l < |log| && log[l].envelope == v && log[l].events == Some(es);
      assert log'[l] == log[l];
    }
    assert log'[k].events == Some(events);
  }

  lemma SignedFills(c: Suite, log: seq<Execution>, k: nat, events: seq<Event>, text: string)
    requires Signed(c, log, text) && k < |log| && log[k].events.None?
    ensures Signed(c, log[k := log[k].(events := Some(events))], text)
  {
    var v, es :| Produced(log, v, es) && text == Signature(c, v, es);
    ProducedFills(log, k, events);
    assert Produced(log[k := log[k].(events := Some(events))], v, es);
  }

  lemma ReturnKeeps(c: Suite, w: World, i: nat, result: Option<seq<Event>>)
    requires Inv(c, w) && i < |w.processes| && w.processes[i].pc.Awaiting?
    ensures Inv(c, Next(c, w, i, result))
  {
    var p := w.processes[i];
    assert ProcessOk(w.log, p);
    if result.None? {
      QuietKeeps(c, w, i, Finished(Refused("private_worker_failed")));
    } else {
      hide Signed, Produced;
      var w' := Next(c, w, i, result);
      ProducedFills(w.log, p.pc.call, result.value);
      if w.files.signature.Some? { SignedFills(c, w.log, p.pc.call, result.value, w.files.signature.value); }
      forall j | 0 <= j < |w'.processes| ensures ProcessOk(w'.log, w'.processes[j]) {
        assert ProcessOk(w.log, w.processes[j]);
        assert j != i ==> !Holds(w.processes[j]);
      }
    }
  }

  /** The marker's holder writes a file. */
  lemma HolderKeeps(c: Suite, w: World, i: nat, result: Option<seq<Event>>)
    requires Inv(c, w) && i < |w.processes|
    requires w.processes[i].pc.Noting? || w.processes[i].pc.Storing? || w.processes[i].pc.Signing?
    ensures Inv(c, Next(c, w, i, result))
  {
    hide Produced, Encoded, SignatureText;
    var p := w.processes[i];
    var w' := Next(c, w, i, result);
    assert ProcessOk(w.log, p);
    if p.pc.Storing? { assert w.log != [] by { ProducedSome(w.log, p.envelope, p.pc.events); } }
    if p.pc.Signing? { assert w'.files.signature.value == Signature(c, p.envelope, p.pc.events); }
    forall j | 0 <= j < |w'.processes| ensures ProcessOk(w'.log, w'.processes[j]) {
      assert ProcessOk(w.log, w.processes[j]);
    }
  }

  lemma ProducedSome(log: seq<Execution>, v: Envelope, events: seq<Event>)
    requires Produced(log, v, events)
    ensures log != []
  {
  }

  lemma UnlinkKeeps(c: Suite, w: World, i: nat, result: Option<seq<Event>>)
    requires Inv(c, w) && i < |w.processes| && w.processes[i].pc.Unlinking?
    ensures Inv(c, Next(c, w, i, result))
  {
    hide Produced, Signed;
    var w' := Next(c, w, i, result);
    assert ProcessOk(w.log, w.processes[i]);
    forall j | 0 <= j < |w'.processes| ensures ProcessOk(w'.log, w'.processes[j]) {
      assert ProcessOk(w.log, w.processes[j]);
    }
  }

  /** A receipt is replayed in full only to the envelope it was signed for, and as it was executed. */
  lemma ReplayIsExecution(c: Suite, log: seq<Execution>, v: Envelope, encoded: Bytes, text: string)
    requires Lawful(c) && Signed(c, log, text)
    ensures Replayed(c, v, encoded, text).Full? ==> Produced(log, v, Replayed(c, v, encoded, text).events)
  {
    var v', events :| Produced(log, v', events) && text == Signature(c, v', events);
    var d := c.digest(v');
    SignatureRoundTrip(d, c.mac(d, Encoded(c, events)));
    ReceiptRoundTrip(c, events);
    hide Words, SplitLines, ParseLines, Encoded, Produced, IsWord, OneLine;
  }

  lemma ReadKeeps(c: Suite, w: World, i: nat, result: Option<seq<Event>>)
    requires Lawful(c) && Inv(c, w) && i < |w.processes|
    requires w.processes[i].pc.Checking? || w.processes[i].pc.Reading? || w.processes[i].pc.Verifying?
    ensures Inv(c, Next(c, w, i, result))
  {
    hide Replayed, Produced, Signed, Inv, Lawful;
    var p := w.processes[i];
    var pc := Next(c, w, i, result).processes[i].pc;
    if p.pc.Verifying? && w.files.signature.Some? {
      assert Signed(c, w.log, w.files.signature.value) by { SignatureOk(c, w); }
      ReplayIsExecution(c, w.log, p.envelope, p.pc.encoded, w.files.signature.value);
    }
    QuietKeeps(c, w, i, pc);
  }

  lemma SignatureOk(c: Suite, w: World)
    requires Inv(c, w)
    ensures w.files.signature.Some? ==> Signed(c, w.log, w.files.signature.value)
  {
  }

  lemma MoveKeeps(c: Suite, w: World, m: Move)
    requires Lawful(c) && Inv(c, w)
    ensures Inv(c, Moved(c, w, m))
  {
    match m
    case BeginRun(v) => BeginKeeps(c, w, v);
    case StepOf(i, result) =>
      hide Inv, Lawful;
      if i < |w.processes| {
        var pc := w.processes[i].pc;
        if pc.Marking? { MarkKeeps(c, w, i, result); }
        else if pc.Executing? { ExecuteKeeps(c, w, i, result); }
        else if pc.Awaiting? { ReturnKeeps(c, w, i, result); }
        else if pc.Noting? || pc.Storing? || pc.Signing? { HolderKeeps(c, w, i, result); }
        else if pc.Unlinking? { UnlinkKeeps(c, w, i, result); }
        else if pc.Checking? || pc.Reading? || pc.Verifying? { ReadKeeps(c, w, i, result); }
        else { assert Next(c, w, i, result) == w; }
      }
  }

  lemma BeginKeeps(c: Suite, w: World, v: Envelope)
    requires Inv(c, w)
    ensures Inv(c, Begin(w, v))
  {
    hide Signed, Produced;
    assert forall j :: 0 <= j < |w.processes| ==> ProcessOk(w.log, w.processes[j]);
  }

  lemma {:induction false} AfterKeeps(c: Suite, moves: seq<Move>)
    requires Lawful(c)
    ensures Inv(c, After(c, FRESH, moves))
  {
    hide Moved, Inv, Lawful;
    if moves == [] {
      FreshOk(c);
    } else {
      AfterKeeps(c, moves[..|moves| - 1]);
      MoveKeeps(c, After(c, FRESH, moves[..|moves| - 1]), moves[|moves| - 1]);
    }
  }

  lemma FreshOk(c: Suite)
    ensures Inv(c, FRESH)
  {
  }

  // ---------------------------------------------------------------- theorems

  /** Whatever the interleaving and the crashes: a run that yields the full stream yields the events the
      executor returned for this very envelope. */
  lemma FullStreamIsExecution(c: Suite, moves: seq<Move>, i: nat)
    requires Lawful(c)
    ensures var w := After(c, FRESH, moves);
            i < |w.processes| && w.processes[i].pc.Finished? && w.processes[i].pc.outcome.Full? ==>
              Produced(w.log, w.processes[i].envelope, w.processes[i].pc.outcome.events)
  {
    AfterKeeps(c, moves);
    var w := After(c, FRESH, moves);
    hide After, Produced;
    if i < |w.processes| { assert ProcessOk(w.log, w.processes[i]); }
  }

  /** The executor ran at most once exactly when no execution followed a marker created beside a receipt. */
  lemma AtMostOnceIff(c: Suite, moves: seq<Move>)
    requires Lawful(c)
    ensures var w := After(c, FRESH, moves);
            |w.log| <= 1 <==> forall k :: 0 <= k < |w.log| ==> !w.log[k].late
  {
    AfterKeeps(c, moves);
    var w := After(c, FRESH, moves);
    hide After;
    if |w.log| > 1 { assert w.log[1].late; }
  }

  /** One worker at a time: only the newest process steps; the ones before it ended or crashed. */
  ghost predicate OneAtATime(c: Suite, moves: seq<Move>) {
    forall k :: 0 <= k < |moves| && moves[k].StepOf? ==>
      moves[k].process + 1 == |After(c, FRESH, moves[..k]).processes|
  }

  /** The newest process has just seen that there is no receipt, and none of them marked late. */
  predicate InOrder(w: World) {
    && (forall i :: 0 <= i < |w.processes| ==> !w.processes[i].late)
    && (forall k :: 0 <= k < |w.log| ==> !w.log[k].late)
    && (w.processes != [] && w.processes[|w.processes| - 1].pc.Marking? ==> w.files.receipt.None?)
  }

  lemma {:induction false} StaysInOrder(c: Suite, moves: seq<Move>)
    requires OneAtATime(c, moves)
    ensures InOrder(After(c, FRESH, moves))
  {
    if moves != [] {
      var n := |moves| - 1;
      var before := moves[..n];
      forall k | 0 <= k < |before| && before[k].StepOf?
        ensures before[k].process + 1 == |After(c, FRESH, before[..k]).processes|
      {
        assert before[..k] == moves[..k] && moves[k] == before[k];
      }
      StaysInOrder(c, before);
      assert moves[n].StepOf? ==> moves[n].process + 1 == |After(c, FRESH, moves[..n]).processes|;
      MoveInOrder(c, After(c, FRESH, before), moves[n]);
    }
  }

  lemma MoveInOrder(c: Suite, w: World, m: Move)
    requires InOrder(w) && (m.StepOf? ==> m.process + 1 == |w.processes|)
    ensures InOrder(Moved(c, w, m))
  {
    hide Replayed, Encoded, SignatureText;
  }

  /** With one worker at a time, crashing after any file effect, the executor runs at most once per
      (generation, execution id), and every full stream is that single execution's events, given only
      to the envelope that was executed. */
  lemma AtMostOnce(c: Suite, moves: seq<Move>)
    requires Lawful(c) && OneAtATime(c, moves)
    ensures var w := After(c, FRESH, moves);
            && |w.log| <= 1
            && forall i :: 0 <= i < |w.processes| && w.processes[i].pc.Finished? && w.processes[i].pc.outcome.Full? ==>
                 w.log == [Execution(w.processes[i].envelope, Some(w.processes[i].pc.outcome.events), false)]
  {
    hide After, Lawful, OneAtATime;
    StaysInOrder(c, moves);
    AtMostOnceIff(c, moves);
    var w := After(c, FRESH, moves);
    forall i | 0 <= i < |w.processes| && w.processes[i].pc.Finished? && w.processes[i].pc.outcome.Full?
      ensures w.log == [Execution(w.processes[i].envelope, Some(w.processes[i].pc.outcome.events), false)]
    {
      FullStreamIsExecution(c, moves, i);
    }
  }

  // ------------------------------------------------- crashes and retries

  /** The newest process takes `n` steps. */
  function Play(c: Suite, w: World, result: Option<seq<Event>>, n: nat): World
    requires w.processes != []
    ensures |Play(c, w, result, n).processes| == |w.processes|
    decreases n
  {
    if n == 0 then w else Play(c, Next(c, w, |w.processes| - 1, result), result, n - 1)
  }

  function Newest(w: World): Process
    requires w.processes != []
  {
    w.processes[|w.processes| - 1]
  }

  /** What a complete receipt says to a run of `v'`. */
  lemma ReplayVerdict(c: Suite, v: Envelope, v': Envelope, events: seq<Event>)
    requires Lawful(c)
    ensures Replayed(c, v', Encoded(c, events), Signature(c, v, events)) ==
            if v' == v then Full(events) else Refused("private_worker_execution_conflict")
  {
    hide Words, SplitLines, ParseLines, Encoded, SignatureText, IsWord, OneLine;
    var d := c.digest(v);
    SignatureRoundTrip(d, c.mac(d, Encoded(c, events)));
    ReceiptRoundTrip(c, events);
  }

  lemma RetryReplays(c: Suite, w: World, v: Envelope, v': Envelope, events: seq<Event>, result: Option<seq<Event>>)
    requires Lawful(c)
    requires w.files.receipt == Some(Encoded(c, events)) && w.files.signature == Some(Signature(c, v, events))
    ensures var w' := Play(c, Begin(w, v'), result, 3);
            && Newest(w').pc == Finished(if v' == v then Full(events) else Refused("private_worker_execution_conflict"))
            && w'.files == w.files && w'.log == w.log
  {
    hide Replayed, Encoded, SignatureText, Lawful;
    ReplayVerdict(c, v, v', events);
    var w1 := Next(c, Begin(w, v'), |w.processes|, result);
    var w2 := Next(c, w1, |w.processes|, result);
    PlaySteps(c, [Begin(w, v'), w1, w2, Next(c, w2, |w.processes|, result)], result, 3);
  }

  lemma RetryRefused(c: Suite, w: World, v: Envelope, result: Option<seq<Event>>)
    requires w.files.signature.None? && (w.files.receipt.Some? || w.files.running.Some?)
    ensures var w' := Play(c, Begin(w, v), result, 3);
            && Newest(w').pc == Finished(Refused(if w.files.receipt.Some? then "private_worker_receipt_incomplete"
                                                 else "private_worker_execution_ambiguous"))
            && w'.files == w.files && w'.log == w.log
  {
    hide Play;
    var w1 := Next(c, Begin(w, v), |w.processes|, result);
    var w2 := Next(c, w1, |w.processes|, result);
    PlaySteps(c, [Begin(w, v), w1, w2, Next(c, w2, |w.processes|, result)], result, 3);
  }

  /** A first run after `n` steps: nothing, marker, call begun, call returned, receipt, signature, no marker.
      Earlier processes may have looked and crashed. */
  function Stage(c: Suite, before: World, v: Envelope, events: seq<Event>, n: nat): World {
    World(Files(if n >= 6 then Some(Encoded(c, events)) else None,
                if n >= 7 then Some(Signature(c, v, events)) else None,
                if n < 2 || n >= 8 then None else Some(if n == 2 then "" else c.digest(v))),
          before.processes + [Process(v, StagePc(events, n), false)],
          if n < 4 then [] else [Execution(v, if n == 4 then None else Some(events), false)])
  }

  function StagePc(events: seq<Event>, n: nat): Pc {
    if n == 0 then Checking
    else if n == 1 then Marking
    else if n == 2 then Noting
    else if n == 3 then Executing
    else if n == 4 then Awaiting(0)
    else if n == 5 then Storing(events)
    else if n == 6 then Signing(events)
    else if n == 7 then Unlinking(events)
    else Finished(Full(events))
  }

  lemma StageNext(c: Suite, before: World, v: Envelope, events: seq<Event>, n: nat)
    requires n < 8
    ensures Next(c, Stage(c, before, v, events, n), |before.processes|, Some(events)) ==
            Stage(c, before, v, events, n + 1)
  {
    hide Encoded, SignatureText;
    var w, w' := Stage(c, before, v, events, n), Stage(c, before, v, events, n + 1);
    assert w.processes[|before.processes| := w'.processes[|before.processes|]] == w'.processes;
  }

  /** What the first run leaves on disk and in the log when it stops after `n` steps. */
  lemma {:induction false} FirstRun(c: Suite, before: World, v: Envelope, events: seq<Event>, n: nat)
    requires n <= 8 && before.files == FRESH.files && before.log == []
    ensures Play(c, Begin(before, v), Some(events), n) == Stage(c, before, v, events, n)
  {
    hide Next, Encoded, SignatureText, Play;
    if n == 0 {
      PlayNone(c, Begin(before, v), Some(events));
    } else {
      FirstRun(c, before, v, events, n - 1);
      PlayMore(c, Begin(before, v), Some(events), n - 1);
      StageNext(c, before, v, events, n - 1);
    }
  }

  lemma {:induction false} PlaySteps(c: Suite, ws: seq<World>, result: Option<seq<Event>>, n: nat)
    requires n < |ws| && forall k :: 0 <= k < |ws| ==> ws[k].processes != []
    requires forall k :: 0 < k < |ws| ==> ws[k] == Next(c, ws[k - 1], |ws[k - 1].processes| - 1, result)
    ensures Play(c, ws[0], result, n) == ws[n]
  {
    if n > 0 {
      assert ws[1] == Next(c, ws[1 - 1], |ws[1 - 1].processes| - 1, result);
      forall k | 0 < k < |ws[1..]|
        ensures ws[1..][k] == Next(c, ws[1..][k - 1], |ws[1..][k - 1].processes| - 1, result)
      {
        assert ws[1..][k] == ws[k + 1] && ws[1..][k - 1] == ws[k];
      }
      PlaySteps(c, ws[1..], result, n - 1);
    }
  }

  /** The first run stops after `n` steps; then a second run goes to its end. Before the marker it
      executes; between marker and receipt it is refused for good; without the signature it is refused for
      good; from the signature on it replays, to the same envelope only. */
  lemma CrashThenRetry(c: Suite, v: Envelope, v': Envelope, events: seq<Event>, events': seq<Event>, n: nat)
    requires Lawful(c) && n <= 8
    ensures var w := Play(c, Begin(FRESH, v), Some(events), n);
            var w' := Play(c, Begin(w, v'), Some(events'), 8);
            && w'.log == (if n < 2 then [Execution(v', Some(events'), false)] else w.log)
            && Newest(w').pc == Finished(
                 if n < 2 then Full(events')
                 else if n < 6 then Refused("private_worker_execution_ambiguous")
                 else if n == 6 then Refused("private_worker_receipt_incomplete")
                 else if v' == v then Full(events)
                 else Refused("private_worker_execution_conflict"))
  {
    hide Play, Next, Encoded, SignatureText, Lawful;
    FirstRun(c, FRESH, v, events, n);
    var w := Play(c, Begin(FRESH, v), Some(events), n);
    if n < 2 {
      FirstRun(c, w, v', events', 8);
    } else {
      if n < 7 { RetryRefused(c, w, v', Some(events')); } else { RetryReplays(c, w, v, v', events, Some(events')); }
      PlayStays(c, Begin(w, v'), Some(events'), 3, 8);
    }
  }

  /** Two live workers: the first looks, the second runs to its end, the first goes on and executes again. */
  lemma TwoWorkersExecuteTwice(c: Suite, v: Envelope, events: seq<Event>)
    ensures var look := Next(c, Begin(FRESH, v), 0, Some(events));
            var done := Play(c, Begin(look, v), Some(events), 8);
            var w := Next(c, Next(c, Next(c, done, 0, Some(events)), 0, Some(events)), 0, Some(events));
            && Newest(done).pc == Finished(Full(events))
            && w.log == [Execution(v, Some(events), false), Execution(v, None, true)]
  {
    hide Encoded, SignatureText, Play;
    var r := Some(events);
    var look := Next(c, Begin(FRESH, v), 0, r);
    FirstRun(c, look, v, events, 8);
    PlayLeavesOthers(c, Begin(look, v), r, 8);
    var done := Play(c, Begin(look, v), r, 8);
    assert done.processes[0] == Process(v, Marking, false);
  }

  lemma {:induction false} PlayLeavesOthers(c: Suite, w: World, result: Option<seq<Event>>, n: nat)
    requires w.processes != []
    ensures forall j :: 0 <= j < |w.processes| - 1 ==> Play(c, w, result, n).processes[j] == w.processes[j]
    decreases n
  {
    hide Next;
    if n > 0 { PlayLeavesOthers(c, Next(c, w, |w.processes| - 1, result), result, n - 1); }
  }

  // ------------------------------------------------ the program, imperatively

  const LOWER := {
    'a', 'b', 'c', 'd', 'e', 'f', 'g', 'h', 'i', 'j', 'k', 'l', 'm',
    'n', 'o', 'p', 'q', 'r', 's', 't', 'u', 'v', 'w', 'x', 'y', 'z'
  }
  const UPPER := {
    'A', 'B', 'C', 'D', 'E', 'F', 'G', 'H', 'I', 'J', 'K', 'L', 'M',
    'N', 'O', 'P', 'Q', 'R', 'S', 'T', 'U', 'V', 'W', 'X', 'Y', 'Z'
  }
  const DIGITS := {'0', '1', '2', '3', '4', '5', '6', '7', '8', '9'}
  const ID_CHARS := LOWER + UPPER + DIGITS + {'_', '-'}

  predicate ValidId(id: string) {
    1 <= |id| <= 128 && forall i :: 0 <= i < |id| ==> id[i] in ID_CHARS
  }

  /** What an execution id may be: 1 to 128 ASCII letters, digits, underscores and hyphens. */
  predicate Spelled(id: string) {
    1 <= |id| <= 128 && forall i :: 0 <= i < |id| ==> IsIdChar(id[i])
  }

  predicate IsIdChar(ch: char) {
    'a' <= ch <= 'z' || 'A' <= ch <= 'Z' || '0' <= ch <= '9' || ch == '_' || ch == '-'
  }

  lemma LowerChar(ch: char)
    ensures ch in LOWER <==> 'a' <= ch <= 'z'
  {
    assert ch == (ch as int) as char;
  }

  lemma UpperChar(ch: char)
    ensures ch in UPPER <==> 'A' <= ch <= 'Z'
  {
    assert ch == (ch as int) as char;
  }

  lemma DigitChar(ch: char)
    ensures ch in DIGITS <==> '0' <= ch <= '9'
  {
    assert ch == (ch as int) as char;
  }

  lemma IdChar(ch: char)
    ensures ch in ID_CHARS <==> IsIdChar(ch)
  {
    hide LOWER, UPPER, DIGITS;
    LowerChar(ch);
    UpperChar(ch);
    DigitChar(ch);
  }

  /** The worker goes on exactly for an envelope of this version and generation with a well-spelled id and a
      request. */
  predicate Runnable(v: Envelope, generation: int) {
    && v.version == 1 && v.generation == generation
    && v.executionId.Some? && Spelled(v.executionId.value) && v.request.Some?
  }

  lemma ValidIdIff(id: string)
    ensures ValidId(id) <==> Spelled(id)
  {
    hide ID_CHARS, IsIdChar;
    forall i | 0 <= i < |id| ensures id[i] in ID_CHARS <==> IsIdChar(id[i]) { IdChar(id[i]); }
  }

  /** The codes of a run that got past the envelope. */
  predicate RunCode(code: string) {
    || code == "private_worker_execution_ambiguous" || code == "private_worker_failed"
    || code == "private_worker_receipt_incomplete" || code == "private_worker_execution_conflict"
    || code == "private_worker_receipt_invalid"
  }

  /** The codes of a run that did not. */
  predicate EnvelopeCode(code: string) {
    || code == "private_worker_version_unsupported" || code == "private_worker_generation_mismatch"
    || code == "private_worker_execution_id_invalid" || code == "private_worker_request_invalid"
  }

  lemma CodesApart(code: string)
    ensures !(RunCode(code) && EnvelopeCode(code))
    ensures EnvelopeCode("private_worker_version_unsupported") && EnvelopeCode("private_worker_generation_mismatch")
    ensures EnvelopeCode("private_worker_execution_id_invalid") && EnvelopeCode("private_worker_request_invalid")
  {
  }

  predicate CodeOk(p: Process) { p.pc.Finished? && p.pc.outcome.Refused? ==> RunCode(p.pc.outcome.code) }

  lemma NextCode(c: Suite, w: World, i: nat, result: Option<seq<Event>>)
    requires i < |w.processes| && CodeOk(w.processes[i])
    ensures CodeOk(Next(c, w, i, result).processes[i])
  {
    hide Encoded, SignatureText, Words, ParseLines, SplitLines;
  }

  lemma {:induction false} PlayCode(c: Suite, w: World, result: Option<seq<Event>>, n: nat)
    requires w.processes != [] && CodeOk(Newest(w))
    ensures CodeOk(Newest(Play(c, w, result, n)))
    decreases n
  {
    hide Next, CodeOk;
    if n > 0 {
      NextCode(c, w, |w.processes| - 1, result);
      PlayCode(c, Next(c, w, |w.processes| - 1, result), result, n - 1);
    }
  }

  lemma {:induction false} PlayMore(c: Suite, w: World, result: Option<seq<Event>>, n: nat)
    requires w.processes != []
    ensures Play(c, w, result, n + 1) == Next(c, Play(c, w, result, n), |w.processes| - 1, result)
    decreases n
  {
    hide Next;
    if n > 0 { PlayMore(c, Next(c, w, |w.processes| - 1, result), result, n - 1); }
  }

  lemma {:induction false} PlayStays(c: Suite, w: World, result: Option<seq<Event>>, n: nat, m: nat)
    requires w.processes != [] && n <= m && Newest(Play(c, w, result, n)).pc.Finished?
    ensures Play(c, w, result, m) == Play(c, w, result, n)
  {
    if n < m {
      PlayStays(c, w, result, n, m - 1);
      PlayMore(c, w, result, m - 1);
    }
  }

  class PrivateWorker {
    const generation: int
    var disk: map<string, Files>
    var ran: map<string, seq<Execution>>

    constructor (generation: int)
      ensures this.generation == generation && disk == map[] && ran == map[]
    {
      this.generation, disk, ran := generation, map[], map[];
    }

    function FilesOf(id: string): Files
      reads this
    {
      if id in disk then disk[id] else FRESH.files
    }

    function LogOf(id: string): seq<Execution>
      reads this
    {
      if id in ran then ran[id] else []
    }

    /** The execution id as the transition system sees it between runs. */
    function Slot(id: string): World
      reads this
    {
      World(FilesOf(id), [], LogOf(id))
    }

    /** One run, stopped after `stop` steps; `None` when it crashed before its end. */
    method Run(c: Suite, v: Envelope, result: Option<seq<Event>>, stop: nat) returns (o: Option<Outcome>)
      modifies this
      ensures v.version != 1 <==> o == Some(Refused("private_worker_version_unsupported"))
      ensures v.version == 1 && v.generation != generation <==>
                o == Some(Refused("private_worker_generation_mismatch"))
      ensures && v.version == 1 && v.generation == generation
              && (v.executionId.None? || !Spelled(v.executionId.value)) <==>
                o == Some(Refused("private_worker_execution_id_invalid"))
      ensures && v.version == 1 && v.generation == generation
              && v.executionId.Some? && Spelled(v.executionId.value) && v.request.None? <==>
                o == Some(Refused("private_worker_request_invalid"))
      ensures !Runnable(v, generation) ==> disk == old(disk) && ran == old(ran)
      ensures Runnable(v, generation) ==>
                var w := Play(c, Begin(old(Slot(v.executionId.value)), v), result, stop);
                && FilesOf(v.executionId.value) == w.files && LogOf(v.executionId.value) == w.log
                && o == if Newest(w).pc.Finished? then Some(Newest(w).pc.outcome) else None
      ensures forall id :: Some(id) != v.executionId ==> Slot(id) == old(Slot(id))
    {
      hide Play, Replayed, Encoded, SignatureText, ValidId, Spelled, RunCode, EnvelopeCode, Next;
      if v.executionId.Some? { ValidIdIff(v.executionId.value); }
      if v.version != 1 { return Some(Refused("private_worker_version_unsupported")); }
      if v.generation != generation { return Some(Refused("private_worker_generation_mismatch")); }
      if v.executionId.None? || !ValidId(v.executionId.value) {
        return Some(Refused("private_worker_execution_id_invalid"));
      }
      if v.request.None? { return Some(Refused("private_worker_request_invalid")); }
      PlayCode(c, Begin(Slot(v.executionId.value), v), result, stop);
      o := RunEnvelope(c, v, result, stop);
      if o.Some? && o.value.Refused? { CodesApart(o.value.code); }
    }

    /** The run of an envelope that nothing was wrong with. */
    method RunEnvelope(c: Suite, v: Envelope, result: Option<seq<Event>>, stop: nat) returns (o: Option<Outcome>)
      requires v.executionId.Some?
      modifies this
      ensures var w := Play(c, Begin(old(Slot(v.executionId.value)), v), result, stop);
              && FilesOf(v.executionId.value) == w.files && LogOf(v.executionId.value) == w.log
              && o == if Newest(w).pc.Finished? then Some(Newest(w).pc.outcome) else None
      ensures forall id :: Some(id) != v.executionId ==> Slot(id) == old(Slot(id))
    {
      hide Play, Replayed, Encoded, SignatureText;
      var id := v.executionId.value;
      ghost var w := Begin(Slot(id), v);
      PlayNone(c, w, result);
      if stop == 0 { return None; }

      var f := FilesOf(id);
      PlayMore(c, w, result, 0);
      if f.receipt.Some? || f.signature.Some? {
        o := ReplayFrom(c, v, result, stop, w);
        return;
      }
      if stop == 1 { return None; }

      PlayMore(c, w, result, 1);
      if f.running.Some? {
        PlayStays(c, w, result, 2, stop);
        return Some(Refused("private_worker_execution_ambiguous"));
      }
      disk := disk[id := f.(running := Some(""))];
      if stop == 2 { return None; }
      o := ExecuteFrom(c, v, result, stop, w);
    }

    /** The reading half: receipt, then signature, then the lines. */
    method ReplayFrom(c: Suite, v: Envelope, result: Option<seq<Event>>, stop: nat, ghost w: World)
      returns (o: Option<Outcome>)
      requires v.executionId.Some? && stop >= 1 && w.processes != []
      requires var id := v.executionId.value;
               var w1 := Play(c, w, result, 1);
               w1.files == FilesOf(id) && w1.log == LogOf(id) && Newest(w1).pc == Reading && Newest(w1).envelope == v
      ensures var w' := Play(c, w, result, stop);
              && FilesOf(v.executionId.value) == w'.files && LogOf(v.executionId.value) == w'.log
              && o == if Newest(w').pc.Finished? then Some(Newest(w').pc.outcome) else None
    {
      hide Play, Replayed;
      var f := FilesOf(v.executionId.value);
      if stop == 1 { return None; }
      PlayMore(c, w, result, 1);
      if f.receipt.None? {
        PlayStays(c, w, result, 2, stop);
        return Some(Refused("private_worker_receipt_incomplete"));
      }
      if stop == 2 { return None; }
      PlayMore(c, w, result, 2);
      PlayStays(c, w, result, 3, stop);
      if f.signature.None? { return Some(Refused("private_worker_receipt_incomplete")); }
      return Some(Replayed(c, v, f.receipt.value, f.signature.value));
    }

    /** The writing half, from the empty marker on. */
    method ExecuteFrom(c: Suite, v: Envelope, result: Option<seq<Event>>, stop: nat, ghost w: World)
      returns (o: Option<Outcome>)
      requires v.executionId.Some? && stop > 2 && w.processes != []
      requires var id := v.executionId.value;
               var w2 := Play(c, w, result, 2);
               && id in disk && w2.files == disk[id] && w2.log == LogOf(id)
               && Newest(w2).pc == Noting && Newest(w2).envelope == v && !Newest(w2).late && disk[id].running.Some?
      modifies this
      ensures var w' := Play(c, w, result, stop);
              && FilesOf(v.executionId.value) == w'.files && LogOf(v.executionId.value) == w'.log
              && o == if Newest(w').pc.Finished? then Some(Newest(w').pc.outcome) else None
      ensures forall id :: Some(id) != v.executionId ==> Slot(id) == old(Slot(id))
    {
      hide Play, Encoded, SignatureText;
      var id := v.executionId.value;
      PlayMore(c, w, result, 2);
      disk := disk[id := disk[id].(running := Some(c.digest(v)))];
      if stop == 3 { return None; }

      PlayMore(c, w, result, 3);
      ran := ran[id := LogOf(id) + [Execution(v, None, false)]];
      if stop == 4 { return None; }
      o := AwaitFrom(c, v, result, stop, w);
    }

    /** The executor has been called. */
    method AwaitFrom(c: Suite, v: Envelope, result: Option<seq<Event>>, stop: nat, ghost w: World)
      returns (o: Option<Outcome>)
      requires v.executionId.Some? && stop > 4 && w.processes != []
      requires var id := v.executionId.value;
               var w4 := Play(c, w, result, 4);
               && id in disk && id in ran && ran[id] != [] && w4.files == disk[id] && w4.log == ran[id]
               && Newest(w4).pc == Awaiting(|ran[id]| - 1) && Newest(w4).envelope == v && disk[id].running.Some?
      modifies this
      ensures var w' := Play(c, w, result, stop);
              && FilesOf(v.executionId.value) == w'.files && LogOf(v.executionId.value) == w'.log
              && o == if Newest(w').pc.Finished? then Some(Newest(w').pc.outcome) else None
      ensures forall id :: Some(id) != v.executionId ==> Slot(id) == old(Slot(id))
    {
      hide Play, Encoded, SignatureText;
      var id := v.executionId.value;
      PlayMore(c, w, result, 4);
      if result.None? {
        PlayStays(c, w, result, 5, stop);
        return Some(Refused("private_worker_failed"));
      }
      var call := |ran[id]| - 1;
      ran := ran[id := ran[id][call := ran[id][call].(events := result)]];
      if stop == 5 { return None; }
      o := StoreFrom(c, v, result.value, stop, w);
    }

    /** The executor has returned: receipt, signature, and the marker goes. */
    method StoreFrom(c: Suite, v: Envelope, events: seq<Event>, stop: nat, ghost w: World) returns (o: Option<Outcome>)
      requires v.executionId.Some? && stop > 5 && w.processes != []
      requires var id := v.executionId.value;
               var w5 := Play(c, w, Some(events), 5);
               && id in disk && w5.files == disk[id] && w5.log == LogOf(id)
               && Newest(w5).pc == Storing(events) && Newest(w5).envelope == v && disk[id].running.Some?
      modifies `disk
      ensures var w' := Play(c, w, Some(events), stop);
              && FilesOf(v.executionId.value) == w'.files && LogOf(v.executionId.value) == w'.log
              && o == if Newest(w').pc.Finished? then Some(Newest(w').pc.outcome) else None
      ensures forall id :: Some(id) != v.executionId ==> Slot(id) == old(Slot(id))
    {
      hide Play, Encoded, SignatureText;
      var id := v.executionId.value;
      PlayMore(c, w, Some(events), 5);
      var encoded := Encoded(c, events);
      disk := disk[id := disk[id].(receipt := Some(encoded))];
      if stop == 6 { return None; }

      PlayMore(c, w, Some(events), 6);
      var d := c.digest(v);
      disk := disk[id := disk[id].(signature := Some(SignatureText(d, c.mac(d, encoded))))];
      if stop == 7 { return None; }

      PlayMore(c, w, Some(events), 7);
      disk := disk[id := disk[id].(running := None)];
      PlayStays(c, w, Some(events), 8, stop);
      return Some(Full(events));
    }
  }

  lemma PlayNone(c: Suite, w: World, result: Option<seq<Event>>)
    requires w.processes != []
    ensures Play(c, w, result, 0) == w
  {
  }
}

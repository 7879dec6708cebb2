/**
 The namespace-tool bridge of the model proxy (haas/model_proxy/proxy.py): tools grouped in namespaces are
 sent to the provider under flat names, and calls come back under their namespaced names.
 */
module NamespaceTools {
  import opened Wrappers

  datatype Json =
    | Null
    | Bool(b: bool)
    | Num(n: real)
    | Str(s: string)
    | Arr(items: seq<Json>)
    | Obj(fields: map<string, Json>)

  datatype Target = Target(namespace: string, name: string)

  function FlatName(t: Target): string { t.namespace + "__" + t.name }

  // ------------------------------------------------------------------- calls

  predicate IsCall(f: map<string, Json>) { "type" in f && f["type"] == Str("function_call") }

  predicate IsNamespaced(f: map<string, Json>) {
    IsCall(f) && "namespace" in f && f["namespace"].Str? && "name" in f && f["name"].Str?
  }

  function TargetOf(f: map<string, Json>): Target
    requires IsNamespaced(f)
  {
    Target(f["namespace"].s, f["name"].s)
  }

  /** What `_flatten_input_function_call_value` returns when it does not raise. */
  function Flatten(v: Json): Json {
    match v
    case Obj(f) =>
      if IsNamespaced(f) then
        Obj((map k | k in f && k != "namespace" :: Flatten(f[k]))["name" := Str(FlatName(TargetOf(f)))])
      else Obj(map k | k in f :: Flatten(f[k]))
    case Arr(items) => Arr(seq(|items|, i requires 0 <= i < |items| => Flatten(items[i])))
    case _ => v
  }

  /** No namespaced call clashes with another tool's flat name or with a plain tool. */
  predicate Accepts(v: Json, targets: map<string, Target>, reserved: set<string>) {
    match v
    case Obj(f) =>
      && (IsNamespaced(f) ==>
            var flat := FlatName(TargetOf(f));
            if flat in targets then targets[flat] == TargetOf(f) else flat !in reserved)
      && forall k :: k in f && !(IsNamespaced(f) && k == "namespace") ==> Accepts(f[k], targets, reserved)
    case Arr(items) => forall i :: 0 <= i < |items| ==> Accepts(items[i], targets, reserved)
    case _ => true
  }

  /** `_restore_namespace_tool_call_value`: a restored call is copied, not searched. */
  function Restore(v: Json, targets: map<string, Target>): Json {
    match v
    case Obj(f) =>
      if IsCall(f) && "name" in f && f["name"].Str? && f["name"].s in targets then
        var t := targets[f["name"].s];
        Obj(f["namespace" := Str(t.namespace)]["name" := Str(t.name)])
      else Obj(map k | k in f :: Restore(f[k], targets))
    case Arr(items) => Arr(seq(|items|, i requires 0 <= i < |items| => Restore(items[i], targets)))
    case _ => v
  }

  // -------------------------------------------------------------- round trip

  /** No namespaced call anywhere inside. */
  predicate Plain(v: Json) {
    match v
    case Obj(f) => !IsNamespaced(f) && forall k :: k in f ==> Plain(f[k])
    case Arr(items) => forall i :: 0 <= i < |items| ==> Plain(items[i])
    case _ => true
  }

  /** Namespaced calls are declared and not nested in one another; other calls avoid bridged names. */
  predicate Clean(v: Json, targets: map<string, Target>) {
    match v
    case Obj(f) =>
      if IsNamespaced(f) then
        FlatName(TargetOf(f)) in targets && forall k :: k in f ==> Plain(f[k])
      else
        && !(IsCall(f) && "name" in f && f["name"].Str? && f["name"].s in targets)
        && forall k :: k in f ==> Clean(f[k], targets)
    case Arr(items) => forall i :: 0 <= i < |items| ==> Clean(items[i], targets)
    case _ => true
  }

  /** Flattening changes nothing exactly where there is no namespaced call. */
  lemma {:induction false} FlattenIsIdentityIff(v: Json)
    ensures Flatten(v) == v <==> Plain(v)
  {
    match v
    case Obj(f) =>
      forall k | k in f ensures Flatten(f[k]) == f[k] <==> Plain(f[k]) { FlattenIsIdentityIff(f[k]); }
      if IsNamespaced(f) {
        assert "namespace" !in Flatten(v).fields;
      } else {
        assert Flatten(v).fields.Keys == f.Keys;
        assert forall k :: k in f ==> Flatten(v).fields[k] == Flatten(f[k]);
      }
    case Arr(items) =>
      forall i | 0 <= i < |items| ensures Flatten(items[i]) == items[i] <==> Plain(items[i]) {
        FlattenIsIdentityIff(items[i]);
      }
      assert forall i :: 0 <= i < |items| ==> Flatten(v).items[i] == Flatten(items[i]);
    case _ =>
  }

  /** A call that is not namespaced is still the same call after flattening. */
  lemma FlattenKeepsCall(f: map<string, Json>)
    requires !IsNamespaced(f)
    ensures var g := Flatten(Obj(f)).fields;
            && g.Keys == f.Keys && (forall k :: k in f ==> g[k] == Flatten(f[k]))
            && (IsCall(g) <==> IsCall(f))
            && ("name" in f ==> (g["name"].Str? <==> f["name"].Str?) && (f["name"].Str? ==> g["name"] == f["name"]))
  {
  }

  lemma FlattenNamespaced(f: map<string, Json>)
    requires IsNamespaced(f)
    ensures var g := Flatten(Obj(f)).fields;
            && Flatten(Obj(f)).Obj? && IsCall(g) && g.Keys == f.Keys - {"namespace"}
            && g["name"] == Str(FlatName(TargetOf(f)))
            && forall k :: k in g && k != "name" ==> g[k] == Flatten(f[k])
  {
    hide FlatName;
  }

  lemma NamespacedRoundTrip(f: map<string, Json>, targets: map<string, Target>)
    requires IsNamespaced(f)
    requires FlatName(TargetOf(f)) in targets ==> targets[FlatName(TargetOf(f))] == TargetOf(f)
    ensures Restore(Flatten(Obj(f)), targets) == Obj(f) <==> Clean(Obj(f), targets)
  {
    hide Flatten, Plain, FlatName;
    FlattenNamespaced(f);
    forall k | k in f ensures Flatten(f[k]) == f[k] <==> Plain(f[k]) { FlattenIsIdentityIff(f[k]); }
    var g := Flatten(Obj(f)).fields;
    var r := Restore(Obj(g), targets).fields;
    if FlatName(TargetOf(f)) in targets {
      NameIsPlain(f);
      assert r.Keys == f.Keys && r["namespace"] == f["namespace"] && r["name"] == f["name"];
      assert forall k :: k in f && k != "namespace" && k != "name" ==> r[k] == Flatten(f[k]);
      if forall k :: k in f ==> Plain(f[k]) { assert r == f; }
    } else {
      assert "namespace" !in r;
    }
  }

  lemma NameIsPlain(f: map<string, Json>)
    requires IsNamespaced(f)
    ensures Plain(f["name"]) && Plain(f["namespace"])
  {
  }

  lemma OtherRoundTrip(f: map<string, Json>, targets: map<string, Target>)
    requires !IsNamespaced(f)
    requires forall k :: k in f ==> (Restore(Flatten(f[k]), targets) == f[k] <==> Clean(f[k], targets))
    ensures Restore(Flatten(Obj(f)), targets) == Obj(f) <==> Clean(Obj(f), targets)
  {
    FlattenKeepsCall(f);
    var g := Flatten(Obj(f)).fields;
    hide Flatten;
    var r := Restore(Obj(g), targets).fields;
    if IsCall(f) && "name" in f && f["name"].Str? && f["name"].s in targets {
      assert r["namespace"].Str?;
    } else {
      assert r.Keys == f.Keys;
      assert forall k :: k in f ==> r[k] == Restore(Flatten(f[k]), targets);
      if forall k :: k in f ==> Clean(f[k], targets) { assert r == f; }
    }
  }

  /** Restoring after flattening gives the value back exactly when its namespaced calls are declared and
      not nested, and its other calls avoid bridged names. */
  lemma {:induction false} RoundTripIff(v: Json, targets: map<string, Target>, reserved: set<string>)
    requires Accepts(v, targets, reserved)
    ensures Restore(Flatten(v), targets) == v <==> Clean(v, targets)
  {
    match v
    case Obj(f) =>
      if IsNamespaced(f) {
        NamespacedRoundTrip(f, targets);
      } else {
        forall k | k in f ensures Restore(Flatten(f[k]), targets) == f[k] <==> Clean(f[k], targets) {
          RoundTripIff(f[k], targets, reserved);
        }
        OtherRoundTrip(f, targets);
      }
    case Arr(items) =>
      forall i | 0 <= i < |items|
        ensures Restore(Flatten(items[i]), targets) == items[i] <==> Clean(items[i], targets)
      {
        RoundTripIff(items[i], targets, reserved);
      }
      var r := Restore(Flatten(v), targets);
      assert forall i :: 0 <= i < |items| ==> r.items[i] == Restore(Flatten(items[i]), targets);
    case _ =>
  }

  // --------------------------------------------------------------- tool lists

  /** One tool of the flattened list: passed through, or a namespaced function under its flat name. */
  datatype Piece = Passed(tool: Json) | Bridged(tool: Json, target: Target)

  datatype Progress = Progress(pieces: seq<Piece>, targets: map<string, Target>, reserved: set<string>,
                               used: set<string>)

  function NameOf(tool: Json): Option<string> {
    if tool.Obj? && "name" in tool.fields && tool.fields["name"].Str? && tool.fields["name"].s != ""
    then Some(tool.fields["name"].s) else None
  }

  predicate IsNamespace(tool: Json) {
    tool.Obj? && "type" in tool.fields && tool.fields["type"] == Str("namespace")
  }

  /** A namespace whose name is a string and whose tools are a list. */
  predicate IsUsable(tool: Json) {
    && IsNamespace(tool) && "name" in tool.fields && tool.fields["name"].Str?
    && "tools" in tool.fields && tool.fields["tools"].Arr?
  }

  predicate IsFunction(child: Json) {
    child.Obj? && "type" in child.fields && child.fields["type"] == Str("function") && NameOf(child).Some?
  }

  function Renamed(child: Json, flat: string, description: string): Json
    requires child.Obj?
  {
    var f := child.fields["name" := Str(flat)];
    Obj(if description != "" then f["description" := Str(description)] else f)
  }

  /** The child's tool under its flat name; `None` when the name is taken. */
  function AddChild(p: Progress, namespace: string, child: Json, description: string): Option<Progress> {
    if !IsFunction(child) then Some(p)
    else
      var t := Target(namespace, NameOf(child).value);
      var flat := FlatName(t);
      if flat in p.used || flat in p.targets then None
      else Some(p.(pieces := p.pieces + [Bridged(Renamed(child, flat, description), t)],
                   targets := p.targets[flat := t], used := p.used + {flat}))
  }

  function AddChildren(p: Progress, tool: Json, children: seq<Json>, describe: (Json, Json) -> string): Option<Progress>
    requires IsUsable(tool)
  {
    if children == [] then Some(p)
    else
      var n := |children| - 1;
      match AddChildren(p, tool, children[..n], describe)
      case None => None
      case Some(q) => AddChild(q, tool.fields["name"].s, children[n], describe(tool, children[n]))
  }

  function AddTool(p: Progress, tool: Json, describe: (Json, Json) -> string): Option<Progress> {
    if IsUsable(tool) then AddChildren(p, tool, tool.fields["tools"].items, describe)
    else if IsNamespace(tool) then Some(p)
    else if NameOf(tool).Some? then
      if NameOf(tool).value in p.targets then None
      else Some(p.(pieces := p.pieces + [Passed(tool)], reserved := p.reserved + {NameOf(tool).value},
                   used := p.used + {NameOf(tool).value}))
    else Some(p.(pieces := p.pieces + [Passed(tool)]))
  }

  function AddTools(p: Progress, tools: seq<Json>, describe: (Json, Json) -> string): Option<Progress> {
    if tools == [] then Some(p)
    else
      match AddTools(p, tools[..|tools| - 1], describe)
      case None => None
      case Some(q) => AddTool(q, tools[|tools| - 1], describe)
  }

  function Tools(pieces: seq<Piece>): seq<Json> { seq(|pieces|, i requires 0 <= i < |pieces| => pieces[i].tool) }

  class Bridge {
    var targets: map<string, Target>
    var reserved: set<string>

    constructor ()
      ensures targets == map[] && reserved == {}
    {
      targets, reserved := map[], {};
    }

    /** `_flatten_namespace_tools`; `None` is the conflict it raises. */
    method FlattenTools(tools: seq<Json>, describe: (Json, Json) -> string) returns (r: Option<seq<Json>>)
      modifies this
      ensures var p := AddTools(Progress([], old(targets), old(reserved), {}), tools, describe);
              match p
              case None => r == None
              case Some(p) => r == Some(Tools(p.pieces)) && targets == p.targets && reserved == p.reserved
    {
      hide AddTool, AddChildren, AddChild, Tools, Renamed;
      ghost var start := Progress([], targets, reserved, {});
      var pieces, used: set<string> := [], {};
      for i := 0 to |tools|
        invariant AddTools(start, tools[..i], describe) == Some(Progress(pieces, targets, reserved, used))
      {
        assert tools[..i + 1][..i] == tools[..i];
        ghost var p := Progress(pieces, targets, reserved, used);
        var ok;
        pieces, used, ok := Take(tools[i], pieces, used, describe);
        if !ok {
          StuckTools(start, tools, i + 1, describe);
          return None;
        }
      }
      assert tools[..|tools|] == tools;
      return Some(Tools(pieces));
    }

    method Take(tool: Json, pieces0: seq<Piece>, used0: set<string>, describe: (Json, Json) -> string)
      returns (pieces: seq<Piece>, used: set<string>, ok: bool)
      modifies this
      ensures ok <==> AddTool(Progress(pieces0, old(targets), old(reserved), used0), tool, describe).Some?
      ensures ok ==> AddTool(Progress(pieces0, old(targets), old(reserved), used0), tool, describe)
                     == Some(Progress(pieces, targets, reserved, used))
    {
      hide AddChildren, AddChild;
      pieces, used, ok := pieces0, used0, true;
      if !IsNamespace(tool) {
        if NameOf(tool).Some? {
          if NameOf(tool).value in targets { return pieces, used, false; }
          reserved := reserved + {NameOf(tool).value};
          used := used + {NameOf(tool).value};
        }
        pieces := pieces + [Passed(tool)];
      } else if IsUsable(tool) {
        pieces, used, ok := TakeChildren(tool, pieces, used, describe);
      }
    }

    method TakeChildren(tool: Json, pieces0: seq<Piece>, used0: set<string>, describe: (Json, Json) -> string)
      returns (pieces: seq<Piece>, used: set<string>, ok: bool)
      requires IsUsable(tool)
      modifies `targets
      ensures var p := AddChildren(Progress(pieces0, old(targets), reserved, used0), tool, tool.fields["tools"].items,
                                   describe);
              (ok <==> p.Some?) && (ok ==> p == Some(Progress(pieces, targets, reserved, used)))
    {
      hide IsFunction, Renamed, NameOf;
      ghost var start := Progress(pieces0, targets, reserved, used0);
      var namespace, children := tool.fields["name"].s, tool.fields["tools"].items;
      pieces, used, ok := pieces0, used0, true;
      for i := 0 to |children|
        invariant ok
        invariant AddChildren(start, tool, children[..i], describe) == Some(Progress(pieces, targets, reserved, used))
      {
        var child := children[i];
        assert children[..i + 1][..i] == children[..i];
        if IsFunction(child) {
          FunctionNamed(child);
          var t := Target(namespace, NameOf(child).value);
          var flat := FlatName(t);
          if flat in used || flat in targets {
            StuckChildren(start, tool, children, i + 1, describe);
            return pieces, used, false;
          }
          pieces := pieces + [Bridged(Renamed(child, flat, describe(tool, child)), t)];
          targets := targets[flat := t];
          used := used + {flat};
        }
      }
      assert children[..|children|] == children;
    }
  }

  lemma FunctionNamed(child: Json)
    requires IsFunction(child)
    ensures child.Obj? && NameOf(child).Some?
  {
  }

  lemma {:induction false} StuckTools(p: Progress, tools: seq<Json>, i: nat, describe: (Json, Json) -> string)
    requires i <= |tools| && AddTools(p, tools[..i], describe).None?
    ensures AddTools(p, tools, describe).None?
    decreases |tools|
  {
    hide AddTool;
    if i < |tools| {
      assert tools[..|tools| - 1][..i] == tools[..i];
      StuckTools(p, tools[..|tools| - 1], i, describe);
    } else {
      assert tools[..i] == tools;
    }
  }

  lemma {:induction false} StuckChildren(p: Progress, tool: Json, children: seq<Json>, i: nat,
                                         describe: (Json, Json) -> string)
    requires IsUsable(tool) && i <= |children| && AddChildren(p, tool, children[..i], describe).None?
    ensures AddChildren(p, tool, children, describe).None?
    decreases |children|
  {
    hide AddChild;
    if i < |children| {
      assert children[..|children| - 1][..i] == children[..i];
      StuckChildren(p, tool, children[..|children| - 1], i, describe);
    } else {
      assert children[..i] == children;
    }
  }

  // -------------------------------------------- what an accepted list promises

  /** The piece's tool goes by its flat name, which the bridge takes back to its namespaced one. */
  predicate PieceOk(p: Progress, piece: Piece) {
    match piece
    case Passed(tool) => NameOf(tool).Some? ==> NameOf(tool).value in p.used && NameOf(tool).value !in p.targets
    case Bridged(tool, t) =>
      && NameOf(tool) == Some(FlatName(t)) && FlatName(t) in p.used
      && FlatName(t) in p.targets && p.targets[FlatName(t)] == t
  }

  /** Bridged names differ from each other. */
  predicate NamesDiffer(pieces: seq<Piece>) {
    forall i, j :: 0 <= i < j < |pieces| && pieces[i].Bridged? && pieces[j].Bridged? ==>
      FlatName(pieces[i].target) != FlatName(pieces[j].target)
  }

  /** Every bridge entry is one of the bridged pieces. */
  predicate BridgeExact(p: Progress) {
    forall flat :: flat in p.targets ==>
      exists i :: 0 <= i < |p.pieces| && p.pieces[i] == Bridged(p.pieces[i].tool, p.targets[flat])
                  && FlatName(p.targets[flat]) == flat
  }

  predicate ProgressOk(p: Progress) {
    && (forall i :: 0 <= i < |p.pieces| ==> PieceOk(p, p.pieces[i]))
    && NamesDiffer(p.pieces) && BridgeExact(p)
  }

  lemma FlatNameNotEmpty(t: Target)
    ensures FlatName(t) != ""
  {
    assert |FlatName(t)| >= 2;
  }

  lemma AddChildOk(p: Progress, namespace: string, child: Json, description: string)
    requires ProgressOk(p) && AddChild(p, namespace, child, description).Some?
    ensures ProgressOk(AddChild(p, namespace, child, description).value)
  {
    if IsFunction(child) {
      var q := AddChild(p, namespace, child, description).value;
      var t := Target(namespace, NameOf(child).value);
      var n := |p.pieces|;
      FlatNameNotEmpty(t);
      assert NameOf(q.pieces[n].tool) == Some(FlatName(t));
      hide FlatName, NameOf, IsFunction, Renamed;
      forall i | 0 <= i < |q.pieces| ensures PieceOk(q, q.pieces[i]) { if i < n { assert PieceOk(p, p.pieces[i]); } }
      forall flat | flat in q.targets
        ensures exists i :: 0 <= i < |q.pieces| && q.pieces[i] == Bridged(q.pieces[i].tool, q.targets[flat])
                            && FlatName(q.targets[flat]) == flat
      {
        if flat == FlatName(t) {
          assert q.pieces[n] == Bridged(q.pieces[n].tool, q.targets[flat]);
        } else {
          assert flat in p.targets;
          var i :| 0 <= i < |p.pieces| && p.pieces[i] == Bridged(p.pieces[i].tool, p.targets[flat])
                   && FlatName(p.targets[flat]) == flat;
          assert q.pieces[i] == p.pieces[i];
        }
      }
      forall i, j | 0 <= i < j < |q.pieces| && q.pieces[i].Bridged? && q.pieces[j].Bridged?
        ensures FlatName(q.pieces[i].target) != FlatName(q.pieces[j].target)
      {
        assert PieceOk(p, p.pieces[i]);
      }
    }
  }

  lemma {:induction false} AddChildrenOk(p: Progress, tool: Json, children: seq<Json>, describe: (Json, Json) -> string)
    requires ProgressOk(p) && IsUsable(tool) && AddChildren(p, tool, children, describe).Some?
    ensures ProgressOk(AddChildren(p, tool, children, describe).value)
  {
    hide ProgressOk, AddChild;
    if children != [] {
      var n := |children| - 1;
      AddChildrenOk(p, tool, children[..n], describe);
      AddChildOk(AddChildren(p, tool, children[..n], describe).value, tool.fields["name"].s, children[n],
                 describe(tool, children[n]));
    }
  }

  lemma PassOk(p: Progress, tool: Json, q: Progress)
    requires ProgressOk(p) && (NameOf(tool).Some? ==> NameOf(tool).value !in p.targets)
    requires q.pieces == p.pieces + [Passed(tool)] && q.targets == p.targets
    requires q.used == if NameOf(tool).Some? then p.used + {NameOf(tool).value} else p.used
    ensures ProgressOk(q)
  {
    hide NameOf, FlatName;
    forall i | 0 <= i < |q.pieces| ensures PieceOk(q, q.pieces[i]) {
      if i < |p.pieces| { assert PieceOk(p, p.pieces[i]); }
    }
    forall flat | flat in q.targets
      ensures exists i :: 0 <= i < |q.pieces| && q.pieces[i] == Bridged(q.pieces[i].tool, q.targets[flat])
                          && FlatName(q.targets[flat]) == flat
    {
      var i :| 0 <= i < |p.pieces| && p.pieces[i] == Bridged(p.pieces[i].tool, p.targets[flat])
               && FlatName(p.targets[flat]) == flat;
      assert q.pieces[i] == p.pieces[i];
    }
  }

  lemma AddToolOk(p: Progress, tool: Json, describe: (Json, Json) -> string)
    requires ProgressOk(p) && AddTool(p, tool, describe).Some?
    ensures ProgressOk(AddTool(p, tool, describe).value)
  {
    hide ProgressOk, AddChildren;
    if IsUsable(tool) {
      AddChildrenOk(p, tool, tool.fields["tools"].items, describe);
    } else if !IsNamespace(tool) {
      PassOk(p, tool, AddTool(p, tool, describe).value);
    }
  }

  lemma {:induction false} AddToolsOk(p: Progress, tools: seq<Json>, describe: (Json, Json) -> string)
    requires ProgressOk(p) && AddTools(p, tools, describe).Some?
    ensures ProgressOk(AddTools(p, tools, describe).value)
  {
    hide ProgressOk, AddTool;
    if tools != [] {
      var n := |tools| - 1;
      AddToolsOk(p, tools[..n], describe);
      AddToolOk(AddTools(p, tools[..n], describe).value, tools[n], describe);
    }
  }

  /** In an accepted list every bridged tool has a name of its own: no other bridged tool and no plain
      tool goes by it, and the bridge takes it back to exactly the namespace and name it came from. */
  lemma AcceptedNamesDistinct(tools: seq<Json>, describe: (Json, Json) -> string, i: nat, j: nat)
    requires AddTools(Progress([], map[], {}, {}), tools, describe).Some?
    ensures var p := AddTools(Progress([], map[], {}, {}), tools, describe).value;
            i < |p.pieces| && p.pieces[i].Bridged? ==>
              && NameOf(p.pieces[i].tool) == Some(FlatName(p.pieces[i].target))
              && FlatName(p.pieces[i].target) in p.targets
              && p.targets[FlatName(p.pieces[i].target)] == p.pieces[i].target
              && (j < |p.pieces| && j != i ==> NameOf(p.pieces[j].tool) != NameOf(p.pieces[i].tool))
  {
    var start := Progress([], map[], {}, {});
    AddToolsOk(start, tools, describe);
    var p := AddTools(start, tools, describe).value;
    hide AddTools, NameOf, FlatName;
    if i < |p.pieces| && p.pieces[i].Bridged? {
      assert PieceOk(p, p.pieces[i]);
      if j < |p.pieces| && j != i { assert PieceOk(p, p.pieces[j]); }
    }
  }

  // ------------------------------------------------ what the list is made of

  /** Where a tool of the flattened list comes from. */
  datatype Source = Alone(tool: Json) | Member(space: Json, child: Json)

  /** The functions among a namespace's children, in order. */
  function Members(space: Json, children: seq<Json>): seq<Source> {
    if children == [] then []
    else
      var n := |children| - 1;
      if IsFunction(children[n]) then Members(space, children[..n]) + [Member(space, children[n])]
      else Members(space, children[..n])
  }

  function SourcesOf(tool: Json): seq<Source> {
    if !IsNamespace(tool) then [Alone(tool)]
    else if IsUsable(tool) then Members(tool, tool.fields["tools"].items)
    else []
  }

  /** What the list will hold, in order: each tool that is no namespace, and each function of a namespace. */
  function Sources(tools: seq<Json>): seq<Source> {
    if tools == [] then [] else Sources(tools[..|tools| - 1]) + SourcesOf(tools[|tools| - 1])
  }

  predicate SourceOk(x: Source) { x.Member? ==> IsUsable(x.space) && IsFunction(x.child) }

  /** The name it goes by in the list. */
  function SentName(x: Source): Option<string>
    requires SourceOk(x)
  {
    match x
    case Alone(tool) => NameOf(tool)
    case Member(space, child) => Some(space.fields["name"].s + "__" + NameOf(child).value)
  }

  /** `tool` is the source's own tool, or the function under its sent name with the merged description, if
      there is one, and every other field as it was. */
  predicate SentAs(x: Source, tool: Json, describe: (Json, Json) -> string)
    requires SourceOk(x)
  {
    match x
    case Alone(own) => tool == own
    case Member(space, child) =>
      && tool.Obj?
      && var f, g, text := child.fields, tool.fields, describe(space, child);
         && "name" in g && g["name"] == Str(SentName(x).value)
         && (forall k :: k in f && k != "name" && k != "description" ==> k in g && g[k] == f[k])
         && (forall k :: k in g && k != "name" && k != "description" ==> k in f)
         && (if text != "" then "description" in g && g["description"] == Str(text)
             else ("description" in g <==> "description" in f)
                  && ("description" in f ==> g["description"] == f["description"]))
  }

  /** Two sources would go by one name, and one of them is a member of a namespace. */
  predicate Clash(x: Source, y: Source)
    requires SourceOk(x) && SourceOk(y)
  {
    SentName(x).Some? && SentName(x) == SentName(y) && (x.Member? || y.Member?)
  }

  predicate AllOk(xs: seq<Source>) { forall i :: 0 <= i < |xs| ==> SourceOk(xs[i]) }

  predicate NoClash(xs: seq<Source>)
    requires AllOk(xs)
  {
    forall i, j :: 0 <= i < j < |xs| ==> !Clash(xs[i], xs[j])
  }

  function AddSource(p: Progress, x: Source, describe: (Json, Json) -> string): Option<Progress>
    requires SourceOk(x)
  {
    match x
    case Alone(tool) =>
      if NameOf(tool).None? then Some(p.(pieces := p.pieces + [Passed(tool)]))
      else if NameOf(tool).value in p.targets then None
      else Some(p.(pieces := p.pieces + [Passed(tool)], reserved := p.reserved + {NameOf(tool).value},
                   used := p.used + {NameOf(tool).value}))
    case Member(space, child) => AddChild(p, space.fields["name"].s, child, describe(space, child))
  }

  function AddSources(p: Progress, xs: seq<Source>, describe: (Json, Json) -> string): Option<Progress>
    requires AllOk(xs)
  {
    if xs == [] then Some(p)
    else
      match AddSources(p, xs[..|xs| - 1], describe)
      case None => None
      case Some(q) => AddSource(q, xs[|xs| - 1], describe)
  }

  lemma {:induction false} AddSourcesConcat(p: Progress, xs: seq<Source>, ys: seq<Source>,
                                            describe: (Json, Json) -> string)
    requires AllOk(xs) && AllOk(ys)
    ensures AllOk(xs + ys)
    ensures var q := AddSources(p, xs, describe);
            AddSources(p, xs + ys, describe) == if q.None? then None else AddSources(q.value, ys, describe)
    decreases |ys|
  {
    hide SourceOk, AddSource;
    if ys == [] {
      assert xs + ys == xs;
    } else {
      var n := |ys| - 1;
      assert (xs + ys)[..|xs + ys| - 1] == xs + ys[..n];
      AddSourcesConcat(p, xs, ys[..n], describe);
    }
  }

  lemma {:induction false} MembersAdd(p: Progress, space: Json, children: seq<Json>, describe: (Json, Json) -> string)
    requires IsUsable(space)
    ensures AllOk(Members(space, children))
    ensures AddChildren(p, space, children, describe) == AddSources(p, Members(space, children), describe)
  {
    hide IsFunction, AddChild;
    if children != [] {
      var n := |children| - 1;
      MembersAdd(p, space, children[..n], describe);
      var front, x := Members(space, children[..n]), Member(space, children[n]);
      if IsFunction(children[n]) {
        LastSource(p, front, x, describe);
      } else if AddChildren(p, space, children[..n], describe).Some? {
        AddChildSkips(AddChildren(p, space, children[..n], describe).value, space.fields["name"].s, children[n],
                      describe(space, children[n]));
      }
    }
  }

  lemma AddChildSkips(p: Progress, namespace: string, child: Json, description: string)
    requires !IsFunction(child)
    ensures AddChild(p, namespace, child, description) == Some(p)
  {
  }

  lemma LastSource(p: Progress, xs: seq<Source>, x: Source, describe: (Json, Json) -> string)
    requires AllOk(xs) && SourceOk(x)
    ensures AllOk(xs + [x])
    ensures AddSources(p, xs + [x], describe) ==
            match AddSources(p, xs, describe) case None => None case Some(q) => AddSource(q, x, describe)
  {
    hide SourceOk, AddSource;
    assert (xs + [x])[..|xs|] == xs;
  }

  lemma {:induction false} ToolsAdd(p: Progress, tools: seq<Json>, describe: (Json, Json) -> string)
    ensures AllOk(Sources(tools))
    ensures AddTools(p, tools, describe) == AddSources(p, Sources(tools), describe)
  {
    hide AddChildren, AddSource;
    if tools != [] {
      var n := |tools| - 1;
      ToolsAdd(p, tools[..n], describe);
      ToolAdds(tools[n], describe);
      AddSourcesConcat(p, Sources(tools[..n]), SourcesOf(tools[n]), describe);
      if AddTools(p, tools[..n], describe).Some? {
        ToolAdd(AddTools(p, tools[..n], describe).value, tools[n], describe);
      }
    }
  }

  lemma ToolAdds(tool: Json, describe: (Json, Json) -> string)
    ensures AllOk(SourcesOf(tool))
  {
    hide IsFunction;
    if IsUsable(tool) { MembersAdd(Progress([], map[], {}, {}), tool, tool.fields["tools"].items, describe); }
  }

  lemma ToolAdd(p: Progress, tool: Json, describe: (Json, Json) -> string)
    ensures AllOk(SourcesOf(tool)) && AddTool(p, tool, describe) == AddSources(p, SourcesOf(tool), describe)
  {
    hide IsFunction, AddChild;
    if IsUsable(tool) {
      MembersAdd(p, tool, tool.fields["tools"].items, describe);
    } else if !IsNamespace(tool) {
      assert [Alone(tool)][..0] == [];
    }
  }

  /** The progress is that of exactly these sources. */
  ghost predicate Tracks(p: Progress, xs: seq<Source>, describe: (Json, Json) -> string)
    requires AllOk(xs)
  {
    && |p.pieces| == |xs|
    && (forall i :: 0 <= i < |xs| ==> SentAs(xs[i], p.pieces[i].tool, describe))
    && (forall name :: name in p.used <==> NamedIn(xs, name, false))
    && (forall name :: name in p.targets <==> NamedIn(xs, name, true))
  }

  ghost predicate NamedIn(xs: seq<Source>, name: string, member: bool)
    requires AllOk(xs)
  {
    exists i :: 0 <= i < |xs| && SentName(xs[i]) == Some(name) && (member ==> xs[i].Member?)
  }

  lemma NamedInMore(xs: seq<Source>, x: Source, name: string, member: bool)
    requires AllOk(xs) && SourceOk(x)
    ensures AllOk(xs + [x])
    ensures NamedIn(xs + [x], name, member) <==>
            NamedIn(xs, name, member) || (SentName(x) == Some(name) && (member ==> x.Member?))
  {
    hide SourceOk, SentName;
    var ys := xs + [x];
    assert ys[|xs|] == x;
    if NamedIn(xs, name, member) {
      var i :| 0 <= i < |xs| && SentName(xs[i]) == Some(name) && (member ==> xs[i].Member?);
      assert ys[i] == xs[i];
    }
  }

  lemma AddSourceSends(p: Progress, x: Source, describe: (Json, Json) -> string)
    requires SourceOk(x)
    ensures var name, q := SentName(x), AddSource(p, x, describe);
            && (q.None? <==> name.Some? && (name.value in p.targets || (x.Member? && name.value in p.used)))
            && (q.Some? ==>
                  && |q.value.pieces| == |p.pieces| + 1 && q.value.pieces[..|p.pieces|] == p.pieces
                  && SentAs(x, q.value.pieces[|p.pieces|].tool, describe)
                  && q.value.used == (if name.Some? then p.used + {name.value} else p.used)
                  && q.value.targets.Keys == (if x.Member? then p.targets.Keys + {name.value} else p.targets.Keys))
  {
  }

  /** A list is accepted exactly when no two of its sources would clash. What is sent is then one tool for each
      source, in order: a plain tool unchanged, a function under its flat name with its other fields. */
  lemma {:induction false} SourcesAccepted(xs: seq<Source>, describe: (Json, Json) -> string)
    requires AllOk(xs)
    ensures var q := AddSources(Progress([], map[], {}, {}), xs, describe);
            (q.Some? <==> NoClash(xs)) && (q.Some? ==> Tracks(q.value, xs, describe))
  {
    hide AddSource, SourceOk, SentName, SentAs, NamedIn;
    if xs == [] {
      NothingNamed();
    } else {
      var n := |xs| - 1;
      var front, x := xs[..n], xs[n];
      assert xs == front + [x];
      SourcesAccepted(front, describe);
      ClashIff(front, x);
      var p := AddSources(Progress([], map[], {}, {}), front, describe);
      if p.Some? {
        AddSourceSends(p.value, x, describe);
        forall name: string
          ensures NamedIn(xs, name, false) <==> NamedIn(front, name, false) || SentName(x) == Some(name)
        {
          NamedInMore(front, x, name, false);
        }
        forall name: string
          ensures NamedIn(xs, name, true) <==> NamedIn(front, name, true) || (SentName(x) == Some(name) && x.Member?)
        {
          NamedInMore(front, x, name, true);
        }
        MemberNamed(x);
        if SentName(x).Some? { NamedAnyway(front, SentName(x).value); }
      }
    }
  }

  lemma MemberNamed(x: Source)
    requires SourceOk(x)
    ensures x.Member? ==> SentName(x).Some?
  {
  }

  lemma NamedAnyway(xs: seq<Source>, name: string)
    requires AllOk(xs)
    ensures NamedIn(xs, name, true) ==> NamedIn(xs, name, false)
  {
  }

  lemma NothingNamed()
    ensures forall name, member :: !NamedIn([], name, member)
  {
  }

  lemma ClashIff(xs: seq<Source>, x: Source)
    requires AllOk(xs) && SourceOk(x)
    ensures AllOk(xs + [x])
    ensures NoClash(xs + [x]) <==>
            NoClash(xs) && !(SentName(x).Some? && NamedIn(xs, SentName(x).value, !x.Member?))
  {
    hide SourceOk, SentName;
    var ys := xs + [x];
    assert forall i :: 0 <= i < |xs| ==> ys[i] == xs[i];
    assert ys[|xs|] == x;
    if SentName(x).Some? && NamedIn(xs, SentName(x).value, !x.Member?) {
      var i :| 0 <= i < |xs| && SentName(xs[i]) == SentName(x) && (!x.Member? ==> xs[i].Member?);
      assert Clash(ys[i], ys[|xs|]);
    }
  }

  /** The same for a list of tools as it comes in. */
  lemma FlattenedListIs(tools: seq<Json>, describe: (Json, Json) -> string)
    ensures AllOk(Sources(tools))
    ensures var p, xs := AddTools(Progress([], map[], {}, {}), tools, describe), Sources(tools);
            && (p.Some? <==> NoClash(xs))
            && (p.Some? ==>
                  && |Tools(p.value.pieces)| == |xs|
                  && forall i :: 0 <= i < |xs| ==> SentAs(xs[i], Tools(p.value.pieces)[i], describe))
  {
    hide AddTools, AddSources, Sources, SentAs, NoClash, NamedIn, SourceOk;
    ToolsAdd(Progress([], map[], {}, {}), tools, describe);
    SourcesAccepted(Sources(tools), describe);
  }

  // --------------------------------------------------- the bridge is the list

  predicate Has(targets: map<string, Target>, t: Target) { FlatName(t) in targets && targets[FlatName(t)] == t }

  predicate Names(child: Json, name: string) { IsFunction(child) && NameOf(child) == Some(name) }

  predicate DeclaredIn(children: seq<Json>, name: string) {
    exists k :: 0 <= k < |children| && Names(children[k], name)
  }

  predicate DeclaredBy(tool: Json, t: Target) {
    IsUsable(tool) && tool.fields["name"].s == t.namespace && DeclaredIn(tool.fields["tools"].items, t.name)
  }

  predicate Declared(tools: seq<Json>, t: Target) { exists i :: 0 <= i < |tools| && DeclaredBy(tools[i], t) }

  lemma {:induction false} ChildrenDeclare(p: Progress, tool: Json, children: seq<Json>,
                                           describe: (Json, Json) -> string, t: Target)
    requires IsUsable(tool) && AddChildren(p, tool, children, describe).Some?
    ensures Has(AddChildren(p, tool, children, describe).value.targets, t) <==>
            Has(p.targets, t) || (tool.fields["name"].s == t.namespace && DeclaredIn(children, t.name))
  {
    hide Renamed, FlatName, IsFunction, NameOf, IsUsable;
    if children != [] {
      var n := |children| - 1;
      ChildrenDeclare(p, tool, children[..n], describe, t);
      FunctionIsNamed(children[n]);
      assert DeclaredIn(children, t.name) <==> DeclaredIn(children[..n], t.name) || Names(children[n], t.name) by {
        DeclaredLast(children, t.name);
      }
    }
  }

  lemma FunctionIsNamed(child: Json)
    ensures IsFunction(child) ==> NameOf(child).Some?
  {
  }

  lemma DeclaredLast(children: seq<Json>, name: string)
    requires children != []
    ensures DeclaredIn(children, name) <==>
            DeclaredIn(children[..|children| - 1], name) || Names(children[|children| - 1], name)
  {
    hide Names;
    var n := |children| - 1;
    if DeclaredIn(children[..n], name) {
      var k :| 0 <= k < n && Names(children[..n][k], name);
      assert Names(children[k], name);
    }
    if DeclaredIn(children, name) {
      var k :| 0 <= k < |children| && Names(children[k], name);
      assert k < n ==> Names(children[..n][k], name);
    }
  }

  lemma ToolDeclares(p: Progress, tool: Json, describe: (Json, Json) -> string, t: Target)
    requires AddTool(p, tool, describe).Some?
    ensures Has(AddTool(p, tool, describe).value.targets, t) <==> Has(p.targets, t) || DeclaredBy(tool, t)
  {
    hide AddChildren, Has, DeclaredIn, NameOf;
    if IsUsable(tool) { ChildrenDeclare(p, tool, tool.fields["tools"].items, describe, t); }
  }

  /** The bridge of an accepted list holds exactly the functions its namespaces declare. */
  lemma {:induction false} BridgeIsDeclarations(tools: seq<Json>, describe: (Json, Json) -> string, t: Target)
    requires AddTools(Progress([], map[], {}, {}), tools, describe).Some?
    ensures Has(AddTools(Progress([], map[], {}, {}), tools, describe).value.targets, t) <==> Declared(tools, t)
  {
    hide AddTool, DeclaredBy;
    if tools != [] {
      var n := |tools| - 1;
      var start := Progress([], map[], {}, {});
      BridgeIsDeclarations(tools[..n], describe, t);
      ToolDeclares(AddTools(start, tools[..n], describe).value, tools[n], describe, t);
      if Declared(tools[..n], t) {
        var i :| 0 <= i < n && DeclaredBy(tools[..n][i], t);
        assert DeclaredBy(tools[i], t);
      }
      if Declared(tools, t) {
        var i :| 0 <= i < |tools| && DeclaredBy(tools[i], t);
        assert i < n ==> DeclaredBy(tools[..n][i], t);
      }
    }
  }

  /** So a call to a declared function, with plain arguments, goes out flat and comes back as it was. */
  lemma DeclaredCallRoundTrip(tools: seq<Json>, describe: (Json, Json) -> string, f: map<string, Json>)
    requires AddTools(Progress([], map[], {}, {}), tools, describe).Some?
    requires IsNamespaced(f) && Declared(tools, TargetOf(f)) && forall k :: k in f ==> Plain(f[k])
    ensures Restore(Flatten(Obj(f)), AddTools(Progress([], map[], {}, {}), tools, describe).value.targets) == Obj(f)
  {
    hide Flatten, Restore, AddTools, Declared;
    BridgeIsDeclarations(tools, describe, TargetOf(f));
    NamespacedRoundTrip(f, AddTools(Progress([], map[], {}, {}), tools, describe).value.targets);
  }
}

/**
 Policy compilation (haas/policy/controller.py, haas/policy/models.py): layers are merged from broad to
 narrow, and without delegation every layer may only narrow.

 Path containment, allow-list matching and the private-address test are given functions. The second half
 runs the merges on list objects, as the source does, where appending in place could reach an input list.
 */
module Policies {
  import opened Wrappers

  datatype Workspace = Workspace(mode: string, root: string, roots: seq<string>)
  datatype Network = Network(action: string, allow: seq<string>)
  datatype Tools = Tools(disabled: seq<string>, approval: string)
  datatype Model = Model(models: seq<string>, fallback: string)

  datatype Layer = Layer(
    workspace: Option<Workspace>, network: Option<Network>, tools: Option<Tools>, model: Option<Model>,
    delegation: bool)

  datatype Policy = Policy(workspace: Workspace, network: Network, tools: Tools, model: Model)

  datatype Failure = Widened | Invalid

  const DEFAULT := Policy(Workspace("workspace-write", "/workspace", []), Network("allow", []), Tools([], "on-request"),
                          Model([], ""))

  /** `within(path, root)` after both are resolved. */
  type Within = (string, string) -> bool

  ghost predicate Lawful(within: Within) {
    (forall a :: within(a, a)) && forall a, b, c :: within(a, b) && within(b, c) ==> within(a, c)
  }

  // ------------------------------------------------------------------ merging

  function Rank(mode: string): Option<nat> {
    if mode == "read-only" then Some(0)
    else if mode == "workspace-write" then Some(1)
    else if mode == "danger-full-access" then Some(2)
    else None
  }

  predicate IsApproval(mode: string) { mode == "always" || mode == "on-request" || mode == "never" }

  function Items(l: seq<string>): set<string> { set x | x in l }

  /** `current`, then the entries of `more` it does not have yet, once each. */
  function Union(current: seq<string>, more: seq<string>): (r: seq<string>)
    ensures Items(r) == Items(current) + Items(more)
  {
    if more == [] then current
    else
      var n := |more| - 1;
      var front := Union(current, more[..n]);
      assert more == more[..n] + [more[n]];
      assert Items(more) == Items(more[..n]) + {more[n]};
      assert more[n] in front <==> more[n] in Items(front);
      assert Items(front + [more[n]]) == Items(front) + {more[n]};
      if more[n] in front then front else front + [more[n]]
  }

  /** The rule shared by writable roots, network allow-list and models. */
  function MergeList(current: seq<string>, next: seq<string>, widen: bool): Result<seq<string>, Failure> {
    if next == [] then Ok(current)
    else if current == [] then Ok(next)
    else if widen then Ok(Union(current, next))
    else if !(Items(next) <= Items(current)) then Err(Widened)
    else Ok(if Items(next) < Items(current) then next else current)
  }

  function MergeWorkspace(within: Within, p: Workspace, n: Workspace, widen: bool): Result<Workspace, Failure> {
    if Rank(n.mode).None? || Rank(p.mode).None? then Err(Invalid)
    else if Rank(n.mode).value > Rank(p.mode).value && !widen then Err(Widened)
    else
      var roots := MergeList(p.roots, n.roots, widen);
      if roots.Err? then Err(Widened)
      else if n.root != "" && !within(n.root, p.root) && !widen then Err(Widened)
      else Ok(Workspace(n.mode, if n.root != "" then n.root else p.root, roots.value))
  }

  function MergeNetwork(p: Network, n: Network, widen: bool): Result<Network, Failure> {
    if n.action != "deny" && n.action != "allow" then Err(Invalid)
    else if n.action == "allow" && p.action == "deny" && !widen then Err(Widened)
    else
      var allow := MergeList(p.allow, n.allow, widen);
      if allow.Err? then Err(Widened) else Ok(Network(n.action, allow.value))
  }

  /** The transitions between approval modes that only narrow. */
  predicate Narrows(from: string, to: string) { to == "never" || (from == "on-request" && to == "always") }

  function MergeTools(p: Tools, n: Tools, widen: bool): Result<Tools, Failure> {
    if !IsApproval(n.approval) || !IsApproval(p.approval) then Err(Invalid)
    else if n.approval != p.approval && !Narrows(p.approval, n.approval) && !widen then Err(Widened)
    else Ok(Tools(Union(p.disabled, n.disabled), n.approval))
  }

  function MergeModel(p: Model, n: Model, widen: bool): Result<Model, Failure> {
    var models := MergeList(p.models, n.models, widen);
    if models.Err? then Err(Widened)
    else Ok(Model(models.value, if n.fallback != "" then n.fallback else p.fallback))
  }

  datatype Progress = Progress(policy: Policy, widen: bool)

  function AddWorkspace(within: Within, p: Progress, l: Layer): Result<Progress, Failure> {
    match l.workspace
    case None => Ok(p)
    case Some(n) =>
      var w := MergeWorkspace(within, p.policy.workspace, n, p.widen);
      if w.Err? then Err(w.error) else Ok(p.(policy := p.policy.(workspace := w.value)))
  }

  function AddNetwork(p: Progress, l: Layer): Result<Progress, Failure> {
    match l.network
    case None => Ok(p)
    case Some(n) =>
      var w := MergeNetwork(p.policy.network, n, p.widen);
      if w.Err? then Err(w.error) else Ok(p.(policy := p.policy.(network := w.value)))
  }

  function AddTools(p: Progress, l: Layer): Result<Progress, Failure> {
    match l.tools
    case None => Ok(p)
    case Some(n) =>
      var w := MergeTools(p.policy.tools, n, p.widen);
      if w.Err? then Err(w.error) else Ok(p.(policy := p.policy.(tools := w.value)))
  }

  function AddModel(p: Progress, l: Layer): Result<Progress, Failure> {
    match l.model
    case None => Ok(p)
    case Some(n) =>
      var w := MergeModel(p.policy.model, n, p.widen);
      if w.Err? then Err(w.error) else Ok(p.(policy := p.policy.(model := w.value)))
  }

  function AddReach(within: Within, p: Progress, l: Layer): Result<Progress, Failure> {
    var a := AddWorkspace(within, p, l);
    if a.Err? then a else AddNetwork(a.value, l)
  }

  function AddUse(p: Progress, l: Layer): Result<Progress, Failure> {
    var a := AddTools(p, l);
    if a.Err? then a else AddModel(a.value, l)
  }

  function AddLayer(within: Within, p: Progress, l: Layer): Result<Progress, Failure> {
    var a := AddReach(within, p, l);
    if a.Err? then a
    else
      var b := AddUse(a.value, l);
      if b.Err? then b else Ok(b.value.(widen := b.value.widen || l.delegation))
  }

  /** The merge of the first layers, before the writable roots are filled in. */
  function Merged(within: Within, layers: seq<Layer>): Result<Progress, Failure> {
    if layers == [] then Ok(Progress(DEFAULT, false))
    else
      var before := Merged(within, layers[..|layers| - 1]);
      if before.Err? then before else AddLayer(within, before.value, layers[|layers| - 1])
  }

  /** With no writable roots given, the root is the one writable root. */
  function Filled(p: Policy): Policy {
    if p.workspace.roots == [] then p.(workspace := p.workspace.(roots := [p.workspace.root])) else p
  }

  function Compiled(within: Within, layers: seq<Layer>): Result<Policy, Failure> {
    match Merged(within, layers)
    case Err(e) => Err(e)
    case Ok(p) => Ok(Filled(p.policy))
  }

  // ---------------------------------------------------------------- narrowing

  /** A list once given is only cut down. */
  predicate ListNarrower(p: seq<string>, q: seq<string>) { p != [] ==> q != [] && Items(q) <= Items(p) }

  predicate ApprovalNarrower(p: string, q: string) { q == p || Narrows(p, q) }

  predicate Narrower(within: Within, p: Policy, q: Policy) {
    && ModeNarrower(p.workspace.mode, q.workspace.mode)
    && within(q.workspace.root, p.workspace.root)
    && ListNarrower(p.workspace.roots, q.workspace.roots)
    && (p.network.action == "deny" ==> q.network.action == "deny")
    && ListNarrower(p.network.allow, q.network.allow)
    && Items(p.tools.disabled) <= Items(q.tools.disabled)
    && ApprovalNarrower(p.tools.approval, q.tools.approval)
    && ListNarrower(p.model.models, q.model.models)
  }

  lemma NarrowerTransitive(within: Within, p: Policy, q: Policy, r: Policy)
    requires Lawful(within) && Narrower(within, p, q) && Narrower(within, q, r)
    ensures Narrower(within, p, r)
  {
  }

  lemma MergedListNarrows(current: seq<string>, next: seq<string>)
    ensures MergeList(current, next, false).Ok? <==> next == [] || current == [] || Items(next) <= Items(current)
    ensures MergeList(current, next, false).Ok? ==> ListNarrower(current, MergeList(current, next, false).value)
  {
  }

  predicate ListAcceptable(current: seq<string>, next: seq<string>) {
    next != [] && current != [] ==> Items(next) <= Items(current)
  }

  predicate ModeNarrower(p: string, q: string) {
    Rank(p).Some? && Rank(q).Some? && Rank(q).value <= Rank(p).value
  }

  predicate WorkspaceAcceptable(within: Within, p: Workspace, n: Workspace) {
    ModeNarrower(p.mode, n.mode) && ListAcceptable(p.roots, n.roots) && (n.root != "" ==> within(n.root, p.root))
  }

  predicate NetworkAcceptable(p: Network, n: Network) {
    (n.action == "deny" || (n.action == "allow" && p.action != "deny")) && ListAcceptable(p.allow, n.allow)
  }

  predicate ToolsAcceptable(p: Tools, n: Tools) { IsApproval(n.approval) && ApprovalNarrower(p.approval, n.approval) }

  /** What a layer must say to be taken without delegation: known modes, and nothing wider than so far. */
  predicate Acceptable(within: Within, p: Policy, l: Layer) {
    && (l.workspace.Some? ==> WorkspaceAcceptable(within, p.workspace, l.workspace.value))
    && (l.network.Some? ==> NetworkAcceptable(p.network, l.network.value))
    && (l.tools.Some? ==> ToolsAcceptable(p.tools, l.tools.value))
    && (l.model.Some? ==> ListAcceptable(p.model.models, l.model.value.models))
  }

  predicate Known(p: Policy) { Rank(p.workspace.mode).Some? && IsApproval(p.tools.approval) }

  lemma WorkspaceNarrows(within: Within, p: Workspace, n: Workspace)
    requires Lawful(within) && Rank(p.mode).Some?
    ensures var r := MergeWorkspace(within, p, n, false);
            && (r.Ok? <==> WorkspaceAcceptable(within, p, n))
            && (r == Err(Invalid) <==>
                  n.mode != "read-only" && n.mode != "workspace-write" && n.mode != "danger-full-access")
            && (r.Ok? ==> ModeNarrower(p.mode, r.value.mode) && within(r.value.root, p.root)
                          && ListNarrower(p.roots, r.value.roots))
  {
    MergedListNarrows(p.roots, n.roots);
  }

  lemma NetworkNarrows(p: Network, n: Network)
    ensures var r := MergeNetwork(p, n, false);
            && (r.Ok? <==> NetworkAcceptable(p, n))
            && (r == Err(Invalid) <==> n.action != "deny" && n.action != "allow")
            && (r.Ok? ==> (p.action == "deny" ==> r.value.action == "deny") && ListNarrower(p.allow, r.value.allow))
  {
    MergedListNarrows(p.allow, n.allow);
  }

  lemma ToolsNarrow(p: Tools, n: Tools)
    requires IsApproval(p.approval)
    ensures var r := MergeTools(p, n, false);
            && (r.Ok? <==> ToolsAcceptable(p, n))
            && (r == Err(Invalid) <==> n.approval != "always" && n.approval != "on-request" && n.approval != "never")
            && (r.Ok? ==> Items(p.disabled) <= Items(r.value.disabled) && IsApproval(r.value.approval)
                          && ApprovalNarrower(p.approval, r.value.approval))
  {
  }

  lemma ModelNarrows(p: Model, n: Model)
    ensures var r := MergeModel(p, n, false);
            && (r.Ok? <==> ListAcceptable(p.models, n.models)) && (r.Ok? ==> ListNarrower(p.models, r.value.models))
  {
    MergedListNarrows(p.models, n.models);
  }

  /** Without delegation a layer is taken exactly when it is acceptable, and then it only narrows. */
  lemma LayerNarrows(within: Within, p: Progress, l: Layer)
    requires Lawful(within) && Known(p.policy) && !p.widen
    ensures AddLayer(within, p, l).Ok? <==> Acceptable(within, p.policy, l)
    ensures AddLayer(within, p, l).Ok? ==>
              var q := AddLayer(within, p, l).value;
              Known(q.policy) && q.widen == l.delegation && Narrower(within, p.policy, q.policy)
  {
    hide MergeWorkspace, MergeNetwork, MergeTools, MergeModel, WorkspaceAcceptable, NetworkAcceptable, ToolsAcceptable,
         ListAcceptable, ListNarrower, ApprovalNarrower, IsApproval, Rank, Items;
    SameIsNarrower(within, p.policy);
    if l.workspace.Some? { WorkspaceNarrows(within, p.policy.workspace, l.workspace.value); }
    if l.network.Some? { NetworkNarrows(p.policy.network, l.network.value); }
    if l.tools.Some? { ToolsNarrow(p.policy.tools, l.tools.value); }
    if l.model.Some? { ModelNarrows(p.policy.model, l.model.value); }
  }

  /** After delegation a layer is refused exactly for a mode, action or approval mode that is not known. */
  lemma DelegatedLayerIff(within: Within, p: Progress, l: Layer)
    requires Known(p.policy) && p.widen
    ensures AddLayer(within, p, l).Ok? <==>
            && (l.workspace.Some? ==> Rank(l.workspace.value.mode).Some?)
            && (l.network.Some? ==> l.network.value.action == "deny" || l.network.value.action == "allow")
            && (l.tools.Some? ==> IsApproval(l.tools.value.approval))
    ensures AddLayer(within, p, l).Ok? ==>
              Known(AddLayer(within, p, l).value.policy) && AddLayer(within, p, l).value.widen
  {
    hide Union, Items, Rank, IsApproval;
  }

  /** Without any layer: writing is confined to the workspace, public addresses are reachable, prompts come on
      request, and neither tools nor models are restricted. */
  lemma NoLayers(within: Within)
    ensures Compiled(within, []) ==
            Ok(Policy(Workspace("workspace-write", "/workspace", ["/workspace"]), Network("allow", []),
                      Tools([], "on-request"), Model([], "")))
  {
  }

  predicate NoDelegation(layers: seq<Layer>) { forall i :: 0 <= i < |layers| ==> !layers[i].delegation }

  lemma {:induction false} MergedNarrows(within: Within, layers: seq<Layer>, k: nat)
    requires Lawful(within) && NoDelegation(layers) && k <= |layers| && Merged(within, layers).Ok?
    ensures Known(Merged(within, layers).value.policy) && !Merged(within, layers).value.widen
    ensures Merged(within, layers[..k]).Ok?
    ensures Narrower(within, Merged(within, layers[..k]).value.policy, Merged(within, layers).value.policy)
    decreases |layers|
  {
    hide AddLayer, Narrower;
    var n := |layers| - 1;
    if layers == [] {
      assert layers[..k] == [];
      SameIsNarrower(within, DEFAULT);
    } else {
      var before := layers[..n];
      MergedNarrows(within, before, if k <= n then k else n);
      LayerNarrows(within, Merged(within, before).value, layers[n]);
      if k <= n {
        assert before[..k] == layers[..k];
        NarrowerTransitive(within, Merged(within, layers[..k]).value.policy, Merged(within, before).value.policy,
                           Merged(within, layers).value.policy);
      } else {
        assert layers[..k] == layers;
        SameIsNarrower(within, Merged(within, layers).value.policy);
      }
    }
  }

  lemma SameIsNarrower(within: Within, p: Policy)
    requires Lawful(within) && Known(p)
    ensures Narrower(within, p, p)
  {
  }

  /** Compilation without delegation succeeds exactly when each layer is acceptable after the ones before. */
  lemma {:induction false} CompiledIff(within: Within, layers: seq<Layer>)
    requires Lawful(within) && NoDelegation(layers)
    ensures Compiled(within, layers).Ok? <==>
            forall k :: 0 <= k < |layers| ==>
              Merged(within, layers[..k]).Ok? && Acceptable(within, Merged(within, layers[..k]).value.policy, layers[k])
  {
    hide AddLayer, Acceptable, Narrower;
    if layers != [] {
      var n := |layers| - 1;
      var before := layers[..n];
      CompiledIff(within, before);
      forall k | 0 <= k < n ensures before[..k] == layers[..k] && before[k] == layers[k] {}
      if Merged(within, before).Ok? {
        MergedNarrows(within, before, 0);
        LayerNarrows(within, Merged(within, before).value, layers[n]);
      }
    }
  }

  // ------------------------------------------------- what the narrowing means

  predicate PermitsModel(p: Policy, model: string) { p.model.models == [] || model in p.model.models }

  /** `authorize_network` for a well-formed URL. */
  predicate Authorizes(matches: (string, string) -> bool, isPrivate: string -> bool, n: Network, url: string) {
    var listed := exists e :: e in n.allow && matches(e, url);
    (isPrivate(url) ==> listed) && (n.action == "deny" ==> listed)
  }

  /** `authorize_workspace_path` for writing. */
  predicate MayWrite(within: Within, w: Workspace, path: string) {
    if w.roots == [] then within(path, w.root) else exists r :: r in w.roots && within(path, r)
  }

  /** Compiling any layers without delegation only narrows. From the start: mode, root, disabled tools,
      approval mode and models. From the first layer that gives a non-empty list on: the authorized URLs
      and the writable paths. */
  lemma CompileOnlyNarrows(within: Within, layers: seq<Layer>, k: nat, model: string, url: string, path: string,
                           matches: (string, string) -> bool, isPrivate: string -> bool)
    requires Lawful(within) && NoDelegation(layers) && k <= |layers| && Compiled(within, layers).Ok?
    ensures Merged(within, layers[..k]).Ok?
    ensures var p, q := Merged(within, layers[..k]).value.policy, Compiled(within, layers).value;
            && ModeNarrower(p.workspace.mode, q.workspace.mode) && within(q.workspace.root, p.workspace.root)
            && Items(p.tools.disabled) <= Items(q.tools.disabled)
            && ApprovalNarrower(p.tools.approval, q.tools.approval)
            && (PermitsModel(q, model) ==> PermitsModel(p, model))
            && (p.network.allow != [] || q.network.allow == [] ==>
                  Authorizes(matches, isPrivate, q.network, url) ==> Authorizes(matches, isPrivate, p.network, url))
            && (p.workspace.roots != [] || Merged(within, layers).value.policy.workspace.roots == [] ==>
                  MayWrite(within, q.workspace, path) ==> MayWrite(within, p.workspace, path))
  {
    hide Merged, ModeNarrower, ApprovalNarrower, MayWrite, Authorizes, ListNarrower, Filled, Lawful, Items,
         NoDelegation;
    MergedNarrows(within, layers, k);
    var p, m := Merged(within, layers[..k]).value.policy, Merged(within, layers).value.policy;
    FilledSame(within, m, path);
    UrlsNarrow(matches, isPrivate, p.network, m.network, url);
    PathsNarrow(within, p.workspace, m.workspace, path);
    ModelsNarrow(p.model.models, m.model.models, model);
  }

  /** Filling in the writable roots changes nothing about what may be written. */
  lemma FilledSame(within: Within, m: Policy, path: string)
    ensures var q := Filled(m);
            && q.network == m.network && q.tools == m.tools && q.model == m.model
            && q.workspace.mode == m.workspace.mode && q.workspace.root == m.workspace.root
            && (MayWrite(within, q.workspace, path) <==> MayWrite(within, m.workspace, path))
  {
    if m.workspace.roots == [] { assert Filled(m).workspace.roots[0] == m.workspace.root; }
  }

  lemma ModelsNarrow(p: seq<string>, q: seq<string>, model: string)
    requires ListNarrower(p, q)
    ensures q == [] || model in q ==> p == [] || model in p
  {
    if p != [] && model in q { assert model in Items(q); }
  }

  lemma UrlsNarrow(matches: (string, string) -> bool, isPrivate: string -> bool, p: Network, q: Network, url: string)
    requires ListNarrower(p.allow, q.allow) && (p.action == "deny" ==> q.action == "deny")
    ensures (p.allow != [] || q.allow == []) && Authorizes(matches, isPrivate, q, url) ==>
              Authorizes(matches, isPrivate, p, url)
  {
    if p.allow != [] {
      forall e | e in q.allow ensures e in p.allow { assert e in Items(q.allow); }
    }
  }

  lemma PathsNarrow(within: Within, p: Workspace, q: Workspace, path: string)
    requires Lawful(within) && ListNarrower(p.roots, q.roots) && within(q.root, p.root)
    ensures (p.roots != [] || q.roots == []) && MayWrite(within, q, path) ==> MayWrite(within, p, path)
  {
    if p.roots != [] {
      forall e | e in q.roots ensures e in p.roots { assert e in Items(q.roots); }
    }
  }

  // -------------------------------------------- what each layer gets its way in

  /** A list that was asked for bounds the list there is. */
  predicate Bounds(asked: seq<string>, l: seq<string>) {
    asked != [] ==> l != [] && forall x :: x in l ==> x in asked
  }

  /** "read-only" is final, and "workspace-write" rules out full access. */
  predicate ModeBounds(asked: string, mode: string) {
    && (asked == "read-only" ==> mode == "read-only")
    && (asked == "workspace-write" ==> mode == "read-only" || mode == "workspace-write")
  }

  predicate WorkspaceHonours(within: Within, asked: Workspace, w: Workspace) {
    && ModeBounds(asked.mode, w.mode) && Bounds(asked.roots, w.roots)
    && (asked.root != "" ==> within(w.root, asked.root))
  }

  predicate NetworkHonours(asked: Network, n: Network) {
    (asked.action == "deny" ==> n.action == "deny") && Bounds(asked.allow, n.allow)
  }

  predicate ToolsHonour(asked: Tools, t: Tools) {
    && (forall x :: x in asked.disabled ==> x in t.disabled)
    && (asked.approval == "never" ==> t.approval == "never")
    && (asked.approval == "always" ==> t.approval == "always" || t.approval == "never")
  }

  /** Everything the layer restricts is at least as restricted in `q`. */
  predicate Honours(within: Within, l: Layer, q: Policy) {
    && (l.workspace.Some? ==> WorkspaceHonours(within, l.workspace.value, q.workspace))
    && (l.network.Some? ==> NetworkHonours(l.network.value, q.network))
    && (l.tools.Some? ==> ToolsHonour(l.tools.value, q.tools))
    && (l.model.Some? ==> Bounds(l.model.value.models, q.model.models))
  }

  lemma InItems(l: seq<string>, m: seq<string>)
    ensures Items(l) <= Items(m) <==> forall x :: x in l ==> x in m
  {
    if Items(l) <= Items(m) {
      forall x | x in l ensures x in m { assert x in Items(l); }
    }
  }

  lemma MergedListHonours(current: seq<string>, next: seq<string>)
    requires MergeList(current, next, false).Ok?
    ensures Bounds(next, MergeList(current, next, false).value)
  {
    var r := MergeList(current, next, false).value;
    InItems(r, next);
  }

  lemma LayerHonoured(within: Within, p: Progress, l: Layer)
    requires Lawful(within) && Known(p.policy) && !p.widen && AddLayer(within, p, l).Ok?
    ensures Honours(within, l, AddLayer(within, p, l).value.policy)
  {
    hide MergeList, Bounds, Items;
    if l.workspace.Some? { MergedListHonours(p.policy.workspace.roots, l.workspace.value.roots); }
    if l.network.Some? { MergedListHonours(p.policy.network.allow, l.network.value.allow); }
    if l.tools.Some? { DisabledHonoured(p.policy.tools.disabled, l.tools.value.disabled); }
    if l.model.Some? { MergedListHonours(p.policy.model.models, l.model.value.models); }
  }

  lemma DisabledHonoured(current: seq<string>, more: seq<string>)
    ensures forall x :: x in current || x in more <==> x in Union(current, more)
  {
    forall x ensures x in current || x in more <==> x in Union(current, more) {
      assert x in Items(Union(current, more)) <==> x in Items(current) || x in Items(more);
    }
  }

  lemma BoundsNarrower(asked: seq<string>, p: seq<string>, q: seq<string>)
    requires Bounds(asked, p) && ListNarrower(p, q)
    ensures Bounds(asked, q)
  {
    if asked != [] { InItems(q, p); }
  }

  lemma StillHonoured(within: Within, l: Layer, p: Policy, q: Policy)
    requires Lawful(within) && Honours(within, l, p) && Narrower(within, p, q)
    ensures Honours(within, l, q)
  {
    hide Bounds, ListNarrower, Items;
    if l.workspace.Some? { BoundsNarrower(l.workspace.value.roots, p.workspace.roots, q.workspace.roots); }
    if l.network.Some? { BoundsNarrower(l.network.value.allow, p.network.allow, q.network.allow); }
    if l.tools.Some? { InItems(p.tools.disabled, q.tools.disabled); }
    if l.model.Some? { BoundsNarrower(l.model.value.models, p.model.models, q.model.models); }
  }

  lemma FilledHonours(within: Within, l: Layer, p: Policy)
    requires Honours(within, l, p)
    ensures Honours(within, l, Filled(p))
  {
  }

  /** Without delegation every layer gets its way: the compiled policy is at least as restricted as each
      layer asked for by itself, whatever the other layers say. */
  lemma EveryLayerHonoured(within: Within, layers: seq<Layer>, k: nat)
    requires Lawful(within) && NoDelegation(layers) && k < |layers| && Compiled(within, layers).Ok?
    ensures Honours(within, layers[k], Compiled(within, layers).value)
  {
    hide Merged, AddLayer, Honours, Narrower, Filled, Known;
    MergedNarrows(within, layers, k + 1);
    MergedNarrows(within, layers, k);
    MergedStep(within, layers, k);
    MergedNarrows(within, layers[..k], k);
    LayerHonoured(within, Merged(within, layers[..k]).value, layers[k]);
    StillHonoured(within, layers[k], Merged(within, layers[..k + 1]).value.policy, Merged(within, layers).value.policy);
    FilledHonours(within, layers[k], Merged(within, layers).value.policy);
  }

  lemma MergedStep(within: Within, layers: seq<Layer>, k: nat)
    requires k < |layers|
    ensures var before := Merged(within, layers[..k]);
            Merged(within, layers[..k + 1]) == if before.Err? then before else AddLayer(within, before.value, layers[k])
  {
    hide AddLayer;
    assert layers[..k + 1][..|layers[..k + 1]| - 1] == layers[..k];
  }

  // ------------------------------------------------ where each setting comes from

  lemma MergedListFrom(current: seq<string>, next: seq<string>, widen: bool)
    requires MergeList(current, next, widen).Ok?
    ensures var r := MergeList(current, next, widen).value;
            ListTaken(current, next, r, widen)
  {
    var r := MergeList(current, next, widen).value;
    InItems(r, next);
    InItems(next, r);
    if current != [] && next != [] && widen { DisabledHonoured(current, next); }
  }

  /** What a list becomes when a layer asks for `asked`. */
  ghost predicate ListTaken(p: seq<string>, asked: seq<string>, q: seq<string>, widen: bool) {
    && (asked == [] ==> q == p)
    && (asked != [] && !widen ==> forall x :: x in q <==> x in asked)
    && (widen ==> forall x :: x in q <==> x in p || x in asked)
  }

  /** What one accepted layer makes of the policy, setting by setting: what it gives it sets, what it leaves
      out stays. Lists are replaced, or extended once delegation is given; disabled tools add up. */
  lemma LayerSets(within: Within, p: Progress, l: Layer)
    requires AddLayer(within, p, l).Ok?
    ensures var q := AddLayer(within, p, l).value;
            && q.widen == (p.widen || l.delegation)
            && (if l.workspace.None? then q.policy.workspace == p.policy.workspace
                else var n := l.workspace.value;
                     && q.policy.workspace.mode == n.mode
                     && q.policy.workspace.root == (if n.root == "" then p.policy.workspace.root else n.root)
                     && ListTaken(p.policy.workspace.roots, n.roots, q.policy.workspace.roots, p.widen))
            && (if l.network.None? then q.policy.network == p.policy.network
                else var n := l.network.value;
                     && q.policy.network.action == n.action
                     && ListTaken(p.policy.network.allow, n.allow, q.policy.network.allow, p.widen))
            && (if l.tools.None? then q.policy.tools == p.policy.tools
                else var n := l.tools.value;
                     && q.policy.tools.approval == n.approval
                     && forall x :: x in q.policy.tools.disabled <==> x in p.policy.tools.disabled || x in n.disabled)
            && (if l.model.None? then q.policy.model == p.policy.model
                else var n := l.model.value;
                     && q.policy.model.fallback == (if n.fallback == "" then p.policy.model.fallback else n.fallback)
                     && ListTaken(p.policy.model.models, n.models, q.policy.model.models, p.widen))
  {
    hide MergeList, Items, Union;
    if l.workspace.Some? { MergedListFrom(p.policy.workspace.roots, l.workspace.value.roots, p.widen); }
    if l.network.Some? { MergedListFrom(p.policy.network.allow, l.network.value.allow, p.widen); }
    if l.tools.Some? { DisabledHonoured(p.policy.tools.disabled, l.tools.value.disabled); }
    if l.model.Some? { MergedListFrom(p.policy.model.models, l.model.value.models, p.widen); }
  }

  datatype ListSetting = Roots | Allow | Models

  /** The list a layer asks for; empty when it says nothing. */
  function Asks(l: Layer, s: ListSetting): seq<string> {
    match s
    case Roots => if l.workspace.Some? then l.workspace.value.roots else []
    case Allow => if l.network.Some? then l.network.value.allow else []
    case Models => if l.model.Some? then l.model.value.models else []
  }

  function ListOf(p: Policy, s: ListSetting): seq<string> {
    match s case Roots => p.workspace.roots case Allow => p.network.allow case Models => p.model.models
  }

  predicate Delegates(layers: seq<Layer>) { exists i :: 0 <= i < |layers| && layers[i].delegation }

  /** The entries that count in the end: those of the last list asked for, and after delegation those of every
      later list on top. */
  function Asked(layers: seq<Layer>, s: ListSetting): set<string> {
    if layers == [] then {}
    else
      var front, last := layers[..|layers| - 1], Asks(layers[|layers| - 1], s);
      if last == [] then Asked(front, s)
      else if Delegates(front) then Asked(front, s) + Items(last)
      else Items(last)
  }

  /** The last layer up to `k` that gives a section, if any. */
  predicate LastOf(layers: seq<Layer>, has: Layer -> bool, k: nat) {
    k < |layers| && has(layers[k]) && forall j :: k < j < |layers| ==> !has(layers[j])
  }

  lemma {:induction false} MergedLists(within: Within, layers: seq<Layer>, s: ListSetting)
    requires Merged(within, layers).Ok?
    ensures Merged(within, layers).value.widen == Delegates(layers)
    ensures Items(ListOf(Merged(within, layers).value.policy, s)) == Asked(layers, s)
    decreases |layers|
  {
    hide AddLayer;
    if layers != [] {
      var n := |layers| - 1;
      var front := layers[..n];
      MergedLists(within, front, s);
      LayerSets(within, Merged(within, front).value, layers[n]);
      assert layers == front + [layers[n]];
      assert Delegates(layers) <==> Delegates(front) || layers[n].delegation;
    }
  }

  /** The single settings: each comes from the last layer that gives it. */
  lemma {:induction false} MergedSettings(within: Within, layers: seq<Layer>, k: nat)
    requires Merged(within, layers).Ok?
    ensures var p := Merged(within, layers).value.policy;
            && (LastOf(layers, (l: Layer) => l.workspace.Some?, k) ==>
                  p.workspace.mode == layers[k].workspace.value.mode)
            && (LastOf(layers, (l: Layer) => l.workspace.Some? && l.workspace.value.root != "", k) ==>
                  p.workspace.root == layers[k].workspace.value.root)
            && (LastOf(layers, (l: Layer) => l.network.Some?, k) ==> p.network.action == layers[k].network.value.action)
            && (LastOf(layers, (l: Layer) => l.tools.Some?, k) ==> p.tools.approval == layers[k].tools.value.approval)
            && (LastOf(layers, (l: Layer) => l.model.Some? && l.model.value.fallback != "", k) ==>
                  p.model.fallback == layers[k].model.value.fallback)
    decreases |layers|
  {
    hide AddLayer, ListTaken;
    if layers != [] {
      var n := |layers| - 1;
      MergedSettings(within, layers[..n], k);
      LayerSets(within, Merged(within, layers[..n]).value, layers[n]);
    }
  }

  /** The disabled tools add up. */
  lemma {:induction false} MergedDisabled(within: Within, layers: seq<Layer>, tool: string)
    requires Merged(within, layers).Ok?
    ensures tool in Merged(within, layers).value.policy.tools.disabled <==>
            exists k :: 0 <= k < |layers| && layers[k].tools.Some? && tool in layers[k].tools.value.disabled
    decreases |layers|
  {
    hide AddLayer, ListTaken;
    if layers != [] {
      var n := |layers| - 1;
      MergedDisabled(within, layers[..n], tool);
      LayerSets(within, Merged(within, layers[..n]).value, layers[n]);
      assert layers == layers[..n] + [layers[n]];
    }
  }

  /** The compiled policy of every accepted list of layers, delegating or not, by where it comes from: each
      list holds the entries asked for last (all of them once delegated), each single setting is the last one
      given, the disabled tools add up, and writable roots that nobody asked for are the root. */
  lemma CompiledComesFrom(within: Within, layers: seq<Layer>, k: nat, tool: string)
    requires Compiled(within, layers).Ok?
    ensures var q := Compiled(within, layers).value;
            && Items(q.network.allow) == Asked(layers, Allow) && Items(q.model.models) == Asked(layers, Models)
            && (Asked(layers, Roots) != {} ==> Items(q.workspace.roots) == Asked(layers, Roots))
            && (Asked(layers, Roots) == {} ==> q.workspace.roots == [q.workspace.root])
            && (tool in q.tools.disabled <==>
                  exists i :: 0 <= i < |layers| && layers[i].tools.Some? && tool in layers[i].tools.value.disabled)
            && (LastOf(layers, (l: Layer) => l.workspace.Some?, k) ==>
                  q.workspace.mode == layers[k].workspace.value.mode)
            && (LastOf(layers, (l: Layer) => l.workspace.Some? && l.workspace.value.root != "", k) ==>
                  q.workspace.root == layers[k].workspace.value.root)
            && (LastOf(layers, (l: Layer) => l.network.Some?, k) ==> q.network.action == layers[k].network.value.action)
            && (LastOf(layers, (l: Layer) => l.tools.Some?, k) ==> q.tools.approval == layers[k].tools.value.approval)
            && (LastOf(layers, (l: Layer) => l.model.Some? && l.model.value.fallback != "", k) ==>
                  q.model.fallback == layers[k].model.value.fallback)
  {
    hide Merged, Asked, LastOf;
    MergedLists(within, layers, Roots);
    MergedLists(within, layers, Allow);
    MergedLists(within, layers, Models);
    MergedDisabled(within, layers, tool);
    MergedSettings(within, layers, k);
    var roots := Merged(within, layers).value.policy.workspace.roots;
    assert roots != [] ==> roots[0] in Items(roots);
  }

  predicate Lists(matches: (string, string) -> bool, n: Network, url: string) {
    exists e :: e in n.allow && matches(e, url)
  }

  /** After layers that gave no allow-list, the first non-empty one can add URLs: exactly those it lists that
      were private, or denied by default. */
  lemma FirstListAddsIff(within: Within, layers: seq<Layer>, k: nat, url: string, matches: (string, string) -> bool,
                         isPrivate: string -> bool)
    requires Lawful(within) && NoDelegation(layers) && k <= |layers| && Compiled(within, layers).Ok?
    requires Merged(within, layers[..k]).Ok? ==> Merged(within, layers[..k]).value.policy.network.allow == []
    ensures Merged(within, layers[..k]).Ok?
    ensures var p, q := Merged(within, layers[..k]).value.policy.network, Compiled(within, layers).value.network;
            Authorizes(matches, isPrivate, q, url) && !Authorizes(matches, isPrivate, p, url) <==>
            Lists(matches, q, url) && (isPrivate(url) || p.action == "deny")
  {
    hide Merged, ModeNarrower, ApprovalNarrower, MayWrite, ListNarrower, Filled, Lawful, Items, NoDelegation;
    MergedNarrows(within, layers, k);
    FilledSame(within, Merged(within, layers).value.policy, url);
  }

  /** After layers that gave no writable roots, the first non-empty list can add paths: exactly those under a
      given root that were not under the workspace root. */
  lemma FirstRootsAddIff(within: Within, layers: seq<Layer>, k: nat, path: string)
    requires Lawful(within) && NoDelegation(layers) && k <= |layers| && Compiled(within, layers).Ok?
    requires Merged(within, layers[..k]).Ok? ==> Merged(within, layers[..k]).value.policy.workspace.roots == []
    ensures Merged(within, layers[..k]).Ok? && Merged(within, layers).Ok?
    ensures var p, q := Merged(within, layers[..k]).value.policy.workspace, Compiled(within, layers).value.workspace;
            MayWrite(within, q, path) && !MayWrite(within, p, path) <==>
            (exists r :: r in Merged(within, layers).value.policy.workspace.roots && within(path, r))
            && !within(path, p.root)
  {
    hide Merged, ModeNarrower, ApprovalNarrower, ListNarrower, Filled, Items, NoDelegation;
    MergedNarrows(within, layers, k);
    FilledSame(within, Merged(within, layers).value.policy, path);
  }

  lemma OneLayer(within: Within, l: Layer)
    requires AddLayer(within, Progress(DEFAULT, false), l).Ok?
    ensures Merged(within, [l]) == AddLayer(within, Progress(DEFAULT, false), l)
    ensures Merged(within, [l][..0]) == Ok(Progress(DEFAULT, false))
  {
    hide AddLayer;
    assert [l][..|[l]| - 1] == [] && [l][..0] == [];
  }

  /** A layer that only lists a private address makes that address reachable. */
  lemma PrivateAddressAdded(within: Within, url: string, matches: (string, string) -> bool, isPrivate: string -> bool)
    requires matches("10.0.0.1", url) && isPrivate(url)
    ensures var l := Layer(None, Some(Network("allow", ["10.0.0.1"])), None, None, false);
            && Compiled(within, [l]).Ok? && Merged(within, [l][..0]) == Ok(Progress(DEFAULT, false))
            && Authorizes(matches, isPrivate, Compiled(within, [l]).value.network, url)
            && !Authorizes(matches, isPrivate, DEFAULT.network, url)
  {
    var l := Layer(None, Some(Network("allow", ["10.0.0.1"])), None, None, false);
    OneLayer(within, l);
    assert "10.0.0.1" in Compiled(within, [l]).value.network.allow;
  }

  /** A layer that only gives a writable root outside the workspace makes that root writable. */
  lemma OutsideRootAdded(within: Within)
    requires Lawful(within) && !within("/etc", "/workspace")
    ensures var l := Layer(Some(Workspace("workspace-write", "", ["/etc"])), None, None, None, false);
            && Compiled(within, [l]).Ok? && Merged(within, [l][..0]) == Ok(Progress(DEFAULT, false))
            && MayWrite(within, Compiled(within, [l]).value.workspace, "/etc")
            && !MayWrite(within, DEFAULT.workspace, "/etc")
  {
    var l := Layer(Some(Workspace("workspace-write", "", ["/etc"])), None, None, None, false);
    OneLayer(within, l);
    assert "/etc" in Compiled(within, [l]).value.workspace.roots;
  }

  // ------------------------------------------------------- on list objects

  /** A Python list of strings. */
  class StringList {
    var items: seq<string>

    constructor (items: seq<string>)
      ensures this.items == items
    {
      this.items := items;
    }
  }

  datatype WorkspaceObject = WorkspaceObject(mode: string, root: string, roots: StringList)
  datatype NetworkObject = NetworkObject(action: string, allow: StringList)
  datatype ToolsObject = ToolsObject(disabled: StringList, approval: string)
  datatype ModelObject = ModelObject(models: StringList, fallback: string)

  datatype LayerObject = LayerObject(
    workspace: Option<WorkspaceObject>, network: Option<NetworkObject>, tools: Option<ToolsObject>,
    model: Option<ModelObject>, delegation: bool)

  datatype PolicyObject = PolicyObject(
    workspace: WorkspaceObject, network: NetworkObject, tools: ToolsObject, model: ModelObject)

  function ListsIn(l: LayerObject): set<StringList> {
    (if l.workspace.Some? then {l.workspace.value.roots} else {})
    + (if l.network.Some? then {l.network.value.allow} else {})
    + (if l.tools.Some? then {l.tools.value.disabled} else {})
    + (if l.model.Some? then {l.model.value.models} else {})
  }

  ghost function LayerValue(l: LayerObject): (v: Layer)
    reads ListsIn(l)
    ensures v.delegation == l.delegation
  {
    Layer(if l.workspace.Some?
          then Some(Workspace(l.workspace.value.mode, l.workspace.value.root, l.workspace.value.roots.items)) else None,
          if l.network.Some? then Some(Network(l.network.value.action, l.network.value.allow.items)) else None,
          if l.tools.Some? then Some(Tools(l.tools.value.disabled.items, l.tools.value.approval)) else None,
          if l.model.Some? then Some(Model(l.model.value.models.items, l.model.value.fallback)) else None,
          l.delegation)
  }

  function AllLists(layers: seq<LayerObject>): set<StringList> {
    set i, o | 0 <= i < |layers| && o in ListsIn(layers[i]) :: o
  }

  ghost function LayerValues(layers: seq<LayerObject>): (r: seq<Layer>)
    reads AllLists(layers)
    ensures |r| == |layers| && forall i :: 0 <= i < |layers| ==> r[i] == LayerValue(layers[i])
  {
    seq(|layers|, i requires 0 <= i < |layers| reads AllLists(layers) => LayerValue(layers[i]))
  }

  function PolicyLists(p: PolicyObject): set<StringList> {
    {p.workspace.roots, p.network.allow, p.tools.disabled, p.model.models}
  }

  ghost function PolicyValue(p: PolicyObject): Policy
    reads PolicyLists(p)
  {
    Policy(Workspace(p.workspace.mode, p.workspace.root, p.workspace.roots.items),
           Network(p.network.action, p.network.allow.items),
           Tools(p.tools.disabled.items, p.tools.approval),
           Model(p.model.models.items, p.model.fallback))
  }

  /** No two of the policy's lists are one object. */
  predicate Separate(p: PolicyObject) {
    && p.workspace.roots != p.network.allow && p.workspace.roots != p.tools.disabled
    && p.workspace.roots != p.model.models
    && p.network.allow != p.tools.disabled && p.network.allow != p.model.models && p.tools.disabled != p.model.models
  }

  /** Append to `current` in place, as the source does: only with delegation, and never to `next`. */
  method MergeLists(current: StringList, next: StringList, widen: bool) returns (r: Result<StringList, Failure>)
    requires current != next
    modifies current
    ensures r.Ok? <==> MergeList(old(current.items), next.items, widen).Ok?
    ensures r.Ok? ==> r.value.items == MergeList(old(current.items), next.items, widen).value
    ensures r.Ok? ==> ListTaken(old(current.items), next.items, r.value.items, widen)
    ensures r.Ok? ==> r.value == current || fresh(r.value)
  {
    if MergeList(current.items, next.items, widen).Ok? { MergedListFrom(current.items, next.items, widen); }
    hide ListTaken;
    var more := next.items;
    if more == [] { return Ok(current); }
    if current.items == [] {
      var copy := new StringList(more);
      return Ok(copy);
    }
    for i := 0 to |more|
      invariant current.items == Union(old(current.items), more[..i])
      invariant !widen ==> Items(more[..i]) <= Items(old(current.items)) && current.items == old(current.items)
    {
      assert more[..i + 1][..i] == more[..i] && more[..i + 1] == more[..i] + [more[i]];
      if more[i] !in current.items {
        if !widen {
          assert more[i] in Items(more) && more[i] !in Items(old(current.items));
          return Err(Widened);
        }
        current.items := current.items + [more[i]];
      }
    }
    assert more[..|more|] == more;
    if !widen && Items(more) < Items(current.items) {
      var copy := new StringList(more);
      return Ok(copy);
    }
    return Ok(current);
  }

  method MergeWorkspaces(within: Within, p: WorkspaceObject, n: WorkspaceObject, widen: bool)
    returns (r: Result<WorkspaceObject, Failure>)
    requires p.roots != n.roots
    modifies p.roots
    ensures var v := MergeWorkspace(within, Workspace(p.mode, p.root, old(p.roots.items)),
                                    Workspace(n.mode, n.root, n.roots.items), widen);
            && (r.Err? ==> v == Err(r.error))
            && (r.Ok? ==> v == Ok(Workspace(r.value.mode, r.value.root, r.value.roots.items))
                          && (r.value.roots == p.roots || fresh(r.value.roots)))
  {
    hide MergeList;
    if Rank(n.mode).None? || Rank(p.mode).None? { return Err(Invalid); }
    if Rank(n.mode).value > Rank(p.mode).value && !widen { return Err(Widened); }
    var roots := MergeLists(p.roots, n.roots, widen);
    if roots.Err? { return Err(Widened); }
    if n.root != "" && !within(n.root, p.root) && !widen { return Err(Widened); }
    return Ok(WorkspaceObject(n.mode, if n.root != "" then n.root else p.root, roots.value));
  }

  method MergeNetworks(p: NetworkObject, n: NetworkObject, widen: bool) returns (r: Result<NetworkObject, Failure>)
    requires p.allow != n.allow
    modifies p.allow
    ensures var v := MergeNetwork(Network(p.action, old(p.allow.items)), Network(n.action, n.allow.items), widen);
            && (r.Err? ==> v == Err(r.error))
            && (r.Ok? ==> v == Ok(Network(r.value.action, r.value.allow.items))
                          && (r.value.allow == p.allow || fresh(r.value.allow)))
  {
    hide MergeList;
    if n.action != "deny" && n.action != "allow" { return Err(Invalid); }
    if n.action == "allow" && p.action == "deny" && !widen { return Err(Widened); }
    var allow := MergeLists(p.allow, n.allow, widen);
    if allow.Err? { return Err(Widened); }
    return Ok(NetworkObject(n.action, allow.value));
  }

  method MergeToolSets(p: ToolsObject, n: ToolsObject, widen: bool) returns (r: Result<ToolsObject, Failure>)
    ensures var v := MergeTools(Tools(p.disabled.items, p.approval), Tools(n.disabled.items, n.approval), widen);
            && (r.Err? ==> v == Err(r.error))
            && (r.Ok? ==> v == Ok(Tools(r.value.disabled.items, r.value.approval)) && fresh(r.value.disabled))
  {
    if !IsApproval(n.approval) { return Err(Invalid); }
    var more := n.disabled.items;
    var disabled := new StringList(p.disabled.items);
    for i := 0 to |more|
      invariant disabled.items == Union(p.disabled.items, more[..i])
    {
      assert more[..i + 1][..i] == more[..i];
      if more[i] !in disabled.items { disabled.items := disabled.items + [more[i]]; }
    }
    assert more[..|more|] == more;
    if !IsApproval(p.approval) { return Err(Invalid); }
    if n.approval != p.approval && !Narrows(p.approval, n.approval) && !widen { return Err(Widened); }
    return Ok(ToolsObject(disabled, n.approval));
  }

  method MergeModels(p: ModelObject, n: ModelObject, widen: bool) returns (r: Result<ModelObject, Failure>)
    requires p.models != n.models
    modifies p.models
    ensures var v := MergeModel(Model(old(p.models.items), p.fallback), Model(n.models.items, n.fallback), widen);
            && (r.Err? ==> v == Err(r.error))
            && (r.Ok? ==> v == Ok(Model(r.value.models.items, r.value.fallback))
                          && (r.value.models == p.models || fresh(r.value.models)))
  {
    hide MergeList;
    var models := MergeLists(p.models, n.models, widen);
    if models.Err? { return Err(Widened); }
    return Ok(ModelObject(models.value, if n.fallback != "" then n.fallback else p.fallback));
  }

  method ApplyWorkspace(within: Within, p: PolicyObject, l: LayerObject, widen: bool)
    returns (r: Result<PolicyObject, Failure>)
    requires Separate(p) && p.workspace.roots !in ListsIn(l)
    modifies p.workspace.roots
    ensures var v := AddWorkspace(within, Progress(old(PolicyValue(p)), widen), LayerValue(l));
            && (r.Err? ==> v == Err(r.error))
            && (r.Ok? ==> v == Ok(Progress(PolicyValue(r.value), widen))
                          && r.value == p.(workspace := r.value.workspace)
                          && (r.value.workspace.roots == p.workspace.roots || fresh(r.value.workspace.roots)))
  {
    hide MergeWorkspace;
    if l.workspace.None? { return Ok(p); }
    var w := MergeWorkspaces(within, p.workspace, l.workspace.value, widen);
    if w.Err? { return Err(w.error); }
    return Ok(p.(workspace := w.value));
  }

  method ApplyNetwork(p: PolicyObject, l: LayerObject, widen: bool) returns (r: Result<PolicyObject, Failure>)
    requires Separate(p) && p.network.allow !in ListsIn(l)
    modifies p.network.allow
    ensures var v := AddNetwork(Progress(old(PolicyValue(p)), widen), LayerValue(l));
            && (r.Err? ==> v == Err(r.error))
            && (r.Ok? ==> v == Ok(Progress(PolicyValue(r.value), widen)) && r.value == p.(network := r.value.network)
                          && (r.value.network.allow == p.network.allow || fresh(r.value.network.allow)))
  {
    hide MergeNetwork;
    if l.network.None? { return Ok(p); }
    var w := MergeNetworks(p.network, l.network.value, widen);
    if w.Err? { return Err(w.error); }
    return Ok(p.(network := w.value));
  }

  method ApplyTools(p: PolicyObject, l: LayerObject, widen: bool) returns (r: Result<PolicyObject, Failure>)
    requires Separate(p)
    ensures var v := AddTools(Progress(PolicyValue(p), widen), LayerValue(l));
            && (r.Err? ==> v == Err(r.error))
            && (r.Ok? ==> v == Ok(Progress(PolicyValue(r.value), widen)) && r.value == p.(tools := r.value.tools)
                          && (r.value.tools.disabled == p.tools.disabled || fresh(r.value.tools.disabled)))
  {
    hide MergeTools;
    if l.tools.None? { return Ok(p); }
    var w := MergeToolSets(p.tools, l.tools.value, widen);
    if w.Err? { return Err(w.error); }
    return Ok(p.(tools := w.value));
  }

  method ApplyModel(p: PolicyObject, l: LayerObject, widen: bool) returns (r: Result<PolicyObject, Failure>)
    requires Separate(p) && p.model.models !in ListsIn(l)
    modifies p.model.models
    ensures var v := AddModel(Progress(old(PolicyValue(p)), widen), LayerValue(l));
            && (r.Err? ==> v == Err(r.error))
            && (r.Ok? ==> v == Ok(Progress(PolicyValue(r.value), widen)) && r.value == p.(model := r.value.model)
                          && (r.value.model.models == p.model.models || fresh(r.value.model.models)))
  {
    hide MergeModel;
    if l.model.None? { return Ok(p); }
    var w := MergeModels(p.model, l.model.value, widen);
    if w.Err? { return Err(w.error); }
    return Ok(p.(model := w.value));
  }

  method ApplyReach(within: Within, p: PolicyObject, l: LayerObject, widen: bool)
    returns (r: Result<PolicyObject, Failure>)
    requires Separate(p) && PolicyLists(p) !! ListsIn(l)
    modifies PolicyLists(p)
    ensures var v := AddReach(within, Progress(old(PolicyValue(p)), widen), LayerValue(l));
            && (r.Err? ==> v == Err(r.error))
            && (r.Ok? ==> Separate(r.value) && v == Ok(Progress(PolicyValue(r.value), widen))
                          && forall o :: o in PolicyLists(r.value) ==> o in PolicyLists(p) || fresh(o))
  {
    hide AddWorkspace, AddNetwork, PolicyValue, LayerValue;
    ghost var n := LayerValue(l);
    var a := ApplyWorkspace(within, p, l, widen);
    assert LayerValue(l) == n;
    if a.Err? { return a; }
    r := ApplyNetwork(a.value, l, widen);
    assert LayerValue(l) == n;
  }

  method ApplyUse(p: PolicyObject, l: LayerObject, widen: bool) returns (r: Result<PolicyObject, Failure>)
    requires Separate(p) && PolicyLists(p) !! ListsIn(l)
    modifies PolicyLists(p)
    ensures var v := AddUse(Progress(old(PolicyValue(p)), widen), LayerValue(l));
            && (r.Err? ==> v == Err(r.error))
            && (r.Ok? ==> Separate(r.value) && v == Ok(Progress(PolicyValue(r.value), widen))
                          && forall o :: o in PolicyLists(r.value) ==> o in PolicyLists(p) || fresh(o))
  {
    hide AddTools, AddModel, PolicyValue, LayerValue;
    ghost var n := LayerValue(l);
    var a := ApplyTools(p, l, widen);
    assert LayerValue(l) == n;
    if a.Err? { return a; }
    r := ApplyModel(a.value, l, widen);
    assert LayerValue(l) == n;
  }

  /** One layer on the running policy, whose lists belong to nobody else. */
  method Apply(within: Within, p: PolicyObject, l: LayerObject, widen: bool) returns (r: Result<PolicyObject, Failure>)
    requires Separate(p) && PolicyLists(p) !! ListsIn(l)
    modifies PolicyLists(p)
    ensures var v := AddLayer(within, Progress(old(PolicyValue(p)), widen), LayerValue(l));
            && (r.Err? ==> v == Err(r.error))
            && (r.Ok? ==> Separate(r.value) && v == Ok(Progress(PolicyValue(r.value), widen || l.delegation))
                          && forall o :: o in PolicyLists(r.value) ==> o in PolicyLists(p) || fresh(o))
  {
    hide AddReach, AddUse, PolicyValue, LayerValue, Separate;
    ghost var n := LayerValue(l);
    var a := ApplyReach(within, p, l, widen);
    assert LayerValue(l) == n;
    if a.Err? { return a; }
    r := ApplyUse(a.value, l, widen);
    assert LayerValue(l) == n;
  }

  /** `compile`. It changes no list that was there before, so the input layers stay as they were, and no
      list of the result is one of theirs. */
  method Compile(within: Within, layers: seq<LayerObject>) returns (r: Result<PolicyObject, Failure>)
    ensures r.Err? ==> Compiled(within, LayerValues(layers)) == Err(r.error)
    ensures r.Ok? ==> Compiled(within, LayerValues(layers)) == Ok(PolicyValue(r.value))
    ensures r.Ok? ==> forall o :: o in PolicyLists(r.value) ==> fresh(o)
  {
    ListsAreInputs(layers);
    r := CompileLayers(within, layers, AllLists(layers));
  }

  method CompileLayers(within: Within, layers: seq<LayerObject>, ghost inputs: set<StringList>)
    returns (r: Result<PolicyObject, Failure>)
    requires inputs == AllLists(layers) && forall i :: 0 <= i < |layers| ==> ListsIn(layers[i]) <= inputs
    ensures r.Err? ==> Compiled(within, LayerValues(layers)) == Err(r.error)
    ensures r.Ok? ==> Compiled(within, LayerValues(layers)) == Ok(PolicyValue(r.value))
    ensures r.Ok? ==> forall o :: o in PolicyLists(r.value) ==> fresh(o)
  {
    hide AddLayer, ListsIn, AllLists, LayerValue, LayerValues, PolicyValue;
    ghost var values := LayerValues(layers);
    var p := Start();
    var widen := false;
    for i := 0 to |layers|
      invariant Separate(p) && PolicyLists(p) !! inputs && forall o :: o in PolicyLists(p) ==> fresh(o)
      invariant LayerValues(layers) == values
      invariant Merged(within, values[..i]) == Ok(Progress(PolicyValue(p), widen))
    {
      assert values[..i + 1][..i] == values[..i];
      var q := Apply(within, p, layers[i], widen);
      if q.Err? {
        MergedStops(within, values, i + 1);
        return Err(q.error);
      }
      p := q.value;
      widen := widen || layers[i].delegation;
    }
    assert values[..|layers|] == values;
    p := Finish(p);
    return Ok(p);
  }

  method Start() returns (p: PolicyObject)
    ensures PolicyValue(p) == DEFAULT && Separate(p) && forall o :: o in PolicyLists(p) ==> fresh(o)
  {
    var roots := new StringList([]);
    var allow := new StringList([]);
    var disabled := new StringList([]);
    var models := new StringList([]);
    p := PolicyObject(WorkspaceObject("workspace-write", "/workspace", roots), NetworkObject("allow", allow),
                      ToolsObject(disabled, "on-request"), ModelObject(models, ""));
  }

  method Finish(p: PolicyObject) returns (q: PolicyObject)
    ensures PolicyValue(q) == Filled(PolicyValue(p))
    ensures forall o :: o in PolicyLists(q) ==> o in PolicyLists(p) || fresh(o)
  {
    if p.workspace.roots.items != [] { return p; }
    var roots := new StringList([p.workspace.root]);
    return p.(workspace := p.workspace.(roots := roots));
  }

  lemma ListsAreInputs(layers: seq<LayerObject>)
    ensures forall i :: 0 <= i < |layers| ==> ListsIn(layers[i]) <= AllLists(layers)
  {
    hide ListsIn;
  }

  lemma {:induction false} MergedStops(within: Within, layers: seq<Layer>, i: nat)
    requires i <= |layers| && Merged(within, layers[..i]).Err?
    ensures Merged(within, layers) == Merged(within, layers[..i])
    decreases |layers|
  {
    hide AddLayer;
    if i < |layers| {
      var n := |layers| - 1;
      assert layers[..n][..i] == layers[..i];
      MergedStops(within, layers[..n], i);
    } else {
      assert layers[..i] == layers;
    }
  }
}

/**
 The tool definitions offered to the model: the fresh build from the visible and the disallowed
 tools, the frozen snapshot with its dirty flag, and deferred loading through `tool_search`.
 */
module ToolSchema {
  import opened Prelude

  datatype ToolDefinition = ToolDefinition(name: string, body: string)

  /**
   What stays fixed during a run: the catalog's definition bodies, the bodies of the pseudo-tools,
   the read-only tools, the size estimate of a definition and the size above which loading is deferred.
   */
  datatype Inventory = Inventory(
    catalog: map<string, string>,
    pseudoBody: string -> string,
    readOnly: set<string>,
    weight: ToolDefinition -> nat,
    threshold: nat)

  const TOOL_SEARCH: string := "tool_search"
  const TASK_CREATE: string := "task_create"
  const TASK_UPDATE: string := "task_update"

  const PSEUDO_TOOLS: seq<string> :=
    ["final_answer", "ask_user", "fail", "Agent", TASK_CREATE, TASK_UPDATE, "task_list", "task_get"]

  const CORE_TOOLS: seq<string> :=
    ["Bash", "Read", "Write", "Edit", "Glob", "Grep"] + PSEUDO_TOOLS

  datatype Deferred = Deferred(deferredNames: seq<string>, loadedNames: seq<string>)

  datatype Schema = Schema(
    visible: seq<string>,
    disallowed: seq<string>,
    frozen: Option<seq<ToolDefinition>>,
    dirty: bool,
    observedPlanMode: Option<bool>,
    deferred: Option<Deferred>)

  // ---------- the fresh build ----------

  function CatalogDefinitions(inv: Inventory, names: seq<string>): seq<ToolDefinition> {
    if names == [] then []
    else
      (if names[0] in inv.catalog then [ToolDefinition(names[0], inv.catalog[names[0]])] else [])
      + CatalogDefinitions(inv, names[1..])
  }

  function PseudoDefinitions(inv: Inventory, names: seq<string>): seq<ToolDefinition> {
    if names == [] then []
    else [ToolDefinition(names[0], inv.pseudoBody(names[0]))] + PseudoDefinitions(inv, names[1..])
  }

  function Allowed(defs: seq<ToolDefinition>, disallowed: seq<string>): seq<ToolDefinition> {
    if defs == [] then []
    else (if defs[0].name in disallowed then [] else [defs[0]]) + Allowed(defs[1..], disallowed)
  }

  /** `build_tool_definitions`. */
  function Build(inv: Inventory, visible: seq<string>, disallowed: seq<string>): seq<ToolDefinition> {
    Allowed(CatalogDefinitions(inv, visible) + PseudoDefinitions(inv, PSEUDO_TOOLS), disallowed)
  }

  function Names(defs: seq<ToolDefinition>): set<string> {
    set d | d in defs :: d.name
  }

  // ---------- one turn's refresh and freeze ----------

  function Keep(names: seq<string>, allowed: set<string>): seq<string> {
    if names == [] then []
    else Keep(names[..|names| - 1], allowed) + (if names[|names| - 1] in allowed then [names[|names| - 1]] else [])
  }

  function Drop(names: seq<string>, dropped: seq<string>): seq<string> {
    if names == [] then []
    else Drop(names[..|names| - 1], dropped) + (if names[|names| - 1] in dropped then [] else [names[|names| - 1]])
  }

  /** A pseudo-tool that plan mode blocks is pushed once, and pushing it makes the schema dirty. */
  function Block(s: Schema, name: string): Schema {
    if name in s.disallowed then s else s.(disallowed := s.disallowed + [name], dirty := true)
  }

  /** Plan mode observed; a switch since the last refresh makes the schema dirty. */
  function ObservePlanMode(s: Schema, planMode: bool): Schema {
    s.(dirty := s.dirty || (s.observedPlanMode.Some? && s.observedPlanMode.value != planMode),
       observedPlanMode := Some(planMode))
  }

  /** `refresh_tool_loop_visible_tools`. */
  function Refresh(inv: Inventory, s: Schema, planMode: bool, candidates: seq<string>): Schema {
    var s1 := ObservePlanMode(s, planMode);
    var s2 := if planMode then Block(Block(s1, TASK_CREATE), TASK_UPDATE) else s1;
    var visible := Drop(if planMode then Keep(candidates, inv.readOnly) else candidates, s2.disallowed);
    s2.(dirty := s2.dirty || s2.visible != visible, visible := visible)
  }

  predicate WillRebuild(s: Schema) {
    s.dirty || s.frozen.None?
  }

  /** `freeze_or_reuse_tool_schema`. */
  function Freeze(s: Schema, built: seq<ToolDefinition>): Schema {
    if WillRebuild(s) then s.(frozen := Some(built), dirty := false) else s
  }

  // ---------- deferred loading ----------

  function TotalWeight(inv: Inventory, defs: seq<ToolDefinition>): nat {
    if defs == [] then 0 else TotalWeight(inv, defs[..|defs| - 1]) + inv.weight(defs[|defs| - 1])
  }

  /** The definitions sent in deferred mode, before `tool_search` is added. */
  function Loaded(defs: seq<ToolDefinition>, loadedNames: seq<string>): seq<ToolDefinition> {
    if defs == [] then []
    else
      var last := defs[|defs| - 1];
      Loaded(defs[..|defs| - 1], loadedNames)
      + (if last.name in CORE_TOOLS || last.name in loadedNames then [last] else [])
  }

  function Withheld(defs: seq<ToolDefinition>, loadedNames: seq<string>): seq<string> {
    if defs == [] then []
    else
      var last := defs[|defs| - 1];
      Withheld(defs[..|defs| - 1], loadedNames)
      + (if last.name in CORE_TOOLS || last.name in loadedNames then [] else [last.name])
  }

  function SearchTool(deferredNames: seq<string>): ToolDefinition {
    ToolDefinition(TOOL_SEARCH,
                   "Search for and load a deferred tool's schema. Available deferred tools: "
                       + Join(deferredNames, ", ")
                   + ". Call this with the tool name to load its full schema for the next turn.")
  }

  function LoadedNames(s: Schema): seq<string> {
    if s.deferred.Some? then s.deferred.value.loadedNames else []
  }

  /** `apply_deferred_mode`: the new state. */
  function Defer(inv: Inventory, s: Schema, defs: seq<ToolDefinition>): Schema {
    if TotalWeight(inv, defs) <= inv.threshold then
      if s.deferred.Some? then s.(deferred := Some(s.deferred.value.(deferredNames := []))) else s
    else s.(deferred := Some(Deferred(Withheld(defs, LoadedNames(s)), LoadedNames(s))))
  }

  /** `apply_deferred_mode`: the definitions that are sent. */
  function Sent(inv: Inventory, s: Schema, defs: seq<ToolDefinition>): seq<ToolDefinition> {
    if TotalWeight(inv, defs) <= inv.threshold then defs
    else
      var withheld := Withheld(defs, LoadedNames(s));
      Loaded(defs, LoadedNames(s)) + (if withheld == [] then [] else [SearchTool(withheld)])
  }

  /** A `tool_search` call: a deferred name is loaded, which makes the schema dirty. */
  function Search(s: Schema, name: string): Schema {
    if s.deferred.None? || name !in s.deferred.value.deferredNames || name in s.deferred.value.loadedNames then s
    else s.(deferred := Some(s.deferred.value.(loadedNames := s.deferred.value.loadedNames + [name])), dirty := true)
  }

  function SearchAnswer(s: Schema, name: string): string {
    if s.deferred.None? then "All tools are already loaded. '" + name + "' is available."
    else if name in s.deferred.value.deferredNames then "Tool '" + name + "' schema will be available in the next turn."
    else
      "Tool '" + name + "' is not in the deferred list. Available deferred tools: "
      + Join(s.deferred.value.deferredNames, ", ")
  }

  /** What a turn has at hand when its LLM call is built. */
  datatype Prepared = Prepared(schema: Schema, rebuilt: bool, definitions: seq<ToolDefinition>,
                               sent: seq<ToolDefinition>)

  /** Refresh, freeze or reuse, then deferred mode. */
  function Prepare(inv: Inventory, s: Schema, planMode: bool, candidates: seq<string>): Prepared {
    var refreshed := Refresh(inv, s, planMode, candidates);
    var frozen := Freeze(refreshed, Build(inv, refreshed.visible, refreshed.disallowed));
    var definitions := if frozen.frozen.Some? then frozen.frozen.value else [];
    Prepared(Defer(inv, frozen, definitions), WillRebuild(refreshed), definitions, Sent(inv, frozen, definitions))
  }

  /** A loop state restored from a checkpoint: the snapshot, the flags and the deferred state are not stored. */
  function Restored(s: Schema): Schema {
    s.(frozen := None, dirty := false, observedPlanMode := None, deferred := None)
  }

  /** The state a run begins with. */
  function Fresh(visible: seq<string>, disallowed: seq<string>): Schema {
    Schema(visible, disallowed, None, true, None, None)
  }

  // ---------- coherence ----------

  /** A clean snapshot is what a fresh build would give. */
  predicate Coherent(inv: Inventory, s: Schema) {
    !WillRebuild(s) ==> s.frozen == Some(Build(inv, s.visible, s.disallowed))
  }

  lemma RefreshKeepsCoherence(inv: Inventory, s: Schema, planMode: bool, candidates: seq<string>)
    requires Coherent(inv, s)
    ensures Coherent(inv, Refresh(inv, s, planMode, candidates))
  {
    hide Build, Drop, Keep;
  }

  /**
   Whatever happened before, the definitions a turn freezes or reuses are exactly a fresh build from
   the tools that are visible and disallowed on that turn, and the state stays coherent.
   */
  lemma PrepareIsFresh(inv: Inventory, s: Schema, planMode: bool, candidates: seq<string>)
    requires Coherent(inv, s)
    ensures var p := Prepare(inv, s, planMode, candidates);
            && p.definitions == Build(inv, p.schema.visible, p.schema.disallowed)
            && Coherent(inv, p.schema) && !p.schema.dirty
  {
    hide Build, Refresh, Withheld, Loaded, TotalWeight;
    RefreshKeepsCoherence(inv, s, planMode, candidates);
  }

  /** Everything that touches the schema between two LLM calls of a run and across runs. */
  datatype SchemaEvent = TurnBegins(planMode: bool, candidates: seq<string>) | ToolSearched(name: string) | Resumed

  function React(inv: Inventory, s: Schema, e: SchemaEvent): Schema {
    match e
    case TurnBegins(planMode, candidates) => Prepare(inv, s, planMode, candidates).schema
    case ToolSearched(name) => Search(s, name)
    case Resumed => Restored(s)
  }

  function ReactAll(inv: Inventory, s: Schema, events: seq<SchemaEvent>): Schema {
    if events == [] then s else React(inv, ReactAll(inv, s, events[..|events| - 1]), events[|events| - 1])
  }

  /** Coherence over whole lives of a loop: plan-mode switches, searches and resumes in any order. */
  lemma {:induction false} AlwaysCoherent(inv: Inventory, s: Schema, events: seq<SchemaEvent>)
    requires Coherent(inv, s)
    ensures Coherent(inv, ReactAll(inv, s, events))
  {
    hide Prepare, Build;
    if events != [] {
      var before, e := ReactAll(inv, s, events[..|events| - 1]), events[|events| - 1];
      AlwaysCoherent(inv, s, events[..|events| - 1]);
      if e.TurnBegins? {
        PrepareIsFresh(inv, before, e.planMode, e.candidates);
      }
    }
  }

  // ---------- what is offered ----------

  lemma {:induction false} AllowedNames(defs: seq<ToolDefinition>, disallowed: seq<string>)
    ensures forall d :: d in Allowed(defs, disallowed) <==> d in defs && d.name !in disallowed
  {
    if defs != [] {
      AllowedNames(defs[1..], disallowed);
      assert defs == [defs[0]] + defs[1..];
    }
  }

  lemma {:induction false} CatalogExactly(inv: Inventory, names: seq<string>)
    ensures forall d :: d in CatalogDefinitions(inv, names) <==>
                        d.name in names && d.name in inv.catalog && d.body == inv.catalog[d.name]
  {
    if names != [] {
      CatalogExactly(inv, names[1..]);
      assert names == [names[0]] + names[1..];
    }
  }

  lemma {:induction false} PseudoExactly(inv: Inventory, names: seq<string>)
    ensures forall d :: d in PseudoDefinitions(inv, names) <==> d.name in names && d.body == inv.pseudoBody(d.name)
  {
    if names != [] {
      PseudoExactly(inv, names[1..]);
      assert names == [names[0]] + names[1..];
    }
  }

  /**
   A fresh build holds the catalog's definitions of the visible tools and the pseudo-tools, less what is
   disallowed.
   */
  lemma BuildExactly(inv: Inventory, visible: seq<string>, disallowed: seq<string>, d: ToolDefinition)
    ensures d in Build(inv, visible, disallowed) <==>
            && d.name !in disallowed
            && ((d.name in visible && d.name in inv.catalog && d.body == inv.catalog[d.name])
                || (d.name in PSEUDO_TOOLS && d.body == inv.pseudoBody(d.name)))
  {
    hide PSEUDO_TOOLS;
    AllowedNames(CatalogDefinitions(inv, visible) + PseudoDefinitions(inv, PSEUDO_TOOLS), disallowed);
    CatalogExactly(inv, visible);
    PseudoExactly(inv, PSEUDO_TOOLS);
  }

  /** Deferral loses no definition: each one is sent, or listed under `tool_search`. */
  lemma {:induction false} LoadedOrWithheld(defs: seq<ToolDefinition>, loadedNames: seq<string>)
    ensures forall d :: d in Loaded(defs, loadedNames) <==> d in defs && (d.name in CORE_TOOLS || d.name in loadedNames)
    ensures forall n :: n in Withheld(defs, loadedNames) <==>
                        n in Names(defs) && n !in CORE_TOOLS && n !in loadedNames
  {
    hide CORE_TOOLS;
    if defs != [] {
      var front, last := defs[..|defs| - 1], defs[|defs| - 1];
      LoadedOrWithheld(front, loadedNames);
      assert defs == front + [last];
      assert Names(defs) == Names(front) + {last.name};
    }
  }

  /**
   On every turn, each definition of the current build is sent or its name can be searched for, a
   loaded tool is always sent, and nothing disallowed is sent except `tool_search` itself.
   */
  lemma OfferedTools(inv: Inventory, s: Schema, planMode: bool, candidates: seq<string>)
    requires Coherent(inv, s)
    ensures var p := Prepare(inv, s, planMode, candidates);
            var searchable := if p.schema.deferred.Some? then p.schema.deferred.value.deferredNames else [];
            && (forall d :: d in p.definitions ==> d in p.sent || d.name in searchable)
            && (forall d :: d in p.definitions && d.name in LoadedNames(s) ==> d in p.sent)
            && (forall d :: d in p.sent ==> d in p.definitions || (d.name == TOOL_SEARCH && searchable != []))
            && (forall d :: d in p.sent && d.name in p.schema.disallowed ==> d.name == TOOL_SEARCH)
            && LoadedNames(p.schema) == LoadedNames(s)
  {
    hide Build, Refresh, TotalWeight, CORE_TOOLS, SearchTool;
    var p := Prepare(inv, s, planMode, candidates);
    PrepareIsFresh(inv, s, planMode, candidates);
    RefreshKeepsLoaded(inv, s, planMode, candidates);
    LoadedOrWithheld(p.definitions, LoadedNames(s));
    BuildIsAllowed(inv, p.schema.visible, p.schema.disallowed);
    SearchToolName(Withheld(p.definitions, LoadedNames(s)));
    assert forall d :: d in p.definitions ==> d.name in Names(p.definitions);
  }

  lemma RefreshKeepsLoaded(inv: Inventory, s: Schema, planMode: bool, candidates: seq<string>)
    ensures Refresh(inv, s, planMode, candidates).deferred == s.deferred
  {
  }

  lemma SearchToolName(names: seq<string>)
    ensures SearchTool(names).name == TOOL_SEARCH
  {
  }

  lemma BuildIsAllowed(inv: Inventory, visible: seq<string>, disallowed: seq<string>)
    ensures forall d :: d in Build(inv, visible, disallowed) ==> d.name !in disallowed
  {
    AllowedNames(CatalogDefinitions(inv, visible) + PseudoDefinitions(inv, PSEUDO_TOOLS), disallowed);
  }

  /** Deferring the same definitions again changes neither the state nor what is sent. */
  lemma DeferIsIdempotent(inv: Inventory, s: Schema, defs: seq<ToolDefinition>)
    ensures Defer(inv, Defer(inv, s, defs), defs) == Defer(inv, s, defs)
    ensures Sent(inv, Defer(inv, s, defs), defs) == Sent(inv, s, defs)
  {
    hide TotalWeight, Withheld, Loaded, SearchTool;
  }

  predicate NoResume(events: seq<SchemaEvent>) {
    forall i :: 0 <= i < |events| ==> !events[i].Resumed?
  }

  lemma {:induction false} LoadedStaysLoaded(inv: Inventory, s: Schema, events: seq<SchemaEvent>, name: string)
    requires Coherent(inv, s) && NoResume(events) && name in LoadedNames(s)
    ensures name in LoadedNames(ReactAll(inv, s, events))
  {
    hide Prepare, Build;
    if events != [] {
      var front, e := events[..|events| - 1], events[|events| - 1];
      LoadedStaysLoaded(inv, s, front, name);
      AlwaysCoherent(inv, s, front);
      if e.TurnBegins? {
        OfferedTools(inv, ReactAll(inv, s, front), e.planMode, e.candidates);
      }
    }
  }

  /**
   The promise of `tool_search`: once it has announced a tool, every later turn of the run sends
   that tool's definition exactly when the current build still has it.
   */
  lemma SearchedToolIsSent(inv: Inventory, s: Schema, name: string, events: seq<SchemaEvent>, planMode: bool,
                           candidates: seq<string>)
    requires Coherent(inv, s) && NoResume(events)
    requires s.deferred.Some? && name in s.deferred.value.deferredNames && name != TOOL_SEARCH
    ensures var p := Prepare(inv, ReactAll(inv, Search(s, name), events), planMode, candidates);
            name in Names(p.sent) <==> name in Names(Build(inv, p.schema.visible, p.schema.disallowed))
  {
    hide Prepare, Build;
    var before := ReactAll(inv, Search(s, name), events);
    LoadedStaysLoaded(inv, Search(s, name), events, name);
    AlwaysCoherent(inv, Search(s, name), events);
    PrepareIsFresh(inv, before, planMode, candidates);
    OfferedTools(inv, before, planMode, candidates);
  }

  // ---------- plan mode ----------

  lemma {:induction false} KeptNames(names: seq<string>, allowed: set<string>)
    ensures forall n :: n in Keep(names, allowed) <==> n in names && n in allowed
  {
    if names != [] {
      KeptNames(names[..|names| - 1], allowed);
      assert names == names[..|names| - 1] + [names[|names| - 1]];
    }
  }

  lemma {:induction false} DroppedNames(names: seq<string>, dropped: seq<string>)
    ensures forall n :: n in Drop(names, dropped) <==> n in names && n !in dropped
  {
    if names != [] {
      DroppedNames(names[..|names| - 1], dropped);
      assert names == names[..|names| - 1] + [names[|names| - 1]];
    }
  }

  /** In plan mode every tool offered is read-only, or a pseudo-tool that does not change tasks. */
  lemma PlanModeOffersNothingMutating(inv: Inventory, s: Schema, candidates: seq<string>)
    requires Coherent(inv, s)
    ensures forall d :: d in Prepare(inv, s, true, candidates).sent ==>
              && (d.name in inv.readOnly || d.name in PSEUDO_TOOLS || d.name == TOOL_SEARCH)
              && d.name != TASK_CREATE && d.name != TASK_UPDATE
  {
    hide Prepare, Build, PSEUDO_TOOLS;
    var p := Prepare(inv, s, true, candidates);
    PlanModeRefresh(inv, s, candidates);
    OfferedTools(inv, s, true, candidates);
    PrepareIsFresh(inv, s, true, candidates);
    BuildParts(inv, p.schema.visible, p.schema.disallowed);
    TaskToolsAreNotSearch();
  }

  lemma TaskToolsAreNotSearch()
    ensures TASK_CREATE != TOOL_SEARCH && TASK_UPDATE != TOOL_SEARCH
  {
  }

  lemma BuildParts(inv: Inventory, visible: seq<string>, disallowed: seq<string>)
    ensures forall d :: d in Build(inv, visible, disallowed) ==> d.name in visible || d.name in PSEUDO_TOOLS
  {
    hide Build, PSEUDO_TOOLS;
    forall d | d in Build(inv, visible, disallowed)
      ensures d.name in visible || d.name in PSEUDO_TOOLS
    {
      BuildExactly(inv, visible, disallowed, d);
    }
  }

  lemma PlanModeRefresh(inv: Inventory, s: Schema, candidates: seq<string>)
    ensures var r := Prepare(inv, s, true, candidates).schema;
            && TASK_CREATE in r.disallowed && TASK_UPDATE in r.disallowed
            && forall n :: n in r.visible ==> n in inv.readOnly
  {
    hide Build;
    var r := Refresh(inv, s, true, candidates);
    KeptNames(candidates, inv.readOnly);
    DroppedNames(Keep(candidates, inv.readOnly), r.disallowed);
  }

  /** What is disallowed stays disallowed: leaving plan mode does not bring the task tools back. */
  lemma {:induction false} DisallowedOnlyGrows(inv: Inventory, s: Schema, events: seq<SchemaEvent>)
    ensures s.disallowed <= ReactAll(inv, s, events).disallowed
  {
    hide React;
    if events != [] {
      var before := ReactAll(inv, s, events[..|events| - 1]);
      DisallowedOnlyGrows(inv, s, events[..|events| - 1]);
      ReactKeepsDisallowed(inv, before, events[|events| - 1]);
    }
  }

  lemma ReactKeepsDisallowed(inv: Inventory, s: Schema, e: SchemaEvent)
    ensures s.disallowed <= React(inv, s, e).disallowed
  {
    hide Build, Withheld, Loaded, TotalWeight, Drop, Keep;
  }
}

/**
 * Which capabilities `move_group` activates and what one load pass produces.
 *
 * The final set is the hard-coded defaults, plus the names of the
 * `capabilities` parameter, minus the names of `disable_capabilities`. The
 * pass walks that set in ascending order; for each name it asks the plugin
 * loader for an instance, hands it the shared context, initialises it and
 * keeps it. A name the loader cannot instantiate is skipped.
 */
module Capabilities {
  import opened Wrappers
  import opened NameSet
  import opened Tokenizer

  /** The capabilities loaded unless listed in `disable_capabilities`. */
  const DefaultCapabilities: seq<string> := [
    "move_group/MoveGroupCartesianPathService",
    "move_group/MoveGroupKinematicsService",
    "move_group/MoveGroupExecuteTrajectoryAction",
    "move_group/MoveGroupMoveAction",
    "move_group/MoveGroupPlanService",
    "move_group/MoveGroupQueryPlannersService",
    "move_group/MoveGroupStateValidationService",
    "move_group/MoveGroupGetPlanningSceneService",
    "move_group/ApplyPlanningSceneService",
    "move_group/ClearOctomapService"
  ]

  /** The ten defaults are ten different names. */
  lemma DefaultCapabilitiesDistinct()
    ensures |DefaultCapabilities| == 10
    ensures forall i, j :: 0 <= i < j < |DefaultCapabilities| ==> DefaultCapabilities[i] != DefaultCapabilities[j]
  {
  }

  /** The names a string parameter lists; an unset parameter lists none. */
  function ParamTokens(param: Option<string>): (names: seq<string>)
    ensures param.None? ==> names == []
    ensures forall i :: 0 <= i < |names| ==> IsToken(names[i])
  {
    if param.Some? then Tokenize(param.value) else []
  }

  /** The set of names to load: (defaults + requested) - disabled. */
  function FinalSet(capabilitiesParam: Option<string>, disableParam: Option<string>): set<string> {
    (set n | n in DefaultCapabilities) + (set t | t in ParamTokens(capabilitiesParam))
      - (set t | t in ParamTokens(disableParam))
  }

  /** Range `insert` into a `std::set`: every name of `toks` added, in turn. */
  method InsertAll(names: seq<string>, toks: seq<string>) returns (r: seq<string>)
    requires StrictlySorted(names)
    ensures StrictlySorted(r)
    ensures forall y :: y in r <==> y in names || y in toks
  {
    r := names;
    for j := 0 to |toks|
      invariant StrictlySorted(r)
      invariant forall y :: y in r <==> y in names || y in toks[..j]
    {
      assert toks[..j + 1] == toks[..j] + [toks[j]];
      r := Insert(r, toks[j]);
    }
    assert toks[..|toks|] == toks;
  }

  /** The erase loop: every name of `toks` removed from a `std::set`, in turn. */
  method EraseAll(names: seq<string>, toks: seq<string>) returns (r: seq<string>)
    requires StrictlySorted(names)
    ensures StrictlySorted(r)
    ensures forall y :: y in r <==> y in names && y !in toks
  {
    r := names;
    for k := 0 to |toks|
      invariant StrictlySorted(r)
      invariant forall y :: y in r <==> y in names && y !in toks[..k]
    {
      assert toks[..k + 1] == toks[..k] + [toks[k]];
      r := Erase(r, toks[k]);
    }
    assert toks[..|toks|] == toks;
  }

  /**
   * The `std::set` that configureCapabilities builds: every default inserted,
   * then every requested token, then every disabled token erased.
   */
  method ResolveCapabilityNames(capabilitiesParam: Option<string>, disableParam: Option<string>)
    returns (names: seq<string>)
    ensures StrictlySorted(names)
    ensures forall y :: y in names <==>
      (y in DefaultCapabilities || y in ParamTokens(capabilitiesParam)) && y !in ParamTokens(disableParam)
    ensures names == Ascending(FinalSet(capabilitiesParam, disableParam))
  {
    names := InsertAll([], DefaultCapabilities);
    if capabilitiesParam.Some? {
      names := InsertAll(names, Tokenize(capabilitiesParam.value));
    }
    if disableParam.Some? {
      names := EraseAll(names, Tokenize(disableParam.value));
    }
    var final := FinalSet(capabilitiesParam, disableParam);
    EnumerationUnique(names, Ascending(final), final);
  }

  /** Every default is loaded unless it is disabled, whatever is requested. */
  lemma DefaultsUnlessDisabled(capabilitiesParam: Option<string>, disableParam: Option<string>, i: nat)
    requires i < |DefaultCapabilities|
    ensures DefaultCapabilities[i] in FinalSet(capabilitiesParam, disableParam)
      <==> DefaultCapabilities[i] !in ParamTokens(disableParam)
  {
  }

  /** A name both requested and disabled is not loaded: removal wins. */
  lemma DisableWins(capabilitiesParam: Option<string>, disableParam: Option<string>, name: string)
    requires name in ParamTokens(disableParam)
    ensures name !in FinalSet(capabilitiesParam, disableParam)
  {
  }

  /** Only which names a request lists matters, not how often or in what order. */
  lemma SameNamesSameFinalSet(request1: Option<string>, request2: Option<string>, disableParam: Option<string>)
    requires forall t :: t in ParamTokens(request1) <==> t in ParamTokens(request2)
    ensures FinalSet(request1, disableParam) == FinalSet(request2, disableParam)
  {
    assert (set t | t in ParamTokens(request1)) == (set t | t in ParamTokens(request2));
  }

  /** Listing two groups of names in the other order requests the same set. */
  lemma RequestOrderIrrelevant(a: string, b: string, disableParam: Option<string>)
    ensures FinalSet(Some(a + " " + b), disableParam) == FinalSet(Some(b + " " + a), disableParam)
  {
    assert a + " " + b == a + [' '] + b;
    assert b + " " + a == b + [' '] + a;
    TokenizeAtSpace(a, b);
    TokenizeAtSpace(b, a);
    SameNamesSameFinalSet(Some(a + " " + b), Some(b + " " + a), disableParam);
  }

  /** Listing the same names twice requests the same set as listing them once. */
  lemma RequestRepetitionIrrelevant(a: string, disableParam: Option<string>)
    ensures FinalSet(Some(a + " " + a), disableParam) == FinalSet(Some(a), disableParam)
  {
    assert a + " " + a == a + [' '] + a;
    TokenizeAtSpace(a, a);
    SameNamesSameFinalSet(Some(a + " " + a), Some(a), disableParam);
  }

  /** What the plugin factory built for a name; the instance itself is opaque here. */
  datatype Plugin = Plugin(instance: nat)

  /** The process-wide state every capability is given: the execution flag and the debug flag. */
  datatype MoveGroupContext = MoveGroupContext(allowTrajectoryExecution: bool, debug: bool)

  /** A call made on a capability after it is built. */
  datatype Hook = SetContextCall(context: MoveGroupContext) | InitializeCall

  /** A loaded capability: the name it was loaded under, its instance and the hooks called on it, oldest first. */
  datatype Capability = Capability(name: string, plugin: Plugin, hooks: seq<Hook>) {
    /** `setContext`: the same capability, with the call appended to its hooks. */
    function SetContext(context: MoveGroupContext): (c: Capability)
      ensures c.name == name && c.plugin == plugin
      ensures c.hooks == hooks + [SetContextCall(context)]
    {
      this.(hooks := hooks + [SetContextCall(context)])
    }

    /** `initialize`: the same capability, with the call appended to its hooks. */
    function Initialize(): (c: Capability)
      ensures c.name == name && c.plugin == plugin
      ensures c.hooks == hooks + [InitializeCall]
    {
      this.(hooks := hooks + [InitializeCall])
    }
  }

  /**
   * The pluginlib class loader. Which names it can instantiate is fixed when
   * it is built: `createUniqueInstance` gives an instance, or None where it throws.
   */
  class PluginLoader {
    const createUniqueInstance: string -> Option<Plugin>

    constructor (createUniqueInstance: string -> Option<Plugin>)
      ensures this.createUniqueInstance == createUniqueInstance
    {
      this.createUniqueInstance := createUniqueInstance;
    }
  }

  /** The names of loaded capabilities, in order. */
  function LoadedNames(caps: seq<Capability>): (names: seq<string>)
    ensures |names| == |caps|
    ensures forall i :: 0 <= i < |caps| ==> names[i] == caps[i].name
  {
    if caps == [] then [] else [caps[0].name] + LoadedNames(caps[1..])
  }

  /** A capability loaded under `name`, given `context` and then initialised. */
  predicate BoundTo(c: Capability, name: string, loader: PluginLoader, context: MoveGroupContext) {
    && c.name == name
    && loader.createUniqueInstance(name) == Some(c.plugin)
    && c.hooks == [SetContextCall(context), InitializeCall]
  }

  /** One iteration of the load loop: the capability kept for `name`, if any. */
  function LoadOne(name: string, loader: PluginLoader, context: MoveGroupContext): (kept: seq<Capability>)
    ensures |kept| <= 1
    ensures kept == [] <==> loader.createUniqueInstance(name).None?
    ensures kept != [] ==> BoundTo(kept[0], name, loader, context)
  {
    match loader.createUniqueInstance(name)
    case None => []
    case Some(plugin) => [Capability(name, plugin, []).SetContext(context).Initialize()]
  }

  /** The capabilities a load pass over `names`, in that order, appends. */
  function LoadPass(names: seq<string>, loader: PluginLoader, context: MoveGroupContext): (caps: seq<Capability>)
    ensures |caps| <= |names|
    ensures forall i :: 0 <= i < |caps| ==> caps[i].name in names
    decreases |names|
  {
    if names == [] then []
    else LoadPass(names[..|names| - 1], loader, context) + LoadOne(names[|names| - 1], loader, context)
  }

  /** The names that the loader can instantiate, in their order in `names`. */
  function Loadable(names: seq<string>, loader: PluginLoader): seq<string> {
    if names == [] then []
    else (if loader.createUniqueInstance(names[0]).Some? then [names[0]] else []) + Loadable(names[1..], loader)
  }

  /** Passes over consecutive runs of names compose: what loads later does not depend on what failed before. */
  lemma {:induction false} LoadPassAppend(xs: seq<string>, ys: seq<string>, loader: PluginLoader, context: MoveGroupContext)
    ensures LoadPass(xs + ys, loader, context) == LoadPass(xs, loader, context) + LoadPass(ys, loader, context)
    decreases |ys|
  {
    if ys == [] {
      assert xs + ys == xs;
    } else {
      var last := |ys| - 1;
      assert (xs + ys)[..|xs + ys| - 1] == xs + ys[..last];
      assert (xs + ys)[|xs + ys| - 1] == ys[last];
      LoadPassAppend(xs, ys[..last], loader, context);
    }
  }

  lemma LoadPassSingle(name: string, loader: PluginLoader, context: MoveGroupContext)
    ensures LoadPass([name], loader, context) == LoadOne(name, loader, context)
  {
    assert [name][..0] == [];
  }

  /** A name the loader cannot instantiate is skipped, and the pass goes on with the names after it. */
  lemma FailureIsIsolated(xs: seq<string>, name: string, ys: seq<string>, loader: PluginLoader, context: MoveGroupContext)
    requires loader.createUniqueInstance(name).None?
    ensures LoadPass(xs + [name] + ys, loader, context) == LoadPass(xs, loader, context) + LoadPass(ys, loader, context)
  {
    LoadPassSingle(name, loader, context);
    LoadPassAppend(xs + [name], ys, loader, context);
    LoadPassAppend(xs, [name], loader, context);
  }

  /** The pass keeps exactly the names the loader can instantiate, in the order visited. */
  lemma {:induction false} LoadPassKeepsLoadable(names: seq<string>, loader: PluginLoader, context: MoveGroupContext)
    ensures LoadedNames(LoadPass(names, loader, context)) == Loadable(names, loader)
    decreases |names|
  {
    if names != [] {
      assert names == [names[0]] + names[1..];
      LoadPassAppend([names[0]], names[1..], loader, context);
      LoadPassSingle(names[0], loader, context);
      LoadPassKeepsLoadable(names[1..], loader, context);
      var head := LoadPass([names[0]], loader, context);
      var tail := LoadPass(names[1..], loader, context);
      assert LoadedNames(head + tail) == LoadedNames(head) + LoadedNames(tail);
    }
  }

  /** Every kept capability came from the loader under its own name and had setContext, then initialize, called on it. */
  lemma {:induction false} LoadPassBindsAll(names: seq<string>, loader: PluginLoader, context: MoveGroupContext)
    ensures forall i :: 0 <= i < |LoadPass(names, loader, context)| ==>
      BoundTo(LoadPass(names, loader, context)[i], LoadPass(names, loader, context)[i].name, loader, context)
    decreases |names|
  {
    if names != [] {
      LoadPassBindsAll(names[..|names| - 1], loader, context);
    }
  }

  /** The names kept are those of `names` that the loader can instantiate. */
  lemma {:induction false} LoadableMembers(names: seq<string>, loader: PluginLoader)
    ensures forall y :: y in Loadable(names, loader) <==> y in names && loader.createUniqueInstance(y).Some?
    decreases |names|
  {
    if names != [] {
      LoadableMembers(names[1..], loader);
      assert names == [names[0]] + names[1..];
    }
  }

  /** Dropping names from an ascending sequence leaves it ascending. */
  lemma {:induction false} LoadableSorted(names: seq<string>, loader: PluginLoader)
    requires StrictlySorted(names)
    ensures StrictlySorted(Loadable(names, loader))
    decreases |names|
  {
    if names != [] {
      LoadableSorted(names[1..], loader);
      LoadableMembers(names[1..], loader);
      SortedHeadBelowTail(names);
      if loader.createUniqueInstance(names[0]).Some? {
        SortedCons(names[0], Loadable(names[1..], loader));
      }
    }
  }

  /**
   * The outcome of a load pass over the final set: the kept names are
   * strictly ascending, hence free of duplicates, and they are exactly the
   * names of the final set that the loader can instantiate.
   */
  lemma ConfiguredCapabilities(capabilitiesParam: Option<string>, disableParam: Option<string>,
                               loader: PluginLoader, context: MoveGroupContext)
    ensures StrictlySorted(LoadedNames(LoadPass(Ascending(FinalSet(capabilitiesParam, disableParam)), loader, context)))
    ensures forall y ::
      y in LoadedNames(LoadPass(Ascending(FinalSet(capabilitiesParam, disableParam)), loader, context)) <==>
      y in FinalSet(capabilitiesParam, disableParam) && loader.createUniqueInstance(y).Some?
  {
    var names := Ascending(FinalSet(capabilitiesParam, disableParam));
    LoadPassKeepsLoadable(names, loader, context);
    LoadableSorted(names, loader);
    LoadableMembers(names, loader);
  }
}

/**
 * The `move_group` executable: the object that owns the shared context, the
 * plugin loader and the loaded capabilities, its status report, its teardown,
 * and the start-up sequence of `main` around it.
 */
module MoveGroup {
  import opened Wrappers
  import opened NameSet
  import opened Capabilities

  /** What `status()` writes: the error log, one of the two banners, or nothing. */
  datatype StatusReport = NoContextError | RunningWithoutCapabilities | ReadyToPlan | NoOutput

  /** The members the destructor releases. */
  datatype Member = CapabilitiesMember | ContextMember | LoaderMember

  /** `get_parameter_or`: the parameter's value if it is set, else the default. */
  function ParamOr(param: Option<bool>, default: bool): (b: bool)
    ensures param.Some? ==> b == param.value
    ensures param.None? ==> b == default
  {
    if param.Some? then param.value else default
  }

  class MoveGroupExe {
    var context: Option<MoveGroupContext>
    var pluginLoader: PluginLoader?
    var capabilities: seq<Capability>
    /** The names handed to the loader, one "Loading" line each, in order. */
    ghost var attempted: seq<string>
    /** The members released so far, in order. */
    ghost var released: seq<Member>

    /**
     * No capability outlives the context it was given or the loader that
     * built it; each was built by that loader under its own name, given that
     * context and initialised; their names are strictly ascending.
     */
    ghost predicate Valid()
      reads this
    {
      && (capabilities != [] ==>
            && context.Some?
            && pluginLoader != null
            && forall i :: 0 <= i < |capabilities| ==>
                 BoundTo(capabilities[i], capabilities[i].name, pluginLoader, context.value))
      && StrictlySorted(LoadedNames(capabilities))
    }

    /**
     * The constructor: the context is built from `allow_trajectory_execution`
     * (default true) and the debug flag, then the capabilities are configured.
     * `newLoader` is null where building the class loader throws.
     */
    constructor (allowTrajectoryExecutionParam: Option<bool>, debug: bool, newLoader: PluginLoader?,
                 capabilitiesParam: Option<string>, disableParam: Option<string>)
      ensures Valid()
      ensures context == Some(MoveGroupContext(ParamOr(allowTrajectoryExecutionParam, true), debug))
      ensures pluginLoader == newLoader
      ensures newLoader == null ==> capabilities == [] && attempted == []
      ensures newLoader != null ==>
        var names := Ascending(FinalSet(capabilitiesParam, disableParam));
        && capabilities == LoadPass(names, newLoader, context.value)
        && attempted == names
      ensures released == []
    {
      context := Some(MoveGroupContext(ParamOr(allowTrajectoryExecutionParam, true), debug));
      pluginLoader := null;
      capabilities := [];
      attempted := [];
      released := [];
      new;
      ConfigureCapabilities(newLoader, capabilitiesParam, disableParam);
    }

    /**
     * configureCapabilities: if the loader cannot be built, return with
     * nothing loaded; otherwise walk the final set in ascending order and keep
     * every capability the loader can build, after setContext and initialize.
     */
    method ConfigureCapabilities(newLoader: PluginLoader?, capabilitiesParam: Option<string>,
                                 disableParam: Option<string>)
      requires context.Some? && capabilities == []
      modifies this
      ensures Valid()
      ensures context == old(context) && released == old(released)
      ensures newLoader == null ==>
        pluginLoader == old(pluginLoader) && capabilities == [] && attempted == old(attempted)
      ensures newLoader != null ==>
        var names := Ascending(FinalSet(capabilitiesParam, disableParam));
        && pluginLoader == newLoader
        && capabilities == LoadPass(names, newLoader, context.value)
        && attempted == old(attempted) + names
    {
      if newLoader == null {
        return;
      }
      pluginLoader := newLoader;
      var names := ResolveCapabilityNames(capabilitiesParam, disableParam);
      LoadCapabilities(newLoader, names);
      LoadPassBindsAll(names, newLoader, context.value);
      ConfiguredCapabilities(capabilitiesParam, disableParam, newLoader, context.value);
    }

    /**
     * The load loop of configureCapabilities: for each name in turn, build it,
     * give it the context, initialise it and append it; a name that cannot be
     * built is skipped.
     */
    method LoadCapabilities(loader: PluginLoader, names: seq<string>)
      requires context.Some?
      modifies this
      ensures context == old(context) && released == old(released) && pluginLoader == old(pluginLoader)
      ensures capabilities == old(capabilities) + LoadPass(names, loader, context.value)
      ensures attempted == old(attempted) + names
    {
      var ctx := context.value;
      for i := 0 to |names|
        invariant context == old(context) && released == old(released) && pluginLoader == old(pluginLoader)
        invariant capabilities == old(capabilities) + LoadPass(names[..i], loader, ctx)
        invariant attempted == old(attempted) + names[..i]
      {
        var name := names[i];
        assert names[..i + 1][..i] == names[..i] && names[..i + 1][i] == name;
        attempted := attempted + [name];
        match loader.createUniqueInstance(name) {
          case None =>
            // a PluginlibException: logged, and the pass goes on
          case Some(plugin) =>
            var cap := Capability(name, plugin, []);
            cap := cap.SetContext(ctx);
            cap := cap.Initialize();
            capabilities := capabilities + [cap];
        }
      }
      assert names[..|names|] == names;
    }

    /** status(): which message the executable writes, given whether the context reports itself ready. */
    method Status(contextReady: bool) returns (report: StatusReport)
      ensures report == NoContextError <==> context.None?
      ensures report == RunningWithoutCapabilities <==> context.Some? && contextReady && capabilities == []
      ensures report == ReadyToPlan <==> context.Some? && contextReady && capabilities != []
      ensures report == NoOutput <==> context.Some? && !contextReady
    {
      if context.Some? {
        if contextReady {
          if capabilities == [] {
            report := RunningWithoutCapabilities;
          } else {
            report := ReadyToPlan;
          }
        } else {
          report := NoOutput;
        }
      } else {
        report := NoContextError;
      }
    }

    /**
     * The destructor: `capabilities_.clear()`, then `context_.reset()`, then
     * `capability_plugin_loader_.reset()`. Each step is a method of its own
     * that logs what it released, so `released` records the order of the
     * calls.
     */
    method Destroy()
      modifies this
      ensures Valid()
      ensures capabilities == [] && context.None? && pluginLoader == null
      ensures released == old(released) + [CapabilitiesMember, ContextMember, LoaderMember]
      ensures attempted == old(attempted)
    {
      ReleaseCapabilities();
      ReleaseContext();
      ReleaseLoader();
    }

    /** `capabilities_.clear()`: the capabilities go, nothing else changes. */
    method ReleaseCapabilities()
      modifies this
      ensures Valid()
      ensures capabilities == [] && context == old(context) && pluginLoader == old(pluginLoader)
      ensures released == old(released) + [CapabilitiesMember] && attempted == old(attempted)
    {
      capabilities := [];
      released := released + [CapabilitiesMember];
    }

    /**
     * `context_.reset()`. Only possible once no capability holds the context:
     * with capabilities left, the invariant would break.
     */
    method ReleaseContext()
      requires capabilities == []
      modifies this
      ensures Valid()
      ensures context.None? && capabilities == [] && pluginLoader == old(pluginLoader)
      ensures released == old(released) + [ContextMember] && attempted == old(attempted)
    {
      context := None;
      released := released + [ContextMember];
    }

    /**
     * `capability_plugin_loader_.reset()`. Only possible once no capability
     * built by the loader is left: with capabilities left, the invariant
     * would break.
     */
    method ReleaseLoader()
      requires capabilities == []
      modifies this
      ensures Valid()
      ensures pluginLoader == null && capabilities == [] && context == old(context)
      ensures released == old(released) + [LoaderMember] && attempted == old(attempted)
    {
      pluginLoader := null;
      released := released + [LoaderMember];
    }
  }

  /** The character at position `k` of a NUL-terminated string: its terminator, and beyond. */
  function CharAt(s: string, k: nat): char {
    if k < |s| then s[k] else '\0'
  }

  /** No terminator among the first `k` positions of `s`. */
  predicate NoTerminatorBefore(s: string, k: nat) {
    forall j :: 0 <= j < k ==> CharAt(s, j) != '\0'
  }

  /** `strncmp(s, t, n) == 0`: position by position, equal characters until `n` are compared or both strings end. */
  function StrncmpEqual(s: string, t: string, n: nat): (r: bool)
    ensures r <==> forall k :: 0 <= k < n && NoTerminatorBefore(s, k) ==> CharAt(s, k) == CharAt(t, k)
    decreases n
  {
    if n == 0 then true
    else if CharAt(s, 0) != CharAt(t, 0) then
      assert NoTerminatorBefore(s, 0);
      false
    else if CharAt(s, 0) == '\0' then
      assert forall k :: 0 < k ==> !NoTerminatorBefore(s, k);
      true
    else
      assert forall k :: 0 < k ==> CharAt(s, k) == CharAt(s[1..], k - 1) && CharAt(t, k) == CharAt(t[1..], k - 1);
      assert forall k :: 0 < k ==> (NoTerminatorBefore(s, k) <==> NoTerminatorBefore(s[1..], k - 1)) by {
        forall k | 0 < k ensures NoTerminatorBefore(s, k) <==> NoTerminatorBefore(s[1..], k - 1) {
          if NoTerminatorBefore(s[1..], k - 1) {
            forall j | 0 <= j < k ensures CharAt(s, j) != '\0' {
              if j > 0 {
                assert CharAt(s, j) == CharAt(s[1..], j - 1);
              }
            }
          }
          if NoTerminatorBefore(s, k) {
            forall j | 0 <= j < k - 1 ensures CharAt(s[1..], j) != '\0' {
              assert CharAt(s, j + 1) == CharAt(s[1..], j);
            }
          }
        }
      }
      var rest := StrncmpEqual(s[1..], t[1..], n - 1);
      assert rest <==> forall k :: 0 < k < n && NoTerminatorBefore(s, k) ==> CharAt(s, k) == CharAt(t, k) by {
        if !rest {
          var m :| 0 <= m < n - 1 && NoTerminatorBefore(s[1..], m) && CharAt(s[1..], m) != CharAt(t[1..], m);
          assert NoTerminatorBefore(s, m + 1) && CharAt(s, m + 1) != CharAt(t, m + 1);
        }
      }
      rest
  }

  /** Comparing as many characters as a terminator-free `flag` has is the prefix test. */
  lemma {:induction false} StrncmpIsPrefix(arg: string, flag: string)
    requires '\0' !in flag
    ensures StrncmpEqual(arg, flag, |flag|) <==> flag <= arg
    decreases |flag|
  {
    if flag != [] && arg != [] {
      assert flag[0] in flag;
      StrncmpIsPrefix(arg[1..], flag[1..]);
      assert flag <= arg <==> arg[0] == flag[0] && flag[1..] <= arg[1..] by {
        if flag <= arg {
          assert flag[1..] == arg[1..|flag|];
        }
        if arg[0] == flag[0] && flag[1..] <= arg[1..] {
          assert flag == [flag[0]] + flag[1..] && arg[..|flag|] == [arg[0]] + arg[1..][..|flag| - 1];
        }
      }
    } else if flag != [] {
      assert flag[0] in flag;
    }
  }

  /** `strncmp(arg, "--debug", 7) == 0` holds exactly when `arg` starts with `--debug`. */
  lemma StrncmpDebugIsPrefix(arg: string)
    ensures StrncmpEqual(arg, "--debug", 7) <==> "--debug" <= arg
  {
    StrncmpIsPrefix(arg, "--debug");
  }

  /**
   * The argument scan of `main`: it stops at the first argument after the
   * program name that starts with `--debug`; then the flag is set to true
   * whatever the scan found.
   */
  method ScanDebugFlag(argv: seq<string>) returns (matched: bool, debug: bool)
    ensures matched <==> exists i :: 1 <= i < |argv| && "--debug" <= argv[i]
    ensures debug
  {
    debug := false;
    var i := 1;
    while i < |argv|
      invariant 1 <= i
      invariant forall k :: 1 <= k < i && k < |argv| ==> !("--debug" <= argv[k])
    {
      StrncmpDebugIsPrefix(argv[i]);
      if StrncmpEqual(argv[i], "--debug", 7) {
        debug := true;
        break;
      }
      i := i + 1;
    }
    matched := debug;
    debug := true;
  }

  /** How `main` ends its start-up. */
  datatype LaunchOutcome = SceneNotConfigured | Running(debug: bool, report: StatusReport)

  /**
   * `main` around the executable: without a planning scene it stops with an
   * error; otherwise it scans the arguments, builds the executable and
   * reports its status, and the executable is torn down when `main` leaves
   * its scope.
   */
  method Launch(argv: seq<string>, sceneConfigured: bool, contextReady: bool,
                allowTrajectoryExecutionParam: Option<bool>, newLoader: PluginLoader?,
                capabilitiesParam: Option<string>, disableParam: Option<string>)
    returns (outcome: LaunchOutcome)
    ensures !sceneConfigured ==> outcome == SceneNotConfigured
    ensures sceneConfigured ==> outcome.Running? && outcome.debug
    ensures sceneConfigured ==> (outcome.report == NoOutput <==> !contextReady)
    ensures sceneConfigured ==>
      (outcome.report == ReadyToPlan <==>
         contextReady && newLoader != null &&
         exists n :: n in FinalSet(capabilitiesParam, disableParam) && newLoader.createUniqueInstance(n).Some?)
    ensures sceneConfigured ==>
      (outcome.report == RunningWithoutCapabilities <==>
         contextReady && (newLoader != null ==>
           forall n :: n in FinalSet(capabilitiesParam, disableParam) ==> newLoader.createUniqueInstance(n).None?))
  {
    if !sceneConfigured {
      return SceneNotConfigured;
    }
    var _, debug := ScanDebugFlag(argv);
    var exe := new MoveGroupExe(allowTrajectoryExecutionParam, debug, newLoader, capabilitiesParam, disableParam);
    var report := exe.Status(contextReady);
    if newLoader != null {
      var loader := newLoader;
      var ctx := exe.context.value;
      ConfiguredCapabilities(capabilitiesParam, disableParam, loader, ctx);
      var names := LoadedNames(exe.capabilities);
      if exe.capabilities != [] {
        assert names[0] in names;
      }
      if n :| n in FinalSet(capabilitiesParam, disableParam) && loader.createUniqueInstance(n).Some? {
        assert n in names;
      }
    }
    exe.Destroy();
    outcome := Running(debug, report);
  }
}

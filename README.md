# move_group capability configuration

A Dafny model of how MoveIt's `move_group` executable decides which
capabilities it runs and how it loads them
(`moveit_ros/move_group/src/move_group.cpp`). It covers:

- the ten hard-coded `DEFAULT_CAPABILITIES`;
- the `capabilities` and `disable_capabilities` parameters, split into names
  by a `boost::char_separator<char>(" ")` tokenizer;
- the final set, built in a `std::set<std::string>`: every default inserted,
  every requested name inserted, every disabled name erased;
- the load pass of `MoveGroupExe::configureCapabilities`: the set is walked in
  ascending order, and each name goes through the plugin loader, then
  `setContext`, then `initialize`, then is appended to `capabilities_`; a name
  whose load throws is logged and skipped; if the class loader itself cannot
  be built, the function returns with nothing loaded;
- `MoveGroupExe::status`, the destructor's release order, and the start-up
  sequence of `main`, including its `--debug` argument scan.

Modules:

- `Wrappers` (`wrappers.dfy`): `Option`, used for unset parameters and
  failed plugin loads.
- `NameSet` (`name_set.dfy`): `std::set<std::string>` as a strictly ascending
  `seq<string>` under `std::string`'s lexicographic order. It has `Insert`,
  `Erase`, and `Ascending(s)`, which is the unique ascending enumeration of a
  set.
- `Tokenizer` (`tokenizer.dfy`): the space-only tokenizer. Empty tokens are
  dropped. Tabs and newlines stay inside tokens.
- `Capabilities` (`capabilities.dfy`): the defaults, the final set, the loops
  that build it, the plugin loader as an oracle, and `LoadPass`. `LoadPass`
  is the specification of what one pass appends.
- `MoveGroup` (`move_group.dfy`): the class `MoveGroupExe`, with its context,
  loader and capability fields, and an invariant `Valid()`. `Valid()` says no
  capability outlives its context or its loader. The module also has
  `status()`, the destructor, the `strncmp` argument test, and `Launch`,
  which models `main`'s start-up.

External pieces are inputs to the model:

- The plugin loader is a `PluginLoader` object whose
  `createUniqueInstance: string -> Option<Plugin>` says, for each name,
  whether pluginlib can build it. A null loader means that building the
  class loader threw.
- Parameters are `Option<string>` and `Option<bool>` values. None means the
  parameter is unset.
- The readiness of the context (`MoveGroupContext::status()`) is a boolean
  passed to `Status`.
- Whether the planning scene exists is a boolean passed to `Launch`.

Points where the code behaves differently from what a reader might expect, and the model does what the code does:

- Names are split on the space character only, not on any whitespace.
- Load order is not left open. It is the ascending order of `std::set`.
- A failure to build the class loader makes `configureCapabilities` return.
  It does not abort the process, and the executable keeps running with no
  capabilities.
- Load failures are only logged. They are not collected into a result.
- A context that exists but is not ready makes `status()` print nothing.
- The `--debug` scan's result is overwritten by an unconditional
  `debug = true` (line 251). `ScanDebugFlag` returns both the scan's verdict
  and the final flag, which is always true.

## Model

| member | source | states |
|---|---|---|
| `NameSet.Less` | moveit_ros/move_group/src/move_group.cpp:132 | `std::string`'s `operator<`, which orders the set: the first differing character decides, and a proper prefix sorts first; nothing sorts before itself |
| `NameSet.LessIrreflexive` | moveit_ros/move_group/src/move_group.cpp:132 | no string sorts before itself in `std::string` order |
| `NameSet.LessTransitive` | moveit_ros/move_group/src/move_group.cpp:132 | `std::string` order is transitive |
| `NameSet.LessTotal` | moveit_ros/move_group/src/move_group.cpp:132 | any two different strings are ordered one way or the other |
| `NameSet.Insert` | moveit_ros/move_group/src/move_group.cpp:136 | `std::set::insert`: the result is strictly ascending and holds exactly the old elements plus the new one |
| `NameSet.Erase` | moveit_ros/move_group/src/move_group.cpp:154 | `std::set::erase`: the result is strictly ascending and holds exactly the old elements minus the key; an absent key changes nothing |
| `NameSet.EnumerationUnique` | moveit_ros/move_group/src/move_group.cpp:157 | two strictly ascending sequences with the same elements are equal, so a set is iterated in one order only |
| `NameSet.EnumerationSize` | moveit_ros/move_group/src/move_group.cpp:157 | an ascending enumeration has one entry per element of the set |
| `NameSet.EnumerationExists` | moveit_ros/move_group/src/move_group.cpp:157 | every finite set of names has an ascending enumeration |
| `NameSet.Ascending` | moveit_ros/move_group/src/move_group.cpp:157 | the order in which a `std::set` holding the set is walked: strictly ascending, exactly its elements |
| `Tokenizer.RunLength` | moveit_ros/move_group/src/move_group.cpp:142-143 | the next token ends at the first space or at the end of the string, and has no space |
| `Tokenizer.Tokenize` | moveit_ros/move_group/src/move_group.cpp:142-143 | every token is non-empty and contains no space |
| `Tokenizer.TokenizeKeepsOtherCharacters` | moveit_ros/move_group/src/move_group.cpp:150-151 | the tokens written together are the input without its spaces: no other character, a tab included, is dropped, moved or split off |
| `Tokenizer.TokenizeAtSpace` | moveit_ros/move_group/src/move_group.cpp:142-143 | a space is a separator: the tokens of `a + " " + b` are those of `a` followed by those of `b` |
| `Tokenizer.TokenizeToken` | moveit_ros/move_group/src/move_group.cpp:142-143 | a non-empty string without spaces is one token |
| `Tokenizer.TokenizeJoinBySpace` | moveit_ros/move_group/src/move_group.cpp:150-151 | round trip: valid tokens joined by single spaces tokenize back to the same list |
| `Tokenizer.TabIsNotASeparator` | moveit_ros/move_group/src/move_group.cpp:142-144 | `"a\tb  c "` gives exactly `["a\tb", "c"]`: runs of spaces collapse, and a tab stays inside its token |
| `Capabilities.DefaultCapabilities` | moveit_ros/move_group/src/move_group.cpp:56-69 | the ten default names, in the order of the source array, with the commented-out pick-and-place entry absent |
| `Capabilities.DefaultCapabilitiesDistinct` | moveit_ros/move_group/src/move_group.cpp:56-69 | there are exactly ten defaults and no two are equal |
| `Capabilities.ParamTokens` | moveit_ros/move_group/src/move_group.cpp:140-151 | the names a string parameter lists: none when `get_parameter` finds it unset, otherwise its tokens, each non-empty and space-free |
| `Capabilities.InsertAll` | moveit_ros/move_group/src/move_group.cpp:135-144 | the insert loops: the set afterwards is ascending and holds the old names plus every given name |
| `Capabilities.EraseAll` | moveit_ros/move_group/src/move_group.cpp:152-154 | the erase loop: the set afterwards is ascending and holds the old names except every given name |
| `Capabilities.ResolveCapabilityNames` | moveit_ros/move_group/src/move_group.cpp:132-155 | the set built is exactly (defaults + requested tokens) - disabled tokens, with an unset parameter contributing nothing, and in the ascending order of `Ascending(FinalSet(...))` |
| `Capabilities.DefaultsUnlessDisabled` | moveit_ros/move_group/src/move_group.cpp:56-69 | each of the ten defaults is in the final set exactly when it is not listed in `disable_capabilities` |
| `Capabilities.DisableWins` | moveit_ros/move_group/src/move_group.cpp:148-155 | a disabled name is never in the final set, even if it is also requested |
| `Capabilities.SameNamesSameFinalSet` | moveit_ros/move_group/src/move_group.cpp:140-145 | two requests that list the same names give the same final set |
| `Capabilities.RequestOrderIrrelevant` | moveit_ros/move_group/src/move_group.cpp:140-145 | swapping two groups of requested names does not change the final set |
| `Capabilities.RequestRepetitionIrrelevant` | moveit_ros/move_group/src/move_group.cpp:140-145 | listing the same names twice gives the same final set as listing them once |
| `Capabilities.Capability.SetContext` | moveit_ros/move_group/src/move_group.cpp:163 | `setContext`: the same capability under the same name and instance, with exactly that call appended to its hooks |
| `Capabilities.Capability.Initialize` | moveit_ros/move_group/src/move_group.cpp:164 | `initialize`: the same capability under the same name and instance, with exactly that call appended to its hooks |
| `Capabilities.LoadedNames` | moveit_ros/move_group/src/move_group.cpp:162-165 | the names the kept capabilities were loaded under, one per capability, in order |
| `Capabilities.LoadOne` | moveit_ros/move_group/src/move_group.cpp:159-171 | one iteration: nothing is kept exactly when the loader throws for the name; otherwise one capability is kept, built by the loader under that name, given the context and then initialised |
| `Capabilities.LoadPass` | moveit_ros/move_group/src/move_group.cpp:157-172 | what the load loop appends over a list of names, visited in order: at most one capability per name, each under one of the visited names |
| `Capabilities.LoadPassSingle` | moveit_ros/move_group/src/move_group.cpp:157-172 | a pass over one name is that name's iteration |
| `Capabilities.LoadPassAppend` | moveit_ros/move_group/src/move_group.cpp:157-172 | a pass over `xs + ys` appends the pass over `xs` and then the pass over `ys`: later names load regardless of what happened before |
| `Capabilities.FailureIsIsolated` | moveit_ros/move_group/src/move_group.cpp:157-172 | a name the loader throws for contributes nothing, and the names after it load as if it were absent |
| `Capabilities.LoadPassKeepsLoadable` | moveit_ros/move_group/src/move_group.cpp:157-172 | the names appended are exactly the visited names the loader can build, in visiting order |
| `Capabilities.LoadPassBindsAll` | moveit_ros/move_group/src/move_group.cpp:162-165 | every appended capability came from the loader under its own name and had `setContext(context)` and then `initialize()` called, nothing else |
| `Capabilities.LoadableMembers` | moveit_ros/move_group/src/move_group.cpp:157-172 | a name is kept exactly when it is visited and the loader can build it |
| `Capabilities.LoadableSorted` | moveit_ros/move_group/src/move_group.cpp:157-165 | dropping the names that fail keeps the kept names strictly ascending |
| `Capabilities.ConfiguredCapabilities` | moveit_ros/move_group/src/move_group.cpp:132-172 | after a pass over the final set, the loaded names are strictly ascending and duplicate-free, and they are exactly the names of the final set that the loader can build |
| `Capabilities.PluginLoader.constructor` | moveit_ros/move_group/src/move_group.cpp:123-124 | the class loader's answers are fixed when it is built |
| `MoveGroup.ParamOr` | moveit_ros/move_group/src/move_group.cpp:80 | `get_parameter_or`: the parameter's value when it is set, the default otherwise |
| `MoveGroup.MoveGroupExe.constructor` | moveit_ros/move_group/src/move_group.cpp:75-86 | the context holds `allow_trajectory_execution` (default true) and the debug flag; with no class loader nothing is loaded, otherwise the capabilities are the load pass over the ascending final set; the invariant holds |
| `MoveGroup.MoveGroupExe.ConfigureCapabilities` | moveit_ros/move_group/src/move_group.cpp:119-172 | if building the loader throws, nothing changes and nothing is loaded; otherwise the loader is kept, every name of the final set is attempted in ascending order, and `capabilities` is the load pass over them; the context is untouched and the invariant holds |
| `MoveGroup.MoveGroupExe.LoadCapabilities` | moveit_ros/move_group/src/move_group.cpp:157-172 | the loop appends exactly the load pass over the names to `capabilities`, and attempts every name in order |
| `MoveGroup.MoveGroupExe.Status` | moveit_ros/move_group/src/move_group.cpp:95-111 | no context gives the error; a ready context gives "no capabilities are loaded" exactly when the list is empty and "You can start planning now!" exactly when it is not; a context that is not ready gives no output |
| `MoveGroup.MoveGroupExe.Destroy` | moveit_ros/move_group/src/move_group.cpp:88-93 | releases the capabilities, then the context, then the loader, in that order, keeping the invariant at each step: afterwards all three are empty |
| `MoveGroup.MoveGroupExe.ReleaseCapabilities` | moveit_ros/move_group/src/move_group.cpp:90 | `capabilities_.clear()`: the capability list becomes empty, the context and the loader stay as they were, and the invariant holds |
| `MoveGroup.MoveGroupExe.ReleaseContext` | moveit_ros/move_group/src/move_group.cpp:91 | `context_.reset()`: callable only once no capability is left, since each capability holds the context; the context becomes empty and the loader stays as it was |
| `MoveGroup.MoveGroupExe.ReleaseLoader` | moveit_ros/move_group/src/move_group.cpp:92 | `capability_plugin_loader_.reset()`: callable only once no capability built by the loader is left; the loader becomes null and the context stays as it was |
| `MoveGroup.StrncmpEqual` | moveit_ros/move_group/src/move_group.cpp:246 | `strncmp(s, t, n) == 0`: at every position below `n` up to and including the first terminator of `s`, the two strings have the same character |
| `MoveGroup.StrncmpIsPrefix` | moveit_ros/move_group/src/move_group.cpp:246 | `strncmp(arg, flag, len(flag)) == 0` for a flag with no terminator inside is exactly "flag is a prefix of arg" |
| `MoveGroup.StrncmpDebugIsPrefix` | moveit_ros/move_group/src/move_group.cpp:246 | `strncmp(arg, "--debug", 7) == 0` holds exactly when `arg` starts with `--debug` |
| `MoveGroup.ScanDebugFlag` | moveit_ros/move_group/src/move_group.cpp:244-251 | the scan finds a match exactly when some argument after the program name starts with `--debug`; the flag afterwards is true whatever the arguments |
| `MoveGroup.Launch` | moveit_ros/move_group/src/move_group.cpp:242-280 | without a planning scene, start-up stops; otherwise debug is on, `status()` prints nothing exactly when the context is not ready, and the planning banner appears exactly when the context is ready, the loader was built and some name of the final set can be built; the "no capabilities" banner appears in every other ready case |

## Left out

- `getParameterFromRemoteNode` (lines 192-210): a blocking network poll over ROS parameter services.
- Fetching `robot_description` and reading the `robot_description_semantic` file (lines 222-233): network and file I/O.
- The TF buffer and listener, building the `PlanningSceneMonitor`, its three start calls and `publishDebugInformation` (lines 235-268): foreign libraries. The existence of the planning scene is an input to `Launch`.
- The `MultiThreadedExecutor`, the monitor node, `add_node`, `spin`, `rclcpp::init` and `rclcpp::shutdown` (lines 214-219, 257-258, 271-277): middleware and concurrency. `Launch` tears the executable down right after its status report. In the source that happens after `spin` returns.
- `getContext` (lines 113-116): a plain accessor. `Launch` reads the `context` field instead.
- Console output: the texts of `printf` and `RCLCPP_*`, colours, and the "MoveGroup using" summary (lines 174-182). Only what `status()` chooses to print is modelled, as `StatusReport`. The per-name "Loading" lines are modelled as the ghost log `attempted`.
- What pluginlib's `createUniqueInstance` does and what each capability does: the loader is an oracle, and a built instance is an opaque `Plugin`. `setContext` and `initialize` are taken not to throw, so a capability that throws from them is not modelled.
- Exceptions other than `PluginlibException` (line 167 catches only that one): one thrown by `createUniqueInstance` escapes `configureCapabilities` and the constructor and ends `main`. The oracle answers only "built" or "`PluginlibException`", so this path is not modelled.
- `getName()` (line 180) is not modelled: a capability's `name` is the name it was loaded under (line 162), so `ConfiguredCapabilities` proves that these lookup names are ascending, not the names the capabilities report about themselves.
- `MoveGroupContext` internals: its node and planning scene monitor handles are not modelled, and `status()` is a boolean input.
- Parameter lookup: a parameter set with the wrong type is not modelled. For `capabilities` and `disable_capabilities` this means a non-string type, which makes `get_parameter` throw (lines 140-151). For `allow_trajectory_execution` it means a non-bool type, which makes `get_parameter_or` throw (line 80).
- `MoveGroup.MoveGroupExe.Destroy`: the invariant forces the capabilities to go first. The order of context before loader is fixed only by the order of the calls in `Destroy`, which the `released` ensures records; no invariant requires it.
- MoveGroup.MoveGroupExe.ConfigureCapabilities: requires an empty capability list. The constructor, its only caller, guarantees this. The source itself would append to a non-empty list.
- `NameSet.Less` compares characters by code point. For byte strings this is unsigned byte order, which is what `std::char_traits<char>` uses. Multi-byte encodings are not modelled separately.

# FGo state machine, modelled in Dafny

The PHP library FGo StateMachine drives entities ("stateful objects")
through a finite state machine described by a configuration array:

- **State** is a value: a trimmed name and one of four types (INITIAL,
  NORMAL, FINAL, BREAKPOINT). The type is matched without regard to case.
- **Transition** is an object. It holds:
  - input states keyed by name;
  - an ordered list of output states;
  - a condition, an optional action and a default flag.

  Its apply() runs the action when there is one. The action's result
  becomes the condition, and the condition picks the output state by index.
- **Loaders** build states and transitions from the configuration:
  - ArrayConfigurator keys them by name and insists on exactly one INITIAL
    state.
  - ArrayLoader keeps them in lists, in declaration order.
- **StateMachine** takes over the configurator's lists. It then:
  - initialises an entity to the initial state;
  - answers can();
  - applies named transitions, dispatching onBefore/onAfter notifications
    around the transition and around the change of state.

Module by module:

- `PhpStrings` models the two PHP builtins the core relies on: `trim()` and `strtoupper()`.
- `StateTypes` covers the type constants and `isSupportedType()`.
- `States` holds the State value and its setters.
- `Transitions` has two parts:
  - the pure `Resolve`, which specifies `apply()` on a transition's value;
  - the class `Transition`, proved against `Resolve`.
- `Loading` holds the parts both loaders share:
  - the shapes of the configuration entries after option resolution;
  - the construction of one state entry;
  - the construction of one transition entry.
- `Config` models ArrayConfigurator:
  - `LoadSpec` is the whole of load() as a function;
  - the class `ArrayConfigurator` runs its loops, with invariants, against it.
- `Configuration` models ArrayLoader the same way, with a generic `Collect` for its append loops.
- `StateMachines` holds:
  - `InitializeSpec`, `CanSpec` and `ApplySpec`, which give the result, the entity's new state and the dispatched notifications;
  - the class `StateMachine`, whose methods are proved to do exactly that on objects;
  - lemmas about runs of calls.
- `Usage` is the scenario of the library's integration test, stated as lemmas over `StateMachines`.

## Model

| member | source | states |
|---|---|---|
| PhpStrings.TrimLeft | src/FGo/StateMachine/State/State.php:72 | the result is a suffix of the input; the dropped prefix is all strippable characters; the result does not start with one |
| PhpStrings.TrimRight | src/FGo/StateMachine/State/State.php:72 | the result is a prefix of the input; the dropped suffix is all strippable characters; the result does not end with one |
| PhpStrings.Trim | src/FGo/StateMachine/State/State.php:72 | trim() leaves no strippable character at either end, never lengthens, and leaves an already trimmed string unchanged |
| PhpStrings.TrimStripsEnds | src/FGo/StateMachine/State/State.php:72 | trim() returns a slice s[i..j] of its input, dropping only strippable characters before i and from j on |
| PhpStrings.TrimIsOnlyTrimmedSlice | src/FGo/StateMachine/State/State.php:72 | any trimmed slice s[i..j] that drops only strippable characters at the ends is trim()'s result, so the result is unique |
| PhpStrings.TrimIdempotent | src/FGo/StateMachine/State/State.php:72 | trimming twice equals trimming once |
| PhpStrings.UpperChar | src/FGo/StateMachine/State/State.php:99 | strtoupper() on one character maps 'a'..'z' to 'A'..'Z' (code minus 32) and keeps every other character |
| PhpStrings.ToUpper | src/FGo/StateMachine/State/State.php:99 | strtoupper() keeps the length and upper-cases each character independently |
| PhpStrings.ToUpperOfUpper | src/FGo/StateMachine/State/StateTypes.php:95 | a string without lower-case letters is its own upper case |
| PhpStrings.ToUpperIdempotent | src/FGo/StateMachine/State/State.php:99 | upper-casing twice equals upper-casing once |
| PhpStrings.ToUpperKeepsTrimmed | src/FGo/StateMachine/State/State.php:99 | upper-casing keeps a string trimmed, and an untrimmed one untrimmed |
| StateTypes.SupportedTypes | src/FGo/StateMachine/State/StateTypes.php:66-81 | getSupportedTypes() lists exactly INITIAL, NORMAL, FINAL, BREAKPOINT in that order |
| StateTypes.Scan | src/FGo/StateMachine/State/StateTypes.php:96-102 | the loop with early return finds the type exactly when it is in the list |
| StateTypes.IsSupportedType | src/FGo/StateMachine/State/StateTypes.php:93-103 | a type is supported exactly when its upper case is one of the four constants |
| StateTypes.SupportedTypesTrimmed | src/FGo/StateMachine/State/StateTypes.php:66-71 | every supported type is trimmed |
| StateTypes.SupportedTypesUpper | src/FGo/StateMachine/State/StateTypes.php:35-59 | each of the four constants is its own upper case |
| StateTypes.SupportedTypeIgnoresCase | src/FGo/StateMachine/State/StateTypes.php:86-95 | two strings with the same upper case are both supported or both not |
| StateTypes.UpperCaseOfSupported | src/FGo/StateMachine/State/StateTypes.php:93-103 | "final" is supported exactly when "FINAL" is |
| StateTypes.UntrimmedIsUnsupported | src/FGo/StateMachine/State/StateTypes.php:93-103 | isSupportedType() does not trim, so a string with surrounding whitespace is never supported |
| States.NormalizeType | src/FGo/StateMachine/State/State.php:99 | the normalised type is trimmed at both ends and holds no lower-case letter; NormalizeTypeIdempotent adds that normalising it again changes nothing |
| States.NormalizeTypeIdempotent | src/FGo/StateMachine/State/State.php:99 | normalising (trim, then upper-case) a normalised type changes nothing |
| States.SetName | src/FGo/StateMachine/State/State.php:70-75 | setName() stores the trimmed name and keeps the type |
| States.SetType | src/FGo/StateMachine/State/State.php:97-109 | setType() succeeds exactly when the normalised type is supported, then stores it and keeps the name; otherwise it fails with the normalised type |
| States.NewState | src/FGo/StateMachine/State/State.php:44-49 | the constructor yields State(trim(name), normalised type), which is valid, exactly when the type is supported; otherwise it fails with the normalised type |
| States.ToString | src/FGo/StateMachine/State/State.php:118-121 | the string form is the name |
| States.NewStateIgnoresTypeCase | src/FGo/StateMachine/State/State.php:97-109 | types that differ only in case and surrounding whitespace construct the same state |
| Transitions.InputMap | src/FGo/StateMachine/Transition/Transition.php:274-279 | after addInputState() calls, every state in the input map is stored under its own name |
| Transitions.InputMapKeys | src/FGo/StateMachine/Transition/Transition.php:137-140 | a name is a key of the input map exactly when some added state carries it |
| Transitions.ReAddKeepsInputNames | src/FGo/StateMachine/Transition/Transition.php:274-279 | adding a state whose name is already present keeps the key set and its size |
| Transitions.NewNameGrowsInputNames | src/FGo/StateMachine/Transition/Transition.php:274-279 | adding a state with a new name adds exactly that name to the key set |
| Transitions.TransitionValue.Can | src/FGo/StateMachine/Transition/Transition.php:114-117 | can() holds exactly when some added input state has the state's name |
| Transitions.Resolve | src/FGo/StateMachine/Transition/Transition.php:85-109 | apply() on a value, in full: <br>• it rejects a state that is not an input; <br>• with an action, the condition becomes the action's result; <br>• it succeeds exactly when the condition indexes an output state, and then yields that state; <br>• otherwise it fails with the condition; <br>• nothing but the condition changes, and validity is kept |
| Transitions.NoActionSelectsFirstOutput | src/FGo/StateMachine/Transition/Transition.php:93-108 | without an action a valid transition yields its first output state (or fails when it has none) and is unchanged |
| Transitions.ActionSelectsOutput | src/FGo/StateMachine/Transition/Transition.php:93-108 | with an action returning k the condition becomes k and the k-th output state is yielded, or the call fails for k |
| Transitions.ResolveIgnoresCondition | src/FGo/StateMachine/Transition/Transition.php:93-98 | a condition left by an earlier apply() does not affect the next one |
| Transitions.Transition.constructor | src/FGo/StateMachine/Transition/Transition.php:76-81 | a new transition has the trimmed name, no states, condition 0, no action, default false |
| Transitions.Transition.SetName | src/FGo/StateMachine/Transition/Transition.php:161-166 | setName() stores the trimmed name and changes nothing else |
| Transitions.Transition.HasInputState | src/FGo/StateMachine/Transition/Transition.php:137-140 | true exactly when an added input state has the state's name |
| Transitions.Transition.Can | src/FGo/StateMachine/Transition/Transition.php:114-117 | can() is hasInputState() |
| Transitions.Transition.HasOutputState | src/FGo/StateMachine/Transition/Transition.php:246-249 | true exactly when the index is within the output list |
| Transitions.Transition.GetOutputState | src/FGo/StateMachine/Transition/Transition.php:258-265 | the output state at the index, or null when there is none |
| Transitions.Transition.AddInputState | src/FGo/StateMachine/Transition/Transition.php:274-279 | the state is stored under its name, replacing a same-named one; nothing else changes |
| Transitions.Transition.AddOutputState | src/FGo/StateMachine/Transition/Transition.php:288-293 | the state is appended to the outputs; nothing else changes |
| Transitions.Transition.SetAction | src/FGo/StateMachine/Transition/Transition.php:207-212 | the action is bound; nothing else changes |
| Transitions.Transition.SetCondition | src/FGo/StateMachine/Transition/Transition.php:221-226 | only the condition changes |
| Transitions.Transition.SetDefault | src/FGo/StateMachine/Transition/Transition.php:311-316 | only the default flag changes, to true when no argument is given |
| Transitions.Transition.Apply | src/FGo/StateMachine/Transition/Transition.php:85-109 | the result and the transition's new value are exactly those of Resolve on its old value |
| Loading.NormalIsNormalized | src/FGo/StateMachine/Config/ArrayConfigurator.php:100-104 | the default type NORMAL is unchanged by the type normaliser |
| Loading.ResolveStateEntry | src/FGo/StateMachine/Config/ArrayConfigurator.php:109-116 | a bare string names a NORMAL state; a keyed entry yields its normalised type (NORMAL by default) exactly when that type is supported, and otherwise fails with it; every constructed state is valid and carries the trimmed name |
| Loading.ResolveNames | src/FGo/StateMachine/Config/ArrayConfigurator.php:178-190 | the name list resolves exactly when every name is known, and then to the looked-up states in order |
| Loading.ResolveNamesFailureSticks | src/FGo/StateMachine/Config/ArrayConfigurator.php:178-190 | once a prefix of the names fails, the whole list fails the same way |
| Loading.ResolveNamesReportsFirstUnknown | src/FGo/StateMachine/Config/ArrayConfigurator.php:179-187 | the error names the trimmed first unknown state |
| Loading.ResolveAction | src/FGo/StateMachine/Config/ArrayConfigurator.php:208-223 | no action descriptor gives no action; a missing required key, a target that is not an object and an empty method name each fail with their own error; a descriptor with an object target and a non-empty method succeeds, and the action holds the target, the trimmed method and the arguments (default []) |
| Loading.BuildTransition | src/FGo/StateMachine/Config/ArrayConfigurator.php:176-223 | a built transition: <br>• is valid, with the trimmed key as its name and condition 0; <br>• has one input per 'from' name and one output per 'to' name, each the looked-up state, in order; <br>• carries the default flag (false when absent) and the checked action; <br>• a missing 'from' or 'to' is an error; <br>• it succeeds exactly when both lists are present, every 'from' and 'to' name is known and the action check passes |
| Loading.UndefinedStateIsReported | src/FGo/StateMachine/Config/ArrayConfigurator.php:178-190 | the first unknown 'from' name is reported with the transition's name |
| Loading.UndefinedToStateIsReported | src/FGo/StateMachine/Config/ArrayConfigurator.php:192-204 | with every 'from' name known, the first unknown 'to' name is reported, trimmed, with the transition's name |
| Loading.ActionErrorPassesThrough | src/FGo/StateMachine/Config/ArrayConfigurator.php:208-223 | with every state name known, a failing action check fails the transition with that very error |
| Loading.ActionCodeSelectsDeclaredTo | src/FGo/StateMachine/Config/ArrayConfigurator.php:192-204 | an action result k selects the k-th declared 'to' state |
| Loading.NewTransition | src/FGo/StateMachine/Config/ArrayConfigurator.php:176-223 | building the Transition object fails exactly as BuildTransition does, and otherwise yields a fresh valid object whose value is BuildTransition's |
| Loading.AddFromStates | src/FGo/StateMachine/Config/ArrayConfigurator.php:178-190 | the 'from' loop adds the resolved states as inputs in order, or reports the first unknown name |
| Loading.AddToStates | src/FGo/StateMachine/Config/ArrayConfigurator.php:192-204 | the 'to' loop appends the resolved states as outputs in order, or reports the first unknown name |
| Config.Lookup | src/FGo/StateMachine/Config/ArrayConfigurator.php:136-144 | getStateByName() as the lookup the transition loop is given; a plain definition, what it finds is StateByName's contract |
| Config.StateByName | src/FGo/StateMachine/Config/ArrayConfigurator.php:136-144 | getStateByName() finds a state exactly when the trimmed name is a key, and returns the state stored there |
| Config.ResolveAll | src/FGo/StateMachine/Config/ArrayConfigurator.php:109-116 | one result per state entry, every constructed state valid |
| Config.ResolveAllConstructs | src/FGo/StateMachine/Config/ArrayConfigurator.php:109-116 | result i is the state, or the error, that state entry i constructs |
| Config.AddStateKeepsConsistent | src/FGo/StateMachine/Config/ArrayConfigurator.php:116-123 | one iteration of loadStates() keeps the list keyed by name and the recorded initial state INITIAL and present |
| Config.AddState | src/FGo/StateMachine/Config/ArrayConfigurator.php:109-124 | one iteration of loadStates(): a plain definition; its meaning over the loop is stated by AddStateKeepsConsistent, StateKeys, LastDeclarationWins and StatesLoadedIff |
| Config.StatesAfter | src/FGo/StateMachine/Config/ArrayConfigurator.php:108-126 | the whole loop of loadStates() from an empty list and no initial state: a plain definition; StatesAfterConsistent, StateKeys, LastDeclarationWins and StatesLoadedIff state what it computes |
| Config.StatesAfterConsistent | src/FGo/StateMachine/Config/ArrayConfigurator.php:94-127 | loadStates() keeps that invariant from the empty list to the end |
| Config.StatesAfterStep | src/FGo/StateMachine/Config/ArrayConfigurator.php:109-124 | loading one more entry is one more iteration |
| Config.StatesFailureSticks | src/FGo/StateMachine/Config/ArrayConfigurator.php:114-119 | after the first exception no later entry matters |
| Config.StatesLoadedIff | src/FGo/StateMachine/Config/ArrayConfigurator.php:94-127 | loadStates() succeeds exactly when every entry constructs a state and at most one is INITIAL; an initial state is then recorded exactly when there is one |
| Config.StateKeys | src/FGo/StateMachine/Config/ArrayConfigurator.php:123 | the keys of the loaded list are exactly the names of the constructed states |
| Config.LastDeclarationWins | src/FGo/StateMachine/Config/ArrayConfigurator.php:123 | a state declared again under the same name replaces the earlier one |
| Config.BuildRefersToLoadedStates | src/FGo/StateMachine/Config/ArrayConfigurator.php:178-204 | a built transition is valid, has condition 0, and refers only to loaded states |
| Config.BuildAll | src/FGo/StateMachine/Config/ArrayConfigurator.php:175-177 | one result per transition entry, every built transition referring only to loaded states |
| Config.BuildAllBuilds | src/FGo/StateMachine/Config/ArrayConfigurator.php:175-223 | result i is what transition entry i builds against the loaded states, or its error |
| Config.AddTransition | src/FGo/StateMachine/Config/ArrayConfigurator.php:225 | one iteration: the transition stored under its name, or the first error kept |
| Config.TransitionsAfter | src/FGo/StateMachine/Config/ArrayConfigurator.php:174-228 | every loaded transition is stored under its own name and refers only to loaded states |
| Config.TransitionKeys | src/FGo/StateMachine/Config/ArrayConfigurator.php:225 | the keys of the loaded transition list are exactly the names of the built transitions |
| Config.LastTransitionWins | src/FGo/StateMachine/Config/ArrayConfigurator.php:225 | a transition declared again under the same name replaces the earlier one |
| Config.TransitionsAfterStep | src/FGo/StateMachine/Config/ArrayConfigurator.php:175-226 | loading one more entry is one more iteration |
| Config.TransitionsFailureSticks | src/FGo/StateMachine/Config/ArrayConfigurator.php:175-226 | after the first exception no later entry matters |
| Config.TransitionsLoadedIff | src/FGo/StateMachine/Config/ArrayConfigurator.php:174-228 | loadTransitions() succeeds exactly when every entry builds |
| Config.Resolved | src/FGo/StateMachine/Config/ArrayConfigurator.php:75-77 | the merged 'states' section: result i is what state entry i constructs, and every constructed state is valid |
| Config.LoadSpec | src/FGo/StateMachine/Config/ArrayConfigurator.php:70-85 | what load() raises and leaves behind: <br>• a non-array is refused with nothing changed; <br>• success implies an initial state; <br>• the initial state is the one loadStates() recorded; <br>• a failing state section keeps the state list |
| Config.LoadSpecStatesFail | src/FGo/StateMachine/Config/ArrayConfigurator.php:77 | when a state fails, load() raises its error and keeps both lists |
| Config.LoadSpecStatesLoaded | src/FGo/StateMachine/Config/ArrayConfigurator.php:77-82 | once the states load, the outcome is that of the transitions, then of the initial-state check |
| Config.LoadSucceedsIff | src/FGo/StateMachine/Config/ArrayConfigurator.php:70-85 | load() succeeds exactly when the value is an array, every state constructs, exactly one is INITIAL, and every transition builds |
| Config.NoInitialStateIsRejected | src/FGo/StateMachine/Config/ArrayConfigurator.php:80-82 | valid entries without an INITIAL state are rejected for the missing initial state |
| Config.SecondInitialStateIsRejected | src/FGo/StateMachine/Config/ArrayConfigurator.php:117-120 | a second INITIAL state is rejected |
| Config.ReloadForgetsEarlierLoads | src/FGo/StateMachine/Config/ArrayConfigurator.php:96 | the outcome, state list and initial state of a load do not depend on what was loaded before; after a successful load nothing does |
| Config.LoadedConfigurationIsWellFormed | src/FGo/StateMachine/Config/ArrayConfigurator.php:70-85 | after a successful load() the states are keyed and valid, the initial state is INITIAL, and every transition is keyed by name and built from loaded states |
| Config.MirrorsStore | src/FGo/StateMachine/Config/ArrayConfigurator.php:225 | storing a valid transition under its name keeps the object map and the value map in step |
| Config.ArrayConfigurator.constructor | src/FGo/StateMachine/Config/ArrayConfigurator.php:45-59 | empty lists, no initial state |
| Config.ArrayConfigurator.SetInitialState | src/FGo/StateMachine/Config/ArrayConfigurator.php:262-267 | only the initial state changes |
| Config.ArrayConfigurator.AddToList | src/FGo/StateMachine/Config/ArrayConfigurator.php:116-123 | the loop body does exactly one AddState step |
| Config.ArrayConfigurator.LoadEntry | src/FGo/StateMachine/Config/ArrayConfigurator.php:109-124 | one pass of the loop advances StatesAfter by one entry |
| Config.ArrayConfigurator.LoadStates | src/FGo/StateMachine/Config/ArrayConfigurator.php:94-127 | loadStates() returns StatesAfter's list and leaves its initial state |
| Config.ArrayConfigurator.StoreEntry | src/FGo/StateMachine/Config/ArrayConfigurator.php:175-226 | one pass of loadTransitions()'s loop advances TransitionsAfter by one entry: on success the built object is stored under its name with its value, objects and values kept in step; otherwise the error that TransitionsAfter raises |
| Config.ArrayConfigurator.LoadTransitions | src/FGo/StateMachine/Config/ArrayConfigurator.php:153-229 | loadTransitions() fails exactly as TransitionsAfter does; otherwise it returns fresh objects whose values are TransitionsAfter's |
| Config.ArrayConfigurator.SetStateList | src/FGo/StateMachine/Config/ArrayConfigurator.php:77 | the state list is assigned |
| Config.ArrayConfigurator.SetTransitionList | src/FGo/StateMachine/Config/ArrayConfigurator.php:78 | the transition list is assigned, with its values |
| Config.ArrayConfigurator.Install | src/FGo/StateMachine/Config/ArrayConfigurator.php:77-78 | the states are assigned; on a transition error the transition list is kept, otherwise it is replaced by the loaded one |
| Config.ArrayConfigurator.Load | src/FGo/StateMachine/Config/ArrayConfigurator.php:70-85 | load() raises and leaves exactly what LoadSpec says |
| Configuration.FirstNamed | src/FGo/StateMachine/Configuration/ArrayLoader.php:117-127 | None exactly when no state has the name; otherwise a state of the list with that name |
| Configuration.FirstNamedIsFirst | src/FGo/StateMachine/Configuration/ArrayLoader.php:120-124 | the first state carrying the name is the one found |
| Configuration.Lookup | src/FGo/StateMachine/Configuration/ArrayLoader.php:117-127 | getStateByName() as the lookup the transition loop is given; a plain definition, what it finds is FirstNamed's contract and FirstNamedIsFirst |
| Configuration.Collect | src/FGo/StateMachine/Configuration/ArrayLoader.php:95-107 | an append loop that stops at the first exception: a plain definition; CollectMeaning, CollectStep, CollectFailureSticks and CollectReportsFirstFailure state what it computes |
| Configuration.CollectMeaning | src/FGo/StateMachine/Configuration/ArrayLoader.php:96-105 | an append loop succeeds exactly when every entry does, and then lists their values in order |
| Configuration.CollectStep | src/FGo/StateMachine/Configuration/ArrayLoader.php:96-105 | one more entry appends its value or raises its error |
| Configuration.CollectFailureSticks | src/FGo/StateMachine/Configuration/ArrayLoader.php:156-205 | after the first exception no later entry matters |
| Configuration.CollectReportsFirstFailure | src/FGo/StateMachine/Configuration/ArrayLoader.php:156-205 | the error raised is that of the first failing entry |
| Configuration.StatesList | src/FGo/StateMachine/Configuration/ArrayLoader.php:83-108 | a loaded list holds one valid state per entry, state i being the one entry i constructs |
| Configuration.BuildLoaderTransition | src/FGo/StateMachine/Configuration/ArrayLoader.php:138-148 | a 'default' option is an undefined option; otherwise the transition is built as the configurator builds it, and is never the default |
| Configuration.BuildRefersToLoadedStates | src/FGo/StateMachine/Configuration/ArrayLoader.php:159-185 | a built transition refers only to states of the loaded list |
| Configuration.BuildAll | src/FGo/StateMachine/Configuration/ArrayLoader.php:156-158 | one result per entry, each built transition referring only to loaded states |
| Configuration.BuildAllBuilds | src/FGo/StateMachine/Configuration/ArrayLoader.php:156-201 | result i is what transition entry i builds against the loaded list, or its error |
| Configuration.TransitionsList | src/FGo/StateMachine/Configuration/ArrayLoader.php:136-208 | a loaded list has one transition per entry, in declaration order: transition i is the one entry i builds from loaded states |
| Configuration.LoadSpec | src/FGo/StateMachine/Configuration/ArrayLoader.php:63-74 | a non-array is refused with nothing changed; a failing state section raises its error and changes nothing; LoadSpecStatesLoaded and FirstFailingTransitionIsReported give the outcome once the states load |
| Configuration.LoadSpecStatesLoaded | src/FGo/StateMachine/Configuration/ArrayLoader.php:70-71 | once the states load, load() ends as loadTransitions() does: on an exception it raises that error, holding the new states and the transitions held before; otherwise it holds both new lists |
| Configuration.FirstFailingTransitionIsReported | src/FGo/StateMachine/Configuration/ArrayLoader.php:70-71 | when the states load and transition entry i is the first that does not build, load() raises entry i's error, holds the new states and keeps the old transitions |
| Configuration.LoadSucceedsIff | src/FGo/StateMachine/Configuration/ArrayLoader.php:63-74 | load() succeeds exactly when the value is an array, every state constructs and every transition builds; then one state per entry and one transition per entry, each the one its entry constructs or builds, in declaration order |
| Configuration.InitialCountOnlyMattersToConfigurator | src/FGo/StateMachine/Configuration/ArrayLoader.php:63-74 | the loader accepts any number of INITIAL states, the configurator exactly one |
| Configuration.LoadedListsAreWellFormed | src/FGo/StateMachine/Configuration/ArrayLoader.php:63-74 | a successful load() leaves valid states and non-default transitions over them, whatever was held before |
| Configuration.MirrorsAppend | src/FGo/StateMachine/Configuration/ArrayLoader.php:204 | appending a valid transition keeps objects and values in step |
| Configuration.ArrayLoader.constructor | src/FGo/StateMachine/Configuration/ArrayLoader.php:45-52 | empty lists |
| Configuration.ArrayLoader.GetStateByName | src/FGo/StateMachine/Configuration/ArrayLoader.php:117-127 | the search loop returns the first state with the trimmed name, or null |
| Configuration.ArrayLoader.AppendState | src/FGo/StateMachine/Configuration/ArrayLoader.php:96-105 | one pass of loadStates()'s loop: entry i is constructed and appended, advancing Collect by one entry; when it raises, the error is the one the whole loop raises |
| Configuration.ArrayLoader.LoadStates | src/FGo/StateMachine/Configuration/ArrayLoader.php:83-108 | loadStates() returns StatesList: one state per entry, state i the one entry i constructs, or the first entry's error |
| Configuration.ArrayLoader.NewLoaderTransition | src/FGo/StateMachine/Configuration/ArrayLoader.php:138-204 | fails exactly when BuildLoaderTransition fails and with its error (a 'default' option before anything is built); otherwise a fresh valid object whose value is BuildLoaderTransition's |
| Configuration.ArrayLoader.AppendTransition | src/FGo/StateMachine/Configuration/ArrayLoader.php:156-205 | one pass of loadTransitions()'s loop: entry i is built and appended, objects and values kept in step and Collect advanced by one entry; when it raises, the error is the one the whole loop raises |
| Configuration.ArrayLoader.LoadTransitions | src/FGo/StateMachine/Configuration/ArrayLoader.php:136-208 | loadTransitions() fails exactly as TransitionsList does; otherwise it returns the objects in declaration order, whose values are TransitionsList's |
| Configuration.ArrayLoader.SetStateList | src/FGo/StateMachine/Configuration/ArrayLoader.php:70 | the state list is assigned |
| Configuration.ArrayLoader.SetTransitionList | src/FGo/StateMachine/Configuration/ArrayLoader.php:71 | the transition list is assigned, with its values |
| Configuration.ArrayLoader.Load | src/FGo/StateMachine/Configuration/ArrayLoader.php:63-74 | load() raises and leaves exactly what LoadSpec says |
| StateMachines.InitializeSpec | src/FGo/StateMachine/StateMachine.php:110-124 | initialize(): <br>• an entity with a state is left alone, with false and no notification; <br>• true exactly when the entity had none and an initial state exists, which it then gets between the two notifications; <br>• otherwise the missing-initial error after onBeforeInitialize |
| StateMachines.InitializeOnlyOnce | src/FGo/StateMachine/StateMachine.php:110-124 | a second initialize() changes nothing and dispatches nothing |
| StateMachines.CanSpec | src/FGo/StateMachine/StateMachine.php:148-152 | can() fails exactly for an unknown trimmed name, fails for an entity without a state, and otherwise answers whether the state's name is an input of the transition |
| StateMachines.ApplySpec | src/FGo/StateMachine/StateMachine.php:157-198 | apply(): <br>• a failure leaves the state; <br>• nothing is dispatched exactly when a check fails before the transition runs; <br>• an entity in a FINAL state gets an error and no notification; <br>• success returns whether the state changed, with 4 notifications on a change and 2 otherwise, framed by the Before/After transition notifications; <br>• on a change the middle two are onBeforeStateChange and onAfterStateChange from the old to the new state; <br>• a state the transition accepts but that is FINAL gives the FINAL-state error |
| StateMachines.Fire | src/FGo/StateMachine/StateMachine.php:176-197 | after the checks: <br>• onBeforeApplyTransition comes first; <br>• a failing transition keeps the state after that one notification; <br>• otherwise the result says whether the state changed, with onBeforeStateChange and onAfterStateChange from the old to the new state only then, and onAfterApplyTransition last |
| StateMachines.ApplyChecks | src/FGo/StateMachine/StateMachine.php:159-169 | the checks before anything is dispatched, each with its own error: the transition unknown under the trimmed name, no state, a state the transition does not accept |
| StateMachines.ApplyFires | src/FGo/StateMachine/StateMachine.php:171-197 | once the checks pass, apply() is Fire on what the transition's own apply() yields |
| StateMachines.ChangeNotifications | src/FGo/StateMachine/StateMachine.php:176-195 | a change of state dispatches onBeforeApplyTransition, onBeforeStateChange, onAfterStateChange and onAfterApplyTransition, in that order |
| StateMachines.CanForetellsApply | src/FGo/StateMachine/StateMachine.php:159-174 | can() false means apply() raises NotApplicable with nothing dispatched; can() true on a non-FINAL state means apply() dispatches onBeforeApplyTransition |
| StateMachines.ApplySucceedsIff | src/FGo/StateMachine/StateMachine.php:157-198 | apply() succeeds exactly when the transition is known, the entity has an accepted non-FINAL state, and the transition has an output state at its condition; the new state is that output |
| StateMachines.FinalStateIsAbsorbing | src/FGo/StateMachine/StateMachine.php:172-174 | an entity in a FINAL state stays there whatever is applied |
| StateMachines.RunConcat | src/FGo/StateMachine/StateMachine.php:157-198 | running two call sequences in turn is running their concatenation |
| StateMachines.ApplyReachesConfiguredStates | src/FGo/StateMachine/StateMachine.php:181-187 | apply() either leaves the state or moves the entity to a configured state |
| StateMachines.RunStaysInConfiguredStates | src/FGo/StateMachine/StateMachine.php:157-198 | after any number of calls the entity is in its starting state or a configured one |
| StateMachines.StatefulObject.constructor | tests/integration/FGo/StateMachine/StateMachineTest.php:125-132 | a new entity has no state |
| StateMachines.StatefulObject.SetState | tests/integration/FGo/StateMachine/StateMachineTest.php:131 | setState() stores the state |
| StateMachines.StateMachine.constructor | src/FGo/StateMachine/StateMachine.php:69-75 | the loader is kept, the lists are empty, nothing is dispatched |
| StateMachines.StateMachine.Dispatch | src/FGo/StateMachine/StateMachine.php:113 | a dispatch appends its notification and keeps the machine valid |
| StateMachines.StateMachine.Configure | src/FGo/StateMachine/StateMachine.php:80-88 | configure() runs the loader's load(), propagates its error keeping the machine's lists, and on success takes over the loader's lists; nothing is dispatched |
| StateMachines.StateMachine.TakeOverLists | src/FGo/StateMachine/StateMachine.php:84-85 | the machine's lists become the loader's, and the machine stays valid |
| StateMachines.StateMachine.GetInitialState | src/FGo/StateMachine/StateMachine.php:97-105 | the loader's initial state, which is INITIAL, or the missing-initial error exactly when there is none |
| StateMachines.StateMachine.Initialize | src/FGo/StateMachine/StateMachine.php:110-124 | the result, the entity's state and the notifications are exactly InitializeSpec's |
| StateMachines.StateMachine.GetTransitionByName | src/FGo/StateMachine/StateMachine.php:135-143 | found exactly when the trimmed name is a key, then the object stored there; otherwise the unknown-transition error with the trimmed name |
| StateMachines.StateMachine.Can | src/FGo/StateMachine/StateMachine.php:148-152 | can() answers exactly CanSpec on the transitions' values |
| StateMachines.StateMachine.ApplyTransitionObject | src/FGo/StateMachine/StateMachine.php:176-181 | onBeforeApplyTransition is dispatched and the transition object yields what Resolve yields |
| StateMachines.StateMachine.Apply | src/FGo/StateMachine/StateMachine.php:157-198 | the result, the entity's state and the notifications are exactly ApplySpec's |
| StateMachines.StateMachine.CheckApplicable | src/FGo/StateMachine/StateMachine.php:159-174 | passes exactly when the transition is known and accepts the entity's state, which is not FINAL, returning the transition object; otherwise its error is the one ApplySpec raises, with nothing dispatched |
| StateMachines.StateMachine.FireTransition | src/FGo/StateMachine/StateMachine.php:176-197 | after the checks, the result, state and notifications are exactly Fire's |
| StateMachines.StateMachine.Complete | src/FGo/StateMachine/StateMachine.php:182-197 | the change of state and the closing notifications are exactly those of Fire |
| Usage.NamesTrimmed | tests/integration/FGo/StateMachine/StateMachineTest.php:72-93 | the four transition names are their own trimmed forms |
| Usage.Accepts | tests/integration/FGo/StateMachine/StateMachineTest.php:72-93 | propose accepts draft; accept accepts proposed; publish accepts accepted; reject accepts proposed and accepted; and nothing else |
| Usage.CanOf | tests/integration/FGo/StateMachine/StateMachineTest.php:99 | can() under a configured name asks that transition |
| Usage.CanAnswers | tests/integration/FGo/StateMachine/StateMachineTest.php:99-116 | what can() answers for each name, by the state's name |
| Usage.ApplyOf | tests/integration/FGo/StateMachine/StateMachineTest.php:104 | apply() on an accepted, non-FINAL state fires the transition |
| Usage.RunOne | tests/integration/FGo/StateMachine/StateMachineTest.php:104 | a single call is one apply() |
| Usage.RunSnoc | tests/integration/FGo/StateMachine/StateMachineTest.php:111 | one more call is one more apply() |
| Usage.InitializesToDraft | tests/integration/FGo/StateMachine/StateMachineTest.php:97 | initialize() returns true and puts a new entity in draft |
| Usage.AtDraft | tests/integration/FGo/StateMachine/StateMachineTest.php:99-104 | in draft only propose can be applied; applying it returns true and moves to proposed |
| Usage.ProposeFires | tests/integration/FGo/StateMachine/StateMachineTest.php:104 | apply('propose') in draft fires propose, which yields proposed |
| Usage.ProposeNotifies | tests/integration/FGo/StateMachine/StateMachineTest.php:104 | proposing dispatches the four notifications in order |
| Usage.AcceptFires | tests/integration/FGo/StateMachine/StateMachineTest.php:111 | apply('accept') in proposed fires accept, which yields accepted |
| Usage.AtProposed | tests/integration/FGo/StateMachine/StateMachineTest.php:106-111 | in proposed accept and reject can be applied; accept returns true and moves to accepted |
| Usage.RejectFires | tests/integration/FGo/StateMachine/StateMachineTest.php:118 | apply('reject') in accepted fires reject, which yields rejected |
| Usage.AtAccepted | tests/integration/FGo/StateMachine/StateMachineTest.php:113-118 | in accepted reject and publish can be applied; reject returns true and moves to rejected |
| Usage.AtRejected | tests/integration/FGo/StateMachine/StateMachineTest.php:118-121 | in rejected can() answers false for all four transitions |
| Usage.Refuses | src/FGo/StateMachine/StateMachine.php:159-169 | apply() of a test transition on a state it does not accept raises NotApplicable with both names and dispatches nothing |
| Usage.NothingAppliesAfterReject | tests/integration/FGo/StateMachine/StateMachineTest.php:118-121 | after reject, publish and reject raise NotApplicable, checked before the FINAL type, and dispatch nothing |
| Usage.DocumentLifecycle | tests/integration/FGo/StateMachine/StateMachineTest.php:104-118 | propose, accept, reject take draft to rejected, which no later call leaves |
| Usage.StatesKeyed | tests/integration/FGo/StateMachine/StateMachineTest.php:65-71 | the five states are valid and keyed by name |
| Usage.WorkflowWired | tests/integration/FGo/StateMachine/StateMachineTest.php:64-95 | the test's configuration is wired as a successful load leaves it |
| Usage.StaysInWorkflowStates | tests/integration/FGo/StateMachine/StateMachineTest.php:96-118 | whatever is applied, the entity is always in one of the five states |

## Left out

- States are values: the source compares the state returned by a transition with the current one by object identity (`!==`), the model by value. Within one ArrayConfigurator configuration each state name denotes one object. The only exception is an INITIAL state shadowed by a later state with the same name, and that one differs in type. So the two comparisons agree as long as the entity's state was taken from the machine's current configuration.
- Reconfiguration and external state changes: configure() may run again and build new State objects, and an entity's public setState() accepts any state. An entity holding an equal state from another configuration then differs by identity but not by value. On a transition from that state to its namesake, the source reports a change and dispatches both change notifications; ApplySpec reports no change and dispatches two notifications.
- Action execution (a method call on an arbitrary service object) is not modelled. apply() takes the integer the action returns as the parameter `outcome`, used only when an action is bound. The cast `(int)` in setCondition() is not modelled; the value is already an integer.
- The event dispatcher is the sequence `events` of dispatched notifications. Each notification records its name, from-state, to-state and transition name, but not the machine or the entity it carries. A dispatcher's listeners cannot act in the model.
- The Symfony OptionsResolver is modelled by its outcome only. A configuration arrives as the `Loading` entry shapes, with 'from' and 'to' already cast to lists and 'default' to a bool. Non-string scalar casts and the resolver's own messages are not modelled. An undefined option in an ArrayLoader entry is modelled only for 'default', which ArrayLoader's resolver does not define. The model assumes the resolver runs the 'type' normalizer before it checks the allowed values, as the `setNormalizers` API of the Symfony OptionsResolver up to version 2.5 does. So a type such as 'final' or ' INITIAL ' is accepted. A resolver that checks allowed values on the raw value (version 2.6 on) would refuse such a type. `Loading.ResolveStateEntry` does not model that order.
- Exception messages are represented by error constructors carrying the names they mention, not by text. The unknown-transition message in getTransitionByName() is built by a malformed `sprintf` call at src/FGo/StateMachine/StateMachine.php:139. It is modelled as `UnknownTransition` with the trimmed name.
- The action descriptor's target key differs between the loaders: 'service' in ArrayConfigurator, 'object' in ArrayLoader. The model has one `target` field for both.
- StateMachine is modelled against ArrayConfigurator. The integration test constructs it with an ArrayLoader, which has no getInitialState() and returns lists rather than name-keyed maps. So that wiring cannot pass `initialize()` and name lookups as written. `Usage` states the scenario with the configurator's name-keyed maps. Loading the test's literal configuration through `Config.LoadSpec` is not proved; `Usage.WorkflowWired` proves instead that the stated maps have the shape a successful load leaves.
- `can()` and `apply()` on an entity without a state raise a PHP TypeError. The model reports it as the error `NoState`.
- Config.Mirrors ties each transition object to its value up to the condition: apply() rewrites a transition's condition, and the next apply() is proved not to depend on it (`Transitions.ResolveIgnoresCondition`).
- Config.ReloadForgetsEarlierLoads: a load that fails on a transition keeps the earlier transition list. So only the outcome, the state list and the initial state are claimed independent of earlier loads, and everything only after a success.

Behaviour the model follows from the code where a plain reading of the design says otherwise:

- 'from' and 'to' must be present but may be empty lists. A transition without output states fails only when applied.
- initialize() dispatches onBeforeInitialize before it finds that there is no initial state.
- ArrayConfigurator keys states by name, so a later state with the same name replaces an earlier one. If the replaced state was INITIAL, it stays recorded as the initial state.
- ArrayLoader accepts any number of INITIAL states and keeps duplicate names, returning the first match.

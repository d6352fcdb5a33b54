# BlockAudio core, modelled in Dafny

BlockAudio is a visual Web Audio editor. The user places nodes on a
canvas: oscillators, gains, filters, delays, panners, compressors,
analysers and the one speaker output. They wire the nodes together and
press play. This project models the core of the editor and proves
properties of that model:

- **The vocabulary** (`audio_types.dfy`, module `AudioTypes`): the eight
  node types and their string tags, ports, parameter definitions and
  values, graph nodes, connections and the application state.
- **The node registry** (`node_registry.dfy`, module `NodeRegistry`):
  - the per-type schema of ports and parameters, with their ranges,
    options and defaults;
  - the palette, which is every type except the destination;
  - `getDefaultParams`, which is a `method` with the source's loop.
- **The graph state** (`graph_state.dfy`, module `GraphState`):
  - the module-level id counter, a class `IdCounter` shared by node and
    connection ids;
  - every state transition of the hook, as a pure function;
  - the invariant `Consistent` and a lemma per transition that keeps it;
  - the hook itself, a class `GraphModel` whose methods update `state`.
- **The code serializer** (`code_generator.dfy`, module `CodeGenerator`):
  - variable naming: the type tag plus a per-type counter, and
    `ctx.destination` for the sink;
  - the creation block of each node, the `connect` lines and the
    `start()` lines, as a list of statements;
  - methods with the source's four loops, each proved against its
    specification function.
- **The audio engine** (`audio_engine.dfy`, module `AudioEngine`):
  - `buildGraph`, `stopGraph`, `updateParam`, `getAnalyserNode` and
    `createAudioNode`, over an arena of abstract Web Audio primitives;
  - each primitive is a kind tag, its control values, the handles it
    outputs to and its playback state;
  - handle 0 is the context's shared destination;
  - the class `Engine` holds the two maps the hook keeps in refs, node id
    to primitive and node id to oscillator.
- **The presets** (`presets.dfy`, module `Presets`):
  - the seven built-in example graphs, written out;
  - a proof that each is well formed: consistent ids and endpoints, one
    destination, declared ports and declared parameters.
- **Helpers**: `decimal.dfy` renders numbers as decimal text, for ids
  like `node_7` and names like `gain2`; `collections.dfy` holds `filter`
  and its lemmas; `wrappers.dfy` holds `Option`.

Two facts the model brings out about the source:

- Every preset's first connection is called `conn_1`. Loading a preset
  does not advance the id counter. So on a freshly opened page, the first
  connection drawn after loading a preset gets the id `conn_1` again, and
  removing either connection removes both (`Presets.PresetConnectionIdClash`).
  Preset node ids are named after their type (`osc_1`) and never clash
  with generated ids (`Presets.PresetNodeIdsNotGenerated`).
- `buildGraph` records nodes and oscillators per node id. If two nodes
  shared an id, the later one would overwrite the earlier one's entry in
  the node map. So the placement lemma (`AudioEngine.MaterializedPlacesEachNode`)
  needs unique node ids. The engine's own invariant (`Engine.Valid`) and
  `buildGraph`'s contract hold without them. The editor's transitions do
  not create duplicate node ids: `addNode` always draws an id never issued
  before (`GraphState.IdCounter.GenerateId`), and preset node ids are never
  generated ids (`Presets.PresetNodeIdsNotGenerated`). The model does not
  carry unique ids as an invariant of `GraphState.GraphModel`, whose
  `loadPreset` accepts any graph.

## Model

| member | source | states |
|---|---|---|
| AudioTypes.ParseNodeType | src/types/audio.ts:2-12 | a string parses to a node type only if it is that type's tag |
| AudioTypes.NodeTypesClosed | src/types/audio.ts:2-12 | there are exactly eight distinct node types, and every type's tag parses back to it |
| Decimal.NatToString | src/hooks/useGraphState.ts:12-18 | the decimal text of a counter value is non-empty, all digits, without a leading zero |
| Decimal.DigitsValueOfNatToString | src/hooks/useGraphState.ts:12-18 | reading the rendered digits back gives the number |
| Decimal.NatToStringInjective | src/hooks/useGraphState.ts:12-18 | distinct counter values render to distinct texts |
| NodeRegistry.Registry | src/utils/nodeRegistry.ts:27-277 | the entry stored under a type carries that type in its own type field |
| NodeRegistry.ParamKeysListed | src/utils/nodeRegistry.ts:27-277 | each type's parameter keys are exactly the listed ones (e.g. oscillator: type, frequency, detune; destination: none) |
| NodeRegistry.RegistryPorts | src/utils/nodeRegistry.ts:27-277 | the destination has only an input port, the oscillator only an output port, every other type one input and one output; the destination has no parameters |
| NodeRegistry.RegistrySchemasWellFormed | src/utils/nodeRegistry.ts:27-277 | within a type, parameter keys are unique; every range default lies within its bounds and every select default is one of its options |
| NodeRegistry.KeysOfMembership | src/utils/nodeRegistry.ts:285-294 | a key is in the key set exactly when some declared parameter has it |
| NodeRegistry.KeysOfAppend | src/utils/nodeRegistry.ts:285-294 | one more parameter adds exactly its key |
| NodeRegistry.MetasOf | src/utils/nodeRegistry.ts:280-282 | the registry entries of a list of types, in the list's order |
| NodeRegistry.FilterMetas | src/utils/nodeRegistry.ts:280-282 | filtering entries by "not the destination" is filtering the types and then looking them up |
| NodeRegistry.FilterTypes | src/utils/nodeRegistry.ts:280-282 | the registry's type order with the destination removed is the seven other types in that order |
| NodeRegistry.MetasOfFiltered | src/utils/nodeRegistry.ts:280-282 | filtering the entries of any list of types keeps the entries of exactly the types kept |
| NodeRegistry.MetasOfMember | src/utils/nodeRegistry.ts:280-282 | for any listed type, its entry survives the palette filter exactly when it is not the destination |
| NodeRegistry.PaletteInOrder | src/utils/nodeRegistry.ts:280-282 | the palette is the entries of the seven non-destination types in registry order |
| NodeRegistry.PaletteIsEveryTypeButDestination | src/utils/nodeRegistry.ts:280-282 | a type's entry is on the palette if and only if the type is not the destination |
| NodeRegistry.DefaultsOfExact | src/utils/nodeRegistry.ts:285-294 | with unique keys, the default map has exactly the declared keys and maps each to its declared default |
| NodeRegistry.DefaultParamsExact | src/utils/nodeRegistry.ts:285-294 | a type's default parameters have exactly its keys, each with its declared default |
| NodeRegistry.DefaultParamsListed | src/utils/nodeRegistry.ts:27-294 | each type's default parameters are the literal map (e.g. oscillator: type "sine", frequency 440, detune 0; analyser: fftSize "2048") |
| NodeRegistry.GetDefaultParams | src/utils/nodeRegistry.ts:285-294 | the loop yields the default map: exactly the type's keys, each with its declared default |
| GraphState.GeneratedIdsDistinct | src/hooks/useGraphState.ts:11-18 | a node id is never a connection id, and distinct counter values give distinct ids of each kind |
| GraphState.IdCounter.constructor | src/hooks/useGraphState.ts:11 | the counter starts at 1 with nothing issued |
| GraphState.IdCounter.GenerateId | src/hooks/useGraphState.ts:12-14 | returns `node_<next>`, advances the counter by one, and the id was never issued before |
| GraphState.IdCounter.GenerateConnectionId | src/hooks/useGraphState.ts:16-18 | returns `conn_<next>` from the same counter, advances it, and the id was never issued before |
| GraphState.InitialStateConsistent | src/hooks/useGraphState.ts:20-34 | the initial state is consistent |
| GraphState.NodeAdded | src/hooks/useGraphState.ts:44-60 | appends one node with the given id, type and position and the type's defaults; nothing else changes |
| GraphState.AddedNodeHasDefaults | src/hooks/useGraphState.ts:44-60 | the new node's parameters have exactly the type's keys, each at its declared default |
| GraphState.NodeAddedConsistent | src/hooks/useGraphState.ts:44-60 | adding a node under a fresh id keeps the state consistent |
| GraphState.NodeRemoved | src/hooks/useGraphState.ts:63-73 | the node is gone, no connection touches it, a selection of it is cleared and any other selection kept |
| GraphState.NodeRemovedKeepsTheRest | src/hooks/useGraphState.ts:63-73 | exactly the other nodes and the untouched connections remain, in their order |
| GraphState.NodeRemovedAbsent | src/hooks/useGraphState.ts:63-73 | removing an id that no node has and no connection or selection refers to changes nothing |
| GraphState.SubsequenceKeepsUniqueNodeIds | src/hooks/useGraphState.ts:63-73 | dropping nodes keeps node ids unique |
| GraphState.SubsequenceKeepsUniqueConnections | src/hooks/useGraphState.ts:63-73 | dropping connections keeps ids and links unique |
| GraphState.NodeRemovedConsistent | src/hooks/useGraphState.ts:63-73 | removing a node keeps the state consistent, with no dangling connection |
| GraphState.NodeMoved | src/hooks/useGraphState.ts:76-83 | only the matching nodes' positions change |
| GraphState.ParamUpdated | src/hooks/useGraphState.ts:122-134 | only the matching nodes' parameter maps change, by setting that one key |
| GraphState.SameIdsConsistent | src/hooks/useGraphState.ts:76-134 | an edit that keeps every node id and the connections keeps the state consistent |
| GraphState.EditsConsistent | src/hooks/useGraphState.ts:76-134 | moving a node and updating a parameter keep the state consistent |
| GraphState.LinkCount | src/hooks/useGraphState.ts:86-111 | a link is counted if and only if some connection has those endpoints |
| GraphState.LinkCountAppend | src/hooks/useGraphState.ts:86-111 | appending a connection adds one to its link's count and nothing to the others |
| GraphState.ConnectionAdded | src/hooks/useGraphState.ts:86-111 | an existing link leaves the state unchanged; otherwise exactly one connection is appended |
| GraphState.ConnectionAddedIdempotent | src/hooks/useGraphState.ts:86-111 | adding the same link twice is adding it once, in every state |
| GraphState.ConnectionAddedLinksOnce | src/hooks/useGraphState.ts:86-111 | after adding a link that occurred at most once, it occurs exactly once |
| GraphState.ConnectionAddedConsistent | src/hooks/useGraphState.ts:86-111 | connecting existing nodes under a fresh id keeps the state consistent |
| GraphState.ConnectionRemoved | src/hooks/useGraphState.ts:114-119 | no connection with that id remains, and nodes, selection and view are unchanged |
| GraphState.ConnectionRemovedExactly | src/hooks/useGraphState.ts:114-119 | exactly the other connections remain, in order; an absent id changes nothing; consistency is kept |
| GraphState.ClampZoom | src/hooks/useGraphState.ts:152-154 | the zoom is clamped to [0.25, 2]: within bounds it is kept, and below or above it becomes the nearer bound |
| GraphState.PresetLoaded | src/hooks/useGraphState.ts:157-165 | nodes and connections are replaced, playing stops, the selection is cleared, and offset and zoom are kept |
| GraphState.SettersConsistent | src/hooks/useGraphState.ts:137-165 | the zoom, playing, offset and selection setters and loading a consistent graph keep the state consistent |
| GraphState.GraphModel.constructor | src/hooks/useGraphState.ts:41 | the hook starts from the initial state |
| GraphState.GraphModel.AddNode | src/hooks/useGraphState.ts:44-60 | draws a fresh `node_<n>` id and applies NodeAdded |
| GraphState.GraphModel.RemoveNode | src/hooks/useGraphState.ts:63-73 | applies NodeRemoved |
| GraphState.GraphModel.MoveNode | src/hooks/useGraphState.ts:76-83 | applies NodeMoved |
| GraphState.GraphModel.AddConnection | src/hooks/useGraphState.ts:86-111 | an existing link changes nothing and leaves the counter alone; otherwise a fresh `conn_<n>` id is drawn and ConnectionAdded applied |
| GraphState.GraphModel.RemoveConnection | src/hooks/useGraphState.ts:114-119 | applies ConnectionRemoved |
| GraphState.GraphModel.UpdateParam | src/hooks/useGraphState.ts:122-134 | applies ParamUpdated |
| GraphState.GraphModel.SetPlaying | src/hooks/useGraphState.ts:137-139 | sets only the playing flag |
| GraphState.GraphModel.SelectNode | src/hooks/useGraphState.ts:142-144 | sets only the selection |
| GraphState.GraphModel.SetCanvasOffset | src/hooks/useGraphState.ts:147-149 | sets only the offset |
| GraphState.GraphModel.SetZoom | src/hooks/useGraphState.ts:152-154 | sets only the zoom, clamped into its bounds |
| GraphState.GraphModel.LoadPreset | src/hooks/useGraphState.ts:157-165 | applies PresetLoaded and leaves the counter alone |
| CodeGenerator.GeneratedCode | src/utils/codeGenerator.ts:6-123 | an empty graph gives only the placeholder comment; otherwise the program opens with the context line and a blank line |
| CodeGenerator.AssignNames | src/utils/codeGenerator.ts:17-26 | the naming loop yields the name map VarNames |
| CodeGenerator.EmitBlocks | src/utils/codeGenerator.ts:32-99 | the creation loop yields each non-sink node's block, in node order |
| CodeGenerator.EmitConnections | src/utils/codeGenerator.ts:102-111 | the connection loop yields one connect line per connection whose two ends are named, in order (the blank line after a non-empty connection list is added by GenerateCode) |
| CodeGenerator.EmitStarts | src/utils/codeGenerator.ts:114-120 | the start loop yields one start line per named oscillator |
| CodeGenerator.GenerateCode | src/utils/codeGenerator.ts:6-123 | the whole serializer yields GeneratedCode |
| CodeGenerator.TypeNameLetters | src/utils/codeGenerator.ts:22-25 | every type tag is non-empty and all letters |
| CodeGenerator.SuffixDigits | src/utils/codeGenerator.ts:24 | the suffix is empty or all digits |
| CodeGenerator.LettersThenDigits | src/utils/codeGenerator.ts:25 | letters followed by digits split uniquely |
| CodeGenerator.LettersThenDigitsIsNotSink | src/utils/codeGenerator.ts:19-25 | a letters-then-digits name is never `ctx.destination` |
| CodeGenerator.VarNameInjective | src/utils/codeGenerator.ts:22-25 | two counted names are equal only for the same type and count |
| CodeGenerator.VarNameIsNotSink | src/utils/codeGenerator.ts:19-25 | no counted name is the sink's name |
| CodeGenerator.CountOfTypeMonotone | src/utils/codeGenerator.ts:23 | the per-type counter never decreases along the node list |
| CodeGenerator.CountOfTypeStep | src/utils/codeGenerator.ts:23 | a node of a type raises that type's counter by exactly one |
| CodeGenerator.VarNamesKeys | src/utils/codeGenerator.ts:17-26 | every node id gets a name, and nothing else does |
| CodeGenerator.VarNameAt | src/utils/codeGenerator.ts:17-26 | under unique ids, the sink is named `ctx.destination` and the k-th node of a type gets the tag, suffixed with k when k > 1 |
| CodeGenerator.CountedNamesDistinct | src/utils/codeGenerator.ts:17-26 | two non-sink nodes at different positions get different counted names |
| CodeGenerator.VarNamesDistinct | src/utils/codeGenerator.ts:17-26 | under unique ids, two nodes share a name if and only if both are destinations |
| CodeGenerator.ConnectLinesSkipUnresolvable | src/utils/codeGenerator.ts:102-111 | the connect lines are exactly those of the connections whose two ends are named, in order |
| CodeGenerator.EveryConnectionEmitted | src/utils/codeGenerator.ts:102-111 | in a graph without dangling endpoints every connection gets its connect line |
| CodeGenerator.OscillatorCount | src/utils/codeGenerator.ts:114 | the oscillator filter keeps as many nodes as the oscillator counter counts |
| CodeGenerator.StartLinesAll | src/utils/codeGenerator.ts:114-120 | when every oscillator is named, the k-th start line starts the k-th oscillator |
| CodeGenerator.EveryOscillatorStarted | src/utils/codeGenerator.ts:114-120 | every oscillator of the graph is started, once, in node order, under its own name |
| CodeGenerator.SettingsFollowRegistry | src/utils/codeGenerator.ts:32-99 | each block sets the registry's parameters of the type, in registry order, with the registry defaults as fallbacks (the analyser's 2048 equals its default "2048" as rendered text); the oscillator's detune is the conditional one |
| CodeGenerator.BlockShape | src/utils/codeGenerator.ts:32-99 | a block is the factory call, then one configure line per registry parameter of the type, in order, on that name only; an oscillator's detune line is left out when the value is absent, zero or falsy |
| CodeGenerator.BlockValues | src/utils/codeGenerator.ts:32-99 | each configured value is the node's own value when present and the registry default otherwise |
| CodeGenerator.OscillatorIntoSinkNames | src/utils/codeGenerator.ts:17-99 | for one default oscillator into the sink: the names are `oscillator` and `ctx.destination`, and the block creates the oscillator and sets type sine and frequency 440, without a detune line |
| CodeGenerator.OscillatorIntoSink | src/utils/codeGenerator.ts:6-123 | the whole program for one oscillator wired into the sink, line by line |
| AudioEngine.Apply | src/hooks/useAudioEngine.ts:28-43 | applying an effect to a set of handles keeps the arena's size |
| AudioEngine.FftSize | src/hooks/useAudioEngine.ts:201-204 | the analyser's FFT size is the numeric value when it is non-zero, and 2048 otherwise; it is never 0 |
| AudioEngine.Materialized | src/hooks/useAudioEngine.ts:46-54 | creation only appends primitives; every recorded handle is in the arena, and oscillator handles point to fresh oscillators |
| AudioEngine.WireAll | src/hooks/useAudioEngine.ts:57-67 | wiring keeps the arena's size; a connect from the destination or into an oscillator adds no edge |
| AudioEngine.ApplyEach | src/hooks/useAudioEngine.ts:28-43 | the loop over a map's values applies the effect to exactly those handles |
| AudioEngine.Engine.constructor | src/hooks/useAudioEngine.ts:9-12 | the arena holds only the context's destination, and both maps are empty |
| AudioEngine.Engine.StopTracked | src/hooks/useAudioEngine.ts:28-34 | stops exactly the tracked oscillators |
| AudioEngine.Engine.DisconnectTracked | src/hooks/useAudioEngine.ts:35-41 | disconnects exactly the tracked nodes |
| AudioEngine.Engine.TearDown | src/hooks/useAudioEngine.ts:27-43 | stops, disconnects and clears both maps |
| AudioEngine.Engine.CreateAll | src/hooks/useAudioEngine.ts:45-54 | the creation loop yields Materialized, and nothing is playing or wired yet |
| AudioEngine.Engine.WireConnections | src/hooks/useAudioEngine.ts:56-67 | the connection loop yields WireAll over the node map |
| AudioEngine.Engine.StartOscillators | src/hooks/useAudioEngine.ts:69-72 | starts every tracked oscillator, and only those |
| AudioEngine.Engine.BuildGraph | src/hooks/useAudioEngine.ts:23-75 | tear down, create, wire, start; afterwards exactly the tracked oscillators are running |
| AudioEngine.Engine.StopGraph | src/hooks/useAudioEngine.ts:78-95 | the teardown alone; afterwards both maps are empty and nothing is running or wired |
| AudioEngine.Engine.UpdateParam | src/hooks/useAudioEngine.ts:98-150 | changes at most the one control of the named node's primitive, and only when its kind accepts the key |
| AudioEngine.Engine.GetAnalyserNode | src/hooks/useAudioEngine.ts:153-158 | returns the handle if and only if the id is tracked and its primitive is an analyser |
| AudioEngine.ApplyStep | src/hooks/useAudioEngine.ts:28-43 | one more handle changes exactly that entry |
| AudioEngine.ApplyAt | src/hooks/useAudioEngine.ts:28-43 | an entry changes exactly when its handle is in the set |
| AudioEngine.ApplyKeepsKinds | src/hooks/useAudioEngine.ts:28-43 | a kind-preserving effect keeps every primitive's kind |
| AudioEngine.WireAllKeepsKindAndPlayback | src/hooks/useAudioEngine.ts:57-67 | wiring changes neither kinds nor controls nor playback |
| AudioEngine.WireAllOutputsTracked | src/hooks/useAudioEngine.ts:57-67 | only tracked primitives gain outputs |
| AudioEngine.FreshOscillatorsUnstarted | src/hooks/useAudioEngine.ts:46-72 | after creation and wiring, every tracked oscillator is unstarted, so starting each once is valid |
| AudioEngine.FreshPrimitivesUnstarted | src/hooks/useAudioEngine.ts:46-54 | every newly created primitive is unstarted and unwired |
| AudioEngine.ControlsOfOverlay | src/hooks/useAudioEngine.ts:186-231 | each control is the node's value when present and the fallback otherwise, over exactly the fallback keys |
| AudioEngine.FallbacksAreDefaults | src/hooks/useAudioEngine.ts:186-231 | for every type but the analyser, the creation fallbacks are the registry defaults |
| AudioEngine.AnalyserFallbackIsDefault | src/hooks/useAudioEngine.ts:201-204 | the analyser's fallback, 2048, is its registry default read as a number |
| AudioEngine.ConstructFollowsRegistry | src/hooks/useAudioEngine.ts:179-235 | the destination maps to the shared sink; every other type to a fresh primitive of its kind, whose controls are the node's values over the registry defaults |
| AudioEngine.WhitelistIsRegistryKeys | src/hooks/useAudioEngine.ts:98-150 | the keys updateParam honours for a kind are exactly that type's registry keys |
| AudioEngine.RetuneTouchesOneControl | src/hooks/useAudioEngine.ts:98-150 | an update changes only the one control, never kind, playback or wiring; a key the kind does not accept changes nothing |
| AudioEngine.TornDownSilent | src/hooks/useAudioEngine.ts:27-43 | when every running primitive is tracked, teardown leaves nothing running or wired |
| AudioEngine.TornDownAt | src/hooks/useAudioEngine.ts:27-43 | each entry is stopped if tracked as an oscillator and disconnected if tracked as a node |
| AudioEngine.TornDownIdempotent | src/hooks/useAudioEngine.ts:78-95 | tearing down twice over the same maps is tearing down once |
| AudioEngine.TornDownUntracked | src/hooks/useAudioEngine.ts:78-95 | a teardown over the emptied maps, as a second stopGraph runs, changes nothing |
| AudioEngine.MaterializedSilent | src/hooks/useAudioEngine.ts:46-54 | creation from a silent arena leaves it silent |
| AudioEngine.MaterializedTracksEveryNode | src/hooks/useAudioEngine.ts:46-54 | every node id is tracked, and oscillators are a subset of the tracked ids |
| AudioEngine.MaterializedPlacesEachNode | src/hooks/useAudioEngine.ts:46-54 | under unique ids each node is tracked at a primitive of its own kind, made from its own parameters |
| AudioEngine.PlacedStaysPlaced | src/hooks/useAudioEngine.ts:46-54 | creating a node with another id keeps earlier placements |
| AudioEngine.PlacedAfterSink | src/hooks/useAudioEngine.ts:46-54 | recording the sink under another id keeps a placement |
| AudioEngine.PlacedAfterFresh | src/hooks/useAudioEngine.ts:46-54 | appending a fresh primitive under another id keeps a placement |
| AudioEngine.PlacesLast | src/hooks/useAudioEngine.ts:46-54 | the last node is placed when its id is unique |
| AudioEngine.TargetsOf | src/hooks/useAudioEngine.ts:57-67 | one target handle per resolvable connection |
| AudioEngine.LeavingResolvable | src/hooks/useAudioEngine.ts:57-67 | the connections that add an edge out of a handle resolve at both ends |
| AudioEngine.WireAllOutputs | src/hooks/useAudioEngine.ts:57-67 | the destination gains no edge; any other primitive's outputs after wiring are its old outputs plus, in order, the targets of the connections leaving it whose two ends are tracked and whose target is not an oscillator |
| AudioEngine.WireAllNeverIntoOscillator | src/hooks/useAudioEngine.ts:57-67 | every edge the wiring adds starts at a primitive other than the destination and leads to a primitive of the arena that is not an oscillator |
| AudioEngine.TargetsOfAppend | src/hooks/useAudioEngine.ts:57-67 | the targets of two runs of connections are the targets of each, concatenated |
| Presets.DeclaredPortsByName | src/utils/nodeRegistry.ts:27-277 | an output named "output" exists on every type but the destination, and an input named "input" on every type but the oscillator, and no other ports |
| Presets.PortsFound | src/utils/presets.ts:11-398 | with unique node ids, located endpoints on "output" and "input" ports are declared ports |
| Presets.HelloSoundWellFormed | src/utils/presets.ts:12-38 | the preset is consistent, has one destination, and uses only declared ports and parameters |
| Presets.VolumeControlWellFormed | src/utils/presets.ts:39-76 | the same, for this preset |
| Presets.SeeWaveformWellFormed | src/utils/presets.ts:77-125 | the same, for this preset |
| Presets.FilterToneWellFormed | src/utils/presets.ts:126-174 | the same, for this preset |
| Presets.EchoFeedbackWellFormed | src/utils/presets.ts:175-255 | the same, for this preset |
| Presets.AdditiveSynthWellFormed | src/utils/presets.ts:256-348 | the same, for this preset |
| Presets.StereoPanningWellFormed | src/utils/presets.ts:349-397 | the same, for this preset |
| Presets.AllPresetsWellFormed | src/utils/presets.ts:11-398 | every preset on the menu is well formed |
| Presets.PresetIdsDistinct | src/utils/presets.ts:11-398 | the presets' ids are pairwise distinct |
| Presets.WellFormedFlowsForward | src/utils/presets.ts:11-398 | in a well-formed preset, connections leave a non-destination's "output" and enter a non-oscillator's "input" |
| Presets.EchoFeedbackLoops | src/utils/presets.ts:229-238 | the echo preset has the cycle `delay_1` → `gain_fb` → `delay_1` |
| Presets.NotGenerated | src/hooks/useGraphState.ts:12-18 | ids starting with neither 'n' nor 'c' are never generated ids |
| Presets.PresetNamedByType | src/utils/presets.ts:11-398 | every preset's node ids start with neither 'n' nor 'c' |
| Presets.LoadingPresetKeepsConsistent | src/hooks/useGraphState.ts:157-165 | loading any menu preset into a consistent state keeps it consistent |
| Presets.PresetNodeIdsNotGenerated | src/utils/presets.ts:11-398 | no preset node id equals a generated node or connection id |
| Presets.PresetConnectionIdClash | src/utils/presets.ts:33 | every preset's first connection is `conn_1`, the counter's first id; a new connection under it breaks id uniqueness, and removing it removes the preset's connection too |

## Left out

- Rendering the statement list to text and joining it with newlines (codeGenerator.ts:122). The serializer's output is modelled as a list of statements, not characters.
- Creating and resuming the AudioContext (`getContext`, `resume`). The context is the arena's handle 0.
- Signal processing, scheduling and floating-point behaviour of the Web Audio API. Numbers are `real`, and primitives are state records.
- `instanceof` checks are modelled as kind tags.
- Iteration over the hook's maps is modelled over the set of their values. Teardown and start affect each handle once, so their order does not matter to the model.
- AudioEngine.ToNumber: models JavaScript's `Number()` only for numbers, the empty string and strings of decimal digits. Other strings yield no value, so the analyser falls back to 2048 where JavaScript would read a value. Such strings include a decimal point or an exponent ("2048.0", "2e3"), a leading sign ("-2048", "+512"), surrounding whitespace (" 2048 "), hex, octal or binary literals ("0x800"), and "Infinity".
- Web Audio setter exceptions (an `fftSize` that is not a power of two, an out-of-range value) and the WebIDL conversion of an enumerated type are not modelled. The assignment is taken as is.
- AudioEngine.WireAll: records one edge per successful connect call, so a repeated connection between the same two primitives appears twice in `outputs`. Web Audio ignores the repeat. Repeated edges are not merged.
- Failing `connect` calls are caught and ignored in the source. The model treats two of them as failing, each as a no-op: a connect from the destination, which has no output, and a connect into an oscillator, which has no input. Other reasons a connect can throw, such as a node from another context, cannot arise in the model.
- React machinery (`useState`, `useCallback`, refs, re-renders) and the UI components. The hooks become classes whose methods take effect at once.
- Labels, colours, descriptions and categories of registry entries; names and descriptions of presets; display labels of ports and options.

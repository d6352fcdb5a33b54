/** The seven tutorial graphs (src/utils/presets.ts) the editor can load,
    and the integrity the graph state assumes of them. Each preset's name
    and description are presentation and are left out. */
module Presets {
  import opened AudioTypes
  import opened Collections
  import opened NodeRegistry
  import opened GraphState

  datatype Preset = Preset(id: string, nodes: seq<GraphNode>, connections: seq<Connection>)

  // ---------------------------------------------------------------------
  // The presets, as written (nodes and connections kept as separate
  // constants so that each fact about one of them is checked on it alone)
  // ---------------------------------------------------------------------

  const HelloSoundNodes: seq<GraphNode> := [
      GraphNode("osc_1", Oscillator, Position(100.0, 200.0),
        map["type" := Str("sine"), "frequency" := Num(440.0), "detune" := Num(0.0)]),
      GraphNode("destination_0", Destination, Position(500.0, 200.0), map[])
    ]

  const HelloSoundConnections: seq<Connection> := [
      Connection("conn_1", Endpoint("osc_1", "output"), Endpoint("destination_0", "input"))
    ]

  const HelloSound: Preset := Preset("hello-sound", HelloSoundNodes, HelloSoundConnections)

  const VolumeControlNodes: seq<GraphNode> := [
      GraphNode("osc_1", Oscillator, Position(80.0, 200.0),
        map["type" := Str("sine"), "frequency" := Num(440.0), "detune" := Num(0.0)]),
      GraphNode("gain_1", Gain, Position(340.0, 200.0), map["gain" := Num(0.3)]),
      GraphNode("destination_0", Destination, Position(600.0, 200.0), map[])
    ]

  const VolumeControlConnections: seq<Connection> := [
      Connection("conn_1", Endpoint("osc_1", "output"), Endpoint("gain_1", "input")),
      Connection("conn_2", Endpoint("gain_1", "output"), Endpoint("destination_0", "input"))
    ]

  const VolumeControl: Preset := Preset("volume-control", VolumeControlNodes, VolumeControlConnections)

  const SeeWaveformNodes: seq<GraphNode> := [
      GraphNode("osc_1", Oscillator, Position(60.0, 200.0),
        map["type" := Str("sawtooth"), "frequency" := Num(220.0), "detune" := Num(0.0)]),
      GraphNode("gain_1", Gain, Position(280.0, 200.0), map["gain" := Num(0.3)]),
      GraphNode("analyser_1", Analyser, Position(500.0, 120.0), map["fftSize" := Str("2048")]),
      GraphNode("destination_0", Destination, Position(500.0, 320.0), map[])
    ]

  const SeeWaveformConnections: seq<Connection> := [
      Connection("conn_1", Endpoint("osc_1", "output"), Endpoint("gain_1", "input")),
      Connection("conn_2", Endpoint("gain_1", "output"), Endpoint("analyser_1", "input")),
      Connection("conn_3", Endpoint("gain_1", "output"), Endpoint("destination_0", "input"))
    ]

  const SeeWaveform: Preset := Preset("see-waveform", SeeWaveformNodes, SeeWaveformConnections)

  const FilterToneNodes: seq<GraphNode> := [
      GraphNode("osc_1", Oscillator, Position(60.0, 200.0),
        map["type" := Str("sawtooth"), "frequency" := Num(220.0), "detune" := Num(0.0)]),
      GraphNode("filter_1", BiquadFilter, Position(280.0, 200.0),
        map["type" := Str("lowpass"), "frequency" := Num(800.0), "Q" := Num(5.0)]),
      GraphNode("gain_1", Gain, Position(500.0, 200.0), map["gain" := Num(0.3)]),
      GraphNode("destination_0", Destination, Position(720.0, 200.0), map[])
    ]

  const FilterToneConnections: seq<Connection> := [
      Connection("conn_1", Endpoint("osc_1", "output"), Endpoint("filter_1", "input")),
      Connection("conn_2", Endpoint("filter_1", "output"), Endpoint("gain_1", "input")),
      Connection("conn_3", Endpoint("gain_1", "output"), Endpoint("destination_0", "input"))
    ]

  const FilterTone: Preset := Preset("filter-tone", FilterToneNodes, FilterToneConnections)

  const EchoFeedbackNodes: seq<GraphNode> := [
      GraphNode("osc_1", Oscillator, Position(60.0, 180.0),
        map["type" := Str("sine"), "frequency" := Num(440.0), "detune" := Num(0.0)]),
      GraphNode("gain_dry", Gain, Position(280.0, 120.0), map["gain" := Num(0.4)]),
      GraphNode("delay_1", Delay, Position(280.0, 280.0), map["delayTime" := Num(0.3)]),
      GraphNode("gain_fb", Gain, Position(500.0, 280.0), map["gain" := Num(0.4)]),
      GraphNode("gain_master", Gain, Position(560.0, 120.0), map["gain" := Num(0.5)]),
      GraphNode("destination_0", Destination, Position(780.0, 180.0), map[])
    ]

  const EchoFeedbackConnections: seq<Connection> := [
      Connection("conn_1", Endpoint("osc_1", "output"), Endpoint("gain_dry", "input")),
      Connection("conn_2", Endpoint("osc_1", "output"), Endpoint("delay_1", "input")),
      Connection("conn_3", Endpoint("delay_1", "output"), Endpoint("gain_fb", "input")),
      Connection("conn_4", Endpoint("gain_fb", "output"), Endpoint("delay_1", "input")),
      Connection("conn_5", Endpoint("gain_fb", "output"), Endpoint("gain_master", "input")),
      Connection("conn_6", Endpoint("gain_dry", "output"), Endpoint("gain_master", "input")),
      Connection("conn_7", Endpoint("gain_master", "output"), Endpoint("destination_0", "input"))
    ]

  const EchoFeedback: Preset := Preset("echo-feedback", EchoFeedbackNodes, EchoFeedbackConnections)

  const AdditiveSynthNodes: seq<GraphNode> := [
      GraphNode("osc_1", Oscillator, Position(60.0, 80.0),
        map["type" := Str("sine"), "frequency" := Num(220.0), "detune" := Num(0.0)]),
      GraphNode("osc_2", Oscillator, Position(60.0, 220.0),
        map["type" := Str("sine"), "frequency" := Num(440.0), "detune" := Num(0.0)]),
      GraphNode("osc_3", Oscillator, Position(60.0, 360.0),
        map["type" := Str("sine"), "frequency" := Num(660.0), "detune" := Num(0.0)]),
      GraphNode("gain_1", Gain, Position(300.0, 80.0), map["gain" := Num(0.3)]),
      GraphNode("gain_2", Gain, Position(300.0, 220.0), map["gain" := Num(0.15)]),
      GraphNode("gain_3", Gain, Position(300.0, 360.0), map["gain" := Num(0.1)]),
      GraphNode("gain_master", Gain, Position(540.0, 220.0), map["gain" := Num(0.5)]),
      GraphNode("destination_0", Destination, Position(760.0, 220.0), map[])
    ]

  const AdditiveSynthConnections: seq<Connection> := [
      Connection("conn_1", Endpoint("osc_1", "output"), Endpoint("gain_1", "input")),
      Connection("conn_2", Endpoint("osc_2", "output"), Endpoint("gain_2", "input")),
      Connection("conn_3", Endpoint("osc_3", "output"), Endpoint("gain_3", "input")),
      Connection("conn_4", Endpoint("gain_1", "output"), Endpoint("gain_master", "input")),
      Connection("conn_5", Endpoint("gain_2", "output"), Endpoint("gain_master", "input")),
      Connection("conn_6", Endpoint("gain_3", "output"), Endpoint("gain_master", "input")),
      Connection("conn_7", Endpoint("gain_master", "output"), Endpoint("destination_0", "input"))
    ]

  const AdditiveSynth: Preset := Preset("additive-synth", AdditiveSynthNodes, AdditiveSynthConnections)

  const StereoPanningNodes: seq<GraphNode> := [
      GraphNode("osc_1", Oscillator, Position(60.0, 200.0),
        map["type" := Str("square"), "frequency" := Num(330.0), "detune" := Num(0.0)]),
      GraphNode("gain_1", Gain, Position(280.0, 200.0), map["gain" := Num(0.2)]),
      GraphNode("panner_1", StereoPanner, Position(500.0, 200.0), map["pan" := Num(-0.7)]),
      GraphNode("destination_0", Destination, Position(720.0, 200.0), map[])
    ]

  const StereoPanningConnections: seq<Connection> := [
      Connection("conn_1", Endpoint("osc_1", "output"), Endpoint("gain_1", "input")),
      Connection("conn_2", Endpoint("gain_1", "output"), Endpoint("panner_1", "input")),
      Connection("conn_3", Endpoint("panner_1", "output"), Endpoint("destination_0", "input"))
    ]

  const StereoPanning: Preset := Preset("stereo-panning", StereoPanningNodes, StereoPanningConnections)

  /** PRESETS, in menu order. */
  const AllPresets: seq<Preset> :=
    [HelloSound, VolumeControl, SeeWaveform, FilterTone, EchoFeedback, AdditiveSynth, StereoPanning]

  // ---------------------------------------------------------------------
  // What a preset must be
  // ---------------------------------------------------------------------

  /** Exactly one node is a destination: the shared one, `destination_0`,
      with no parameters. */
  predicate OneDestination(ns: seq<GraphNode>) {
    exists i :: 0 <= i < |ns| && ns[i].nodeType == Destination && ns[i].id == "destination_0"
      && ns[i].params == map[]
      && forall j :: 0 <= j < |ns| && j != i ==> ns[j].nodeType != Destination
  }

  /** Each connection leaves through a declared output port of its source
      node and enters through a declared input port of its target node
      (DeclaredPorts is the registry's port list, by RegistryPorts). */
  predicate PortsDeclared(ns: seq<GraphNode>, cs: seq<Connection>) {
    forall c, i :: c in cs && 0 <= i < |ns| ==>
      && (ns[i].id == c.from.nodeId ==> PortDefinition(c.from.port, PortKind.Output) in DeclaredPorts(ns[i].nodeType))
      && (ns[i].id == c.to.nodeId ==> PortDefinition(c.to.port, Input) in DeclaredPorts(ns[i].nodeType))
  }

  /** Each node carries exactly the parameters its type declares
      (DeclaredKeys is the registry's key set, by ParamKeysListed). */
  predicate ParamsDeclared(ns: seq<GraphNode>) {
    forall i :: 0 <= i < |ns| ==> ns[i].params.Keys == DeclaredKeys(ns[i].nodeType)
  }

  /** Everything the editor assumes of a graph it loads. */
  predicate WellFormedPreset(p: Preset) {
    && GraphConsistent(p.nodes, p.connections)
    && OneDestination(p.nodes)
    && PortsDeclared(p.nodes, p.connections)
    && ParamsDeclared(p.nodes)
  }

  // ---------------------------------------------------------------------
  // Each preset, checked
  // ---------------------------------------------------------------------

  /** A cheap sufficient test that two ids differ: their lengths or their
      last characters do. */
  predicate Apart(a: string, b: string) {
    |a| != |b| || (|a| > 0 && a[|a| - 1] != b[|b| - 1])
  }

  /** No id starts with 'n' or 'c', the first letters of generated ids. */
  predicate NamedByType(ns: seq<GraphNode>) {
    forall i :: 0 <= i < |ns| ==> |ns[i].id| > 0 && ns[i].id[0] != 'n' && ns[i].id[0] != 'c'
  }

  /** from[k] and to[k] locate the nodes connection k leaves and enters. */
  predicate EndpointsAt(ns: seq<GraphNode>, cs: seq<Connection>, from: seq<nat>, to: seq<nat>) {
    && |from| == |cs| && |to| == |cs|
    && forall k :: 0 <= k < |cs| ==>
         && from[k] < |ns| && ns[from[k]].id == cs[k].from.nodeId
         && to[k] < |ns| && ns[to[k]].id == cs[k].to.nodeId
  }

  /** Located endpoints exist. */
  lemma EndpointsFound(ns: seq<GraphNode>, cs: seq<Connection>, from: seq<nat>, to: seq<nat>)
    requires EndpointsAt(ns, cs, from, to)
    ensures EndpointsExist(ns, cs)
  {
    forall c | c in cs ensures c.from.nodeId in NodeIds(ns) && c.to.nodeId in NodeIds(ns) {
      var k :| 0 <= k < |cs| && cs[k] == c;
      assert ns[from[k]] in ns;
      assert ns[to[k]] in ns;
    }
  }

  /** Located endpoints leave through "output" of a node that is not the
      destination and enter through "input" of a node that is not an
      oscillator. */
  predicate PortsAt(ns: seq<GraphNode>, cs: seq<Connection>, from: seq<nat>, to: seq<nat>)
    requires EndpointsAt(ns, cs, from, to)
  {
    forall k :: 0 <= k < |cs| ==>
         && cs[k].from.port == "output" && ns[from[k]].nodeType != Destination
         && cs[k].to.port == "input" && ns[to[k]].nodeType != Oscillator
  }

  /** Which (name, direction) pairs a type declares. */
  lemma DeclaredPortsByName(t: NodeType, name: string)
    ensures PortDefinition(name, PortKind.Output) in DeclaredPorts(t) <==> name == "output" && t != Destination
    ensures PortDefinition(name, Input) in DeclaredPorts(t) <==> name == "input" && t != Oscillator
  {
  }

  /** With unique node ids the located node is the only one an endpoint can
      name, so its ports are the ones to check. */
  lemma PortsFound(ns: seq<GraphNode>, cs: seq<Connection>, from: seq<nat>, to: seq<nat>)
    requires UniqueNodeIds(ns) && EndpointsAt(ns, cs, from, to) && PortsAt(ns, cs, from, to)
    ensures PortsDeclared(ns, cs)
  {
    forall c, i | c in cs && 0 <= i < |ns|
      ensures ns[i].id == c.from.nodeId ==> PortDefinition(c.from.port, PortKind.Output) in DeclaredPorts(ns[i].nodeType)
      ensures ns[i].id == c.to.nodeId ==> PortDefinition(c.to.port, Input) in DeclaredPorts(ns[i].nodeType)
    {
      var k :| 0 <= k < |cs| && cs[k] == c;
      DeclaredPortsByName(ns[i].nodeType, c.from.port);
      DeclaredPortsByName(ns[i].nodeType, c.to.port);
      assert ns[i].id == c.from.nodeId ==> i == from[k];
      assert ns[i].id == c.to.nodeId ==> i == to[k];
    }
  }

  lemma HelloSoundNodeIds()
    ensures UniqueNodeIds(HelloSoundNodes) && NamedByType(HelloSoundNodes)
  {
    var ns := HelloSoundNodes;
    assert forall i, j :: 0 <= i < j < |ns| ==> Apart(ns[i].id, ns[j].id);
  }

  lemma HelloSoundLinks()
    ensures UniqueConnectionIds(HelloSoundConnections) && UniqueLinks(HelloSoundConnections)
  {
  }

  lemma HelloSoundLocated()
    ensures EndpointsAt(HelloSoundNodes, HelloSoundConnections, [0], [1])
  {
  }

  lemma HelloSoundEndpoints()
    ensures EndpointsExist(HelloSoundNodes, HelloSoundConnections)
  {
    HelloSoundLocated();
    EndpointsFound(HelloSoundNodes, HelloSoundConnections, [0], [1]);
  }

  lemma HelloSoundPorts()
    ensures PortsDeclared(HelloSoundNodes, HelloSoundConnections)
  {
    HelloSoundNodeIds();
    HelloSoundLocated();
    assert PortsAt(HelloSoundNodes, HelloSoundConnections, [0], [1]);
    PortsFound(HelloSoundNodes, HelloSoundConnections, [0], [1]);
  }

  lemma HelloSoundParams()
    ensures ParamsDeclared(HelloSoundNodes)
  {
  }

  lemma HelloSoundOneDestination()
    ensures OneDestination(HelloSoundNodes)
  {
    assert HelloSoundNodes[1].nodeType == Destination;
  }

  lemma HelloSoundWellFormed()
    ensures WellFormedPreset(HelloSound)
  {
    HelloSoundNodeIds();
    HelloSoundLinks();
    HelloSoundEndpoints();
    HelloSoundPorts();
    HelloSoundParams();
    HelloSoundOneDestination();
  }

  lemma VolumeControlNodeIds()
    ensures UniqueNodeIds(VolumeControlNodes) && NamedByType(VolumeControlNodes)
  {
    var ns := VolumeControlNodes;
    assert forall i, j :: 0 <= i < j < |ns| ==> Apart(ns[i].id, ns[j].id);
  }

  lemma VolumeControlLinks()
    ensures UniqueConnectionIds(VolumeControlConnections) && UniqueLinks(VolumeControlConnections)
  {
    var cs := VolumeControlConnections;
    assert forall i, j :: 0 <= i < j < |cs| ==>
      Apart(cs[i].id, cs[j].id) && (Apart(cs[i].from.nodeId, cs[j].from.nodeId) || Apart(cs[i].to.nodeId, cs[j].to.nodeId));
  }

  lemma VolumeControlLocated()
    ensures EndpointsAt(VolumeControlNodes, VolumeControlConnections, [0, 1], [1, 2])
  {
  }

  lemma VolumeControlEndpoints()
    ensures EndpointsExist(VolumeControlNodes, VolumeControlConnections)
  {
    VolumeControlLocated();
    EndpointsFound(VolumeControlNodes, VolumeControlConnections, [0, 1], [1, 2]);
  }

  lemma VolumeControlPorts()
    ensures PortsDeclared(VolumeControlNodes, VolumeControlConnections)
  {
    VolumeControlNodeIds();
    VolumeControlLocated();
    assert PortsAt(VolumeControlNodes, VolumeControlConnections, [0, 1], [1, 2]);
    PortsFound(VolumeControlNodes, VolumeControlConnections, [0, 1], [1, 2]);
  }

  lemma VolumeControlParams()
    ensures ParamsDeclared(VolumeControlNodes)
  {
  }

  lemma VolumeControlOneDestination()
    ensures OneDestination(VolumeControlNodes)
  {
    assert VolumeControlNodes[2].nodeType == Destination;
  }

  lemma VolumeControlWellFormed()
    ensures WellFormedPreset(VolumeControl)
  {
    VolumeControlNodeIds();
    VolumeControlLinks();
    VolumeControlEndpoints();
    VolumeControlPorts();
    VolumeControlParams();
    VolumeControlOneDestination();
  }

  lemma SeeWaveformNodeIds()
    ensures UniqueNodeIds(SeeWaveformNodes) && NamedByType(SeeWaveformNodes)
  {
    var ns := SeeWaveformNodes;
    assert forall i, j :: 0 <= i < j < |ns| ==> Apart(ns[i].id, ns[j].id);
  }

  lemma SeeWaveformLinks()
    ensures UniqueConnectionIds(SeeWaveformConnections) && UniqueLinks(SeeWaveformConnections)
  {
    var cs := SeeWaveformConnections;
    assert forall i, j :: 0 <= i < j < |cs| ==>
      Apart(cs[i].id, cs[j].id) && (Apart(cs[i].from.nodeId, cs[j].from.nodeId) || Apart(cs[i].to.nodeId, cs[j].to.nodeId));
  }

  lemma SeeWaveformLocated()
    ensures EndpointsAt(SeeWaveformNodes, SeeWaveformConnections, [0, 1, 1], [1, 2, 3])
  {
  }

  lemma SeeWaveformEndpoints()
    ensures EndpointsExist(SeeWaveformNodes, SeeWaveformConnections)
  {
    SeeWaveformLocated();
    EndpointsFound(SeeWaveformNodes, SeeWaveformConnections, [0, 1, 1], [1, 2, 3]);
  }

  lemma SeeWaveformPorts()
    ensures PortsDeclared(SeeWaveformNodes, SeeWaveformConnections)
  {
    SeeWaveformNodeIds();
    SeeWaveformLocated();
    assert PortsAt(SeeWaveformNodes, SeeWaveformConnections, [0, 1, 1], [1, 2, 3]);
    PortsFound(SeeWaveformNodes, SeeWaveformConnections, [0, 1, 1], [1, 2, 3]);
  }

  lemma SeeWaveformParams()
    ensures ParamsDeclared(SeeWaveformNodes)
  {
  }

  lemma SeeWaveformOneDestination()
    ensures OneDestination(SeeWaveformNodes)
  {
    assert SeeWaveformNodes[3].nodeType == Destination;
  }

  lemma SeeWaveformWellFormed()
    ensures WellFormedPreset(SeeWaveform)
  {
    SeeWaveformNodeIds();
    SeeWaveformLinks();
    SeeWaveformEndpoints();
    SeeWaveformPorts();
    SeeWaveformParams();
    SeeWaveformOneDestination();
  }

  lemma FilterToneNodeIds()
    ensures UniqueNodeIds(FilterToneNodes) && NamedByType(FilterToneNodes)
  {
    var ns := FilterToneNodes;
    assert forall i, j :: 0 <= i < j < |ns| ==> Apart(ns[i].id, ns[j].id);
  }

  lemma FilterToneLinks()
    ensures UniqueConnectionIds(FilterToneConnections) && UniqueLinks(FilterToneConnections)
  {
    var cs := FilterToneConnections;
    assert forall i, j :: 0 <= i < j < |cs| ==>
      Apart(cs[i].id, cs[j].id) && (Apart(cs[i].from.nodeId, cs[j].from.nodeId) || Apart(cs[i].to.nodeId, cs[j].to.nodeId));
  }

  lemma FilterToneLocated()
    ensures EndpointsAt(FilterToneNodes, FilterToneConnections, [0, 1, 2], [1, 2, 3])
  {
  }

  lemma FilterToneEndpoints()
    ensures EndpointsExist(FilterToneNodes, FilterToneConnections)
  {
    FilterToneLocated();
    EndpointsFound(FilterToneNodes, FilterToneConnections, [0, 1, 2], [1, 2, 3]);
  }

  lemma FilterTonePorts()
    ensures PortsDeclared(FilterToneNodes, FilterToneConnections)
  {
    FilterToneNodeIds();
    FilterToneLocated();
    assert PortsAt(FilterToneNodes, FilterToneConnections, [0, 1, 2], [1, 2, 3]);
    PortsFound(FilterToneNodes, FilterToneConnections, [0, 1, 2], [1, 2, 3]);
  }

  lemma FilterToneParams()
    ensures ParamsDeclared(FilterToneNodes)
  {
  }

  lemma FilterToneOneDestination()
    ensures OneDestination(FilterToneNodes)
  {
    assert FilterToneNodes[3].nodeType == Destination;
  }

  lemma FilterToneWellFormed()
    ensures WellFormedPreset(FilterTone)
  {
    FilterToneNodeIds();
    FilterToneLinks();
    FilterToneEndpoints();
    FilterTonePorts();
    FilterToneParams();
    FilterToneOneDestination();
  }

  lemma EchoFeedbackNodeIds()
    ensures UniqueNodeIds(EchoFeedbackNodes) && NamedByType(EchoFeedbackNodes)
  {
    var ns := EchoFeedbackNodes;
    assert forall i, j :: 0 <= i < j < |ns| ==> Apart(ns[i].id, ns[j].id);
  }

  lemma EchoFeedbackLinks()
    ensures UniqueConnectionIds(EchoFeedbackConnections) && UniqueLinks(EchoFeedbackConnections)
  {
    var cs := EchoFeedbackConnections;
    assert forall i, j :: 0 <= i < j < |cs| ==>
      Apart(cs[i].id, cs[j].id) && (Apart(cs[i].from.nodeId, cs[j].from.nodeId) || Apart(cs[i].to.nodeId, cs[j].to.nodeId));
  }

  lemma EchoFeedbackLocated()
    ensures EndpointsAt(EchoFeedbackNodes, EchoFeedbackConnections, [0, 0, 2, 3, 3, 1, 4], [1, 2, 3, 2, 4, 4, 5])
  {
  }

  lemma EchoFeedbackEndpoints()
    ensures EndpointsExist(EchoFeedbackNodes, EchoFeedbackConnections)
  {
    EchoFeedbackLocated();
    EndpointsFound(EchoFeedbackNodes, EchoFeedbackConnections, [0, 0, 2, 3, 3, 1, 4], [1, 2, 3, 2, 4, 4, 5]);
  }

  lemma EchoFeedbackPorts()
    ensures PortsDeclared(EchoFeedbackNodes, EchoFeedbackConnections)
  {
    EchoFeedbackNodeIds();
    EchoFeedbackLocated();
    assert PortsAt(EchoFeedbackNodes, EchoFeedbackConnections, [0, 0, 2, 3, 3, 1, 4], [1, 2, 3, 2, 4, 4, 5]);
    PortsFound(EchoFeedbackNodes, EchoFeedbackConnections, [0, 0, 2, 3, 3, 1, 4], [1, 2, 3, 2, 4, 4, 5]);
  }

  lemma EchoFeedbackParams()
    ensures ParamsDeclared(EchoFeedbackNodes)
  {
  }

  lemma EchoFeedbackOneDestination()
    ensures OneDestination(EchoFeedbackNodes)
  {
    assert EchoFeedbackNodes[5].nodeType == Destination;
  }

  lemma EchoFeedbackWellFormed()
    ensures WellFormedPreset(EchoFeedback)
  {
    EchoFeedbackNodeIds();
    EchoFeedbackLinks();
    EchoFeedbackEndpoints();
    EchoFeedbackPorts();
    EchoFeedbackParams();
    EchoFeedbackOneDestination();
  }

  lemma AdditiveSynthNodeIds()
    ensures UniqueNodeIds(AdditiveSynthNodes) && NamedByType(AdditiveSynthNodes)
  {
    var ns := AdditiveSynthNodes;
    assert forall i, j :: 0 <= i < j < |ns| ==> Apart(ns[i].id, ns[j].id);
  }

  lemma AdditiveSynthLinks()
    ensures UniqueConnectionIds(AdditiveSynthConnections) && UniqueLinks(AdditiveSynthConnections)
  {
    var cs := AdditiveSynthConnections;
    assert forall i, j :: 0 <= i < j < |cs| ==>
      Apart(cs[i].id, cs[j].id) && (Apart(cs[i].from.nodeId, cs[j].from.nodeId) || Apart(cs[i].to.nodeId, cs[j].to.nodeId));
  }

  lemma AdditiveSynthLocated()
    ensures EndpointsAt(AdditiveSynthNodes, AdditiveSynthConnections, [0, 1, 2, 3, 4, 5, 6], [3, 4, 5, 6, 6, 6, 7])
  {
  }

  lemma AdditiveSynthEndpoints()
    ensures EndpointsExist(AdditiveSynthNodes, AdditiveSynthConnections)
  {
    AdditiveSynthLocated();
    EndpointsFound(AdditiveSynthNodes, AdditiveSynthConnections, [0, 1, 2, 3, 4, 5, 6], [3, 4, 5, 6, 6, 6, 7]);
  }

  lemma AdditiveSynthPorts()
    ensures PortsDeclared(AdditiveSynthNodes, AdditiveSynthConnections)
  {
    AdditiveSynthNodeIds();
    AdditiveSynthLocated();
    assert PortsAt(AdditiveSynthNodes, AdditiveSynthConnections, [0, 1, 2, 3, 4, 5, 6], [3, 4, 5, 6, 6, 6, 7]);
    PortsFound(AdditiveSynthNodes, AdditiveSynthConnections, [0, 1, 2, 3, 4, 5, 6], [3, 4, 5, 6, 6, 6, 7]);
  }

  lemma AdditiveSynthParams()
    ensures ParamsDeclared(AdditiveSynthNodes)
  {
  }

  lemma AdditiveSynthOneDestination()
    ensures OneDestination(AdditiveSynthNodes)
  {
    assert AdditiveSynthNodes[7].nodeType == Destination;
  }

  lemma AdditiveSynthWellFormed()
    ensures WellFormedPreset(AdditiveSynth)
  {
    AdditiveSynthNodeIds();
    AdditiveSynthLinks();
    AdditiveSynthEndpoints();
    AdditiveSynthPorts();
    AdditiveSynthParams();
    AdditiveSynthOneDestination();
  }

  lemma StereoPanningNodeIds()
    ensures UniqueNodeIds(StereoPanningNodes) && NamedByType(StereoPanningNodes)
  {
    var ns := StereoPanningNodes;
    assert forall i, j :: 0 <= i < j < |ns| ==> Apart(ns[i].id, ns[j].id);
  }

  lemma StereoPanningLinks()
    ensures UniqueConnectionIds(StereoPanningConnections) && UniqueLinks(StereoPanningConnections)
  {
    var cs := StereoPanningConnections;
    assert forall i, j :: 0 <= i < j < |cs| ==>
      Apart(cs[i].id, cs[j].id) && (Apart(cs[i].from.nodeId, cs[j].from.nodeId) || Apart(cs[i].to.nodeId, cs[j].to.nodeId));
  }

  lemma StereoPanningLocated()
    ensures EndpointsAt(StereoPanningNodes, StereoPanningConnections, [0, 1, 2], [1, 2, 3])
  {
  }

  lemma StereoPanningEndpoints()
    ensures EndpointsExist(StereoPanningNodes, StereoPanningConnections)
  {
    StereoPanningLocated();
    EndpointsFound(StereoPanningNodes, StereoPanningConnections, [0, 1, 2], [1, 2, 3]);
  }

  lemma StereoPanningPorts()
    ensures PortsDeclared(StereoPanningNodes, StereoPanningConnections)
  {
    StereoPanningNodeIds();
    StereoPanningLocated();
    assert PortsAt(StereoPanningNodes, StereoPanningConnections, [0, 1, 2], [1, 2, 3]);
    PortsFound(StereoPanningNodes, StereoPanningConnections, [0, 1, 2], [1, 2, 3]);
  }

  lemma StereoPanningParams()
    ensures ParamsDeclared(StereoPanningNodes)
  {
  }

  lemma StereoPanningOneDestination()
    ensures OneDestination(StereoPanningNodes)
  {
    assert StereoPanningNodes[3].nodeType == Destination;
  }

  lemma StereoPanningWellFormed()
    ensures WellFormedPreset(StereoPanning)
  {
    StereoPanningNodeIds();
    StereoPanningLinks();
    StereoPanningEndpoints();
    StereoPanningPorts();
    StereoPanningParams();
    StereoPanningOneDestination();
  }

  // ---------------------------------------------------------------------
  // The menu as a whole
  // ---------------------------------------------------------------------

  /** Every preset on the menu is well formed. */
  lemma AllPresetsWellFormed()
    ensures forall p :: p in AllPresets ==> WellFormedPreset(p)
  {
    forall p | p in AllPresets ensures WellFormedPreset(p) {
      if p == HelloSound { HelloSoundWellFormed(); }
      else if p == VolumeControl { VolumeControlWellFormed(); }
      else if p == SeeWaveform { SeeWaveformWellFormed(); }
      else if p == FilterTone { FilterToneWellFormed(); }
      else if p == EchoFeedback { EchoFeedbackWellFormed(); }
      else if p == AdditiveSynth { AdditiveSynthWellFormed(); }
      else { StereoPanningWellFormed(); }
    }
  }

  /** The menu ids differ. */
  lemma PresetIdsDistinct()
    ensures forall i, j :: 0 <= i < j < |AllPresets| ==> AllPresets[i].id != AllPresets[j].id
  {
    var ps := AllPresets;
    assert forall i, j :: 0 <= i < j < |ps| ==> Apart(ps[i].id, ps[j].id);
  }

  /** In a well-formed preset no connection leaves the destination and none
      enters an oscillator, and every connection runs from an "output" port
      to an "input" port. */
  lemma WellFormedFlowsForward(p: Preset)
    requires WellFormedPreset(p)
    ensures forall c, i :: c in p.connections && 0 <= i < |p.nodes| && p.nodes[i].id == c.from.nodeId ==>
      c.from.port == "output" && p.nodes[i].nodeType != Destination
    ensures forall c, i :: c in p.connections && 0 <= i < |p.nodes| && p.nodes[i].id == c.to.nodeId ==>
      c.to.port == "input" && p.nodes[i].nodeType != Oscillator
  {
    forall c, i | c in p.connections && 0 <= i < |p.nodes|
      ensures p.nodes[i].id == c.from.nodeId ==> c.from.port == "output" && p.nodes[i].nodeType != Destination
      ensures p.nodes[i].id == c.to.nodeId ==> c.to.port == "input" && p.nodes[i].nodeType != Oscillator
    {
      DeclaredPortsByName(p.nodes[i].nodeType, c.from.port);
      DeclaredPortsByName(p.nodes[i].nodeType, c.to.port);
    }
  }

  /** The echo preset closes a loop: the delay feeds the feedback gain and
      the feedback gain feeds the delay back. */
  lemma EchoFeedbackLoops()
    ensures exists c1, c2 ::
      && c1 in EchoFeedback.connections && c2 in EchoFeedback.connections
      && c1.from.nodeId == "delay_1" && c1.to.nodeId == "gain_fb"
      && c2.from.nodeId == "gain_fb" && c2.to.nodeId == "delay_1"
  {
    var cs := EchoFeedbackConnections;
    assert cs[2] in cs && cs[3] in cs;
  }

  /** Ids named by type can be neither a generated node id nor a generated
      connection id. */
  lemma NotGenerated(ns: seq<GraphNode>)
    requires NamedByType(ns)
    ensures forall n, m :: n in ns ==> n.id != NodeIdFor(m) && n.id != ConnIdFor(m)
  {
    forall n, m | n in ns ensures n.id != NodeIdFor(m) && n.id != ConnIdFor(m) {
      var i :| 0 <= i < |ns| && ns[i] == n;
      assert NodeIdFor(m)[0] == 'n' && ConnIdFor(m)[0] == 'c';
    }
  }

  /** Every preset names its nodes by type. */
  lemma PresetNamedByType(p: Preset)
    requires p in AllPresets
    ensures NamedByType(p.nodes)
  {
    if p == HelloSound { HelloSoundNodeIds(); }
    else if p == VolumeControl { VolumeControlNodeIds(); }
    else if p == SeeWaveform { SeeWaveformNodeIds(); }
    else if p == FilterTone { FilterToneNodeIds(); }
    else if p == EchoFeedback { EchoFeedbackNodeIds(); }
    else if p == AdditiveSynth { AdditiveSynthNodeIds(); }
    else { StereoPanningNodeIds(); }
  }

  /** Loading any preset from the menu into a consistent state leaves it
      consistent: the whole graph is replaced by a well-formed one. */
  lemma LoadingPresetKeepsConsistent(s: AppState, p: Preset)
    requires Consistent(s) && p in AllPresets
    ensures Consistent(PresetLoaded(s, p.nodes, p.connections))
  {
    AllPresetsWellFormed();
    SettersConsistent(s, s.zoom, false, s.canvasOffset, s.selectedNodeId, p.nodes, p.connections);
  }

  /** Preset node ids are named after their type ("osc_1", "gain_master"),
      never like the ids the counter hands out, so nodes added after loading
      a preset never clash with it. */
  lemma PresetNodeIdsNotGenerated(p: Preset, n: GraphNode, m: nat)
    requires p in AllPresets && n in p.nodes
    ensures n.id != NodeIdFor(m) && n.id != ConnIdFor(m)
  {
    PresetNamedByType(p);
    NotGenerated(p.nodes);
  }

  /** Preset connection ids, by contrast, are spelled like generated ones:
      every preset's first connection is "conn_1", the id the counter hands
      out first. Loading a preset does not touch the counter, so on a fresh
      page the first connection drawn after loading a preset repeats that
      id: the connection ids stop being unique, and removing the new
      connection removes the preset's one too. */
  lemma PresetConnectionIdClash(s: AppState, p: Preset, from: Endpoint, to: Endpoint)
    requires p in AllPresets && !HasLink(p.connections, from, to)
    ensures p.connections != [] && p.connections[0].id == ConnIdFor(1)
    ensures var r := ConnectionAdded(PresetLoaded(s, p.nodes, p.connections), from, to, ConnIdFor(1));
      && !UniqueConnectionIds(r.connections)
      && p.connections[0] in r.connections
      && p.connections[0] !in ConnectionRemoved(r, ConnIdFor(1)).connections
  {
    assert ConnIdFor(1) == "conn_1";
    var r := ConnectionAdded(PresetLoaded(s, p.nodes, p.connections), from, to, ConnIdFor(1));
    var cs := r.connections;
    assert cs == p.connections + [Connection(ConnIdFor(1), from, to)];
    assert cs[0].id == cs[|cs| - 1].id;
    assert cs[0] in cs;
  }
}

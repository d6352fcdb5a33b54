/** The shared vocabulary of the editor (src/types/audio.ts): node types,
    ports, parameter definitions and values, graph nodes, connections and
    the whole application state. */
module AudioTypes {
  import opened Wrappers

  /** The closed set of node types the editor knows. */
  datatype NodeType =
    | Oscillator
    | Gain
    | Destination
    | Analyser
    | BiquadFilter
    | Delay
    | StereoPanner
    | DynamicsCompressor

  /** Every node type, in the order the registry declares them. */
  const AllNodeTypes: seq<NodeType> :=
    [Oscillator, Gain, Destination, Analyser, BiquadFilter, Delay, StereoPanner, DynamicsCompressor]

  /** The string tag of a node type, as stored in `GraphNode.type`. */
  function TypeName(t: NodeType): string {
    match t
    case Oscillator => "oscillator"
    case Gain => "gain"
    case Destination => "destination"
    case Analyser => "analyser"
    case BiquadFilter => "biquadFilter"
    case Delay => "delay"
    case StereoPanner => "stereoPanner"
    case DynamicsCompressor => "dynamicsCompressor"
  }

  /** The node type a string tag names, if any. */
  function ParseNodeType(s: string): (r: Option<NodeType>)
    ensures r.Some? ==> TypeName(r.value) == s
  {
    if s == "oscillator" then Some(Oscillator)
    else if s == "gain" then Some(Gain)
    else if s == "destination" then Some(Destination)
    else if s == "analyser" then Some(Analyser)
    else if s == "biquadFilter" then Some(BiquadFilter)
    else if s == "delay" then Some(Delay)
    else if s == "stereoPanner" then Some(StereoPanner)
    else if s == "dynamicsCompressor" then Some(DynamicsCompressor)
    else None
  }

  /** The node types are exactly eight distinct tags, each named by a
      distinct string that reads back to it. */
  lemma NodeTypesClosed()
    ensures |AllNodeTypes| == 8
    ensures forall i, j :: 0 <= i < j < |AllNodeTypes| ==> AllNodeTypes[i] != AllNodeTypes[j]
    ensures forall t: NodeType :: t in AllNodeTypes
    ensures forall t: NodeType :: ParseNodeType(TypeName(t)) == Some(t)
  {
    forall t: NodeType ensures t in AllNodeTypes {
      match t
      case Oscillator => assert AllNodeTypes[0] == t;
      case Gain => assert AllNodeTypes[1] == t;
      case Destination => assert AllNodeTypes[2] == t;
      case Analyser => assert AllNodeTypes[3] == t;
      case BiquadFilter => assert AllNodeTypes[4] == t;
      case Delay => assert AllNodeTypes[5] == t;
      case StereoPanner => assert AllNodeTypes[6] == t;
      case DynamicsCompressor => assert AllNodeTypes[7] == t;
    }
  }

  /** Presentation grouping of node types. */
  datatype NodeCategory = Source | Effect | Analysis | Output

  /** A point on the canvas. */
  datatype Position = Position(x: real, y: real)

  /** A port is an input or an output; nothing else. */
  datatype PortKind = Input | Output

  /** A port a node type declares (its display label is left out). */
  datatype PortDefinition = PortDefinition(id: string, kind: PortKind)

  /** A parameter value or default: a number or a string. */
  datatype ParamValue = Num(n: real) | Str(s: string)

  /** How a parameter is edited: a slider over a range or a choice list. */
  datatype ParamType = Range | Select

  /** A declared parameter. As in the source, `min`, `max`, `step` and
      `options` are optional; an option is kept by its value only. */
  datatype ParamDefinition = ParamDefinition(
    key: string,
    paramType: ParamType,
    min: Option<real>,
    max: Option<real>,
    step: Option<real>,
    defaultValue: ParamValue,
    options: Option<seq<string>>)

  /** A node placed on the canvas. */
  datatype GraphNode = GraphNode(
    id: string,
    nodeType: NodeType,
    position: Position,
    params: map<string, ParamValue>)

  /** One end of a connection: a node id and a port name. */
  datatype Endpoint = Endpoint(nodeId: string, port: string)

  /** A directed connection from one endpoint to another. */
  datatype Connection = Connection(id: string, from: Endpoint, to: Endpoint)

  /** The whole editor state. At most one node is selected: the selection
      is a single optional id. */
  datatype AppState = AppState(
    nodes: seq<GraphNode>,
    connections: seq<Connection>,
    isPlaying: bool,
    selectedNodeId: Option<string>,
    canvasOffset: Position,
    zoom: real)
}

/** The node-type registry (src/utils/nodeRegistry.ts): for every node type
    its category, its ports and its parameter schema with defaults. Labels,
    descriptions and category colours are presentation and are left out. */
module NodeRegistry {
  import opened Wrappers
  import opened AudioTypes
  import opened Collections

  /** What the registry stores for one node type. */
  datatype NodeMeta = NodeMeta(
    nodeType: NodeType,
    category: NodeCategory,
    ports: seq<PortDefinition>,
    params: seq<ParamDefinition>)

  const InPort: PortDefinition := PortDefinition("input", Input)
  const OutPort: PortDefinition := PortDefinition("output", PortKind.Output)

  function RangeParam(key: string, min: real, max: real, step: real, defaultValue: real): ParamDefinition {
    ParamDefinition(key, Range, Some(min), Some(max), Some(step), Num(defaultValue), None)
  }

  function SelectParam(key: string, defaultValue: string, options: seq<string>): ParamDefinition {
    ParamDefinition(key, Select, None, None, None, Str(defaultValue), Some(options))
  }

  /** NODE_REGISTRY: the entry of every node type. The entry stored under a
      type describes that very type. */
  function Registry(t: NodeType): (m: NodeMeta)
    ensures m.nodeType == t
  {
    match t
    case Oscillator =>
      NodeMeta(Oscillator, Source, [OutPort], [
        SelectParam("type", "sine", ["sine", "square", "sawtooth", "triangle"]),
        RangeParam("frequency", 20.0, 2000.0, 1.0, 440.0),
        RangeParam("detune", -100.0, 100.0, 1.0, 0.0)])
    case Gain =>
      NodeMeta(Gain, Effect, [InPort, OutPort], [
        RangeParam("gain", 0.0, 1.0, 0.01, 0.5)])
    case Destination =>
      NodeMeta(Destination, NodeCategory.Output, [InPort], [])
    case Analyser =>
      NodeMeta(Analyser, Analysis, [InPort, OutPort], [
        SelectParam("fftSize", "2048", ["256", "512", "1024", "2048", "4096"])])
    case BiquadFilter =>
      NodeMeta(BiquadFilter, Effect, [InPort, OutPort], [
        SelectParam("type", "lowpass", ["lowpass", "highpass", "bandpass", "notch", "peaking"]),
        RangeParam("frequency", 20.0, 20000.0, 1.0, 1000.0),
        RangeParam("Q", 0.1, 20.0, 0.1, 1.0)])
    case Delay =>
      NodeMeta(Delay, Effect, [InPort, OutPort], [
        RangeParam("delayTime", 0.0, 5.0, 0.01, 0.5)])
    case StereoPanner =>
      NodeMeta(StereoPanner, Effect, [InPort, OutPort], [
        RangeParam("pan", -1.0, 1.0, 0.01, 0.0)])
    case DynamicsCompressor =>
      NodeMeta(DynamicsCompressor, Effect, [InPort, OutPort], [
        RangeParam("threshold", -100.0, 0.0, 1.0, -24.0),
        RangeParam("knee", 0.0, 40.0, 1.0, 30.0),
        RangeParam("ratio", 1.0, 20.0, 0.5, 12.0),
        RangeParam("attack", 0.0, 1.0, 0.001, 0.003),
        RangeParam("release", 0.0, 1.0, 0.01, 0.25)])
  }

  /** The keys of a list of parameter definitions. */
  function KeysOf(ps: seq<ParamDefinition>): (ks: set<string>)
    ensures forall p :: p in ps ==> p.key in ks
    decreases |ps|
  {
    if ps == [] then {} else {ps[0].key} + KeysOf(ps[1..])
  }

  /** A key is listed exactly when some definition declares it. */
  lemma {:induction false} KeysOfMembership(ps: seq<ParamDefinition>)
    ensures forall k :: k in KeysOf(ps) <==> exists p :: p in ps && p.key == k
    decreases |ps|
  {
    if ps != [] {
      KeysOfMembership(ps[1..]);
      assert ps == [ps[0]] + ps[1..];
    }
  }

  /** Appending a definition adds its key. */
  lemma {:induction false} KeysOfAppend(ps: seq<ParamDefinition>, p: ParamDefinition)
    ensures KeysOf(ps + [p]) == KeysOf(ps) + {p.key}
    decreases |ps|
  {
    if ps != [] {
      KeysOfAppend(ps[1..], p);
      assert (ps + [p])[1..] == ps[1..] + [p];
    }
  }

  /** The keys a node type declares. */
  function ParamKeys(t: NodeType): set<string> {
    KeysOf(Registry(t).params)
  }

  /** The declared keys of each type, written out. */
  function DeclaredKeys(t: NodeType): set<string> {
    match t
      case Oscillator => {"type", "frequency", "detune"}
      case Gain => {"gain"}
      case Destination => {}
      case Analyser => {"fftSize"}
      case BiquadFilter => {"type", "frequency", "Q"}
      case Delay => {"delayTime"}
      case StereoPanner => {"pan"}
      case DynamicsCompressor => {"threshold", "knee", "ratio", "attack", "release"}
  }

  /** The registry's schemas declare exactly the keys written out above. */
  lemma ParamKeysListed(t: NodeType)
    ensures ParamKeys(t) == DeclaredKeys(t)
  {
    var ps := Registry(t).params;
    match t
    case Oscillator =>
      assert KeysOf(ps[2..]) == {"detune"};
      assert KeysOf(ps[1..]) == {"frequency", "detune"};
    case BiquadFilter =>
      assert KeysOf(ps[2..]) == {"Q"};
      assert KeysOf(ps[1..]) == {"frequency", "Q"};
    case DynamicsCompressor =>
      assert KeysOf(ps[4..]) == {"release"};
      assert KeysOf(ps[3..]) == {"attack", "release"};
      assert KeysOf(ps[2..]) == {"ratio", "attack", "release"};
      assert KeysOf(ps[1..]) == {"knee", "ratio", "attack", "release"};
    case _ =>
  }

  /** The registry entries of the given types, in the same order. */
  function MetasOf(ts: seq<NodeType>): (ms: seq<NodeMeta>)
    ensures |ms| == |ts|
    ensures forall i :: 0 <= i < |ms| ==> ms[i] == Registry(ts[i])
    decreases |ts|
  {
    if ts == [] then [] else [Registry(ts[0])] + MetasOf(ts[1..])
  }

  /** The registry's values in declaration order (Object.values). */
  function RegistryValues(): seq<NodeMeta> {
    MetasOf(AllNodeTypes)
  }

  /** The palette's filter condition. */
  predicate OnPalette(m: NodeMeta) {
    m.nodeType != Destination
  }

  /** PALETTE_NODES: every entry but the destination's, in registry order. */
  function PaletteNodes(): seq<NodeMeta> {
    Filter(RegistryValues(), OnPalette)
  }

  predicate NotDestination(t: NodeType) {
    t != Destination
  }

  /** Filtering entries by their type is filtering the types first. */
  lemma {:induction false} FilterMetas(ts: seq<NodeType>)
    ensures Filter(MetasOf(ts), OnPalette) == MetasOf(Filter(ts, NotDestination))
    decreases |ts|
  {
    if ts != [] {
      FilterMetas(ts[1..]);
      assert MetasOf(ts)[1..] == MetasOf(ts[1..]);
    }
  }

  /** Dropping the destination from the declared type order. */
  lemma FilterTypes(front: seq<NodeType>, back: seq<NodeType>)
    requires front == [Oscillator, Gain]
    requires back == [Analyser, BiquadFilter, Delay, StereoPanner, DynamicsCompressor]
    ensures AllNodeTypes == front + [Destination] + back
    ensures Filter(AllNodeTypes, NotDestination) == front + back
  {
    FilterAppend(front + [Destination], back, NotDestination);
    FilterAppend(front, [Destination], NotDestination);
    FilterKeepsAll(front, NotDestination);
    FilterKeepsAll(back, NotDestination);
    assert Filter([Destination], NotDestination) == [];
  }

  /** Filtering the entries of some types is taking the entries of the
      types that survive the filter. */
  lemma MetasOfFiltered(ts: seq<NodeType>, kept: seq<NodeType>)
    requires Filter(ts, NotDestination) == kept
    ensures Filter(MetasOf(ts), OnPalette) == MetasOf(kept)
  {
    FilterMetas(ts);
  }

  /** The entry of a listed type survives the palette filter exactly when
      the type is not the destination. */
  lemma MetasOfMember(ts: seq<NodeType>, t: NodeType)
    requires t in ts
    ensures Registry(t) in Filter(MetasOf(ts), OnPalette) <==> t != Destination
  {
    FilterMembership(MetasOf(ts), OnPalette);
    var i :| 0 <= i < |ts| && ts[i] == t;
    assert MetasOf(ts)[i] == Registry(t);
  }

  /** The palette offers the seven non-destination types, in registry
      order. */
  lemma PaletteInOrder(kept: seq<NodeType>)
    requires kept == [Oscillator, Gain, Analyser, BiquadFilter, Delay, StereoPanner, DynamicsCompressor]
    ensures PaletteNodes() == MetasOf(kept)
  {
    FilterTypes(kept[..2], kept[2..]);
    MetasOfFiltered(AllNodeTypes, kept[..2] + kept[2..]);
    assert kept[..2] + kept[2..] == kept;
  }

  /** The palette offers a type's entry exactly when the type is not the
      destination. */
  lemma PaletteIsEveryTypeButDestination(t: NodeType)
    ensures Registry(t) in PaletteNodes() <==> t != Destination
  {
    NodeTypesClosed();
    MetasOfMember(AllNodeTypes, t);
  }

  /** No two declared parameters of one type share a key. */
  predicate KeysUnique(ps: seq<ParamDefinition>) {
    forall i, j :: 0 <= i < j < |ps| ==> ps[i].key != ps[j].key
  }

  /** A range parameter has bounds and a numeric default between them; a
      select parameter has options and a string default among them. */
  predicate DefaultAdmissible(p: ParamDefinition) {
    && (p.paramType == Range ==>
          p.min.Some? && p.max.Some? && p.defaultValue.Num?
          && p.min.value <= p.defaultValue.n <= p.max.value)
    && (p.paramType == Select ==>
          p.options.Some? && p.defaultValue.Str? && p.defaultValue.s in p.options.value)
  }

  /** Every registry entry has unique keys and admissible defaults. */
  lemma RegistrySchemasWellFormed(t: NodeType)
    ensures KeysUnique(Registry(t).params)
    ensures forall p :: p in Registry(t).params ==> DefaultAdmissible(p)
  {
  }

  /** Ports: the destination only receives, the oscillator only sends,
      every other type has one input and one output. */
  function DeclaredPorts(t: NodeType): seq<PortDefinition> {
    match t
    case Destination => [InPort]
    case Oscillator => [OutPort]
    case _ => [InPort, OutPort]
  }

  /** The registry's port lists are the ones written out above; the
      destination also has no parameters. */
  lemma RegistryPorts(t: NodeType)
    ensures Registry(t).ports == DeclaredPorts(t)
    ensures t == Destination ==> Registry(t).params == []
  {
  }

  /** The record built by copying each definition's default under its key;
      a later definition with the same key would overwrite an earlier one,
      as the assignment in the source's loop does. */
  function DefaultsOf(ps: seq<ParamDefinition>): map<string, ParamValue>
    decreases |ps|
  {
    if ps == [] then map[]
    else DefaultsOf(ps[..|ps| - 1])[ps[|ps| - 1].key := ps[|ps| - 1].defaultValue]
  }

  /** getDefaultParams(t), as a value. */
  function DefaultParams(t: NodeType): map<string, ParamValue> {
    DefaultsOf(Registry(t).params)
  }

  /** With unique keys, the copied record has exactly the declared keys, each
      mapped to its declared default. */
  lemma {:induction false} DefaultsOfExact(ps: seq<ParamDefinition>)
    requires KeysUnique(ps)
    ensures DefaultsOf(ps).Keys == KeysOf(ps)
    ensures forall p :: p in ps ==> DefaultsOf(ps)[p.key] == p.defaultValue
    decreases |ps|
  {
    if ps != [] {
      var init := ps[..|ps| - 1];
      var last := ps[|ps| - 1];
      DefaultsOfExact(init);
      assert ps == init + [last];
      KeysOfAppend(init, last);
      forall p | p in ps ensures DefaultsOf(ps)[p.key] == p.defaultValue {
        if p != last {
          var i :| 0 <= i < |ps| && ps[i] == p;
          assert i < |ps| - 1;
          assert p in init;
        }
      }
    }
  }

  /** getDefaultParams(t) has exactly t's declared keys, each with its
      declared default, and nothing else. */
  lemma DefaultParamsExact(t: NodeType)
    ensures DefaultParams(t).Keys == ParamKeys(t)
    ensures forall p :: p in Registry(t).params ==> DefaultParams(t)[p.key] == p.defaultValue
  {
    RegistrySchemasWellFormed(t);
    DefaultsOfExact(Registry(t).params);
  }

  /** The default record of each type, written out. */
  lemma DefaultParamsListed(t: NodeType)
    ensures DefaultParams(t) ==
      match t
      case Oscillator => map["type" := Str("sine"), "frequency" := Num(440.0), "detune" := Num(0.0)]
      case Gain => map["gain" := Num(0.5)]
      case Destination => map[]
      case Analyser => map["fftSize" := Str("2048")]
      case BiquadFilter => map["type" := Str("lowpass"), "frequency" := Num(1000.0), "Q" := Num(1.0)]
      case Delay => map["delayTime" := Num(0.5)]
      case StereoPanner => map["pan" := Num(0.0)]
      case DynamicsCompressor =>
        map["threshold" := Num(-24.0), "knee" := Num(30.0), "ratio" := Num(12.0),
            "attack" := Num(0.003), "release" := Num(0.25)]
  {
    var ps := Registry(t).params;
    assert ps[..|ps|] == ps;
    match t
    case Oscillator =>
      assert ps[..2] == ps[..|ps| - 1] && ps[..1] == ps[..2][..1] && ps[..0] == [];
      assert DefaultsOf(ps[..1]) == map["type" := Str("sine")];
      assert DefaultsOf(ps[..2]) == map["type" := Str("sine"), "frequency" := Num(440.0)];
    case BiquadFilter =>
      assert ps[..2] == ps[..|ps| - 1] && ps[..1] == ps[..2][..1] && ps[..0] == [];
      assert DefaultsOf(ps[..1]) == map["type" := Str("lowpass")];
      assert DefaultsOf(ps[..2]) == map["type" := Str("lowpass"), "frequency" := Num(1000.0)];
    case DynamicsCompressor =>
      assert ps[..4] == ps[..|ps| - 1] && ps[..3] == ps[..4][..3] && ps[..2] == ps[..3][..2];
      assert ps[..1] == ps[..2][..1] && ps[..0] == [];
      assert DefaultsOf(ps[..1]) == map["threshold" := Num(-24.0)];
      assert DefaultsOf(ps[..2]) == map["threshold" := Num(-24.0), "knee" := Num(30.0)];
      assert DefaultsOf(ps[..3]) == map["threshold" := Num(-24.0), "knee" := Num(30.0), "ratio" := Num(12.0)];
      assert DefaultsOf(ps[..4]) == map["threshold" := Num(-24.0), "knee" := Num(30.0), "ratio" := Num(12.0), "attack" := Num(0.003)];
    case _ =>
      assert |ps| <= 1;
  }

  /** getDefaultParams: fills a fresh record, one declared parameter at a
      time. */
  method GetDefaultParams(t: NodeType) returns (params: map<string, ParamValue>)
    ensures params == DefaultParams(t)
    ensures params.Keys == ParamKeys(t)
    ensures forall p :: p in Registry(t).params ==> params[p.key] == p.defaultValue
  {
    var meta := Registry(t);
    params := map[];
    for i := 0 to |meta.params|
      invariant params == DefaultsOf(meta.params[..i])
    {
      var p := meta.params[i];
      assert meta.params[..i + 1][..i] == meta.params[..i];
      params := params[p.key := p.defaultValue];
    }
    assert meta.params[..|meta.params|] == meta.params;
    DefaultParamsExact(t);
  }
}

/** The runtime synchronizer (src/hooks/useAudioEngine.ts): rebuilds the
    Web Audio primitives from a graph, wires and starts them, tears them
    down and forwards live parameter edits. The primitives are abstract:
    each is a kind tag, its control values, the handles it outputs to and,
    for a source, whether it has been started. Every primitive the context
    ever created lives in an arena indexed by handle; handle 0 is the
    context's one shared destination. */
module AudioEngine {
  import opened Wrappers
  import opened AudioTypes
  import opened Decimal
  import opened Collections
  import opened NodeRegistry
  import opened GraphState

  // ---------------------------------------------------------------------
  // Primitives
  // ---------------------------------------------------------------------

  /** The Web Audio class of a primitive, in place of `instanceof`. */
  datatype PrimitiveKind =
    | OscillatorKind | GainKind | SinkKind | AnalyserKind
    | BiquadFilterKind | DelayKind | StereoPannerKind | DynamicsCompressorKind

  /** The class createAudioNode yields for a node type. */
  function KindOf(t: NodeType): PrimitiveKind {
    match t
    case Oscillator => OscillatorKind
    case Gain => GainKind
    case Destination => SinkKind
    case Analyser => AnalyserKind
    case BiquadFilter => BiquadFilterKind
    case Delay => DelayKind
    case StereoPanner => StereoPannerKind
    case DynamicsCompressor => DynamicsCompressorKind
  }

  /** The life cycle of a scheduled source. */
  datatype Playback = Unstarted | Running | Halted

  datatype Primitive = Primitive(
    kind: PrimitiveKind,
    controls: map<string, ParamValue>,
    outputs: seq<nat>,
    playback: Playback)

  /** The context's destination. */
  const SinkPrimitive: Primitive := Primitive(SinkKind, map[], [], Unstarted)

  /** `stop()` inside a try: a running source halts; on one that never
      started the call throws and the throw is swallowed. */
  function Stopped(p: Primitive): Primitive {
    if p.playback == Running then p.(playback := Halted) else p
  }

  /** `disconnect()`: drops every outgoing edge. */
  function Disconnected(p: Primitive): Primitive {
    p.(outputs := [])
  }

  /** `connect(to)` inside a try: adds an edge to handle `to`, whose
      primitive is of kind `target`. The destination has no output and an
      oscillator has no input, so connecting from the one or into the other
      throws, and the throw is swallowed. */
  function Connected(p: Primitive, to: nat, target: PrimitiveKind): Primitive {
    if p.kind == SinkKind || target == OscillatorKind then p else p.(outputs := p.outputs + [to])
  }

  /** `start()`, unguarded: valid on an unstarted source only. */
  function Launched(p: Primitive): Primitive {
    p.(playback := Running)
  }

  /** Applies f to the primitives whose handles are in hs. */
  function Apply(prims: seq<Primitive>, hs: set<nat>, f: Primitive -> Primitive): (r: seq<Primitive>)
    ensures |r| == |prims|
  {
    seq(|prims|, i requires 0 <= i < |prims| => if i in hs then f(prims[i]) else prims[i])
  }

  // ---------------------------------------------------------------------
  // Construction (createAudioNode)
  // ---------------------------------------------------------------------

  /** JavaScript's `Number(v)` on a parameter value: a number is itself, the
      empty string is 0, a string of decimal digits is its value; any other
      string is NaN, here None. */
  function ToNumber(v: ParamValue): Option<real> {
    match v
    case Num(x) => Some(x)
    case Str(s) => if s == "" then Some(0.0) else if AllDigits(s) then Some(DigitsValue(s) as real) else None
  }

  /** `Number(params.fftSize) || 2048`: NaN, 0 and a missing value all fall
      back to 2048. */
  function FftSize(p: map<string, ParamValue>): (r: real)
    ensures r != 0.0
    ensures "fftSize" !in p ==> r == 2048.0
    ensures "fftSize" in p && ToNumber(p["fftSize"]).Some? && ToNumber(p["fftSize"]).value != 0.0
      ==> r == ToNumber(p["fftSize"]).value
  {
    var n := if "fftSize" in p then ToNumber(p["fftSize"]) else None;
    if n.Some? && n.value != 0.0 then n.value else 2048.0
  }

  /** One control createAudioNode sets: its key and its hard-coded fallback. */
  datatype Fallback = Fallback(key: string, value: ParamValue)

  /** The controls each case of createAudioNode sets with `??`, in order.
      The analyser's FFT size is set with `||` instead (FftSize). */
  function Fallbacks(t: NodeType): seq<Fallback> {
    match t
    case Oscillator =>
      [Fallback("type", Str("sine")), Fallback("frequency", Num(440.0)), Fallback("detune", Num(0.0))]
    case Gain => [Fallback("gain", Num(0.5))]
    case Destination => []
    case Analyser => []
    case BiquadFilter =>
      [Fallback("type", Str("lowpass")), Fallback("frequency", Num(1000.0)), Fallback("Q", Num(1.0))]
    case Delay => [Fallback("delayTime", Num(0.5))]
    case StereoPanner => [Fallback("pan", Num(0.0))]
    case DynamicsCompressor =>
      [Fallback("threshold", Num(-24.0)), Fallback("knee", Num(30.0)), Fallback("ratio", Num(12.0)),
       Fallback("attack", Num(0.003)), Fallback("release", Num(0.25))]
  }

  /** The controls set from a list of fallbacks: the node's own value when
      present, else the fallback. */
  function ControlsOf(p: map<string, ParamValue>, fs: seq<Fallback>): map<string, ParamValue>
    decreases |fs|
  {
    if fs == [] then map[]
    else
      var f := fs[|fs| - 1];
      ControlsOf(p, fs[..|fs| - 1])[f.key := if f.key in p then p[f.key] else f.value]
  }

  /** What createAudioNode returns: the shared destination, or a fresh
      primitive. Node types are closed here, so its null case cannot occur. */
  datatype Made = ToSink | Fresh(prim: Primitive)

  /** createAudioNode. */
  function Construct(gn: GraphNode): Made {
    var t := gn.nodeType;
    if t == Destination then ToSink
    else if t == Analyser then
      Fresh(Primitive(AnalyserKind, map["fftSize" := Num(FftSize(gn.params))], [], Unstarted))
    else
      Fresh(Primitive(KindOf(t), ControlsOf(gn.params, Fallbacks(t)), [], Unstarted))
  }

  // ---------------------------------------------------------------------
  // The build, as values
  // ---------------------------------------------------------------------

  /** The two maps and the arena after the construction loop. */
  datatype Built = Built(prims: seq<Primitive>, nodeMap: map<string, nat>, oscMap: map<string, nat>)

  /** Every handle of a map points into the arena. */
  predicate HandlesIn(m: map<string, nat>, prims: seq<Primitive>) {
    forall id :: id in m ==> m[id] < |prims|
  }

  /** Every handle of the oscillator map points at an oscillator. */
  predicate OscillatorHandles(m: map<string, nat>, prims: seq<Primitive>) {
    forall id :: id in m ==> m[id] < |prims| && prims[m[id]].kind == OscillatorKind
  }

  /** Every sounding source is one the engine still tracks, so a teardown
      can stop it. */
  predicate RunningTracked(prims: seq<Primitive>, oscs: map<string, nat>) {
    forall h :: 0 <= h < |prims| && prims[h].playback == Running ==> h in oscs.Values
  }

  /** Every primitive with an edge is one the engine still tracks, so a
      teardown can disconnect it. */
  predicate WiredTracked(prims: seq<Primitive>, m: map<string, nat>) {
    forall h :: 0 <= h < |prims| && prims[h].outputs != [] ==> h in m.Values
  }

  /** Nothing sounds and nothing is connected. */
  predicate Silent(prims: seq<Primitive>) {
    forall h :: 0 <= h < |prims| ==> prims[h].playback != Running && prims[h].outputs == []
  }

  /** The construction loop, from empty maps: each node gets the shared
      destination or a fresh primitive appended to the arena; a fresh
      oscillator is also recorded in the oscillator map. A later node with
      an id already seen overwrites the earlier entry, as Map.set does. */
  function Materialized(prims: seq<Primitive>, nodes: seq<GraphNode>): (b: Built)
    requires |prims| > 0
    ensures |b.prims| >= |prims| && b.prims[..|prims|] == prims
    ensures HandlesIn(b.nodeMap, b.prims)
    ensures OscillatorHandles(b.oscMap, b.prims)
    ensures forall id :: id in b.oscMap ==> b.oscMap[id] >= |prims|
    decreases |nodes|
  {
    if nodes == [] then Built(prims, map[], map[])
    else
      var b := Materialized(prims, nodes[..|nodes| - 1]);
      var gn := nodes[|nodes| - 1];
      match Construct(gn)
      case ToSink => b.(nodeMap := b.nodeMap[gn.id := 0])
      case Fresh(p) =>
        var h := |b.prims|;
        Built(b.prims + [p], b.nodeMap[gn.id := h],
              if p.kind == OscillatorKind then b.oscMap[gn.id := h] else b.oscMap)
  }

  /** The connection loop: a connect call for each connection whose
      endpoints both have a primitive, in stored order; the others are
      skipped. */
  function WireAll(prims: seq<Primitive>, m: map<string, nat>, cs: seq<Connection>): (r: seq<Primitive>)
    requires HandlesIn(m, prims)
    ensures |r| == |prims|
    decreases |cs|
  {
    if cs == [] then prims
    else
      var r := WireAll(prims, m, cs[..|cs| - 1]);
      var c := cs[|cs| - 1];
      if c.from.nodeId in m && c.to.nodeId in m then
        r[m[c.from.nodeId] := Connected(r[m[c.from.nodeId]], m[c.to.nodeId], r[m[c.to.nodeId]].kind)]
      else r
  }

  /** The teardown both buildGraph and stopGraph begin with: stop the
      tracked sources, disconnect every tracked primitive. */
  function TornDown(prims: seq<Primitive>, oscs: set<nat>, all: set<nat>): seq<Primitive> {
    Apply(Apply(prims, oscs, Stopped), all, Disconnected)
  }

  /** The parameters a primitive of each kind lets updateParam change. */
  function Whitelist(k: PrimitiveKind): set<string> {
    match k
    case OscillatorKind => {"type", "frequency", "detune"}
    case GainKind => {"gain"}
    case SinkKind => {}
    case AnalyserKind => {"fftSize"}
    case BiquadFilterKind => {"type", "frequency", "Q"}
    case DelayKind => {"delayTime"}
    case StereoPannerKind => {"pan"}
    case DynamicsCompressorKind => {"threshold", "knee", "ratio", "attack", "release"}
  }

  /** One live edit of a primitive: a whitelisted key takes the value (the
      analyser's through Number; a value Number cannot read leaves it as
      it was); any other key changes nothing. */
  function Retune(p: Primitive, key: string, value: ParamValue): Primitive {
    if key !in Whitelist(p.kind) then p
    else if p.kind == AnalyserKind then
      match ToNumber(value)
      case Some(x) => p.(controls := p.controls[key := Num(x)])
      case None => p
    else p.(controls := p.controls[key := value])
  }

  /** updateParam, as a value: an unmaterialized id changes nothing. */
  function Retuned(prims: seq<Primitive>, m: map<string, nat>, id: string, key: string, value: ParamValue): seq<Primitive>
    requires HandlesIn(m, prims)
  {
    if id !in m then prims else prims[m[id] := Retune(prims[m[id]], key, value)]
  }

  /** Visits every handle in hs once, in no particular order, applying f to
      the primitive it names: the loop shape of `forEach` over a map's
      values. */
  method ApplyEach(base: seq<Primitive>, hs: set<nat>, f: Primitive -> Primitive) returns (ps: seq<Primitive>)
    requires forall h :: h in hs ==> h < |base|
    ensures ps == Apply(base, hs, f)
  {
    ps := base;
    var todo := hs;
    while todo != {}
      invariant todo <= hs
      invariant |ps| == |base|
      invariant forall h :: h in todo ==> ps[h] == base[h]
      invariant ps == Apply(base, hs - todo, f)
      decreases |todo|
    {
      var h :| h in todo;
      ApplyStep(base, hs - todo, h, f);
      ps := ps[h := f(ps[h])];
      todo := todo - {h};
    }
  }

  // ---------------------------------------------------------------------
  // The engine
  // ---------------------------------------------------------------------

  class Engine {
    /** Every primitive the context created; prims[0] is its destination. */
    var prims: seq<Primitive>
    /** nodesRef: node id to primitive. */
    var nodeMap: map<string, nat>
    /** oscillatorsRef: node id to oscillator. */
    var oscMap: map<string, nat>

    ghost predicate Valid()
      reads this
    {
      && |prims| > 0 && prims[0].kind == SinkKind
      && HandlesIn(nodeMap, prims)
      && OscillatorHandles(oscMap, prims)
      && RunningTracked(prims, oscMap)
      && WiredTracked(prims, nodeMap)
    }

    /** A synchronizer over a fresh context, tracking nothing. */
    constructor ()
      ensures Valid()
      ensures prims == [SinkPrimitive] && nodeMap == map[] && oscMap == map[]
    {
      prims := [SinkPrimitive];
      nodeMap := map[];
      oscMap := map[];
    }

    /** The first teardown loop: `stop()` every tracked source. */
    method StopTracked()
      requires Valid()
      modifies this
      ensures Valid()
      ensures nodeMap == old(nodeMap) && oscMap == old(oscMap)
      ensures prims == Apply(old(prims), oscMap.Values, Stopped)
    {
      var ps := ApplyEach(prims, oscMap.Values, Stopped);
      ApplyKeepsKinds(prims, oscMap.Values, Stopped);
      prims := ps;
    }

    /** The second teardown loop: `disconnect()` every tracked primitive. */
    method DisconnectTracked()
      requires Valid()
      modifies this
      ensures Valid()
      ensures nodeMap == old(nodeMap) && oscMap == old(oscMap)
      ensures prims == Apply(old(prims), nodeMap.Values, Disconnected)
    {
      var ps := ApplyEach(prims, nodeMap.Values, Disconnected);
      ApplyKeepsKinds(prims, nodeMap.Values, Disconnected);
      prims := ps;
    }

    /** Stops every tracked source, disconnects every tracked primitive and
      forgets them all. */
    method TearDown()
      requires Valid()
      modifies this
      ensures Valid()
      ensures prims == TornDown(old(prims), old(oscMap).Values, old(nodeMap).Values)
      ensures nodeMap == map[] && oscMap == map[]
    {
      ghost var before := prims;
      StopTracked();
      DisconnectTracked();
      TornDownSilent(before, oscMap.Values, nodeMap.Values);
      nodeMap := map[];
      oscMap := map[];
    }

    /** The construction loop of buildGraph, run on emptied maps. */
    method CreateAll(nodes: seq<GraphNode>)
      requires Valid() && nodeMap == map[] && oscMap == map[]
      modifies this
      ensures Valid()
      ensures Materialized(old(prims), nodes) == Built(prims, nodeMap, oscMap)
      ensures Silent(prims)
    {
      ghost var torn := prims;
      for i := 0 to |nodes|
        invariant Materialized(torn, nodes[..i]) == Built(prims, nodeMap, oscMap)
      {
        var gn := nodes[i];
        assert nodes[..i + 1][..i] == nodes[..i];
        var made := Construct(gn);
        match made {
          case ToSink =>
            nodeMap := nodeMap[gn.id := 0];
          case Fresh(p) =>
            var h := |prims|;
            prims := prims + [p];
            nodeMap := nodeMap[gn.id := h];
            if p.kind == OscillatorKind {
              oscMap := oscMap[gn.id := h];
            }
        }
      }
      assert nodes[..|nodes|] == nodes;
      MaterializedSilent(torn, nodes);
    }

    /** The connection loop of buildGraph. */
    method WireConnections(connections: seq<Connection>)
      requires Valid()
      modifies this
      ensures Valid()
      ensures nodeMap == old(nodeMap) && oscMap == old(oscMap)
      ensures prims == WireAll(old(prims), nodeMap, connections)
    {
      ghost var built := prims;
      for i := 0 to |connections|
        invariant nodeMap == old(nodeMap) && oscMap == old(oscMap)
        invariant prims == WireAll(built, nodeMap, connections[..i])
      {
        var conn := connections[i];
        assert connections[..i + 1][..i] == connections[..i];
        if conn.from.nodeId in nodeMap && conn.to.nodeId in nodeMap {
          var from, to := nodeMap[conn.from.nodeId], nodeMap[conn.to.nodeId];
          prims := prims[from := Connected(prims[from], to, prims[to].kind)];
        }
      }
      assert connections[..|connections|] == connections;
      WireAllKeepsKindAndPlayback(built, nodeMap, connections);
      WireAllOutputsTracked(built, nodeMap, connections);
    }

    /** The start loop of buildGraph. start() is not guarded, so every
      tracked source must still be unstarted. */
    method StartOscillators()
      requires Valid()
      requires forall h :: h in oscMap.Values ==> h < |prims| && prims[h].playback == Unstarted
      modifies this
      ensures Valid()
      ensures nodeMap == old(nodeMap) && oscMap == old(oscMap)
      ensures prims == Apply(old(prims), oscMap.Values, Launched)
      ensures forall h :: h in oscMap.Values ==> prims[h].playback == Running
    {
      var ps := ApplyEach(prims, oscMap.Values, Launched);
      ApplyKeepsKinds(prims, oscMap.Values, Launched);
      prims := ps;
    }

    /** buildGraph: tear down, construct one primitive per node, wire every
      connection whose endpoints exist, then start every oscillator. */
    method BuildGraph(nodes: seq<GraphNode>, connections: seq<Connection>)
      requires Valid()
      modifies this
      ensures Valid()
      ensures forall h :: 0 <= h < |prims| ==> (prims[h].playback == Running <==> h in oscMap.Values)
      ensures
        var b := Materialized(TornDown(old(prims), old(oscMap).Values, old(nodeMap).Values), nodes);
        && nodeMap == b.nodeMap && oscMap == b.oscMap
        && prims == Apply(WireAll(b.prims, b.nodeMap, connections), b.oscMap.Values, Launched)
    {
      TearDown();
      ghost var torn := prims;
      CreateAll(nodes);
      WireConnections(connections);
      FreshOscillatorsUnstarted(torn, nodes, connections);
      StartOscillators();
    }

    /** stopGraph: the teardown alone. */
    method StopGraph()
      requires Valid()
      modifies this
      ensures Valid()
      ensures prims == TornDown(old(prims), old(oscMap).Values, old(nodeMap).Values)
      ensures nodeMap == map[] && oscMap == map[]
      ensures Silent(prims)
    {
      TearDown();
    }

    /** updateParam: forwards one edit to the live primitive of the node,
      if it has one. */
    method UpdateParam(nodeId: string, key: string, value: ParamValue)
      requires Valid()
      modifies this
      ensures Valid()
      ensures nodeMap == old(nodeMap) && oscMap == old(oscMap)
      ensures prims == Retuned(old(prims), nodeMap, nodeId, key, value)
    {
      if nodeId !in nodeMap {
        return;
      }
      var h := nodeMap[nodeId];
      prims := prims[h := Retune(prims[h], key, value)];
    }

    /** getAnalyserNode: the node's primitive if it is an analyser. */
    method GetAnalyserNode(nodeId: string) returns (r: Option<nat>)
      requires Valid()
      ensures r.Some? <==> nodeId in nodeMap && prims[nodeMap[nodeId]].kind == AnalyserKind
      ensures r.Some? ==> r.value == nodeMap[nodeId]
    {
      if nodeId in nodeMap && prims[nodeMap[nodeId]].kind == AnalyserKind {
        return Some(nodeMap[nodeId]);
      }
      return None;
    }
  }

  // ---------------------------------------------------------------------
  // Properties
  // ---------------------------------------------------------------------

  /** Applying f to one more handle updates that one primitive. */
  lemma ApplyStep(base: seq<Primitive>, done: set<nat>, h: nat, f: Primitive -> Primitive)
    requires h !in done && h < |base|
    ensures Apply(base, done + {h}, f) == Apply(base, done, f)[h := f(base[h])]
  {
  }

  /** Apply acts on each handle alone. */
  lemma ApplyAt(prims: seq<Primitive>, hs: set<nat>, f: Primitive -> Primitive, h: nat)
    requires h < |prims|
    ensures Apply(prims, hs, f)[h] == if h in hs then f(prims[h]) else prims[h]
  {
  }

  /** An operation that keeps the kind of a primitive keeps the kinds of
      the arena. */
  lemma ApplyKeepsKinds(prims: seq<Primitive>, hs: set<nat>, f: Primitive -> Primitive)
    requires forall p: Primitive :: f(p).kind == p.kind
    ensures forall i :: 0 <= i < |prims| ==> Apply(prims, hs, f)[i].kind == prims[i].kind
  {
  }

  /** Wiring keeps kinds, playback and controls. */
  lemma {:induction false} WireAllKeepsKindAndPlayback(prims: seq<Primitive>, m: map<string, nat>, cs: seq<Connection>)
    requires HandlesIn(m, prims)
    ensures forall h :: 0 <= h < |prims| ==>
      WireAll(prims, m, cs)[h].kind == prims[h].kind
      && WireAll(prims, m, cs)[h].playback == prims[h].playback
      && WireAll(prims, m, cs)[h].controls == prims[h].controls
    decreases |cs|
  {
    if cs != [] {
      WireAllKeepsKindAndPlayback(prims, m, cs[..|cs| - 1]);
    }
  }

  /** Wiring adds edges only to primitives the map names. */
  lemma {:induction false} WireAllOutputsTracked(prims: seq<Primitive>, m: map<string, nat>, cs: seq<Connection>)
    requires HandlesIn(m, prims)
    ensures forall h :: 0 <= h < |prims| && WireAll(prims, m, cs)[h].outputs != prims[h].outputs ==> h in m.Values
    decreases |cs|
  {
    if cs != [] {
      WireAllOutputsTracked(prims, m, cs[..|cs| - 1]);
    }
  }

  /** Every oscillator the construction loop records is fresh and, after
      wiring, still unstarted: the unguarded start loop never throws. */
  lemma FreshOscillatorsUnstarted(torn: seq<Primitive>, nodes: seq<GraphNode>, cs: seq<Connection>)
    requires |torn| > 0
    ensures forall h :: h in Materialized(torn, nodes).oscMap.Values ==>
      h < |Materialized(torn, nodes).prims|
      && WireAll(Materialized(torn, nodes).prims, Materialized(torn, nodes).nodeMap, cs)[h].playback == Unstarted
  {
    var b := Materialized(torn, nodes);
    FreshPrimitivesUnstarted(torn, nodes);
    WireAllKeepsKindAndPlayback(b.prims, b.nodeMap, cs);
  }

  /** Every primitive the construction loop appends is unstarted and has no
      edges. */
  lemma {:induction false} FreshPrimitivesUnstarted(prims: seq<Primitive>, nodes: seq<GraphNode>)
    requires |prims| > 0
    ensures forall h :: |prims| <= h < |Materialized(prims, nodes).prims| ==>
      Materialized(prims, nodes).prims[h].playback == Unstarted
      && Materialized(prims, nodes).prims[h].outputs == []
    decreases |nodes|
  {
    if nodes != [] {
      FreshPrimitivesUnstarted(prims, nodes[..|nodes| - 1]);
    }
  }

  // ---------------------------------------------------------------------
  // createAudioNode against the registry
  // ---------------------------------------------------------------------

  /** The fallbacks as a record: later entries win, as in ControlsOf. */
  function FallbackMap(fs: seq<Fallback>): map<string, ParamValue>
    decreases |fs|
  {
    if fs == [] then map[]
    else FallbackMap(fs[..|fs| - 1])[fs[|fs| - 1].key := fs[|fs| - 1].value]
  }

  /** ControlsOf sets exactly the fallbacks' keys, each to the node's own
      value when it has one and to the fallback otherwise. */
  lemma {:induction false} ControlsOfOverlay(p: map<string, ParamValue>, fs: seq<Fallback>)
    ensures ControlsOf(p, fs).Keys == FallbackMap(fs).Keys
    ensures forall k :: k in ControlsOf(p, fs) ==>
      ControlsOf(p, fs)[k] == if k in p then p[k] else FallbackMap(fs)[k]
    decreases |fs|
  {
    if fs != [] {
      ControlsOfOverlay(p, fs[..|fs| - 1]);
    }
  }

  /** The fallbacks hard-coded in createAudioNode are the registry's
      declared defaults, key for key, for every type set with `??`. */
  lemma FallbacksAreDefaults(t: NodeType)
    requires t != Analyser
    ensures FallbackMap(Fallbacks(t)) == DefaultParams(t)
  {
    DefaultParamsListed(t);
    var fs := Fallbacks(t);
    match t
    case Oscillator => FallbackMapOfThree(fs[0], fs[1], fs[2]);
    case Gain => FallbackMapOfOne(fs[0]);
    case Destination =>
    case BiquadFilter => FallbackMapOfThree(fs[0], fs[1], fs[2]);
    case Delay => FallbackMapOfOne(fs[0]);
    case StereoPanner => FallbackMapOfOne(fs[0]);
    case DynamicsCompressor => FallbackMapOfFive(fs[0], fs[1], fs[2], fs[3], fs[4]);
  }

  lemma FallbackMapOfOne(a: Fallback)
    ensures FallbackMap([a]) == map[a.key := a.value]
  {
    assert [a][..0] == [];
  }

  lemma FallbackMapOfThree(a: Fallback, b: Fallback, c: Fallback)
    ensures FallbackMap([a, b, c]) == map[a.key := a.value, b.key := b.value, c.key := c.value]
  {
    assert [a, b, c][..2] == [a, b];
    FallbackMapOfTwo(a, b);
  }

  lemma FallbackMapOfTwo(a: Fallback, b: Fallback)
    ensures FallbackMap([a, b]) == map[a.key := a.value, b.key := b.value]
  {
    assert [a, b][..1] == [a];
    FallbackMapOfOne(a);
  }

  lemma FallbackMapOfFive(a: Fallback, b: Fallback, c: Fallback, d: Fallback, e: Fallback)
    ensures FallbackMap([a, b, c, d, e]) ==
      map[a.key := a.value, b.key := b.value, c.key := c.value, d.key := d.value, e.key := e.value]
  {
    assert [a, b, c, d, e][..4] == [a, b, c, d];
    assert [a, b, c, d][..3] == [a, b, c];
    FallbackMapOfThree(a, b, c);
  }

  /** The analyser's `|| 2048` agrees with its registry default, the
      string "2048", once Number reads it. */
  lemma AnalyserFallbackIsDefault()
    ensures "fftSize" in DefaultParams(Analyser)
    ensures ToNumber(DefaultParams(Analyser)["fftSize"]) == Some(2048.0)
    ensures FftSize(map[]) == 2048.0
  {
    DefaultParamsListed(Analyser);
    var s := "2048";
    assert AllDigits(s);
    assert s[..3] == "204" && s[..2] == "20" && s[..1] == "2" && s[..0] == "";
    assert DigitsValue(s[..1]) == 2;
    assert DigitsValue(s[..2]) == 20;
    assert s[..3][..2] == s[..2] && s[..3][2] == '4';
    assert DigitsValue(s[..3]) == 204;
    assert s[..3] == s[..|s| - 1];
    assert DigitsValue(s) == 2048;
  }

  /** createAudioNode yields the shared destination exactly for a
      destination node, and otherwise a fresh, unwired, unstarted primitive
      of the node's class whose controls are the registry's keys, each set
      to the node's value or else to the declared default. */
  lemma ConstructFollowsRegistry(gn: GraphNode)
    ensures Construct(gn).ToSink? <==> gn.nodeType == Destination
    ensures Construct(gn).Fresh? ==>
      var p := Construct(gn).prim;
      && p.kind == KindOf(gn.nodeType) && p.outputs == [] && p.playback == Unstarted
      && p.controls.Keys == ParamKeys(gn.nodeType)
    ensures Construct(gn).Fresh? && gn.nodeType != Analyser ==>
      forall k :: k in Construct(gn).prim.controls ==>
        k in DefaultParams(gn.nodeType) &&
        Construct(gn).prim.controls[k] == if k in gn.params then gn.params[k] else DefaultParams(gn.nodeType)[k]
    ensures gn.nodeType == Analyser ==>
      Construct(gn).prim.controls == map["fftSize" := Num(FftSize(gn.params))]
  {
    var t := gn.nodeType;
    ParamKeysListed(t);
    DefaultParamsExact(t);
    if t != Destination && t != Analyser {
      ControlsOfOverlay(gn.params, Fallbacks(t));
      FallbacksAreDefaults(t);
    }
  }

  /** The keys updateParam forwards for a node are exactly the keys the
      registry declares for its type. */
  lemma WhitelistIsRegistryKeys(t: NodeType)
    ensures Whitelist(KindOf(t)) == ParamKeys(t)
  {
    ParamKeysListed(t);
    match t
    case Oscillator =>
    case Gain =>
    case Destination =>
    case Analyser =>
    case BiquadFilter =>
    case Delay =>
    case StereoPanner =>
    case DynamicsCompressor =>
  }

  /** A live edit changes at most the one control it names: class, edges
      and playback stay, every other control stays, a key the class does
      not handle changes nothing, and a handled key takes the value (the
      analyser's only when Number reads it). */
  lemma RetuneTouchesOneControl(p: Primitive, key: string, value: ParamValue)
    ensures var r := Retune(p, key, value);
      && r.kind == p.kind && r.outputs == p.outputs && r.playback == p.playback
      && (forall k :: k != key ==> (k in r.controls <==> k in p.controls))
      && (forall k :: k != key && k in p.controls ==> r.controls[k] == p.controls[k])
    ensures key !in Whitelist(p.kind) ==> Retune(p, key, value) == p
    ensures key in Whitelist(p.kind) && p.kind != AnalyserKind ==>
      key in Retune(p, key, value).controls && Retune(p, key, value).controls[key] == value
    ensures key in Whitelist(p.kind) && p.kind == AnalyserKind && ToNumber(value).Some? ==>
      key in Retune(p, key, value).controls && Retune(p, key, value).controls[key] == Num(ToNumber(value).value)
  {
  }

  // ---------------------------------------------------------------------
  // Teardown and the tracking invariant
  // ---------------------------------------------------------------------

  /** With every sounding source among oscs and every wired primitive
      among all, the teardown silences the whole arena and changes
      nothing but playback and edges. */
  lemma TornDownSilent(prims: seq<Primitive>, oscs: set<nat>, all: set<nat>)
    requires forall h :: 0 <= h < |prims| && prims[h].playback == Running ==> h in oscs
    requires forall h :: 0 <= h < |prims| && prims[h].outputs != [] ==> h in all
    ensures |TornDown(prims, oscs, all)| == |prims|
    ensures Silent(TornDown(prims, oscs, all))
    ensures forall h :: 0 <= h < |prims| ==>
      TornDown(prims, oscs, all)[h].kind == prims[h].kind
      && TornDown(prims, oscs, all)[h].controls == prims[h].controls
  {
    forall h | 0 <= h < |prims|
      ensures TornDown(prims, oscs, all)[h] == TornDownOne(prims[h], h in oscs, h in all)
    {
      TornDownAt(prims, oscs, all, h);
    }
  }

  /** What the teardown does to one primitive. */
  function TornDownOne(p: Primitive, stop: bool, disconnect: bool): Primitive {
    var q := if stop then Stopped(p) else p;
    if disconnect then Disconnected(q) else q
  }

  lemma TornDownAt(prims: seq<Primitive>, oscs: set<nat>, all: set<nat>, h: nat)
    requires h < |prims|
    ensures TornDown(prims, oscs, all)[h] == TornDownOne(prims[h], h in oscs, h in all)
  {
    ApplyAt(prims, oscs, Stopped, h);
    ApplyAt(Apply(prims, oscs, Stopped), all, Disconnected, h);
  }

  /** A second teardown of the same handles changes nothing. */
  lemma TornDownIdempotent(prims: seq<Primitive>, oscs: set<nat>, all: set<nat>)
    ensures TornDown(TornDown(prims, oscs, all), oscs, all) == TornDown(prims, oscs, all)
  {
    var once := TornDown(prims, oscs, all);
    forall h | 0 <= h < |prims|
      ensures TornDown(once, oscs, all)[h] == once[h]
    {
      TornDownAt(prims, oscs, all, h);
      TornDownAt(once, oscs, all, h);
    }
  }

  /** A teardown that tracks nothing changes nothing: a second stopGraph,
      which runs on the maps the first one emptied, leaves the arena as the
      first one left it. */
  lemma TornDownUntracked(prims: seq<Primitive>)
    ensures TornDown(prims, {}, {}) == prims
  {
    forall h | 0 <= h < |prims|
      ensures TornDown(prims, {}, {})[h] == prims[h]
    {
      TornDownAt(prims, {}, {}, h);
    }
  }

  /** Construction on a silent arena leaves it silent. */
  lemma MaterializedSilent(prims: seq<Primitive>, nodes: seq<GraphNode>)
    requires |prims| > 0 && Silent(prims)
    ensures Silent(Materialized(prims, nodes).prims)
  {
    var b := Materialized(prims, nodes);
    FreshPrimitivesUnstarted(prims, nodes);
    forall h | 0 <= h < |prims|
      ensures b.prims[h] == prims[h]
    {
      assert b.prims[..|prims|][h] == b.prims[h];
    }
  }

  // ---------------------------------------------------------------------
  // What the build materializes and wires
  // ---------------------------------------------------------------------

  /** Every node gets an entry in the node map, and no id that is not a
      node's; only ids of the node map are in the oscillator map. */
  lemma {:induction false} MaterializedTracksEveryNode(prims: seq<Primitive>, nodes: seq<GraphNode>)
    requires |prims| > 0
    ensures Materialized(prims, nodes).nodeMap.Keys == NodeIds(nodes)
    ensures Materialized(prims, nodes).oscMap.Keys <= Materialized(prims, nodes).nodeMap.Keys
    decreases |nodes|
  {
    if nodes != [] {
      var init := nodes[..|nodes| - 1];
      MaterializedTracksEveryNode(prims, init);
      assert nodes == init + [nodes[|nodes| - 1]];
      NodeIdsAppend(init, nodes[|nodes| - 1]);
    }
  }

  /** Appending a node adds its id. */
  lemma NodeIdsAppend(init: seq<GraphNode>, gn: GraphNode)
    ensures NodeIds(init + [gn]) == NodeIds(init) + {gn.id}
  {
    assert forall n :: n in init + [gn] <==> n in init || n == gn;
  }

  /** Node gn sits where construction puts it: at the destination
      (handle 0) for a destination node, otherwise at the fresh primitive
      createAudioNode made for it, at a handle from `start` on; in the
      oscillator map, under the same handle, exactly when it is an
      oscillator node. */
  predicate Placed(b: Built, start: nat, gn: GraphNode) {
    && gn.id in b.nodeMap
    && (Construct(gn).ToSink? ==> b.nodeMap[gn.id] == 0)
    && (Construct(gn).Fresh? ==>
          start <= b.nodeMap[gn.id] < |b.prims| && b.prims[b.nodeMap[gn.id]] == Construct(gn).prim)
    && (gn.id in b.oscMap <==> gn.nodeType == Oscillator)
    && (gn.id in b.oscMap ==> b.oscMap[gn.id] == b.nodeMap[gn.id])
  }

  /** With unique ids, every node is placed. */
  lemma {:induction false} MaterializedPlacesEachNode(prims: seq<Primitive>, nodes: seq<GraphNode>, i: nat)
    requires |prims| > 0 && UniqueNodeIds(nodes) && i < |nodes|
    ensures Placed(Materialized(prims, nodes), |prims|, nodes[i])
    decreases |nodes|
  {
    var init := nodes[..|nodes| - 1];
    if i < |nodes| - 1 {
      assert init[i] == nodes[i];
      assert UniqueNodeIds(init);
      MaterializedPlacesEachNode(prims, init, i);
      PlacedStaysPlaced(prims, nodes, i);
    } else {
      forall j | 0 <= j < |init| ensures init[j].id != nodes[i].id {
        assert init[j] == nodes[j];
      }
      PlacesLast(prims, nodes);
    }
  }

  /** A later node with another id leaves an earlier node's placement. */
  lemma PlacedStaysPlaced(prims: seq<Primitive>, nodes: seq<GraphNode>, i: nat)
    requires |prims| > 0 && i < |nodes| - 1
    requires Placed(Materialized(prims, nodes[..|nodes| - 1]), |prims|, nodes[i])
    requires nodes[|nodes| - 1].id != nodes[i].id
    ensures Placed(Materialized(prims, nodes), |prims|, nodes[i])
  {
    var b0 := Materialized(prims, nodes[..|nodes| - 1]);
    var b := Materialized(prims, nodes);
    var last := nodes[|nodes| - 1];
    match Construct(last)
    case ToSink =>
      PlacedAfterSink(b0, |prims|, nodes[i], last.id);
      assert b == b0.(nodeMap := b0.nodeMap[last.id := 0]);
    case Fresh(p) =>
      PlacedAfterFresh(b0, |prims|, nodes[i], last.id, p);
      assert b == Built(b0.prims + [p], b0.nodeMap[last.id := |b0.prims|],
                        if p.kind == OscillatorKind then b0.oscMap[last.id := |b0.prims|] else b0.oscMap);
  }

  lemma PlacedAfterSink(b0: Built, start: nat, gn: GraphNode, id: string)
    requires Placed(b0, start, gn) && id != gn.id
    ensures Placed(b0.(nodeMap := b0.nodeMap[id := 0]), start, gn)
  {
  }

  lemma PlacedAfterFresh(b0: Built, start: nat, gn: GraphNode, id: string, p: Primitive)
    requires Placed(b0, start, gn) && id != gn.id
    ensures Placed(Built(b0.prims + [p], b0.nodeMap[id := |b0.prims|],
                         if p.kind == OscillatorKind then b0.oscMap[id := |b0.prims|] else b0.oscMap),
                   start, gn)
  {
    if Construct(gn).Fresh? {
      assert (b0.prims + [p])[b0.nodeMap[gn.id]] == b0.prims[b0.nodeMap[gn.id]];
    }
  }

  /** The last node is placed when no earlier node shares its id. */
  lemma PlacesLast(prims: seq<Primitive>, nodes: seq<GraphNode>)
    requires |prims| > 0 && |nodes| > 0
    requires forall j :: 0 <= j < |nodes| - 1 ==> nodes[j].id != nodes[|nodes| - 1].id
    ensures Placed(Materialized(prims, nodes), |prims|, nodes[|nodes| - 1])
  {
    var init := nodes[..|nodes| - 1];
    var gn := nodes[|nodes| - 1];
    MaterializedTracksEveryNode(prims, init);
    ConstructFollowsRegistry(gn);
    assert gn.id !in NodeIds(init);
  }

  /** The connections that add an edge out of handle h: both endpoints
      materialized, the source at h, the target not an oscillator. */
  function LeavesFrom(prims: seq<Primitive>, m: map<string, nat>, h: nat): Connection -> bool {
    (c: Connection) =>
      && c.from.nodeId in m && c.to.nodeId in m && m[c.from.nodeId] == h
      && m[c.to.nodeId] < |prims| && prims[m[c.to.nodeId]].kind != OscillatorKind
  }

  /** Every connection of cs has a materialized target. */
  predicate AllResolvable(m: map<string, nat>, cs: seq<Connection>) {
    forall c :: c in cs ==> c.to.nodeId in m
  }

  /** The handles a run of connections leads to. */
  function TargetsOf(m: map<string, nat>, cs: seq<Connection>): (r: seq<nat>)
    requires AllResolvable(m, cs)
    ensures |r| == |cs|
  {
    seq(|cs|, k requires 0 <= k < |cs| => m[cs[k].to.nodeId])
  }

  lemma LeavingResolvable(prims: seq<Primitive>, m: map<string, nat>, h: nat, cs: seq<Connection>)
    ensures AllResolvable(m, Filter(cs, LeavesFrom(prims, m, h)))
  {
    FilterMembership(cs, LeavesFrom(prims, m, h));
  }

  /** Wiring, handle by handle: the destination gains no edge; any other
      primitive gains, in stored order, one edge to the target of each
      connection that leaves it with both endpoints materialized and a
      target that is not an oscillator. */
  lemma {:induction false} WireAllOutputs(prims: seq<Primitive>, m: map<string, nat>, cs: seq<Connection>, h: nat)
    requires HandlesIn(m, prims) && h < |prims|
    ensures AllResolvable(m, Filter(cs, LeavesFrom(prims, m, h)))
    ensures WireAll(prims, m, cs)[h].outputs ==
      if prims[h].kind == SinkKind then prims[h].outputs
      else prims[h].outputs + TargetsOf(m, Filter(cs, LeavesFrom(prims, m, h)))
    decreases |cs|
  {
    LeavingResolvable(prims, m, h, cs);
    if cs != [] {
      var p := LeavesFrom(prims, m, h);
      var init := cs[..|cs| - 1];
      var c := cs[|cs| - 1];
      WireAllOutputs(prims, m, init, h);
      WireAllKeepsKindAndPlayback(prims, m, init);
      assert cs == init + [c];
      FilterAppend(init, [c], p);
      if prims[h].kind != SinkKind {
        if p(c) {
          assert Filter([c], p) == [c];
          TargetsOfAppend(m, Filter(init, p), [c]);
        } else {
          assert Filter([c], p) == [];
          assert Filter(cs, p) == Filter(init, p);
        }
      }
    }
  }

  /** No edge the wiring adds leads into an oscillator: each new edge of a
      primitive goes to a primitive of the arena that is not an oscillator,
      and the destination gains none. */
  lemma WireAllNeverIntoOscillator(prims: seq<Primitive>, m: map<string, nat>, cs: seq<Connection>, h: nat, j: nat)
    requires HandlesIn(m, prims) && h < |prims|
    requires |prims[h].outputs| <= j < |WireAll(prims, m, cs)[h].outputs|
    ensures prims[h].kind != SinkKind
    ensures WireAll(prims, m, cs)[h].outputs[j] < |prims|
    ensures prims[WireAll(prims, m, cs)[h].outputs[j]].kind != OscillatorKind
  {
    WireAllOutputs(prims, m, cs, h);
    var kept := Filter(cs, LeavesFrom(prims, m, h));
    FilterMembership(cs, LeavesFrom(prims, m, h));
    var k := j - |prims[h].outputs|;
    assert kept[k] in kept;
  }

  lemma TargetsOfAppend(m: map<string, nat>, a: seq<Connection>, b: seq<Connection>)
    requires AllResolvable(m, a) && AllResolvable(m, b)
    ensures AllResolvable(m, a + b)
    ensures TargetsOf(m, a + b) == TargetsOf(m, a) + TargetsOf(m, b)
  {
  }
}

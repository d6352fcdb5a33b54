/** The code serializer (src/utils/codeGenerator.ts): turns a graph into the
    lines of an equivalent Web Audio program. Lines are modelled as abstract
    statements; their textual rendering (number formatting, joining with
    newlines) is left out. */
module CodeGenerator {
  import opened Wrappers
  import opened AudioTypes
  import opened Collections
  import opened Decimal
  import opened NodeRegistry
  import opened GraphState

  /** The single comment produced for an empty graph. */
  const Placeholder: string := "// ノードを追加して接続してください"

  /** The reserved name of the output sink. */
  const SinkName: string := "ctx.destination"

  /** How a configured value is written: `name.key = '<v>'`,
      `name.key.value = <v>`, or `name.key = <v>`. */
  datatype Form = Quoted | AudioParamValue | Plain

  /** One line of the generated program. */
  datatype Stmt =
    | Comment(text: string)                                   // a comment line
    | Blank                                                   // an empty line
    | NewContext                                              // const ctx = new AudioContext();
    | Create(name: string, factory: string, arg: Option<nat>) // const name = ctx.factory(arg);
    | Configure(name: string, key: string, value: ParamValue, form: Form)
    | Connect(from: string, to: string)                       // from.connect(to);
    | Start(name: string)                                     // name.start();

  // ---------------------------------------------------------------------
  // Name assignment
  // ---------------------------------------------------------------------

  /** The name of the k-th node of type t: the type tag, suffixed with k
      from the second node of that type on. */
  function VarName(t: NodeType, k: nat): string {
    TypeName(t) + (if k > 1 then NatToString(k) else "")
  }

  /** How many nodes of type t the list holds. */
  function CountOfType(ns: seq<GraphNode>, t: NodeType): nat
    decreases |ns|
  {
    if ns == [] then 0
    else CountOfType(ns[..|ns| - 1], t) + (if ns[|ns| - 1].nodeType == t then 1 else 0)
  }

  /** The names the first loop records, by node id: the sink name for a
      destination, otherwise the per-type counted name. A later node with
      an id already seen overwrites the earlier entry, as Map.set does. */
  function VarNames(ns: seq<GraphNode>): map<string, string>
    decreases |ns|
  {
    if ns == [] then map[]
    else
      var n := ns[|ns| - 1];
      VarNames(ns[..|ns| - 1])[n.id := if n.nodeType == Destination then SinkName
                                        else VarName(n.nodeType, CountOfType(ns, n.nodeType))]
  }

  // ---------------------------------------------------------------------
  // The create/configure block of one node
  // ---------------------------------------------------------------------

  /** `params[key] ?? fallback`. */
  function Lookup(params: map<string, ParamValue>, key: string, fallback: ParamValue): ParamValue {
    if key in params then params[key] else fallback
  }

  /** JavaScript truthiness of a parameter value. */
  predicate Truthy(v: ParamValue) {
    match v
    case Num(x) => x != 0.0
    case Str(s) => s != ""
  }

  /** The detune line is written only for a present, truthy, non-zero value. */
  predicate DetuneWritten(p: map<string, ParamValue>) {
    "detune" in p && Truthy(p["detune"]) && p["detune"] != Num(0.0)
  }

  /** One unconditional configure line of a block: the key, the fallback the
      serializer writes when the node has no value, and how it is written. */
  datatype Setting = Setting(key: string, fallback: ParamValue, form: Form)

  /** The factory a node type is created with, and its argument. */
  function Factory(t: NodeType): string {
    match t
    case Oscillator => "createOscillator"
    case Gain => "createGain"
    case Destination => ""
    case Analyser => "createAnalyser"
    case BiquadFilter => "createBiquadFilter"
    case Delay => "createDelay"
    case StereoPanner => "createStereoPanner"
    case DynamicsCompressor => "createDynamicsCompressor"
  }

  function FactoryArg(t: NodeType): Option<nat> {
    if t == Delay then Some(5) else None
  }

  /** The unconditional configure lines of each case of the serializer's
      switch, in the order it writes them. */
  function Settings(t: NodeType): seq<Setting> {
    match t
    case Oscillator =>
      [Setting("type", Str("sine"), Quoted), Setting("frequency", Num(440.0), AudioParamValue)]
    case Gain => [Setting("gain", Num(0.5), AudioParamValue)]
    case Destination => []
    case Analyser => [Setting("fftSize", Num(2048.0), Plain)]
    case BiquadFilter =>
      [Setting("type", Str("lowpass"), Quoted), Setting("frequency", Num(1000.0), AudioParamValue),
       Setting("Q", Num(1.0), AudioParamValue)]
    case Delay => [Setting("delayTime", Num(0.5), AudioParamValue)]
    case StereoPanner => [Setting("pan", Num(0.0), AudioParamValue)]
    case DynamicsCompressor =>
      [Setting("threshold", Num(-24.0), AudioParamValue), Setting("knee", Num(30.0), AudioParamValue),
       Setting("ratio", Num(12.0), AudioParamValue), Setting("attack", Num(0.003), AudioParamValue),
       Setting("release", Num(0.25), AudioParamValue)]
  }

  /** The configure lines of a list of settings for one node. */
  function Configured(p: map<string, ParamValue>, name: string, ss: seq<Setting>): seq<Stmt> {
    seq(|ss|, i requires 0 <= i < |ss| => Configure(name, ss[i].key, Lookup(p, ss[i].key, ss[i].fallback), ss[i].form))
  }

  /** The create and configure lines for one node: the create line, the
      settings of its type, and for an oscillator the detune line when it is
      written. The destination has none. */
  function Block(n: GraphNode, name: string): seq<Stmt> {
    var t := n.nodeType;
    if t == Destination then []
    else
      [Create(name, Factory(t), FactoryArg(t))]
      + Configured(n.params, name, Settings(t))
      + (if t == Oscillator && DetuneWritten(n.params)
         then [Configure(name, "detune", n.params["detune"], AudioParamValue)] else [])
  }

  // ---------------------------------------------------------------------
  // The whole program
  // ---------------------------------------------------------------------

  /** The blocks of the second loop: one per non-destination node, in node
      order, each followed by a blank line. */
  function Blocks(ns: seq<GraphNode>, names: map<string, string>): seq<Stmt>
    decreases |ns|
  {
    if ns == [] then []
    else
      var n := ns[|ns| - 1];
      Blocks(ns[..|ns| - 1], names)
      + (if n.nodeType == Destination || n.id !in names then [] else Block(n, names[n.id]) + [Blank])
  }

  /** Both endpoints of the connection have a name. */
  predicate Resolvable(names: map<string, string>, c: Connection) {
    c.from.nodeId in names && c.to.nodeId in names
  }

  /** The connect lines: one per connection whose endpoints both have a
      name, in stored order. */
  function ConnectLines(cs: seq<Connection>, names: map<string, string>): seq<Stmt>
    decreases |cs|
  {
    if cs == [] then []
    else
      var c := cs[|cs| - 1];
      ConnectLines(cs[..|cs| - 1], names)
      + (if Resolvable(names, c) then [Connect(names[c.from.nodeId], names[c.to.nodeId])] else [])
  }

  predicate IsOscillator(n: GraphNode) {
    n.nodeType == Oscillator
  }

  /** The start lines, one per named oscillator, in node order. */
  function StartLines(oscs: seq<GraphNode>, names: map<string, string>): seq<Stmt>
    decreases |oscs|
  {
    if oscs == [] then []
    else
      var n := oscs[|oscs| - 1];
      StartLines(oscs[..|oscs| - 1], names) + (if n.id in names then [Start(names[n.id])] else [])
  }

  /** generateCode, as a value: the placeholder for an empty graph, else the
      context line, the blocks, the connect lines (followed by a blank line
      when there are connections) and the start lines. */
  function GeneratedCode(ns: seq<GraphNode>, cs: seq<Connection>): (lines: seq<Stmt>)
    ensures ns == [] <==> lines == [Comment(Placeholder)]
    ensures ns != [] ==> |lines| >= 2 && lines[0] == NewContext && lines[1] == Blank
  {
    if ns == [] then [Comment(Placeholder)]
    else
      var names := VarNames(ns);
      [NewContext, Blank] + Blocks(ns, names)
      + (if cs == [] then [] else ConnectLines(cs, names) + [Blank])
      + StartLines(Filter(ns, IsOscillator), names)
  }

  /** The naming loop of generateCode: the destination gets the sink name,
      every other node its type tag with the running per-type count. */
  method AssignNames(nodes: seq<GraphNode>) returns (names: map<string, string>)
    ensures names == VarNames(nodes)
  {
    names := map[];
    var counters: map<NodeType, nat> := map[];
    for i := 0 to |nodes|
      invariant names == VarNames(nodes[..i])
      invariant forall t :: t != Destination ==>
        (if t in counters then counters[t] else 0) == CountOfType(nodes[..i], t)
    {
      var node := nodes[i];
      assert nodes[..i + 1][..i] == nodes[..i];
      if node.nodeType == Destination {
        names := names[node.id := SinkName];
        continue;
      }
      var base := node.nodeType;
      counters := counters[base := (if base in counters then counters[base] else 0) + 1];
      var suffix := if counters[base] > 1 then NatToString(counters[base]) else "";
      names := names[node.id := TypeName(base) + suffix];
    }
    assert nodes[..|nodes|] == nodes;
  }

  /** The block loop of generateCode: every node but the destination
      contributes its create/configure lines and a blank line. */
  method EmitBlocks(nodes: seq<GraphNode>, names: map<string, string>) returns (lines: seq<Stmt>)
    ensures lines == Blocks(nodes, names)
  {
    lines := [];
    for i := 0 to |nodes|
      invariant lines == Blocks(nodes[..i], names)
    {
      var node := nodes[i];
      assert nodes[..i + 1][..i] == nodes[..i];
      if node.nodeType == Destination || node.id !in names {
        continue;
      }
      var varName := names[node.id];
      lines := lines + Block(node, varName) + [Blank];
    }
    assert nodes[..|nodes|] == nodes;
  }

  /** The connection loop of generateCode: one connect line per connection
      whose endpoints both have a name. */
  method EmitConnections(connections: seq<Connection>, names: map<string, string>) returns (lines: seq<Stmt>)
    ensures lines == ConnectLines(connections, names)
  {
    lines := [];
    for i := 0 to |connections|
      invariant lines == ConnectLines(connections[..i], names)
    {
      var conn := connections[i];
      assert connections[..i + 1][..i] == connections[..i];
      if conn.from.nodeId in names && conn.to.nodeId in names {
        lines := lines + [Connect(names[conn.from.nodeId], names[conn.to.nodeId])];
      }
    }
    assert connections[..|connections|] == connections;
  }

  /** The start loop of generateCode: one start line per named oscillator. */
  method EmitStarts(oscillators: seq<GraphNode>, names: map<string, string>) returns (lines: seq<Stmt>)
    ensures lines == StartLines(oscillators, names)
  {
    lines := [];
    for i := 0 to |oscillators|
      invariant lines == StartLines(oscillators[..i], names)
    {
      var osc := oscillators[i];
      assert oscillators[..i + 1][..i] == oscillators[..i];
      if osc.id in names {
        lines := lines + [Start(names[osc.id])];
      }
    }
    assert oscillators[..|oscillators|] == oscillators;
  }

  /** generateCode: names the nodes, then emits the blocks, the connect
      lines and the start lines with the loops of the source. The result is
      a function of (nodes, connections) alone. */
  method GenerateCode(nodes: seq<GraphNode>, connections: seq<Connection>) returns (lines: seq<Stmt>)
    ensures lines == GeneratedCode(nodes, connections)
  {
    if |nodes| == 0 {
      return [Comment(Placeholder)];
    }
    var names := AssignNames(nodes);
    var blocks := EmitBlocks(nodes, names);
    lines := [NewContext, Blank] + blocks;
    if |connections| > 0 {
      var connects := EmitConnections(connections, names);
      lines := lines + connects + [Blank];
    }
    ghost var code := lines;
    assert code == [NewContext, Blank] + Blocks(nodes, names)
      + (if connections == [] then [] else ConnectLines(connections, names) + [Blank]);
    var starts := EmitStarts(Filter(nodes, IsOscillator), names);
    lines := lines + starts;
  }

  // ---------------------------------------------------------------------
  // Properties of the names
  // ---------------------------------------------------------------------

  predicate IsLetter(c: char) {
    ('a' <= c <= 'z') || ('A' <= c <= 'Z')
  }

  /** A type tag is a non-empty word of letters. */
  lemma TypeNameLetters(t: NodeType)
    ensures |TypeName(t)| > 0
    ensures forall i :: 0 <= i < |TypeName(t)| ==> IsLetter(TypeName(t)[i])
  {
  }

  /** The suffix appended to a type tag: empty for the first node of a
      type, else the decimal count. */
  lemma SuffixDigits(k: nat)
    ensures AllDigits(if k > 1 then NatToString(k) else "")
  {
  }

  /** Where a character of a concatenation comes from. */
  lemma CharOfConcat(x: string, y: string, k: int)
    ensures 0 <= k < |x| ==> (x + y)[k] == x[k]
    ensures |x| <= k < |x| + |y| ==> (x + y)[k] == y[k - |x|]
  {
  }

  /** A word of letters followed by a word of digits splits in one way only. */
  lemma LettersThenDigits(a: string, d1: string, b: string, d2: string)
    requires forall i :: 0 <= i < |a| ==> IsLetter(a[i])
    requires forall i :: 0 <= i < |b| ==> IsLetter(b[i])
    requires AllDigits(d1) && AllDigits(d2)
    requires a + d1 == b + d2
    ensures a == b && d1 == d2
  {
    if |a| < |b| {
      CharOfConcat(a, d1, |a|);
      CharOfConcat(b, d2, |a|);
      assert false;
    } else if |b| < |a| {
      CharOfConcat(a, d1, |b|);
      CharOfConcat(b, d2, |b|);
      assert false;
    }
    assert a == (a + d1)[..|a|];
    assert b == (b + d2)[..|b|];
  }

  /** A word of letters followed by a word of digits is never the sink's
      name, which holds a '.'. */
  lemma LettersThenDigitsIsNotSink(a: string, d: string)
    requires forall i :: 0 <= i < |a| ==> IsLetter(a[i])
    requires AllDigits(d)
    ensures a + d != SinkName
  {
    var v := a + d;
    if 3 < |a| {
      assert v[3] == a[3];
    } else if 3 < |v| {
      assert v[3] == d[3 - |a|];
    }
  }

  /** Different (type, count) pairs get different names: the tag is all
      letters and the suffix all digits, so the boundary between them is
      fixed, and both halves are injective. */
  lemma VarNameInjective(t1: NodeType, k1: nat, t2: NodeType, k2: nat)
    requires k1 >= 1 && k2 >= 1
    requires VarName(t1, k1) == VarName(t2, k2)
    ensures t1 == t2 && k1 == k2
  {
    TypeNameLetters(t1);
    TypeNameLetters(t2);
    SuffixDigits(k1);
    SuffixDigits(k2);
    var d1 := if k1 > 1 then NatToString(k1) else "";
    var d2 := if k2 > 1 then NatToString(k2) else "";
    LettersThenDigits(TypeName(t1), d1, TypeName(t2), d2);
    NodeTypesClosed();
    assert ParseNodeType(TypeName(t1)) == Some(t1);
    if k1 > 1 && k2 > 1 {
      NatToStringInjective(k1, k2);
    }
  }

  /** No counted name is the sink's name. */
  lemma VarNameIsNotSink(t: NodeType, k: nat)
    ensures VarName(t, k) != SinkName
  {
    TypeNameLetters(t);
    SuffixDigits(k);
    LettersThenDigitsIsNotSink(TypeName(t), if k > 1 then NatToString(k) else "");
  }

  lemma {:induction false} CountOfTypeMonotone(ns: seq<GraphNode>, m: nat, n: nat, t: NodeType)
    requires m <= n <= |ns|
    ensures CountOfType(ns[..m], t) <= CountOfType(ns[..n], t)
    decreases n - m
  {
    if m < n {
      CountOfTypeMonotone(ns, m, n - 1, t);
      assert ns[..n][..n - 1] == ns[..n - 1];
    }
  }

  /** The count a node gets is one more than the count of its type among
      the nodes before it. */
  lemma CountOfTypeStep(ns: seq<GraphNode>, i: nat)
    requires i < |ns|
    ensures CountOfType(ns[..i + 1], ns[i].nodeType) == CountOfType(ns[..i], ns[i].nodeType) + 1
  {
    assert ns[..i + 1][..i] == ns[..i];
  }

  /** Every node id, and nothing else, receives a name. */
  lemma {:induction false} VarNamesKeys(ns: seq<GraphNode>)
    ensures VarNames(ns).Keys == NodeIds(ns)
    decreases |ns|
  {
    if ns != [] {
      VarNamesKeys(ns[..|ns| - 1]);
      assert ns == ns[..|ns| - 1] + [ns[|ns| - 1]];
    }
  }

  /** Under unique ids, the i-th node is named after its type and its rank
      among the nodes of that type, or is the sink. */
  lemma {:induction false} VarNameAt(ns: seq<GraphNode>, i: nat)
    requires UniqueNodeIds(ns) && i < |ns|
    ensures ns[i].id in VarNames(ns)
    ensures VarNames(ns)[ns[i].id] ==
      if ns[i].nodeType == Destination then SinkName
      else VarName(ns[i].nodeType, CountOfType(ns[..i + 1], ns[i].nodeType))
    decreases |ns|
  {
    var init := ns[..|ns| - 1];
    if i == |ns| - 1 {
      assert ns[..i + 1] == ns;
    } else {
      assert UniqueNodeIds(init);
      VarNameAt(init, i);
      assert init[..i + 1] == ns[..i + 1];
      assert ns[|ns| - 1].id != ns[i].id;
    }
  }

  /** Two non-destination nodes of a graph with unique ids get different
      names: a later node of the same type has a higher count. */
  lemma CountedNamesDistinct(ns: seq<GraphNode>, i: nat, j: nat)
    requires UniqueNodeIds(ns) && i < j < |ns|
    requires ns[i].nodeType != Destination && ns[j].nodeType != Destination
    ensures VarName(ns[i].nodeType, CountOfType(ns[..i + 1], ns[i].nodeType))
         != VarName(ns[j].nodeType, CountOfType(ns[..j + 1], ns[j].nodeType))
  {
    var ti, tj := ns[i].nodeType, ns[j].nodeType;
    var ki, kj := CountOfType(ns[..i + 1], ti), CountOfType(ns[..j + 1], tj);
    CountOfTypeStep(ns, i);
    CountOfTypeStep(ns, j);
    if VarName(ti, ki) == VarName(tj, kj) {
      VarNameInjective(ti, ki, tj, kj);
      CountOfTypeMonotone(ns, i + 1, j, tj);
    }
  }

  /** Under unique ids, two nodes share a name only when both are
      destinations: counted names never repeat and never clash with the sink. */
  lemma VarNamesDistinct(ns: seq<GraphNode>, i: nat, j: nat)
    requires UniqueNodeIds(ns) && i < j < |ns|
    ensures ns[i].id in VarNames(ns) && ns[j].id in VarNames(ns)
    ensures VarNames(ns)[ns[i].id] == VarNames(ns)[ns[j].id]
      <==> ns[i].nodeType == Destination && ns[j].nodeType == Destination
  {
    VarNameAt(ns, i);
    VarNameAt(ns, j);
    var ti, tj := ns[i].nodeType, ns[j].nodeType;
    if ti != Destination && tj != Destination {
      CountedNamesDistinct(ns, i, j);
    } else if ti != Destination {
      VarNameIsNotSink(ti, CountOfType(ns[..i + 1], ti));
    } else if tj != Destination {
      VarNameIsNotSink(tj, CountOfType(ns[..j + 1], tj));
    }
  }

  // ---------------------------------------------------------------------
  // Properties of the connect and start lines
  // ---------------------------------------------------------------------

  function ResolvableIn(names: map<string, string>): Connection -> bool {
    (c: Connection) => Resolvable(names, c)
  }

  /** One connect line per connection, in order. */
  function ConnectsOf(cs: seq<Connection>, names: map<string, string>): seq<Stmt>
    requires forall k :: 0 <= k < |cs| ==> Resolvable(names, cs[k])
  {
    seq(|cs|, k requires 0 <= k < |cs| && Resolvable(names, cs[k]) => Connect(names[cs[k].from.nodeId], names[cs[k].to.nodeId]))
  }

  /** The connect lines are those of the connections whose endpoints both
      have a name, in stored order; the others are skipped silently. */
  lemma {:induction false} ConnectLinesSkipUnresolvable(cs: seq<Connection>, names: map<string, string>)
    ensures ConnectLines(cs, names) == ConnectsOf(Filter(cs, ResolvableIn(names)), names)
    decreases |cs|
  {
    if cs != [] {
      var init, last := cs[..|cs| - 1], cs[|cs| - 1];
      ConnectLinesSkipUnresolvable(init, names);
      assert cs == init + [last];
      FilterAppend(init, [last], ResolvableIn(names));
      assert Filter([last], ResolvableIn(names)) == if Resolvable(names, last) then [last] else [];
    }
  }

  /** In a graph whose connections all end at existing nodes, every
      connection becomes exactly one connect line, in stored order, from the
      name of its source to the name of its target. */
  lemma EveryConnectionEmitted(ns: seq<GraphNode>, cs: seq<Connection>)
    requires EndpointsExist(ns, cs)
    ensures forall c :: c in cs ==> Resolvable(VarNames(ns), c)
    ensures ConnectLines(cs, VarNames(ns)) == ConnectsOf(cs, VarNames(ns))
  {
    var names := VarNames(ns);
    VarNamesKeys(ns);
    ConnectLinesSkipUnresolvable(cs, names);
    FilterKeepsAll(cs, ResolvableIn(names));
  }

  /** The oscillators the start loop visits are all the oscillators. */
  lemma {:induction false} OscillatorCount(ns: seq<GraphNode>)
    ensures |Filter(ns, IsOscillator)| == CountOfType(ns, Oscillator)
    decreases |ns|
  {
    if ns != [] {
      var init, last := ns[..|ns| - 1], ns[|ns| - 1];
      OscillatorCount(init);
      assert ns == init + [last];
      FilterAppend(init, [last], IsOscillator);
    }
  }

  lemma {:induction false} StartLinesAll(oscs: seq<GraphNode>, names: map<string, string>)
    requires forall k :: 0 <= k < |oscs| ==> oscs[k].id in names
    ensures |StartLines(oscs, names)| == |oscs|
    ensures forall k :: 0 <= k < |oscs| ==> StartLines(oscs, names)[k] == Start(names[oscs[k].id])
    decreases |oscs|
  {
    if oscs != [] {
      StartLinesAll(oscs[..|oscs| - 1], names);
    }
  }

  /** Every oscillator, and nothing else, is started, once, in node order. */
  lemma EveryOscillatorStarted(ns: seq<GraphNode>)
    ensures |StartLines(Filter(ns, IsOscillator), VarNames(ns))| == |Filter(ns, IsOscillator)|
    ensures |Filter(ns, IsOscillator)| == CountOfType(ns, Oscillator)
    ensures forall k :: 0 <= k < |Filter(ns, IsOscillator)| ==>
      && Filter(ns, IsOscillator)[k] in ns
      && Filter(ns, IsOscillator)[k].nodeType == Oscillator
      && Filter(ns, IsOscillator)[k].id in VarNames(ns)
      && StartLines(Filter(ns, IsOscillator), VarNames(ns))[k] == Start(VarNames(ns)[Filter(ns, IsOscillator)[k].id])
  {
    var oscs := Filter(ns, IsOscillator);
    FilterMembership(ns, IsOscillator);
    VarNamesKeys(ns);
    assert forall k :: 0 <= k < |oscs| ==> oscs[k] in oscs;
    OscillatorCount(ns);
    StartLinesAll(oscs, VarNames(ns));
  }

  // ---------------------------------------------------------------------
  // Properties of the blocks
  // ---------------------------------------------------------------------

  /** The text a value renders to when it is written into the program: a
      string as itself, a non-negative whole number in decimal. Other
      numbers are not given a rendering here. */
  function AsText(v: ParamValue): Option<string> {
    match v
    case Str(s) => Some(s)
    case Num(x) => if 0.0 <= x && x == x.Floor as real then Some(NatToString(x.Floor as nat)) else None
  }

  /** Two values that appear the same in the generated program. */
  predicate RendersAs(a: ParamValue, b: ParamValue) {
    a == b || (AsText(a).Some? && AsText(a) == AsText(b))
  }

  /** The serializer's switch follows the registry in lockstep: its settings
      are the registry's parameters in declaration order (the oscillator's
      last one, detune, being written separately), and each fallback is the
      registry's default. The analyser's FFT size falls back to the number
      2048 where the registry stores the text "2048": the two agree as
      rendered text only. */
  lemma SettingsFollowRegistry(t: NodeType)
    ensures |Settings(t)| + (if t == Oscillator then 1 else 0) == |Registry(t).params|
    ensures t == Oscillator ==> Registry(t).params[2].key == "detune"
    ensures forall i :: 0 <= i < |Settings(t)| ==>
      && Settings(t)[i].key == Registry(t).params[i].key
      && RendersAs(Settings(t)[i].fallback, Registry(t).params[i].defaultValue)
      && (t != Analyser ==> Settings(t)[i].fallback == Registry(t).params[i].defaultValue)
  {
    if t == Analyser {
      assert NatToString(2048) == "2048" by {
        assert NatToString(2) == "2";
        assert NatToString(20) == "20";
        assert NatToString(204) == "204";
      }
    }
  }

  /** A block creates the node under its name first, then configures that
      name only; it configures each parameter the registry declares for the
      type, in declaration order, except an oscillator's detune that is
      absent, zero or falsy. */
  lemma BlockShape(n: GraphNode, name: string)
    requires n.nodeType != Destination
    ensures Block(n, name)[0] == Create(name, Factory(n.nodeType), FactoryArg(n.nodeType))
    ensures |Block(n, name)| == 1 + |Registry(n.nodeType).params|
      - (if n.nodeType == Oscillator && !DetuneWritten(n.params) then 1 else 0)
    ensures forall k :: 1 <= k < |Block(n, name)| ==>
      && Block(n, name)[k].Configure?
      && Block(n, name)[k].name == name
      && Block(n, name)[k].key == Registry(n.nodeType).params[k - 1].key
  {
    SettingsFollowRegistry(n.nodeType);
  }

  /** Each configured value is the node's own value when it has one;
      otherwise it is the registry's default for that key (as rendered text,
      for the analyser's FFT size). */
  lemma BlockValues(n: GraphNode, name: string, k: nat)
    requires 1 <= k < |Block(n, name)|
    ensures Block(n, name)[k].Configure?
    ensures Block(n, name)[k].key in DefaultParams(n.nodeType)
    ensures Block(n, name)[k].key in n.params ==> Block(n, name)[k].value == n.params[Block(n, name)[k].key]
    ensures Block(n, name)[k].key !in n.params ==>
      && RendersAs(Block(n, name)[k].value, DefaultParams(n.nodeType)[Block(n, name)[k].key])
      && (n.nodeType != Analyser ==> Block(n, name)[k].value == DefaultParams(n.nodeType)[Block(n, name)[k].key])
  {
    var t := n.nodeType;
    SettingsFollowRegistry(t);
    BlockShape(n, name);
    DefaultParamsExact(t);
    assert Registry(t).params[k - 1] in Registry(t).params;
  }

  /** The names and the block of the graph of OscillatorIntoSink. */
  lemma OscillatorIntoSinkNames(osc: GraphNode, sink: GraphNode)
    requires osc == GraphNode("node_1", Oscillator, Position(100.0, 100.0),
      map["type" := Str("sine"), "frequency" := Num(440.0), "detune" := Num(0.0)])
    requires sink == GraphNode("destination_0", Destination, Position(600.0, 250.0), map[])
    ensures VarNames([osc, sink]) == map["node_1" := "oscillator", "destination_0" := SinkName]
    ensures Blocks([osc, sink], VarNames([osc, sink])) == [
      Create("oscillator", "createOscillator", None),
      Configure("oscillator", "type", Str("sine"), Quoted),
      Configure("oscillator", "frequency", Num(440.0), AudioParamValue),
      Blank]
  {
    var ns := [osc, sink];
    assert ns[..1] == [osc] && [osc][..0] == [];
    assert CountOfType([osc], Oscillator) == 1;
    assert VarName(Oscillator, 1) == "oscillator" + "" == "oscillator";
    assert VarNames([osc]) == map["node_1" := "oscillator"];
    var names := VarNames(ns);
    assert names == map["node_1" := "oscillator", "destination_0" := SinkName];
    assert !DetuneWritten(osc.params);
    assert Block(osc, "oscillator") == [
      Create("oscillator", "createOscillator", None),
      Configure("oscillator", "type", Str("sine"), Quoted),
      Configure("oscillator", "frequency", Num(440.0), AudioParamValue)];
    assert Blocks([osc], names) == Block(osc, "oscillator") + [Blank];
  }

  /** An oscillator with its default parameters wired into the destination:
      the program creates it with type sine and frequency 440, leaves detune
      out, connects it to the sink and starts it. */
  lemma OscillatorIntoSink(osc: GraphNode, sink: GraphNode, c: Connection)
    requires osc == GraphNode("node_1", Oscillator, Position(100.0, 100.0),
      map["type" := Str("sine"), "frequency" := Num(440.0), "detune" := Num(0.0)])
    requires sink == GraphNode("destination_0", Destination, Position(600.0, 250.0), map[])
    requires c == Connection("conn_1", Endpoint("node_1", "output"), Endpoint("destination_0", "input"))
    ensures GeneratedCode([osc, sink], [c]) == [
      NewContext, Blank,
      Create("oscillator", "createOscillator", None),
      Configure("oscillator", "type", Str("sine"), Quoted),
      Configure("oscillator", "frequency", Num(440.0), AudioParamValue),
      Blank,
      Connect("oscillator", SinkName), Blank,
      Start("oscillator")]
  {
    var ns := [osc, sink];
    OscillatorIntoSinkNames(osc, sink);
    var names := VarNames(ns);
    assert [c][..0] == [];
    assert ConnectLines([c], names) == [Connect("oscillator", SinkName)];
    assert Filter(ns, IsOscillator) == [osc];
    assert StartLines([osc], names) == [Start("oscillator")];
  }
}

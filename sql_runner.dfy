/** The SQL application runner's compile step: classify the tables of the
    first relational plan root as input or output streams, resolve each
    through the IO resolver, and merge the results, the serialized SQL, the
    user's config and the runner class into one flat config. */
module SqlRunner {
  import opened Wrappers
  import Strings
  import opened CalcitePlan

  // ---------------------------------------------------------------------
  // Stream names

  /** `getSystemStreamName`: the components of the table's qualified name
      joined with ".". */
  function SystemStreamName(table: QualifiedName): (name: string)
    ensures |table| == 0 ==> name == ""
    ensures |table| > 0 ==> |table[0]| <= |name| && name[..|table[0]|] == table[0]
  {
    Strings.Join(table, ".")
  }

  /** The components of a qualified name can be read back from the stream
      name when none of them contains a dot. */
  lemma SystemStreamNameComponents(table: QualifiedName)
    requires |table| > 0
    requires forall k :: 0 <= k < |table| ==> '.' !in table[k]
    ensures Strings.Split(SystemStreamName(table), '.') == table
  {
    Strings.SplitJoin(table, '.');
  }

  // ---------------------------------------------------------------------
  // Classification, specified by one visit of every node

  /** The stream name a node itself contributes to the outputs. */
  function OwnOutput(n: RelNode): set<string>
  {
    if n.TableModify? then {SystemStreamName(n.sinkTable)} else {}
  }

  /** The stream name a node itself contributes to the inputs. */
  function OwnInput(n: RelNode): set<string>
  {
    if n.Rel? && n.table.Some? then {SystemStreamName(n.table.value)} else {}
  }

  /** The output streams of a plan, visiting each node once. */
  function OutputNames(n: RelNode): set<string>
    decreases n
  {
    match n
    case TableModify(table, input) => {SystemStreamName(table)} + OutputNames(input)
    case BiRel(left, right) => OutputNames(left) + OutputNames(right)
    case Rel(_, inputs) => OutputNamesOf(inputs, |inputs|)
  }

  /** The output streams of the first `k` plans of `ns`. */
  function OutputNamesOf(ns: seq<RelNode>, k: nat): set<string>
    requires k <= |ns|
    decreases ns, k
  {
    if k == 0 then {} else OutputNamesOf(ns, k - 1) + OutputNames(ns[k - 1])
  }

  /** The input streams of a plan, visiting each node once. */
  function InputNames(n: RelNode): set<string>
    decreases n
  {
    match n
    case TableModify(_, input) => InputNames(input)
    case BiRel(left, right) => InputNames(left) + InputNames(right)
    case Rel(table, inputs) =>
      (if table.Some? then {SystemStreamName(table.value)} else {}) + InputNamesOf(inputs, |inputs|)
  }

  /** The input streams of the first `k` plans of `ns`. */
  function InputNamesOf(ns: seq<RelNode>, k: nat): set<string>
    requires k <= |ns|
    decreases ns, k
  {
    if k == 0 then {} else InputNamesOf(ns, k - 1) + InputNames(ns[k - 1])
  }

  /** The names of a plan are those of its root node and those of all of
      its inputs (`getInputs()`), whatever kind of node it is. */
  lemma NamesUnfold(n: RelNode)
    ensures InputNames(n) == OwnInput(n) + InputNamesOf(Inputs(n), |Inputs(n)|)
    ensures OutputNames(n) == OwnOutput(n) + OutputNamesOf(Inputs(n), |Inputs(n)|)
  {
    if n.BiRel? {
      BiRelInputNames(n.left, n.right);
    }
  }

  /** The inputs of a binary node contribute the names of its two sides. */
  lemma BiRelInputNames(left: RelNode, right: RelNode)
    ensures InputNamesOf([left, right], 2) == InputNames(left) + InputNames(right)
    ensures OutputNamesOf([left, right], 2) == OutputNames(left) + OutputNames(right)
  {
    assert InputNamesOf([left, right], 1) == InputNames(left);
    assert OutputNamesOf([left, right], 1) == OutputNames(left);
  }

  // ---------------------------------------------------------------------
  // The classification, characterized over all nodes of the plan

  /** Every node of the plan, the plan itself included. */
  function Nodes(n: RelNode): set<RelNode>
    decreases n
  {
    match n
    case TableModify(_, input) => {n} + Nodes(input)
    case BiRel(left, right) => {n} + Nodes(left) + Nodes(right)
    case Rel(_, inputs) => {n} + NodesOf(inputs, |inputs|)
  }

  /** Every node of the first `k` plans of `ns`. */
  function NodesOf(ns: seq<RelNode>, k: nat): set<RelNode>
    requires k <= |ns|
    decreases ns, k
  {
    if k == 0 then {} else NodesOf(ns, k - 1) + Nodes(ns[k - 1])
  }

  /** The stream names of the table-modify nodes among `ms`. */
  function SinkNames(ms: set<RelNode>): set<string>
  {
    set m | m in ms && m.TableModify? :: SystemStreamName(m.sinkTable)
  }

  /** The stream names of the nodes among `ms` that are neither table-modify
      nor binary and have a table. */
  function SourceNames(ms: set<RelNode>): set<string>
  {
    set m | m in ms && m.Rel? && m.table.Some? :: SystemStreamName(m.table.value)
  }

  lemma NamesConcat(a: set<RelNode>, b: set<RelNode>)
    ensures SinkNames(a + b) == SinkNames(a) + SinkNames(b)
    ensures SourceNames(a + b) == SourceNames(a) + SourceNames(b)
  {
  }

  /** The outputs of a plan are the names of all its table-modify nodes, and
      its inputs the names of all its other table-bearing nodes, wherever
      they sit in the tree; binary nodes contribute nothing themselves. */
  lemma {:induction false} ClassificationCoversAllNodes(n: RelNode)
    ensures OutputNames(n) == SinkNames(Nodes(n))
    ensures InputNames(n) == SourceNames(Nodes(n))
    decreases n
  {
    match n
    case TableModify(_, input) =>
      ClassificationCoversAllNodes(input);
      NamesConcat({n}, Nodes(input));
    case BiRel(left, right) =>
      ClassificationCoversAllNodes(left);
      ClassificationCoversAllNodes(right);
      NamesConcat({n}, Nodes(left));
      NamesConcat({n} + Nodes(left), Nodes(right));
    case Rel(_, inputs) =>
      ClassificationOfInputsCoversAllNodes(inputs, |inputs|);
      NamesConcat({n}, NodesOf(inputs, |inputs|));
  }

  lemma {:induction false} ClassificationOfInputsCoversAllNodes(ns: seq<RelNode>, k: nat)
    requires k <= |ns|
    ensures OutputNamesOf(ns, k) == SinkNames(NodesOf(ns, k))
    ensures InputNamesOf(ns, k) == SourceNames(NodesOf(ns, k))
    decreases ns, k
  {
    if k > 0 {
      var front, last := NodesOf(ns, k - 1), Nodes(ns[k - 1]);
      assert NodesOf(ns, k) == front + last;
      ClassificationOfInputsCoversAllNodes(ns, k - 1);
      ClassificationCoversAllNodes(ns[k - 1]);
      NamesConcat(front, last);
    }
  }

  /** The plan with the two sides of every binary node exchanged. */
  function Mirror(n: RelNode): RelNode
    decreases n
  {
    match n
    case TableModify(table, input) => TableModify(table, Mirror(input))
    case BiRel(left, right) => BiRel(Mirror(right), Mirror(left))
    case Rel(table, inputs) => Rel(table, seq(|inputs|, j requires 0 <= j < |inputs| => Mirror(inputs[j])))
  }

  /** The classification does not depend on the order of the two sides of
      any binary node. */
  lemma {:induction false} ClassificationIgnoresSideOrder(n: RelNode)
    ensures InputNames(Mirror(n)) == InputNames(n)
    ensures OutputNames(Mirror(n)) == OutputNames(n)
    decreases n
  {
    match n
    case TableModify(_, input) =>
      ClassificationIgnoresSideOrder(input);
    case BiRel(left, right) =>
      ClassificationIgnoresSideOrder(left);
      ClassificationIgnoresSideOrder(right);
    case Rel(_, inputs) =>
      var mirrored := seq(|inputs|, j requires 0 <= j < |inputs| => Mirror(inputs[j]));
      MirroredInputs(inputs, mirrored, |inputs|);
  }

  lemma {:induction false} MirroredInputs(ns: seq<RelNode>, ms: seq<RelNode>, k: nat)
    requires k <= |ns| == |ms|
    requires forall j :: 0 <= j < |ns| ==> ms[j] == Mirror(ns[j])
    ensures InputNamesOf(ms, k) == InputNamesOf(ns, k)
    ensures OutputNamesOf(ms, k) == OutputNamesOf(ns, k)
    decreases ns, k
  {
    if k > 0 {
      MirroredInputs(ns, ms, k - 1);
      ClassificationIgnoresSideOrder(ns[k - 1]);
    }
  }

  /** The projection `RelRoot.project()` may add on top of the plan changes
      neither set. */
  lemma ProjectionKeepsClassification(root: RelRoot)
    ensures InputNames(Project(root)) == InputNames(root.rel)
    ensures OutputNames(Project(root)) == OutputNames(root.rel)
  {
    if !root.isTrivialProjection {
      assert InputNamesOf([root.rel], 1) == InputNames(root.rel);
      assert OutputNamesOf([root.rel], 1) == OutputNames(root.rel);
    }
  }

  /** A join of two scanned tables written into a third: both scanned
      tables are inputs and the written one is the only output. */
  lemma JoinIntoSink(a: QualifiedName, b: QualifiedName, c: QualifiedName)
    ensures var plan := TableModify(c, BiRel(Rel(Some(a), []), Rel(Some(b), [])));
      && InputNames(plan) == {SystemStreamName(a), SystemStreamName(b)}
      && OutputNames(plan) == {SystemStreamName(c)}
  {
    var scanA, scanB := Rel(Some(a), []), Rel(Some(b), []);
    assert InputNames(scanA) == {SystemStreamName(a)} && OutputNames(scanA) == {};
    assert InputNames(scanB) == {SystemStreamName(b)} && OutputNames(scanB) == {};
  }

  /** Classifying the next input of a node extends the names collected so far. */
  lemma NamesOfStep(ns: seq<RelNode>, i: nat, done: set<string>, doneOut: set<string>)
    requires i < |ns|
    ensures done + InputNamesOf(ns, i) + InputNames(ns[i]) == done + InputNamesOf(ns, i + 1)
    ensures doneOut + OutputNamesOf(ns, i) + OutputNames(ns[i]) == doneOut + OutputNamesOf(ns, i + 1)
    ensures done + InputNamesOf(ns, i) + OutputNamesOf(ns, i) + InputNames(ns[i]) + OutputNames(ns[i])
         == done + InputNamesOf(ns, i + 1) + OutputNamesOf(ns, i + 1)
  {
  }

  /** What `populateSystemStreams` adds to the inputs before it walks
      `getInputs()`: a table-bearing node's own name, or a binary node's two
      sides. */
  function HeadInputs(n: RelNode): set<string>
  {
    if n.BiRel? then InputNames(n.left) + InputNames(n.right) else OwnInput(n)
  }

  /** What `populateSystemStreams` adds to the outputs before it walks
      `getInputs()`. */
  function HeadOutputs(n: RelNode): set<string>
  {
    if n.BiRel? then OutputNames(n.left) + OutputNames(n.right) else OwnOutput(n)
  }

  /** Visiting a binary node's sides a second time, through `getInputs()`,
      adds nothing new. */
  lemma HeadThenInputs(n: RelNode)
    ensures HeadInputs(n) + InputNamesOf(Inputs(n), |Inputs(n)|) == InputNames(n)
    ensures HeadOutputs(n) + OutputNamesOf(Inputs(n), |Inputs(n)|) == OutputNames(n)
  {
    NamesUnfold(n);
  }

  // ---------------------------------------------------------------------
  // populateSystemStreams, as written

  /** A caller-owned `Set<String>` that the classification adds to. */
  class StringSet {
    var elems: set<string>

    constructor ()
      ensures elems == {}
    {
      elems := {};
    }

    /** `Set.add`. */
    method Add(x: string)
      modifies this
      ensures elems == old(elems) + {x}
    {
      elems := elems + {x};
    }
  }

  /** `populateSystemStreams`: a table-modify node adds its table to the
      outputs, a binary node classifies its left and then its right input, any
      other node with a table adds it to the inputs; then every input of the
      node is classified, so a binary node's inputs are visited twice. The
      sets end up grown by exactly the plan's input and output names (into
      the one set when the caller passes the same set twice). */
  method PopulateSystemStreams(relNode: RelNode, inputSystemStreams: StringSet, outputSystemStreams: StringSet)
    modifies inputSystemStreams, outputSystemStreams
    ensures inputSystemStreams != outputSystemStreams ==>
      && inputSystemStreams.elems == old(inputSystemStreams.elems) + InputNames(relNode)
      && outputSystemStreams.elems == old(outputSystemStreams.elems) + OutputNames(relNode)
    ensures inputSystemStreams == outputSystemStreams ==>
      inputSystemStreams.elems == old(inputSystemStreams.elems) + InputNames(relNode) + OutputNames(relNode)
    decreases relNode, 1
  {
    match relNode {
      case TableModify(table, _) =>
        outputSystemStreams.Add(SystemStreamName(table));
      case BiRel(left, right) =>
        PopulateSystemStreams(left, inputSystemStreams, outputSystemStreams);
        PopulateSystemStreams(right, inputSystemStreams, outputSystemStreams);
      case Rel(table, _) =>
        if table.Some? {
          inputSystemStreams.Add(SystemStreamName(table.value));
        }
    }
    assert inputSystemStreams != outputSystemStreams ==>
      inputSystemStreams.elems == old(inputSystemStreams.elems) + HeadInputs(relNode) &&
      outputSystemStreams.elems == old(outputSystemStreams.elems) + HeadOutputs(relNode);
    assert inputSystemStreams == outputSystemStreams ==>
      inputSystemStreams.elems == old(inputSystemStreams.elems) + HeadInputs(relNode) + HeadOutputs(relNode);
    var relNodes := Inputs(relNode);
    HeadThenInputs(relNode);
    if |relNodes| == 0 {
      return;
    }
    PopulateEach(relNode, relNodes, inputSystemStreams, outputSystemStreams);
  }

  /** `relNodes.forEach(node -> populateSystemStreams(node, ...))` over the
      inputs of `parent`, in order. */
  method PopulateEach(ghost parent: RelNode, relNodes: seq<RelNode>,
                      inputSystemStreams: StringSet, outputSystemStreams: StringSet)
    requires relNodes == Inputs(parent)
    modifies inputSystemStreams, outputSystemStreams
    ensures inputSystemStreams != outputSystemStreams ==>
      && inputSystemStreams.elems == old(inputSystemStreams.elems) + InputNamesOf(relNodes, |relNodes|)
      && outputSystemStreams.elems == old(outputSystemStreams.elems) + OutputNamesOf(relNodes, |relNodes|)
    ensures inputSystemStreams == outputSystemStreams ==>
      inputSystemStreams.elems ==
        old(inputSystemStreams.elems) + InputNamesOf(relNodes, |relNodes|) + OutputNamesOf(relNodes, |relNodes|)
    decreases parent, 0
  {
    ghost var doneIn, doneOut := inputSystemStreams.elems, outputSystemStreams.elems;
    var i := 0;
    while i < |relNodes|
      invariant 0 <= i <= |relNodes|
      invariant inputSystemStreams != outputSystemStreams ==>
        && inputSystemStreams.elems == doneIn + InputNamesOf(relNodes, i)
        && outputSystemStreams.elems == doneOut + OutputNamesOf(relNodes, i)
      invariant inputSystemStreams == outputSystemStreams ==>
        inputSystemStreams.elems == doneIn + InputNamesOf(relNodes, i) + OutputNamesOf(relNodes, i)
    {
      PopulateSystemStreams(relNodes[i], inputSystemStreams, outputSystemStreams);
      NamesOfStep(relNodes, i, doneIn, doneOut);
      i := i + 1;
    }
  }

  // ---------------------------------------------------------------------
  // The config merge, specified on values

  type Config = map<string, string>

  /** The key that forces the application runner class. */
  const RUNNER_CONFIG: string := "app.runner.class"
  /** The key under which the serialized SQL statements travel; its value
      is defined by `SamzaSqlApplicationConfig`. */
  const CFG_SQL_STMTS_JSON: string := "samza.sql.stmts.json"
  const LOCAL_RUNNER_CLASS: string := "org.apache.samza.runtime.LocalApplicationRunner"
  const REMOTE_RUNNER_CLASS: string := "org.apache.samza.runtime.RemoteApplicationRunner"

  /** `String.format("streams.%s.samza.system", streamName)`. */
  function StreamSystemKey(streamName: string): (k: string)
    ensures |k| == |streamName| + 21
    ensures k[..8] == "streams." && k[8..|k| - 13] == streamName && k[|k| - 13..] == ".samza.system"
  {
    "streams." + streamName + ".samza.system"
  }

  /** Distinct streams are bound under distinct keys. */
  lemma StreamSystemKeyInjective(a: string, b: string)
    ensures StreamSystemKey(a) == StreamSystemKey(b) ==> a == b
  {
    if StreamSystemKey(a) == StreamSystemKey(b) {
      assert |a| == |b|;
      assert a == StreamSystemKey(a)[8..8 + |a|];
      assert b == StreamSystemKey(b)[8..8 + |b|];
    }
  }

  /** No stream binding can collide with the two keys the runner writes
      itself. */
  lemma StreamSystemKeyIsNotReserved(streamName: string)
    ensures StreamSystemKey(streamName) != RUNNER_CONFIG
    ensures StreamSystemKey(streamName) != CFG_SQL_STMTS_JSON
  {
  }

  function RunnerClass(localRunner: bool): string
  {
    if localRunner then LOCAL_RUNNER_CLASS else REMOTE_RUNNER_CLASS
  }

  /** What the IO resolver reports for one source or sink. */
  datatype SqlIOConfig = SqlIOConfig(systemName: string, streamName: string, config: Config)

  /** The entries one resolved stream writes: its stream-to-system binding,
      then its own config, which overrides that binding on a clash. */
  function Entries(c: SqlIOConfig): Config
  {
    map[StreamSystemKey(c.streamName) := c.systemName] + c.config
  }

  /** A stream writes its binding and its config's keys and nothing else;
      its config wins on a clash, and otherwise the binding holds its system. */
  lemma EntriesShape(c: SqlIOConfig, k: string)
    ensures k in Entries(c) <==> k == StreamSystemKey(c.streamName) || k in c.config
    ensures k in c.config ==> Entries(c)[k] == c.config[k]
    ensures k == StreamSystemKey(c.streamName) && k !in c.config ==> Entries(c)[k] == c.systemName
  {
  }

  /** The config after writing the entries of `cs` over `acc`, in order. */
  function ApplyResolved(acc: Config, cs: seq<SqlIOConfig>): (r: Config)
    ensures acc.Keys <= r.Keys
    decreases |cs|
  {
    if |cs| == 0 then acc else ApplyResolved(acc, cs[..|cs| - 1]) + Entries(cs[|cs| - 1])
  }

  /** A key is present after the writes iff it was present before or some
      resolved stream writes it. */
  lemma {:induction false} ApplyResolvedKeys(acc: Config, cs: seq<SqlIOConfig>, k: string)
    ensures k in ApplyResolved(acc, cs) <==> k in acc || exists i :: 0 <= i < |cs| && k in Entries(cs[i])
    decreases |cs|
  {
    if |cs| > 0 {
      var front := cs[..|cs| - 1];
      ApplyResolvedKeys(acc, front, k);
      assert forall i :: 0 <= i < |front| ==> front[i] == cs[i];
    }
  }

  /** The last resolved stream that writes a key decides its value. */
  lemma {:induction false} ApplyResolvedLast(acc: Config, cs: seq<SqlIOConfig>, i: nat, k: string)
    requires i < |cs| && k in Entries(cs[i])
    requires forall j :: i < j < |cs| ==> k !in Entries(cs[j])
    ensures k in ApplyResolved(acc, cs) && ApplyResolved(acc, cs)[k] == Entries(cs[i])[k]
    decreases |cs|
  {
    if i < |cs| - 1 {
      var front := cs[..|cs| - 1];
      assert k !in Entries(cs[|cs| - 1]);
      ApplyResolvedLast(acc, front, i, k);
    }
  }

  /** A key no resolved stream writes keeps its earlier presence and value. */
  lemma {:induction false} ApplyResolvedUntouched(acc: Config, cs: seq<SqlIOConfig>, k: string)
    requires forall j :: 0 <= j < |cs| ==> k !in Entries(cs[j])
    ensures k in ApplyResolved(acc, cs) <==> k in acc
    ensures k in acc ==> ApplyResolved(acc, cs)[k] == acc[k]
    decreases |cs|
  {
    if |cs| > 0 {
      ApplyResolvedUntouched(acc, cs[..|cs| - 1], k);
    }
  }

  /** When every resolved stream that writes a key writes the same value,
      that value is the result, whatever the order. */
  lemma {:induction false} ApplyResolvedAgreeing(acc: Config, cs: seq<SqlIOConfig>, k: string, v: string)
    requires exists i :: 0 <= i < |cs| && k in Entries(cs[i])
    requires forall i :: 0 <= i < |cs| && k in Entries(cs[i]) ==> Entries(cs[i])[k] == v
    ensures k in ApplyResolved(acc, cs) && ApplyResolved(acc, cs)[k] == v
    decreases |cs|
  {
    var last := |cs| - 1;
    if k !in Entries(cs[last]) {
      var front := cs[..last];
      var i :| 0 <= i < |cs| && k in Entries(cs[i]);
      assert i < last && front[i] == cs[i];
      ApplyResolvedAgreeing(acc, front, k, v);
    }
  }

  /** The resolved streams of `cs` never give one key two values. */
  predicate Consistent(cs: seq<SqlIOConfig>)
  {
    forall i, j, k :: 0 <= i < |cs| && 0 <= j < |cs| && k in Entries(cs[i]) && k in Entries(cs[j]) ==>
      Entries(cs[i])[k] == Entries(cs[j])[k]
  }

  /** Without clashing values, the order of the writes does not matter. */
  lemma ApplyResolvedOrderFree(acc: Config, cs: seq<SqlIOConfig>, ds: seq<SqlIOConfig>)
    requires forall c :: c in cs <==> c in ds
    requires Consistent(cs)
    ensures ApplyResolved(acc, cs) == ApplyResolved(acc, ds)
  {
    var a, b := ApplyResolved(acc, cs), ApplyResolved(acc, ds);
    forall k | true
      ensures k in a <==> k in b
      ensures k in a ==> a[k] == b[k]
    {
      ApplyResolvedKeys(acc, cs, k);
      ApplyResolvedKeys(acc, ds, k);
      if i :| 0 <= i < |cs| && k in Entries(cs[i]) {
        var v := Entries(cs[i])[k];
        ApplyResolvedAgreeing(acc, cs, k, v);
        assert cs[i] in ds;
        forall j | 0 <= j < |ds| && k in Entries(ds[j])
          ensures Entries(ds[j])[k] == v
        {
          assert ds[j] in cs;
        }
        ApplyResolvedAgreeing(acc, ds, k, v);
      } else {
        ApplyResolvedUntouched(acc, cs, k);
        forall j | 0 <= j < |ds|
          ensures k !in Entries(ds[j])
        {
          assert ds[j] in cs;
        }
        ApplyResolvedUntouched(acc, ds, k);
      }
    }
  }

  /** The config `computeSamzaConfigs` builds once the sources and sinks
      are resolved, in the order they were visited: the serialized SQL,
      then every source's entries, then every sink's, then the user's own
      config over all of them, then the runner class over everything. */
  function SamzaConfigs(sqlJson: string, sources: seq<SqlIOConfig>, sinks: seq<SqlIOConfig>,
                        userConfig: Config, localRunner: bool): (r: Config)
    ensures RUNNER_CONFIG in r && r[RUNNER_CONFIG] == RunnerClass(localRunner)
    ensures forall k :: k in userConfig && k != RUNNER_CONFIG ==> k in r && r[k] == userConfig[k]
  {
    (ApplyResolved(ApplyResolved(map[CFG_SQL_STMTS_JSON := sqlJson], sources), sinks) + userConfig)
      [RUNNER_CONFIG := RunnerClass(localRunner)]
  }

  /** The keys of the merged config: the two the runner writes, the user's,
      and those some resolved source or sink writes. */
  lemma SamzaConfigsKeys(sqlJson: string, sources: seq<SqlIOConfig>, sinks: seq<SqlIOConfig>,
                         userConfig: Config, localRunner: bool, k: string)
    ensures k in SamzaConfigs(sqlJson, sources, sinks, userConfig, localRunner) <==>
      || k == RUNNER_CONFIG || k == CFG_SQL_STMTS_JSON || k in userConfig
      || (exists i :: 0 <= i < |sources| && k in Entries(sources[i]))
      || (exists i :: 0 <= i < |sinks| && k in Entries(sinks[i]))
  {
    var base := map[CFG_SQL_STMTS_JSON := sqlJson];
    ApplyResolvedKeys(base, sources, k);
    ApplyResolvedKeys(ApplyResolved(base, sources), sinks, k);
  }

  /** Every resolved source and sink has its stream bound to a system. */
  lemma EveryStreamIsBound(sqlJson: string, sources: seq<SqlIOConfig>, sinks: seq<SqlIOConfig>,
                           userConfig: Config, localRunner: bool, c: SqlIOConfig)
    requires c in sources || c in sinks
    ensures StreamSystemKey(c.streamName) in SamzaConfigs(sqlJson, sources, sinks, userConfig, localRunner)
  {
    var k := StreamSystemKey(c.streamName);
    SamzaConfigsKeys(sqlJson, sources, sinks, userConfig, localRunner, k);
    if c in sources {
      var i :| 0 <= i < |sources| && sources[i] == c;
      assert k in Entries(sources[i]);
    } else {
      var i :| 0 <= i < |sinks| && sinks[i] == c;
      assert k in Entries(sinks[i]);
    }
  }

  /** A sink's stream is bound to the sink's system unless a later sink, the
      sink's own config or the user's config writes that key. */
  lemma SinkStreamBoundToSystem(sqlJson: string, sources: seq<SqlIOConfig>, sinks: seq<SqlIOConfig>,
                                userConfig: Config, localRunner: bool, i: nat)
    requires i < |sinks|
    requires StreamSystemKey(sinks[i].streamName) !in sinks[i].config
    requires forall j :: i < j < |sinks| ==> StreamSystemKey(sinks[i].streamName) !in Entries(sinks[j])
    requires StreamSystemKey(sinks[i].streamName) !in userConfig
    ensures var r := SamzaConfigs(sqlJson, sources, sinks, userConfig, localRunner);
      var k := StreamSystemKey(sinks[i].streamName);
      k in r && r[k] == sinks[i].systemName
  {
    var k := StreamSystemKey(sinks[i].streamName);
    StreamSystemKeyIsNotReserved(sinks[i].streamName);
    SinkOverridesSource(sqlJson, sources, sinks, userConfig, localRunner, i, k);
  }

  /** A source's stream is bound to the source's system unless a later
      source, any sink, the source's own config or the user's config writes
      that key. */
  lemma SourceStreamBoundToSystem(sqlJson: string, sources: seq<SqlIOConfig>, sinks: seq<SqlIOConfig>,
                                  userConfig: Config, localRunner: bool, i: nat)
    requires i < |sources|
    requires StreamSystemKey(sources[i].streamName) !in sources[i].config
    requires forall j :: i < j < |sources| ==> StreamSystemKey(sources[i].streamName) !in Entries(sources[j])
    requires forall j :: 0 <= j < |sinks| ==> StreamSystemKey(sources[i].streamName) !in Entries(sinks[j])
    requires StreamSystemKey(sources[i].streamName) !in userConfig
    ensures var r := SamzaConfigs(sqlJson, sources, sinks, userConfig, localRunner);
      var k := StreamSystemKey(sources[i].streamName);
      k in r && r[k] == sources[i].systemName
  {
    var k := StreamSystemKey(sources[i].streamName);
    StreamSystemKeyIsNotReserved(sources[i].streamName);
    SourceWhenNoSink(sqlJson, sources, sinks, userConfig, localRunner, i, k);
  }

  /** A key the user does not set takes the value of the last sink that
      writes it, whatever the sources say. */
  lemma SinkOverridesSource(sqlJson: string, sources: seq<SqlIOConfig>, sinks: seq<SqlIOConfig>,
                            userConfig: Config, localRunner: bool, i: nat, k: string)
    requires i < |sinks| && k in Entries(sinks[i])
    requires forall j :: i < j < |sinks| ==> k !in Entries(sinks[j])
    requires k !in userConfig && k != RUNNER_CONFIG
    ensures var r := SamzaConfigs(sqlJson, sources, sinks, userConfig, localRunner);
      k in r && r[k] == Entries(sinks[i])[k]
  {
    ApplyResolvedLast(ApplyResolved(map[CFG_SQL_STMTS_JSON := sqlJson], sources), sinks, i, k);
  }

  /** A key only sources write, and the user does not set, takes the value
      of the last source that writes it. */
  lemma SourceWhenNoSink(sqlJson: string, sources: seq<SqlIOConfig>, sinks: seq<SqlIOConfig>,
                         userConfig: Config, localRunner: bool, i: nat, k: string)
    requires i < |sources| && k in Entries(sources[i])
    requires forall j :: i < j < |sources| ==> k !in Entries(sources[j])
    requires forall j :: 0 <= j < |sinks| ==> k !in Entries(sinks[j])
    requires k !in userConfig && k != RUNNER_CONFIG
    ensures var r := SamzaConfigs(sqlJson, sources, sinks, userConfig, localRunner);
      k in r && r[k] == Entries(sources[i])[k]
  {
    var base := map[CFG_SQL_STMTS_JSON := sqlJson];
    ApplyResolvedLast(base, sources, i, k);
    ApplyResolvedUntouched(ApplyResolved(base, sources), sinks, k);
  }

  /** The serialized SQL survives unless a stream or the user overwrites it. */
  lemma SqlStatementsTravel(sqlJson: string, sources: seq<SqlIOConfig>, sinks: seq<SqlIOConfig>,
                            userConfig: Config, localRunner: bool)
    requires forall j :: 0 <= j < |sources| ==> CFG_SQL_STMTS_JSON !in Entries(sources[j])
    requires forall j :: 0 <= j < |sinks| ==> CFG_SQL_STMTS_JSON !in Entries(sinks[j])
    requires CFG_SQL_STMTS_JSON !in userConfig
    ensures var r := SamzaConfigs(sqlJson, sources, sinks, userConfig, localRunner);
      CFG_SQL_STMTS_JSON in r && r[CFG_SQL_STMTS_JSON] == sqlJson
  {
    var base := map[CFG_SQL_STMTS_JSON := sqlJson];
    ApplyResolvedUntouched(base, sources, CFG_SQL_STMTS_JSON);
    ApplyResolvedUntouched(ApplyResolved(base, sources), sinks, CFG_SQL_STMTS_JSON);
  }

  /** When no two sources and no two sinks clash, the order in which the
      name sets happen to be iterated does not change the merged config. */
  lemma SamzaConfigsOrderFree(sqlJson: string, sources: seq<SqlIOConfig>, sources': seq<SqlIOConfig>,
                              sinks: seq<SqlIOConfig>, sinks': seq<SqlIOConfig>,
                              userConfig: Config, localRunner: bool)
    requires forall c :: c in sources <==> c in sources'
    requires forall c :: c in sinks <==> c in sinks'
    requires Consistent(sources) && Consistent(sinks)
    ensures SamzaConfigs(sqlJson, sources, sinks, userConfig, localRunner) ==
            SamzaConfigs(sqlJson, sources', sinks', userConfig, localRunner)
  {
    var base := map[CFG_SQL_STMTS_JSON := sqlJson];
    ApplyResolvedOrderFree(base, sources, sources');
    ApplyResolvedOrderFree(ApplyResolved(base, sources), sinks, sinks');
  }

  // ---------------------------------------------------------------------
  // computeSamzaConfigs

  /** The IO resolver `createIOResolver` returns; a lookup that would throw
      is `None`. */
  datatype SqlIOResolver = SqlIOResolver(fetchSourceInfo: string -> Option<SqlIOConfig>,
                                         fetchSinkInfo: string -> Option<SqlIOConfig>)

  /** The collaborators `computeSamzaConfigs` calls but that are not part of
      this model, as functions of their arguments. */
  datatype SqlEnvironment = SqlEnvironment(
    fetchSqlFromConfig: Config -> seq<string>,
    convertDsl: (Config, string) -> seq<RelRoot>,
    createIOResolver: Config -> SqlIOResolver,
    serializeSqlStmts: seq<string> -> string)

  /** Why `computeSamzaConfigs` throws instead of returning a config. */
  datatype RunnerError =
    | NoRelRoot
    | UnresolvedSource(source: string)
    | UnresolvedSink(sink: string)

  /** The plan roots the DSL converter makes of the SQL statements joined
      by newlines. */
  function RelRoots(env: SqlEnvironment, config: Config): seq<RelRoot>
  {
    env.convertDsl(config, Strings.Join(env.fetchSqlFromConfig(config), "\n"))
  }

  /** `order` lists every member of `names` exactly once. */
  ghost predicate Enumerates(order: seq<string>, names: set<string>)
  {
    && (forall x :: x in order <==> x in names)
    && (forall i, j :: 0 <= i < j < |order| ==> order[i] != order[j])
  }

  ghost predicate AllResolve(fetch: string -> Option<SqlIOConfig>, names: set<string>)
  {
    forall x :: x in names ==> fetch(x).Some?
  }

  /** The resolved configs of `names`, in the same order. */
  function Resolved(fetch: string -> Option<SqlIOConfig>, names: seq<string>): (r: seq<SqlIOConfig>)
    requires forall i :: 0 <= i < |names| ==> fetch(names[i]).Some?
    ensures |r| == |names|
  {
    seq(|names|, i requires 0 <= i < |names| => fetch(names[i]).value)
  }

  /** Resolving one more name writes its entries last: a `put` of the
      binding followed by a `putAll` of the stream's config. */
  lemma ResolvedStep(acc: Config, fetch: string -> Option<SqlIOConfig>, order: seq<string>, name: string)
    requires forall i :: 0 <= i < |order| ==> fetch(order[i]).Some?
    requires fetch(name).Some?
    ensures var c := fetch(name).value;
      ApplyResolved(acc, Resolved(fetch, order + [name])) ==
      ApplyResolved(acc, Resolved(fetch, order))[StreamSystemKey(c.streamName) := c.systemName] + c.config
  {
    var c := fetch(name).value;
    var cs := Resolved(fetch, order + [name]);
    assert cs[..|order|] == Resolved(fetch, order);
    assert cs[|order|] == c;
    var m := ApplyResolved(acc, Resolved(fetch, order));
    assert m + Entries(c) == m[StreamSystemKey(c.streamName) := c.systemName] + c.config;
  }

  /** One of the two loops of `computeSamzaConfigs`: resolve every name of
      a set, in whatever order the set yields them, and write each one's
      entries over `acc`. The first name that does not resolve is
      reported; `order` records the names in the order they were taken. */
  method PutResolved(acc: Config, names: set<string>, fetch: string -> Option<SqlIOConfig>)
    returns (r: Result<Config, string>, ghost order: seq<string>)
    ensures r.Success? <==> AllResolve(fetch, names)
    ensures r.Failure? ==> r.error in names && fetch(r.error).None?
    ensures r.Success? ==> && Enumerates(order, names)
                           && (forall i :: 0 <= i < |order| ==> fetch(order[i]).Some?)
                           && r.value == ApplyResolved(acc, Resolved(fetch, order))
  {
    var newConfig := acc;
    var remaining := names;
    order := [];
    while remaining != {}
      invariant remaining <= names
      invariant forall x :: x in order <==> x in names && x !in remaining
      invariant forall i, j :: 0 <= i < j < |order| ==> order[i] != order[j]
      invariant forall i :: 0 <= i < |order| ==> fetch(order[i]).Some?
      invariant newConfig == ApplyResolved(acc, Resolved(fetch, order))
      decreases |remaining|
    {
      var name :| name in remaining;
      var info := fetch(name);
      if info.None? {
        return Failure(name), order;
      }
      newConfig := newConfig[StreamSystemKey(info.value.streamName) := info.value.systemName] + info.value.config;
      ResolvedStep(acc, fetch, order, name);
      order := order + [name];
      remaining := remaining - {name};
    }
    r := Success(newConfig);
  }

  /** `computeSamzaConfigs`: classify the first plan root's tables, resolve
      every input and output stream, and merge. On success the result is
      the merged config for the order in which the two sets were iterated
      (`sourceOrder`, `sinkOrder`); the exceptions the source lets escape
      are the failures. */
  method ComputeSamzaConfigs(localRunner: bool, config: Config, env: SqlEnvironment)
    returns (r: Result<Config, RunnerError>, ghost sourceOrder: seq<string>, ghost sinkOrder: seq<string>)
    ensures r == Failure(NoRelRoot) <==> |RelRoots(env, config)| == 0
    ensures |RelRoots(env, config)| > 0 ==>
      var plan := Project(RelRoots(env, config)[0]);
      var resolver := env.createIOResolver(config);
      && (r.Success? <==> AllResolve(resolver.fetchSourceInfo, InputNames(plan))
                          && AllResolve(resolver.fetchSinkInfo, OutputNames(plan)))
      && (r.Failure? && r.error.UnresolvedSource? ==>
            r.error.source in InputNames(plan) && resolver.fetchSourceInfo(r.error.source).None?)
      && (r.Failure? && r.error.UnresolvedSink? ==>
            && AllResolve(resolver.fetchSourceInfo, InputNames(plan))
            && r.error.sink in OutputNames(plan) && resolver.fetchSinkInfo(r.error.sink).None?)
      && (r.Success? ==>
            && Enumerates(sourceOrder, InputNames(plan))
            && Enumerates(sinkOrder, OutputNames(plan))
            && (forall i :: 0 <= i < |sourceOrder| ==> resolver.fetchSourceInfo(sourceOrder[i]).Some?)
            && (forall i :: 0 <= i < |sinkOrder| ==> resolver.fetchSinkInfo(sinkOrder[i]).Some?)
            && r.value == SamzaConfigs(env.serializeSqlStmts(env.fetchSqlFromConfig(config)),
                                       Resolved(resolver.fetchSourceInfo, sourceOrder),
                                       Resolved(resolver.fetchSinkInfo, sinkOrder),
                                       config, localRunner))
  {
    var dslStmts := env.fetchSqlFromConfig(config);
    var relRoots := env.convertDsl(config, Strings.Join(dslStmts, "\n"));
    var inputSystemStreams := new StringSet();
    var outputSystemStreams := new StringSet();
    sourceOrder, sinkOrder := [], [];
    if |relRoots| == 0 {
      return Failure(NoRelRoot), sourceOrder, sinkOrder;
    }
    PopulateSystemStreams(Project(relRoots[0]), inputSystemStreams, outputSystemStreams);
    var ioResolver := env.createIOResolver(config);
    var sqlJson := env.serializeSqlStmts(dslStmts);
    var newConfig := map[CFG_SQL_STMTS_JSON := sqlJson];
    var sources;
    sources, sourceOrder := PutResolved(newConfig, inputSystemStreams.elems, ioResolver.fetchSourceInfo);
    if sources.Failure? {
      return Failure(UnresolvedSource(sources.error)), sourceOrder, sinkOrder;
    }
    var sinks;
    sinks, sinkOrder := PutResolved(sources.value, outputSystemStreams.elems, ioResolver.fetchSinkInfo);
    if sinks.Failure? {
      return Failure(UnresolvedSink(sinks.error)), sourceOrder, sinkOrder;
    }
    newConfig := sinks.value + config;
    newConfig := newConfig[RUNNER_CONFIG := RunnerClass(localRunner)];
    r := Success(newConfig);
  }
}

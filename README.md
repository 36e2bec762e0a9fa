# Samza SQL runner, locality cache and stream-table join spec, in Dafny

This project models three pieces of Apache Samza and proves properties of
them.

**The SQL application runner's compile step** (`SamzaSqlApplicationRunner`).
- `populateSystemStreams` walks the relational plan of the first plan root.
  - It puts the table of every table-modify node into the output streams.
  - It recurses into both sides of a binary node.
  - It puts the table of every other node that has one into the input streams.
  - It then recurses into every input of every node.
- `computeSamzaConfigs` turns these sets into one flat config:
  1. the serialized SQL;
  2. for each resolved source, its `streams.<stream>.samza.system` binding and then its own config;
  3. the same for each sink;
  4. the user's config;
  5. the runner class.

**The container-locality cache** (`LocalityManager`).
- The cache maps each container id to its host, JMX and JMX-tunneling addresses.
- It is filled by replaying the coordinator stream's host-mapping messages. A read then freezes it.
- Each write appends a message to the stream and updates one entry.

**The stream-table join operator spec** (`StreamTableJoinOperatorSpec`).
- An immutable descriptor.
- It has two capability probes on its join function.

Files:

- `wrappers.dfy`: `Option`, `Result` and `Outcome`.
- `strings.dfy`: `Join` (`String.join`, `Collectors.joining`) and the `Split` that inverts it.
- `java_integers.dfy`: Java's 32-bit `int`, `String.valueOf(int)` and `Integer.parseInt`.
- `calcite_plan.dfy`: the planner's plan tree as a closed datatype, and `RelRoot.project()`.
- `sql_runner.dfy`:
  - the classification, both as the recursive method on caller-owned sets and as its specification;
  - the config merge, specified on values;
  - `computeSamzaConfigs`.
- `locality_manager.dfy`: the coordinator stream as an append-only log, the replay that specifies a read, and the `LocalityManager` class.
- `join_operator_spec.dfy`: the join spec datatype and its probes.

Two kinds of collaborator become parameters:
- the collaborators that are not part of this model;
- the IO resolver.

Both are total functions: the converter, `SamzaSqlApplicationConfig`'s fetch, serialize and resolver factory, and the resolver's two lookups.

A lookup that would throw returns `None`. These exceptions of the core are
modelled as `Failure` or `Fail` values:
- `iterator().next()` on an empty plan-root collection (`NoSuchElementException`, SamzaSqlApplicationRunner.java:93) is `NoRelRoot`;
- a failed `fetchSourceInfo` or `fetchSinkInfo` (SamzaSqlApplicationRunner.java:103 and :110) is `UnresolvedSource` or `UnresolvedSink`;
- `Integer.parseInt` on a bad key (`NumberFormatException`, LocalityManager.java:77) is `NumberFormat`;
- a `put` into the frozen cache (`UnsupportedOperationException`, LocalityManager.java:96) is `UnsupportedOperation`.

The exceptions that other code may throw are listed under "## Left out".

## Model

| member | source | states |
|---|---|---|
| SqlRunner.SystemStreamName | samza-sql/src/main/java/org/apache/samza/sql/runner/SamzaSqlApplicationRunner.java:196-198 | The stream name of an empty qualified name is "", and otherwise the stream name begins with the first component. |
| SqlRunner.SystemStreamNameComponents | samza-sql/src/main/java/org/apache/samza/sql/runner/SamzaSqlApplicationRunner.java:196-198 | The stream name is the qualified name's components joined with "."; when no component contains a dot, splitting the name at dots gives back exactly the components. |
| SqlRunner.PopulateSystemStreams | samza-sql/src/main/java/org/apache/samza/sql/runner/SamzaSqlApplicationRunner.java:174-194 | With two distinct sets, the input set grows by exactly the plan's input names and the output set by exactly its output names. When the caller passes one set twice, it grows by both. This holds even though a binary node's sides are visited twice, once directly and once through `getInputs()`. |
| SqlRunner.PopulateEach | samza-sql/src/main/java/org/apache/samza/sql/runner/SamzaSqlApplicationRunner.java:189-193 | Classifying each input of a node in turn grows the sets by exactly the union of those inputs' names. |
| SqlRunner.HeadThenInputs | samza-sql/src/main/java/org/apache/samza/sql/runner/SamzaSqlApplicationRunner.java:178-193 | A node's own contribution plus that of its inputs is the node's whole classification. For a binary node, its two sides and then its inputs give the same names as one visit. |
| SqlRunner.ClassificationCoversAllNodes | samza-sql/src/main/java/org/apache/samza/sql/runner/SamzaSqlApplicationRunner.java:174-194 | The outputs are the names of all table-modify nodes anywhere in the plan. The inputs are the names of all non-binary, non-table-modify nodes that have a table. A table feeding a sink is still an input, and binary nodes and table-less nodes add nothing. |
| SqlRunner.ClassificationOfInputsCoversAllNodes | samza-sql/src/main/java/org/apache/samza/sql/runner/SamzaSqlApplicationRunner.java:189-193 | The same characterization holds over the first k inputs of a node. |
| SqlRunner.ClassificationIgnoresSideOrder | samza-sql/src/main/java/org/apache/samza/sql/runner/SamzaSqlApplicationRunner.java:178-181 | Swapping the left and right sides of every binary node leaves both sets unchanged. |
| CalcitePlan.Project | samza-sql/src/main/java/org/apache/samza/sql/runner/SamzaSqlApplicationRunner.java:93 | `project()` is the root's node itself or a projection node without a table over it. |
| SqlRunner.ProjectionKeepsClassification | samza-sql/src/main/java/org/apache/samza/sql/runner/SamzaSqlApplicationRunner.java:93 | The projection `project()` may put on top of the first root changes neither set. |
| SqlRunner.JoinIntoSink | samza-sql/src/main/java/org/apache/samza/sql/runner/SamzaSqlApplicationRunner.java:174-194 | In a join of scans of A and B written into C, the inputs are exactly {A, B} and the outputs exactly {C}. |
| SqlRunner.StreamSystemKey | samza-sql/src/main/java/org/apache/samza/sql/runner/SamzaSqlApplicationRunner.java:68 | The binding key is `streams.`, then the stream name, then `.samza.system`, and it is 21 characters longer than the name. |
| SqlRunner.StreamSystemKeyInjective | samza-sql/src/main/java/org/apache/samza/sql/runner/SamzaSqlApplicationRunner.java:68 | Distinct stream names give distinct `streams.%s.samza.system` keys. |
| SqlRunner.StreamSystemKeyIsNotReserved | samza-sql/src/main/java/org/apache/samza/sql/runner/SamzaSqlApplicationRunner.java:67-68 | No stream binding key equals the runner-class key or the serialized-SQL key. |
| SqlRunner.EntriesShape | samza-sql/src/main/java/org/apache/samza/sql/runner/SamzaSqlApplicationRunner.java:103-106 | One resolved stream writes exactly its binding key and its config's keys. Its config's values win, and the binding key otherwise holds the stream's system name. |
| SqlRunner.ApplyResolved | samza-sql/src/main/java/org/apache/samza/sql/runner/SamzaSqlApplicationRunner.java:102-114 | Merging resolved streams over a config keeps every key the config had. |
| SqlRunner.ApplyResolvedKeys | samza-sql/src/main/java/org/apache/samza/sql/runner/SamzaSqlApplicationRunner.java:102-114 | After the resolved streams' puts, a key is present iff it was present before or some stream binds or configures it. |
| SqlRunner.ApplyResolvedLast | samza-sql/src/main/java/org/apache/samza/sql/runner/SamzaSqlApplicationRunner.java:102-114 | The last resolved stream that writes a key decides that key's value. |
| SqlRunner.ApplyResolvedUntouched | samza-sql/src/main/java/org/apache/samza/sql/runner/SamzaSqlApplicationRunner.java:102-114 | A key that no resolved stream writes keeps its earlier presence and value. |
| SqlRunner.ApplyResolvedAgreeing | samza-sql/src/main/java/org/apache/samza/sql/runner/SamzaSqlApplicationRunner.java:102-114 | When every stream that writes a key writes the same value, the result holds that value, whatever the order. |
| SqlRunner.ApplyResolvedOrderFree | samza-sql/src/main/java/org/apache/samza/sql/runner/SamzaSqlApplicationRunner.java:102-107 | If no two resolved streams give a key different values, any two orders of the same streams give the same config. |
| SqlRunner.ResolvedStep | samza-sql/src/main/java/org/apache/samza/sql/runner/SamzaSqlApplicationRunner.java:103-106 | A loop iteration (`put` of the binding, then `putAll` of the stream's config) is the next step of the merge specification. |
| SqlRunner.PutResolved | samza-sql/src/main/java/org/apache/samza/sql/runner/SamzaSqlApplicationRunner.java:102-107 | Iterating a name set in any order succeeds iff every name resolves. On success the order covers the set exactly once and the config is the merge in that order. On failure a name of the set that does not resolve is reported. |
| SqlRunner.SamzaConfigs | samza-sql/src/main/java/org/apache/samza/sql/runner/SamzaSqlApplicationRunner.java:134-140 | The runner key always holds the local or remote runner class, as `localRunner` says, even when the user config sets it. Every other user key keeps the user's value. |
| SqlRunner.SamzaConfigsKeys | samza-sql/src/main/java/org/apache/samza/sql/runner/SamzaSqlApplicationRunner.java:98-140 | The merged config's keys are exactly: the runner key, the serialized-SQL key, the user's keys, and the keys some resolved source or sink writes. |
| SqlRunner.EveryStreamIsBound | samza-sql/src/main/java/org/apache/samza/sql/runner/SamzaSqlApplicationRunner.java:102-114 | Every resolved source and sink has the key `streams.<streamName>.samza.system` in the result. |
| SqlRunner.SinkStreamBoundToSystem | samza-sql/src/main/java/org/apache/samza/sql/runner/SamzaSqlApplicationRunner.java:109-114 | A sink's binding key holds that sink's system name when three things hold: no later sink writes the key, the sink's own config does not set it, and the user config does not set it. |
| SqlRunner.SourceStreamBoundToSystem | samza-sql/src/main/java/org/apache/samza/sql/runner/SamzaSqlApplicationRunner.java:102-107 | A source's binding key holds that source's system name when four things hold: no later source writes the key, no sink writes it, the source's own config does not set it, and the user config does not set it. |
| SqlRunner.SinkOverridesSource | samza-sql/src/main/java/org/apache/samza/sql/runner/SamzaSqlApplicationRunner.java:109-114 | A key the user does not set takes the last writing sink's value, whatever any source wrote. |
| SqlRunner.SourceWhenNoSink | samza-sql/src/main/java/org/apache/samza/sql/runner/SamzaSqlApplicationRunner.java:102-107 | A key that only sources write, and that the user does not set, takes the last writing source's value. |
| SqlRunner.SqlStatementsTravel | samza-sql/src/main/java/org/apache/samza/sql/runner/SamzaSqlApplicationRunner.java:97-99 | Unless a stream or the user overwrites it, the serialized SQL is in the result under its key. |
| SqlRunner.SamzaConfigsOrderFree | samza-sql/src/main/java/org/apache/samza/sql/runner/SamzaSqlApplicationRunner.java:102-114 | When no two sources and no two sinks clash on a key, the set iteration order does not change the result. |
| SqlRunner.ComputeSamzaConfigs | samza-sql/src/main/java/org/apache/samza/sql/runner/SamzaSqlApplicationRunner.java:80-144 | Only the first plan root is classified, and it fails with `NoRelRoot` iff there is none. It succeeds iff every input resolves as a source and every output as a sink. A failure names an input or output whose lookup fails, and a sink failure implies every source resolved. On success the iteration orders cover the sets exactly once, and the result is the layered merge for those orders. |
| JavaIntegers.ValueOf | samza-core/src/main/java/org/apache/samza/container/LocalityManager.java:91 | `String.valueOf(n)` is non-empty and starts with '-' exactly when n is negative, and the rest is decimal digits. |
| JavaIntegers.ParseInt | samza-core/src/main/java/org/apache/samza/container/LocalityManager.java:77 | A string that parses begins with a sign or a digit. |
| JavaIntegers.ParseIntValueOf | samza-core/src/main/java/org/apache/samza/container/LocalityManager.java:77 | `Integer.parseInt(String.valueOf(n)) == n` for every `int`. |
| JavaIntegers.ValueOfInjective | samza-core/src/main/java/org/apache/samza/container/LocalityManager.java:91 | Distinct `int`s have distinct decimal strings, so distinct container ids are written under distinct keys. |
| Container.WriteMessagesDistinct | samza-core/src/main/java/org/apache/samza/container/LocalityManager.java:91 | The messages written for two distinct container ids differ in both source and key. |
| Container.Bootstrap | samza-core/src/main/java/org/apache/samza/container/LocalityManager.java:70 | The bootstrapped stream holds exactly the log's host-mapping messages. |
| Container.Replay | samza-core/src/main/java/org/apache/samza/container/LocalityManager.java:69-78 | A successful replay has at most one entry per message. |
| Container.LocalityEntry | samza-core/src/main/java/org/apache/samza/container/LocalityManager.java:92-95 | A cache entry has exactly the three keys IP, JMX URL and JMX tunneling URL, holding the three addresses. |
| Container.ReplayFailureSticks | samza-core/src/main/java/org/apache/samza/container/LocalityManager.java:70-78 | Once a key fails to parse, the read throws whatever follows. |
| Container.ReplayFails | samza-core/src/main/java/org/apache/samza/container/LocalityManager.java:70-78 | A replay fails iff some message key does not parse as an `int`, and it reports the first such key. |
| Container.ReplayKeys | samza-core/src/main/java/org/apache/samza/container/LocalityManager.java:69-78 | A successful replay has an entry for exactly the container ids the messages name. |
| Container.ReplayLastWins | samza-core/src/main/java/org/apache/samza/container/LocalityManager.java:69-78 | A container's entry comes from the last message for that container. |
| Container.ReplayEntryShape | samza-core/src/main/java/org/apache/samza/container/LocalityManager.java:72-75 | Every entry of a replay has exactly the three locality keys. |
| Container.WriteThenReplay | samza-core/src/main/java/org/apache/samza/container/LocalityManager.java:68-97 | Replaying a log after a write's message gives the written addresses for that container over what the log held before (persist and read). |
| Container.CoordinatorStream.Send | samza-core/src/main/java/org/apache/samza/container/LocalityManager.java:91 | Sending appends exactly one message and changes no registration. |
| Container.CoordinatorStream.RegisterSource | samza-core/src/main/java/org/apache/samza/container/LocalityManager.java:65 | Registering a producer source adds exactly that source and changes nothing else. |
| Container.CoordinatorStream.RegisterConsumer | samza-core/src/main/java/org/apache/samza/container/LocalityManager.java:64 | Registering the consumer marks it registered and changes nothing else. |
| Container.LocalityManager.constructor | samza-core/src/main/java/org/apache/samza/container/LocalityManager.java:43-48 | A new manager has an empty, modifiable cache over the given stream. |
| Container.LocalityManager.Register | samza-core/src/main/java/org/apache/samza/container/LocalityManager.java:63-66 | The consumer is registered and the producer is registered under `"SamzaContainer-" + sourceSuffix`. No message is sent. |
| Container.LocalityManager.ReadContainerLocality | samza-core/src/main/java/org/apache/samza/container/LocalityManager.java:68-81 | The result is the replay of the bootstrapped host mappings. On success the cache becomes exactly that map, is frozen, and agrees with the stream. On a bad key the cache is untouched. |
| Container.LocalityManager.WriteContainerToHostMapping | samza-core/src/main/java/org/apache/samza/container/LocalityManager.java:83-97 | It always appends one message, with source `"SamzaContainer-" + id` and key `String.valueOf(id)`. If the cache is mutable, it sets that container's entry and leaves all others unchanged, keeping the cache in agreement with the stream. If the cache is frozen, it throws and the cache is unchanged. |
| Container.WriteThenRead | samza-core/src/main/java/org/apache/samza/container/LocalityManager.java:32-35 | On a fresh stream, a write followed by a read returns exactly the written entry. |
| Container.WriteAfterReadIsStillPersisted | samza-core/src/main/java/org/apache/samza/container/LocalityManager.java:79-96 | A write after a read throws, but its message is already on the stream, so a new manager's read returns it. |
| OperatorSpecs.NewStreamTableJoinOperatorSpec | samza-core/src/main/java/org/apache/samza/operators/spec/StreamTableJoinOperatorSpec.java:49-66 | The op code is JOIN and the op id is the one supplied. `getTableId`, `getJoinFn` and `getArgs` return exactly the constructor's arguments, the args in the same order. |
| OperatorSpecs.GettersRebuildSpec | samza-core/src/main/java/org/apache/samza/operators/spec/StreamTableJoinOperatorSpec.java:56-66 | `getTableId`, `getJoinFn` and `getArgs`, with the op id, give back everything a JOIN spec holds: rebuilding from them yields the same spec. |
| OperatorSpecs.GetWatermarkFn | samza-core/src/main/java/org/apache/samza/operators/spec/StreamTableJoinOperatorSpec.java:68-71 | Non-null iff the join function is also a `WatermarkFunction`, and then it is that same function. |
| OperatorSpecs.GetScheduledFn | samza-core/src/main/java/org/apache/samza/operators/spec/StreamTableJoinOperatorSpec.java:73-76 | Non-null iff the join function is also a `ScheduledFunction`, and then it is that same function. |
| OperatorSpecs.ProbesAreIndependent | samza-core/src/main/java/org/apache/samza/operators/spec/StreamTableJoinOperatorSpec.java:68-76 | Adding or removing one capability does not change whether the other probe answers. |
| OperatorSpecs.ProbeExamples | samza-core/src/main/java/org/apache/samza/operators/spec/StreamTableJoinOperatorSpec.java:68-76 | A join function with neither capability answers null to both probes. One with both answers itself to both. |

## Left out

- Logging (every `LOG.info` / `log.info`): it has no effect on state. This includes the "moved from"/"started at" branch of `writeContainerToHostMapping`, whose cache lookup only feeds the log.
- `start`/`stop` and the coordinator producer/consumer lifecycle: transport plumbing. `register` is modelled only as the two registrations it makes.
- `CoordinatorStreamSystemConsumer` is not part of this model. Its bootstrapped stream is modelled as the log's host-mapping messages in append order.
- `SetContainerHostMapping` is not part of this model. Its three key strings (`"ip"`, `"jmx-url"`, `"jmx-tunneling-url"`) and its typed fields are assumed, and any other message type is `OtherMessage`.
- `SamzaSqlApplicationConfig` is not part of this model. Its fetch, serialize and resolver factory are parameters, and the value of `CFG_SQL_STMTS_JSON` (`"samza.sql.stmts.json"`) is assumed.
- The DSL converter and `SamzaSqlDslConverterFactory` are a parameter `convertDsl(config, text)`. An empty plan-root collection makes `iterator().next()` throw, so it is modelled as `Failure(NoRelRoot)`.
- `OperatorSpec` is not part of this model. Its op-code list is assumed, and only JOIN matters here.
- Calcite's `RelNode` is a closed datatype. A table-modify node always has its table, and a binary node's own table is never looked at (the code does not look at it). A `null` input list is the empty list, which the code treats the same way.
- HashSet iteration order is an arbitrary choice at each step. `ComputeSamzaConfigs` returns the order it chose as ghost values, and the merge lemmas hold for every order.
- SqlRunner.ComputeSamzaConfigs: its result is stated for the order the sets happened to be iterated in. When two resolved streams clash on a key, the code's result depends on that order too. Order independence is proved only for clash-free streams (`SamzaConfigsOrderFree`).
- Aliasing is not modelled. The map `readContainerLocality` returns is the one the frozen view wraps, so a caller's later changes would show through the cache; the model returns a value. Likewise `getArgs` returns the constructor's array itself; the model has a `seq`.
- JavaIntegers.ParseInt: accepts only ASCII digits. Java's `Integer.parseInt` also accepts other Unicode decimal digits. The ids written here are always ASCII.
- `null` arguments (a null container id, address or table name) and the `MapConfig` wrapper are not modelled: values are never null here.
- The runner's constructors, `ApplicationRunner.fromConfig`, and the delegating `run`, `kill`, `status`, `runTask` and `runAndWaitForFinish`, with their `Validate` checks: plumbing to the wrapped runner.
- Exceptions thrown by code outside this model are not modelled. The model takes these calls as total:
  - `fetchSqlFromConfig`, `convertDsl` (a SQL parse error), `createIOResolver` and `serializeSqlStmts` in the runner;
  - `new SetContainerHostMapping(message)` at LocalityManager.java:71, on a message that does not decode;
  - the producer's `send` at LocalityManager.java:91.
- The `NullPointerException` that `if (localRunner)` at SamzaSqlApplicationRunner.java:136 throws when the `Boolean` is null: `localRunner` is a `bool` here.
- The commented-out block at SamzaSqlApplicationRunner.java lines 116-132: dead code.
- Checks the code does not make, so the model does not make them either:
  - A table can be both read and written by the plan. Its name is then in both the input and the output set, and the code accepts this.
  - The join spec's table id is not checked against any resolved input.

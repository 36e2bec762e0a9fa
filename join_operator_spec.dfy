/** The stream-table join operator spec: an immutable descriptor binding a
    table id, a user join function, an operator id and the extra arguments
    handed to the table, with two capability probes on the join function. */
module OperatorSpecs {
  import opened Wrappers

  /** The operator kinds of `OperatorSpec.OpCode`. */
  datatype OpCode =
    | INPUT | MAP | FLAT_MAP | FILTER | SINK | SEND_TO | JOIN | WINDOW | MERGE | PARTITION_BY | OUTPUT

  /** The optional interfaces a user function may also implement. */
  datatype FunctionCapability = WatermarkFunction | ScheduledFunction

  /** A user's `StreamTableJoinFunction` object: `identity` stands for the
      object's identity, `capabilities` for the optional interfaces its class
      implements. */
  datatype StreamTableJoinFunction = StreamTableJoinFunction(identity: nat, capabilities: set<FunctionCapability>)

  datatype StreamTableJoinOperatorSpec<Arg> = StreamTableJoinOperatorSpec(
    opCode: OpCode,
    opId: string,
    tableId: string,
    joinFn: StreamTableJoinFunction,
    args: seq<Arg>)

  /** The constructor: the op code is always JOIN, and every argument is
      kept as given, the extra arguments in their order. */
  function NewStreamTableJoinOperatorSpec<Arg>(tableId: string, joinFn: StreamTableJoinFunction,
                                               opId: string, args: seq<Arg>)
    : (spec: StreamTableJoinOperatorSpec<Arg>)
    ensures spec.opCode == JOIN && spec.opId == opId
    ensures GetTableId(spec) == tableId && GetJoinFn(spec) == joinFn && GetArgs(spec) == args
  {
    StreamTableJoinOperatorSpec(JOIN, opId, tableId, joinFn, args)
  }

  function GetTableId<Arg>(spec: StreamTableJoinOperatorSpec<Arg>): string
  {
    spec.tableId
  }

  function GetJoinFn<Arg>(spec: StreamTableJoinOperatorSpec<Arg>): StreamTableJoinFunction
  {
    spec.joinFn
  }

  function GetArgs<Arg>(spec: StreamTableJoinOperatorSpec<Arg>): seq<Arg>
  {
    spec.args
  }

  /** The three getters give back everything a JOIN spec was built from:
      rebuilding from them yields the same spec. */
  lemma GettersRebuildSpec<Arg>(spec: StreamTableJoinOperatorSpec<Arg>)
    requires spec.opCode == JOIN
    ensures NewStreamTableJoinOperatorSpec(GetTableId(spec), GetJoinFn(spec), spec.opId, GetArgs(spec)) == spec
  {
  }

  /** `getWatermarkFn`: the join function itself when it is also a
      `WatermarkFunction`, and `null` (`None`) otherwise. */
  function GetWatermarkFn<Arg>(spec: StreamTableJoinOperatorSpec<Arg>): (r: Option<StreamTableJoinFunction>)
    ensures r.Some? <==> WatermarkFunction in spec.joinFn.capabilities
    ensures r.Some? ==> r.value == spec.joinFn
  {
    if WatermarkFunction in spec.joinFn.capabilities then Some(spec.joinFn) else None
  }

  /** `getScheduledFn`: the join function itself when it is also a
      `ScheduledFunction`, and `null` (`None`) otherwise. */
  function GetScheduledFn<Arg>(spec: StreamTableJoinOperatorSpec<Arg>): (r: Option<StreamTableJoinFunction>)
    ensures r.Some? <==> ScheduledFunction in spec.joinFn.capabilities
    ensures r.Some? ==> r.value == spec.joinFn
  {
    if ScheduledFunction in spec.joinFn.capabilities then Some(spec.joinFn) else None
  }

  /** Each probe looks at its own capability only: giving the join function
      the other capability, or taking it away, does not change whether the
      probe answers. */
  lemma ProbesAreIndependent<Arg>(tableId: string, identity: nat, caps: set<FunctionCapability>,
                                  opId: string, args: seq<Arg>)
    ensures var withScheduled := NewStreamTableJoinOperatorSpec(tableId, StreamTableJoinFunction(identity, caps + {ScheduledFunction}), opId, args);
            var without := NewStreamTableJoinOperatorSpec(tableId, StreamTableJoinFunction(identity, caps - {ScheduledFunction}), opId, args);
            GetWatermarkFn(withScheduled).Some? == GetWatermarkFn(without).Some?
    ensures var withWatermark := NewStreamTableJoinOperatorSpec(tableId, StreamTableJoinFunction(identity, caps + {WatermarkFunction}), opId, args);
            var without := NewStreamTableJoinOperatorSpec(tableId, StreamTableJoinFunction(identity, caps - {WatermarkFunction}), opId, args);
            GetScheduledFn(withWatermark).Some? == GetScheduledFn(without).Some?
  {
  }

  /** A join function with neither optional interface answers `null` to both
      probes; one with both answers itself to both. */
  lemma ProbeExamples<Arg>(tableId: string, identity: nat, opId: string, args: seq<Arg>)
    ensures var plain := NewStreamTableJoinOperatorSpec(tableId, StreamTableJoinFunction(identity, {}), opId, args);
            GetWatermarkFn(plain) == None && GetScheduledFn(plain) == None
    ensures var fn := StreamTableJoinFunction(identity, {WatermarkFunction, ScheduledFunction});
            var both := NewStreamTableJoinOperatorSpec(tableId, fn, opId, args);
            GetWatermarkFn(both) == Some(fn) && GetScheduledFn(both) == Some(fn)
  {
  }
}

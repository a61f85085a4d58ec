/**
 * Reporting of the errors the ONNX-TensorRT importer returns when it rejects
 * a model (the loop over getError(i) in onnxToTrtCtx,
 * src/operator/subgraph/tensorrt/onnx_to_tensorrt.cc).
 *
 * Each error becomes one Report, in the importer's order. A report carries
 * the error's own location, code and description and, when the error names
 * a node, that node's operator type, its first output when it has one, and
 * the whole node when the logger's verbosity is at least informational.
 */
module ParseErrors {
  import opened Wrappers

  /** TensorRT's logger severities, in the order of their numeric values. */
  datatype Severity = InternalError | Error | Warning | Info | Verbose {
    /** The numeric value of the severity (ILogger::Severity kINTERNAL_ERROR = 0 ... kVERBOSE = 4). */
    function Level(): int {
      match this
      case InternalError => 0
      case Error => 1
      case Warning => 2
      case Info => 3
      case Verbose => 4
    }
  }

  /** The parts of an ONNX graph node that the reports use. */
  datatype Node = Node(opType: string, outputs: seq<string>)

  /** The node index the importer gives for an error not attributable to a node. */
  const NoNode: int := -1

  /** One error reported by the ONNX-TensorRT importer. */
  datatype ParserError = ParserError(node: int, file: string, line: int, func: string, code: int, desc: string)

  /** The node context printed before an error that names a node. */
  datatype NodeContext = NodeContext(index: nat, opType: string, firstOutput: Option<string>, dump: Option<Node>)

  /** One entry of the diagnostic written for a rejected model. */
  datatype Report = Report(context: Option<NodeContext>, file: string, line: int, func: string, code: int, desc: string)

  /** The error names no node, or a node the parsed graph has. */
  predicate NodeRefValid(e: ParserError, nodes: seq<Node>) {
    e.node == NoNode || 0 <= e.node < |nodes|
  }

  /** Every error names no node or a node the parsed graph has. */
  predicate NodeRefsValid(errors: seq<ParserError>, nodes: seq<Node>) {
    forall i :: 0 <= i < |errors| ==> NodeRefValid(errors[i], nodes)
  }

  /** Whether the full node is dumped: the verbosity is numerically at least kINFO. */
  predicate DumpsNodes(verbosity: Severity) {
    verbosity.Level() >= Info.Level()
  }

  /** The report for one importer error. */
  function ReportFor(e: ParserError, nodes: seq<Node>, verbosity: Severity): (r: Report)
    requires NodeRefValid(e, nodes)
    ensures r.context.Some? <==> e.node != NoNode
    ensures r.context.Some? ==>
      var c := r.context.value;
      && c.index == e.node
      && c.opType == nodes[e.node].opType
      && (c.firstOutput.Some? <==> |nodes[e.node].outputs| > 0)
      && (c.firstOutput.Some? ==> c.firstOutput.value == nodes[e.node].outputs[0])
      && (c.dump.Some? <==> DumpsNodes(verbosity))
      && (c.dump.Some? ==> c.dump.value == nodes[e.node])
    ensures r.file == e.file && r.line == e.line && r.func == e.func && r.code == e.code && r.desc == e.desc
  {
    var context :=
      if e.node == NoNode then None
      else
        var node := nodes[e.node];
        Some(NodeContext(
          e.node,
          node.opType,
          if |node.outputs| == 0 then None else Some(node.outputs[0]),
          if DumpsNodes(verbosity) then Some(node) else None));
    Report(context, e.file, e.line, e.func, e.code, e.desc)
  }

  /** Walks the importer's errors in index order and produces exactly one report per error. */
  method ReportParseErrors(errors: seq<ParserError>, nodes: seq<Node>, verbosity: Severity) returns (reports: seq<Report>)
    requires NodeRefsValid(errors, nodes)
    ensures |reports| == |errors|
    ensures forall i :: 0 <= i < |errors| ==> reports[i] == ReportFor(errors[i], nodes, verbosity)
  {
    reports := [];
    var nerror := |errors|;
    var i := 0;
    while i < nerror
      invariant 0 <= i <= nerror
      invariant |reports| == i
      invariant forall k :: 0 <= k < i ==> reports[k] == ReportFor(errors[k], nodes, verbosity)
    {
      var error := errors[i];
      var context: Option<NodeContext> := None;
      if error.node != NoNode {
        var node := nodes[error.node];
        var firstOutput: Option<string> := None;
        if |node.outputs| != 0 {
          firstOutput := Some(node.outputs[0]);
        }
        var dump: Option<Node> := None;
        if DumpsNodes(verbosity) {
          dump := Some(node);
        }
        context := Some(NodeContext(error.node, node.opType, firstOutput, dump));
      }
      reports := reports + [Report(context, error.file, error.line, error.func, error.code, error.desc)];
      i := i + 1;
    }
  }
}

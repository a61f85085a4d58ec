# onnxToTrtCtx: ONNX-to-TensorRT engine construction, modelled in Dafny

This project models the logic of MXNet's TensorRT subgraph integration
(`src/operator/subgraph/tensorrt/onnx_to_tensorrt.cc`). That logic has three parts.

- **IR version printing** (`onnx_ir_version_string`). The integer ONNX IR
  version is split into major (`v / 1000000`), minor (`v % 1000000 / 10000`)
  and patch (`v % 10000`), then printed as `major.minor.patch`. Module
  `IrVersion` models this over `nat`. It gives the splitting and the printing
  an inverse each: `Compose`, and a reader `ParseVersion` built on `SplitDots`
  and `DecimalValue`. Both round trips are proved in both directions:
  - `Decompose` and `DecomposeCompose` for the split;
  - `VersionStringRoundTrip` for reading back a printed version;
  - `ParsedIsPrinted` for printing the version behind an accepted string
    whose parts fit their fields.

  So the printed string determines the version (`VersionStringInjective`).
- **Parse-failure reporting** (first half of `onnxToTrtCtx`). If the protobuf
  parse of the model fails, the call fails with "Could not parse ONNX from
  string". If the ONNX-TensorRT importer rejects the model, one report is made
  per importer error, in index order. The call then fails with "Cannot parse
  ONNX into TensorRT Engine". A report carries node context only for errors
  whose node is not -1. That context holds the first output only when the node
  has outputs, and the whole node only when the verbosity is numerically at
  least `kINFO`. Module `ParseErrors` holds this part. `ReportFor` gives the
  report for one error, and the method `ReportParseErrors` is the loop.
- **Precision and calibration decision** (second half of `onnxToTrtCtx`). fp16
  is used exactly when it is requested and the platform has fast fp16. A
  warning is logged exactly when fp16 is requested and unsupported. A
  calibrator on a platform without fast int8 gets `setDone` once and is
  dropped. The calibration build is launched only when the calibrator
  survives and its cache is empty. Module `Precision` states this decision as
  the function `Decide`, for both builder API generations selected by
  `NV_TENSORRT_MAJOR > 6`. Module `OnnxToTrt` holds the step-by-step
  procedures `BuildWithConfigApi` and `BuildWithLegacyApi`, the calibrator
  class `Int8Calibrator` (with its `done` flag and a count of `setDone`
  calls), and the whole call `OnnxToTrtCtx`. Each procedure is proved to
  compute exactly `Decide`'s outcome and to leave the calibrator in the
  stated state.

The two API generations differ in one place. With the builder-configuration
API (TensorRT 7 and later), the primary engine is built before int8 and the
calibrator are attached. Only the launched calibration build uses int8.
With the legacy builder API, int8 mode and the calibrator are set on the
builder before `buildCudaEngine`, so the primary engine is already an int8
build. Under both APIs the calibration build uses the primary settings with
int8 and the calibrator added. Under the legacy API these are therefore
exactly the primary settings. `Decide`'s ensures state both facts: the
calibration build's settings, and whether the primary engine is int8 under
each API.

Behaviour of the code worth noting:
- With the builder-configuration API and a calibrator whose cache is not
  empty, no engine is built with int8. The primary build comes before the
  int8 flag is set, and no calibration build is launched. Under the legacy
  API the primary build is int8.
- The importer's verdict, not its error count, decides failure. A rejection
  with zero errors still fails, with no reports.
- A node index other than -1 is used without a range check. The model
  requires the importer to give indices the parsed graph has
  (`ParseErrors.NodeRefsValid`).
- Every builder, network, parser and engine result goes through
  `InferObject`, which is defined outside this file. Its handling of a null
  result is not part of this model.

## Model

| member | source | states |
|---|---|---|
| IrVersion.Decompose | src/operator/subgraph/tensorrt/onnx_to_tensorrt.cc:49-52 | the minor part is below 100, the patch part below 10000, and major*1000000 + minor*10000 + patch equals the version |
| IrVersion.DecomposeCompose | src/operator/subgraph/tensorrt/onnx_to_tensorrt.cc:49-52 | every triple whose parts fit their fields is recovered from the integer it composes to, so the split is unique |
| IrVersion.Decimal | src/operator/subgraph/tensorrt/onnx_to_tensorrt.cc:53-55 | the printed number is non-empty, all digits, has no leading zero, and starts with '0' exactly when the number is 0 |
| IrVersion.DecimalRoundTrip | src/operator/subgraph/tensorrt/onnx_to_tensorrt.cc:53-55 | reading back the decimal form of n gives n |
| IrVersion.CanonicalRoundTrip | src/operator/subgraph/tensorrt/onnx_to_tensorrt.cc:53-55 | every digit string without a leading zero is the decimal form of its value |
| IrVersion.VersionString | src/operator/subgraph/tensorrt/onnx_to_tensorrt.cc:53-55 | the version string contains exactly two '.' and only digits besides |
| IrVersion.VersionStringRoundTrip | src/operator/subgraph/tensorrt/onnx_to_tensorrt.cc:49-55 | splitting the version string at its dots gives three unpadded numbers equal to major, minor and patch |
| IrVersion.ParsedIsPrinted | src/operator/subgraph/tensorrt/onnx_to_tensorrt.cc:49-55 | every string the reader accepts with parts that fit their fields is the printed form of the version those parts compose to |
| IrVersion.VersionStringInjective | src/operator/subgraph/tensorrt/onnx_to_tensorrt.cc:49-55 | two versions with the same string are the same version |
| ParseErrors.ReportFor | src/operator/subgraph/tensorrt/onnx_to_tensorrt.cc:95-116 | node context exactly when the error's node is not -1; first output exactly when the node has outputs; node dump exactly when verbosity >= kINFO; the error's file, line, function, code and description are carried over unchanged |
| ParseErrors.ReportParseErrors | src/operator/subgraph/tensorrt/onnx_to_tensorrt.cc:92-117 | exactly one report per importer error, the i-th report being the report for the i-th error |
| Precision.Decide | src/operator/subgraph/tensorrt/onnx_to_tensorrt.cc:120-196 | fp16 exactly when requested and supported, with a warning exactly when requested and unsupported; batch size, workspace and debug pass through; a calibrator without fast int8 is retired with a warning, and then no int8 and no calibration build; int8 only with a calibrator and fast int8; a calibration build exactly when the calibrator survives with an empty cache, with the primary settings plus int8 and calibrator; the primary engine is int8 only under the legacy API |
| Precision.ApisAgree | src/operator/subgraph/tensorrt/onnx_to_tensorrt.cc:122-196 | both API generations give the same calibration build, retirement and warnings; their primary settings differ only in int8 and the attached calibrator |
| OnnxToTrt.Int8Calibrator.SetDone | src/operator/subgraph/tensorrt/onnx_to_tensorrt.cc:146 | the calibrator is marked done, its cache is untouched, and one more setDone call is counted |
| OnnxToTrt.BuildWithConfigApi | src/operator/subgraph/tensorrt/onnx_to_tensorrt.cc:120-162 | the step-by-step configuration computes Decide's outcome for the builder-configuration API; the calibrator gets setDone exactly once when it is retired and is otherwise untouched |
| OnnxToTrt.BuildWithLegacyApi | src/operator/subgraph/tensorrt/onnx_to_tensorrt.cc:163-195 | the step-by-step configuration computes Decide's outcome for the legacy API; the calibrator gets setDone exactly once when it is retired and is otherwise untouched |
| OnnxToTrt.OnnxToTrtCtx | src/operator/subgraph/tensorrt/onnx_to_tensorrt.cc:67-199 | a protobuf parse failure gives "Could not parse ONNX from string"; an importer rejection gives one report per error in order and "Cannot parse ONNX into TensorRT Engine"; on both failures nothing is configured and the calibrator is untouched; otherwise the outcome is Decide's for the builder-configuration API when NV_TENSORRT_MAJOR > 6 and for the legacy API otherwise |

## Left out

- `PrintVersion` and all console and `LOG(WARNING)` output. Reports and warnings are returned as values, not formatted text.
- Protobuf deserialisation (`ParseFromString`, `DebugString`) and the TensorRT and ONNX-TensorRT calls (`createInferBuilder`, `createNetworkV2`, `createParser`, `parse`, `buildEngineWithConfig`, `buildCudaEngine`). These are foreign libraries. Their answers are inputs: the parsed graph or its absence, the importer's verdict and errors, and the platform capabilities. The dumped node stands for `DebugString`'s text.
- Engines are represented by the settings they are built with. `InferObject`, which wraps every builder, network, parser and engine result, is defined outside this file, and its handling of a null result is not part of this model.
- `std::async` and `std::future`, and the calibrator's batch-pull protocol (`setBatch`, condition variables). The calibration build is modelled only by the decision to launch it and the settings it captures. The calibrator's own source file is not part of this model.
- Ownership transfer of the builder, network and configuration into the launched build, and the engine/parser/logger lifetimes. These are resource management with no functional behaviour stated here.
- `GOOGLE_PROTOBUF_VERIFY_VERSION` and the explicit-batch creation flag, which are library-version glue. The default workspace size of a fresh builder or configuration is overwritten before any build, and is modelled as 0.
- IrVersion.Decompose: covers only non-negative versions, as an unbounded `nat`. It does not model C++ truncating division of negative values, the `int64_t` bound, or the truncation of a major number above the `int` range.
- ParseErrors.ReportParseErrors: requires every node index other than -1 to lie inside the parsed graph, because the source indexes the graph without a range check.

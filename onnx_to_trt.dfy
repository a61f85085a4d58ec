/**
 * onnxToTrtCtx (src/operator/subgraph/tensorrt/onnx_to_tensorrt.cc): check
 * that the serialized ONNX model parses, hand it to the ONNX-TensorRT
 * importer, report the importer's errors if it rejects the model, then
 * configure the builder and decide whether to launch a second, INT8
 * calibration build.
 *
 * The protobuf parser, the importer and the platform queries are foreign
 * code: their answers are inputs here (OnnxModel, Platform). Engines are
 * represented by the settings they are built with, and the asynchronous
 * calibration build by the settings it would capture.
 */
module OnnxToTrt {
  import opened Wrappers
  import opened ParseErrors
  import opened Precision

  /**
   * The INT8 calibrator the caller may pass. Only the state this procedure
   * touches is modelled: whether its calibration table is empty and whether
   * it was marked done.
   */
  class Int8Calibrator {
    var done: bool
    var cacheEmpty: bool
    /** How often setDone has been called on this calibrator. */
    ghost var setDoneCalls: nat

    constructor (cacheEmpty: bool)
      ensures this.cacheEmpty == cacheEmpty && !done && setDoneCalls == 0
    {
      this.cacheEmpty := cacheEmpty;
      done := false;
      setDoneCalls := 0;
    }

    /** Marks calibration as finished; the cache is untouched. */
    method SetDone()
      modifies this
      ensures done && cacheEmpty == old(cacheEmpty)
      ensures setDoneCalls == old(setDoneCalls) + 1
    {
      done := true;
      setDoneCalls := setDoneCalls + 1;
    }
  }

  /** What the decision sees of a possibly absent calibrator. */
  function View(c: Int8Calibrator?): CalibratorView
    reads c
  {
    if c == null then Absent else Present(c.cacheEmpty)
  }

  /** How the importer answered: accepted, or rejected with its list of errors. */
  datatype TrtParse = Accepted | Rejected(errors: seq<ParserError>)

  /**
   * The serialized model as the two parsers see it: the protobuf parse
   * (the graph's nodes, or None when ParseFromString fails) and the
   * importer's verdict.
   */
  datatype OnnxModel = OnnxModel(graph: Option<seq<Node>>, trt: TrtParse)

  /** The errors onnxToTrtCtx throws. */
  datatype BuildError = CouldNotParseOnnx | TrtRejected(reports: seq<Report>) {
    function Message(): string {
      match this
      case CouldNotParseOnnx => "Could not parse ONNX from string"
      case TrtRejected(_) => "Cannot parse ONNX into TensorRT Engine"
    }
  }

  /**
   * The configuration steps for TensorRT 7 and later: flags go on a builder
   * configuration object, the primary engine is built, and only then are
   * int8 and the calibrator attached for the calibration build.
   */
  method BuildWithConfigApi(p: BuildParams, platform: Platform, calibrator: Int8Calibrator?) returns (o: BuildOutcome)
    modifies calibrator
    ensures o == Decide(p, platform, old(View(calibrator)), ConfigApi)
    ensures calibrator != null ==> calibrator.cacheEmpty == old(calibrator.cacheEmpty)
    ensures calibrator != null ==> calibrator.done == (old(calibrator.done) || o.calibratorRetired)
    ensures calibrator != null ==>
      calibrator.setDoneCalls == old(calibrator.setDoneCalls) + (if o.calibratorRetired then 1 else 0)
  {
    var warnings: seq<Downgrade> := [];
    // setMaxBatchSize on the builder, then a fresh configuration object
    var config := BuildSettings(p.maxBatchSize, 0, false, false, false, false);
    if p.fp16Mode {
      if platform.hasFastFp16 {
        config := config.(fp16 := true);
      } else {
        warnings := warnings + [Fp16Unsupported];
      }
    }
    config := config.(maxWorkspaceSize := p.maxWorkspaceSize);
    if p.debugBuilder {
      config := config.(debug := true);
    }
    // buildEngineWithConfig: the primary engine
    var primary := config;
    var cal := calibrator;
    if cal != null {
      if platform.hasFastInt8 {
        config := config.(int8 := true, calibratorAttached := true);
      } else {
        warnings := warnings + [Int8Unsupported];
        cal.SetDone();
        cal := null;
      }
    }
    var int8Build: Option<BuildSettings> := None;
    if cal != null && cal.cacheEmpty {
      // std::async: the calibration build takes over the builder, network and configuration
      int8Build := Some(config);
    }
    o := BuildOutcome(primary, int8Build, calibrator != null && cal == null, warnings);
  }

  /**
   * The configuration steps before TensorRT 7: flags are set on the builder
   * itself, int8 and the calibrator included, before the primary engine is
   * built; the calibration build reuses the same builder.
   */
  method BuildWithLegacyApi(p: BuildParams, platform: Platform, calibrator: Int8Calibrator?) returns (o: BuildOutcome)
    modifies calibrator
    ensures o == Decide(p, platform, old(View(calibrator)), LegacyApi)
    ensures calibrator != null ==> calibrator.cacheEmpty == old(calibrator.cacheEmpty)
    ensures calibrator != null ==> calibrator.done == (old(calibrator.done) || o.calibratorRetired)
    ensures calibrator != null ==>
      calibrator.setDoneCalls == old(calibrator.setDoneCalls) + (if o.calibratorRetired then 1 else 0)
  {
    var warnings: seq<Downgrade> := [];
    // setMaxBatchSize on the builder
    var builder := BuildSettings(p.maxBatchSize, 0, false, false, false, false);
    if p.fp16Mode {
      if platform.hasFastFp16 {
        builder := builder.(fp16 := true);
      } else {
        warnings := warnings + [Fp16Unsupported];
      }
    }
    builder := builder.(maxWorkspaceSize := p.maxWorkspaceSize);
    builder := builder.(debug := p.debugBuilder);
    var cal := calibrator;
    if cal != null {
      if platform.hasFastInt8 {
        builder := builder.(int8 := true, calibratorAttached := true);
      } else {
        warnings := warnings + [Int8Unsupported];
        cal.SetDone();
        cal := null;
      }
    }
    // buildCudaEngine: the primary engine
    var primary := builder;
    var int8Build: Option<BuildSettings> := None;
    if cal != null && cal.cacheEmpty {
      // std::async: the calibration build takes over the builder and network
      int8Build := Some(builder);
    }
    o := BuildOutcome(primary, int8Build, calibrator != null && cal == null, warnings);
  }

  /**
   * The whole of onnxToTrtCtx. A model the protobuf parser rejects fails at
   * once; a model the importer rejects fails after one report per importer
   * error, in order; in both cases nothing is configured and the calibrator
   * is untouched. Otherwise the outcome is the precision and calibration
   * decision for the API that NV_TENSORRT_MAJOR selects.
   */
  method OnnxToTrtCtx(
    model: OnnxModel, p: BuildParams, verbosity: Severity, calibrator: Int8Calibrator?,
    platform: Platform, trtMajor: nat)
    returns (r: Result<BuildOutcome, BuildError>)
    requires model.graph.Some? && model.trt.Rejected? ==> NodeRefsValid(model.trt.errors, model.graph.value)
    modifies calibrator
    ensures model.graph.None? ==> r == Failure(CouldNotParseOnnx)
    ensures model.graph.Some? && model.trt.Rejected? ==>
      && r.Failure? && r.error.TrtRejected?
      && |r.error.reports| == |model.trt.errors|
      && forall i :: 0 <= i < |model.trt.errors| ==>
           r.error.reports[i] == ReportFor(model.trt.errors[i], model.graph.value, verbosity)
    ensures model.graph.Some? && model.trt.Accepted? ==>
      r == Success(Decide(p, platform, old(View(calibrator)), if trtMajor > 6 then ConfigApi else LegacyApi))
    ensures r.Failure? && calibrator != null ==>
      calibrator.done == old(calibrator.done) && calibrator.setDoneCalls == old(calibrator.setDoneCalls)
    ensures calibrator != null ==> calibrator.cacheEmpty == old(calibrator.cacheEmpty)
    ensures r.Success? && calibrator != null ==>
      && calibrator.done == (old(calibrator.done) || r.value.calibratorRetired)
      && calibrator.setDoneCalls == old(calibrator.setDoneCalls) + (if r.value.calibratorRetired then 1 else 0)
  {
    if model.graph.None? {
      return Failure(CouldNotParseOnnx);
    }
    if model.trt.Rejected? {
      var reports := ReportParseErrors(model.trt.errors, model.graph.value, verbosity);
      return Failure(TrtRejected(reports));
    }
    var o: BuildOutcome;
    if trtMajor > 6 {
      o := BuildWithConfigApi(p, platform, calibrator);
    } else {
      o := BuildWithLegacyApi(p, platform, calibrator);
    }
    r := Success(o);
  }
}

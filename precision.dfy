/**
 * The precision and calibration decision of onnxToTrtCtx
 * (src/operator/subgraph/tensorrt/onnx_to_tensorrt.cc), stated as a function
 * of its inputs: the requested modes, what the platform supports, whether
 * an INT8 calibrator was supplied and whether its cache is empty, and which
 * TensorRT builder API is compiled in.
 *
 * The imperative procedures in module OnnxToTrt are proved to compute
 * exactly this decision.
 */
module Precision {
  import opened Wrappers

  /** The capabilities the builder reports for the platform. */
  datatype Platform = Platform(hasFastFp16: bool, hasFastInt8: bool)

  /** The caller's build parameters that the decision uses. */
  datatype BuildParams = BuildParams(fp16Mode: bool, maxBatchSize: int, maxWorkspaceSize: nat, debugBuilder: bool)

  /** What the decision sees of the calibrator: none supplied, or one whose cache is or is not empty. */
  datatype CalibratorView = Absent | Present(cacheEmpty: bool)

  /** The builder API generation: the builder-configuration object (TensorRT 7 and later) or the flag setters on the builder. */
  datatype Api = ConfigApi | LegacyApi

  /** The settings in force when an engine is built. */
  datatype BuildSettings = BuildSettings(
    maxBatchSize: int,
    maxWorkspaceSize: nat,
    fp16: bool,
    debug: bool,
    int8: bool,
    calibratorAttached: bool)

  /** A requested precision the platform cannot provide; the request is dropped with a warning. */
  datatype Downgrade = Fp16Unsupported | Int8Unsupported {
    function Text(): string {
      match this
      case Fp16Unsupported => "TensorRT can't use fp16 on this platform"
      case Int8Unsupported => "TensorRT can't use int8 on this platform"
    }
  }

  /**
   * What a successful onnxToTrtCtx decides: the settings of the primary
   * build, the settings of the asynchronous INT8 calibration build if one is
   * launched, whether the calibrator was marked done and dropped, and the
   * warnings logged, in order.
   */
  datatype BuildOutcome = BuildOutcome(
    primary: BuildSettings,
    int8Build: Option<BuildSettings>,
    calibratorRetired: bool,
    warnings: seq<Downgrade>)

  /** The settings of a fresh builder once the precision-independent parameters are applied. */
  function BaseSettings(p: BuildParams, fp16: bool): BuildSettings {
    BuildSettings(p.maxBatchSize, p.maxWorkspaceSize, fp16, p.debugBuilder, false, false)
  }

  /** The precision and calibration decision. */
  function Decide(p: BuildParams, platform: Platform, cal: CalibratorView, api: Api): (o: BuildOutcome)
    // fp16 is used exactly when requested and supported; a warning exactly when requested but unsupported
    ensures o.primary.fp16 <==> p.fp16Mode && platform.hasFastFp16
    ensures Fp16Unsupported in o.warnings <==> p.fp16Mode && !platform.hasFastFp16
    // batch size, workspace and debug flag pass through unchanged
    ensures o.primary.maxBatchSize == p.maxBatchSize && o.primary.maxWorkspaceSize == p.maxWorkspaceSize
    ensures o.primary.debug == p.debugBuilder
    // a calibrator on a platform without fast int8 is marked done and dropped, with a warning
    ensures o.calibratorRetired <==> cal.Present? && !platform.hasFastInt8
    ensures Int8Unsupported in o.warnings <==> o.calibratorRetired
    ensures o.calibratorRetired ==> o.int8Build.None? && !o.primary.int8
    // no more than the two warnings, fp16 first
    ensures |o.warnings| <= 2 && (|o.warnings| == 2 ==> o.warnings == [Fp16Unsupported, Int8Unsupported])
    // int8 is never enabled without a calibrator and platform support
    ensures o.primary.int8 ==> cal.Present? && platform.hasFastInt8
    ensures o.primary.calibratorAttached == o.primary.int8
    // the calibration build is launched exactly when the calibrator survives and its cache is empty
    ensures o.int8Build.Some? <==> cal.Present? && platform.hasFastInt8 && cal.cacheEmpty
    ensures o.int8Build.Some? ==> o.int8Build.value == o.primary.(int8 := true, calibratorAttached := true)
    // the builder-configuration API builds the primary engine before int8 is set; the legacy API after
    ensures api == ConfigApi ==> !o.primary.int8
    ensures api == LegacyApi ==> (o.primary.int8 <==> cal.Present? && platform.hasFastInt8)
  {
    var int8Usable := cal.Present? && platform.hasFastInt8;
    var retired := cal.Present? && !platform.hasFastInt8;
    var base := BaseSettings(p, p.fp16Mode && platform.hasFastFp16);
    var withInt8 := base.(int8 := int8Usable, calibratorAttached := int8Usable);
    BuildOutcome(
      if api == ConfigApi then base else withInt8,
      if int8Usable && cal.cacheEmpty then Some(withInt8) else None,
      retired,
      (if p.fp16Mode && !platform.hasFastFp16 then [Fp16Unsupported] else [])
        + (if retired then [Int8Unsupported] else []))
  }

  /**
   * The two builder API generations agree on everything except whether the
   * primary engine is already built with int8 and the calibrator attached.
   */
  lemma ApisAgree(p: BuildParams, platform: Platform, cal: CalibratorView)
    ensures
      var c, l := Decide(p, platform, cal, ConfigApi), Decide(p, platform, cal, LegacyApi);
      && c.int8Build == l.int8Build
      && c.calibratorRetired == l.calibratorRetired
      && c.warnings == l.warnings
      && c.primary == l.primary.(int8 := false, calibratorAttached := false)
  {
  }
}

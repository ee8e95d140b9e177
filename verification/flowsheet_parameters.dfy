/**
 The flowsheet-parameter record of the simulator core: convergence tolerances,
 time-window controls, iteration limits, the convergence and extrapolation
 method selectors, output compression, the cache policy (live and "after
 reload" copies) and the file-layout flags.

 This module holds the record itself, its sections, the invariant the
 validating setters keep, and default initialisation.
 */
module FlowsheetParameters {

  // Built-in defaults. They are defined in a header that is not part of this
  // model, so they stay abstract: every property proved here holds for any
  // choice of their values.
  const DEFAULT_A_TOL: real
  const DEFAULT_R_TOL: real
  const DEFAULT_MIN_FRACTION: real
  const DEFAULT_INIT_TIME_WINDOW: real
  const DEFAULT_MIN_TIME_WINDOW: real
  const DEFAULT_MAX_TIME_WINDOW: real
  const DEFAULT_MAX_ITERATIONS_NUMBER: nat
  const DEFAULT_ITERS_UPPER_LIMIT: nat
  const DEFAULT_ITERS_LOWER_LIMIT: nat
  const DEFAULT_ITERS_1ST_UPPER_LIMIT: nat
  const DEFAULT_WINDOW_MAGNIFICATION_RATIO: real
  const DEFAULT_WEGSTEIN_ACCEL_PARAM: real
  const DEFAULT_RELAXATION_PARAM: real
  const DEFAULT_CACHE_FLAG_STREAMS: bool
  const DEFAULT_CACHE_FLAG_HOLDUPS: bool
  const DEFAULT_CACHE_FLAG_INTERNAL: bool
  const DEFAULT_CACHE_WINDOW: nat

  // The enumerators a fresh record selects (Wegstein acceleration, spline
  // extrapolation). Their numeric values are not visible either.
  const CM_WEGSTEIN: nat
  const EM_SPLINE: nat

  /** The range the Wegstein acceleration parameter is clamped into. */
  const WEGSTEIN_MIN: real := -5.0
  const WEGSTEIN_MAX: real := 1.0

  /** Cache directory a newly constructed record points to. */
  const DEFAULT_CACHE_PATH: string := "./cache/"

  /** Automatic tear-stream initialisation is on unless a file says otherwise. */
  const DEFAULT_INITIALIZE_TEAR_STREAMS_AUTO: bool := true

  /** The parameter record. Doubles are reals, unsigned values are naturals,
      and the two method selectors are the raw enumerator numbers. */
  datatype Params = Params(
    absTol: real,
    relTol: real,
    minFraction: real,
    initTimeWindow: real,
    minTimeWindow: real,
    maxTimeWindow: real,
    maxItersNumber: nat,
    itersUpperLimit: nat,
    itersLowerLimit: nat,
    iters1stUpperLimit: nat,
    magnificationRatio: real,
    convergenceMethod: nat,
    wegsteinAccelParam: real,
    relaxationParam: real,
    extrapolationMethod: nat,
    saveTimeStep: real,
    saveTimeStepFlagHoldups: bool,
    cachePath: string,
    cacheFlagStreams: bool,
    cacheFlagHoldups: bool,
    cacheFlagInternal: bool,
    cacheWindow: nat,
    cacheFlagStreamsAfterReload: bool,
    cacheFlagHoldupsAfterReload: bool,
    cacheFlagInternalAfterReload: bool,
    cacheWindowAfterReload: nat,
    fileSingleFlag: bool,
    initializeTearStreamsAutoFlag: bool)

  // The record's sections, grouped as the save and load procedures group
  // them: tolerances, time-window parameters, convergence and extrapolation
  // methods, output compression, cache policy, and file-layout flags.

  predicate SameTolerances(a: Params, b: Params) {
    a.absTol == b.absTol && a.relTol == b.relTol && a.minFraction == b.minFraction
  }

  predicate SameTimeWindows(a: Params, b: Params) {
    && a.initTimeWindow == b.initTimeWindow && a.minTimeWindow == b.minTimeWindow
    && a.maxTimeWindow == b.maxTimeWindow && a.maxItersNumber == b.maxItersNumber
    && a.magnificationRatio == b.magnificationRatio && a.itersUpperLimit == b.itersUpperLimit
    && a.itersLowerLimit == b.itersLowerLimit && a.iters1stUpperLimit == b.iters1stUpperLimit
  }

  predicate SameMethods(a: Params, b: Params) {
    && a.convergenceMethod == b.convergenceMethod && a.wegsteinAccelParam == b.wegsteinAccelParam
    && a.relaxationParam == b.relaxationParam && a.extrapolationMethod == b.extrapolationMethod
  }

  predicate SameCompression(a: Params, b: Params) {
    a.saveTimeStep == b.saveTimeStep && a.saveTimeStepFlagHoldups == b.saveTimeStepFlagHoldups
  }

  predicate SameCachePolicy(a: Params, b: Params) {
    && a.cacheFlagStreams == b.cacheFlagStreams && a.cacheFlagHoldups == b.cacheFlagHoldups
    && a.cacheFlagInternal == b.cacheFlagInternal && a.cacheWindow == b.cacheWindow
    && a.cacheFlagStreamsAfterReload == b.cacheFlagStreamsAfterReload
    && a.cacheFlagHoldupsAfterReload == b.cacheFlagHoldupsAfterReload
    && a.cacheFlagInternalAfterReload == b.cacheFlagInternalAfterReload
    && a.cacheWindowAfterReload == b.cacheWindowAfterReload
  }

  predicate SameFileFlags(a: Params, b: Params) {
    a.fileSingleFlag == b.fileSingleFlag && a.initializeTearStreamsAutoFlag == b.initializeTearStreamsAutoFlag
  }

  /** Records that agree section by section, and on the cache path, are equal. */
  lemma SectionsDetermineRecord(a: Params, b: Params)
    requires SameTolerances(a, b) && SameTimeWindows(a, b) && SameMethods(a, b)
    requires SameCompression(a, b) && SameCachePolicy(a, b) && SameFileFlags(a, b)
    requires a.cachePath == b.cachePath
    ensures a == b
  {
  }

  /** The ranges the validating setters guarantee or preserve: tolerances,
      the minimal fraction and the save time step are non-negative; window
      widths, the iteration limit, the magnification ratio and both cache
      windows are positive; the Wegstein parameter lies in [-5, 1] and the
      relaxation parameter in (0, 1]. */
  predicate Valid(p: Params) {
    && p.absTol >= 0.0 && p.relTol >= 0.0 && p.minFraction >= 0.0 && p.saveTimeStep >= 0.0
    && p.initTimeWindow > 0.0 && p.minTimeWindow > 0.0 && p.maxTimeWindow > 0.0
    && p.maxItersNumber > 0
    && p.magnificationRatio > 0.0
    && WEGSTEIN_MIN <= p.wegsteinAccelParam <= WEGSTEIN_MAX
    && 0.0 < p.relaxationParam <= 1.0
    && p.cacheWindow > 0 && p.cacheWindowAfterReload > 0
  }

  /** The built-in defaults themselves lie in the ranges of Valid. */
  predicate DefaultsValid() {
    && DEFAULT_A_TOL >= 0.0 && DEFAULT_R_TOL >= 0.0 && DEFAULT_MIN_FRACTION >= 0.0
    && DEFAULT_INIT_TIME_WINDOW > 0.0 && DEFAULT_MIN_TIME_WINDOW > 0.0 && DEFAULT_MAX_TIME_WINDOW > 0.0
    && DEFAULT_MAX_ITERATIONS_NUMBER > 0
    && DEFAULT_WINDOW_MAGNIFICATION_RATIO > 0.0
    && WEGSTEIN_MIN <= DEFAULT_WEGSTEIN_ACCEL_PARAM <= WEGSTEIN_MAX
    && 0.0 < DEFAULT_RELAXATION_PARAM <= 1.0
    && DEFAULT_CACHE_WINDOW > 0
  }

  /** Whether the live cache policy equals the one requested for after a reload. */
  predicate CachePolicyAgrees(p: Params) {
    && p.cacheFlagStreams == p.cacheFlagStreamsAfterReload
    && p.cacheFlagHoldups == p.cacheFlagHoldupsAfterReload
    && p.cacheFlagInternal == p.cacheFlagInternalAfterReload
    && p.cacheWindow == p.cacheWindowAfterReload
  }

  /** Initialisation exactly as written: every field gets its default except
      the cache path, which the constructor sets beforehand, and the automatic
      tear-stream initialisation flag, which is never assigned here and so
      keeps whatever value it had. */
  function InitializeAsWritten(p: Params): (r: Params)
    ensures r.cachePath == p.cachePath
    ensures r.initializeTearStreamsAutoFlag == p.initializeTearStreamsAutoFlag
    ensures CachePolicyAgrees(r)
    ensures r.saveTimeStep == 0.0 && r.saveTimeStepFlagHoldups && r.fileSingleFlag
  {
    Params(
      DEFAULT_A_TOL, DEFAULT_R_TOL,
      DEFAULT_MIN_FRACTION,
      DEFAULT_INIT_TIME_WINDOW, DEFAULT_MIN_TIME_WINDOW, DEFAULT_MAX_TIME_WINDOW,
      DEFAULT_MAX_ITERATIONS_NUMBER, DEFAULT_ITERS_UPPER_LIMIT, DEFAULT_ITERS_LOWER_LIMIT,
      DEFAULT_ITERS_1ST_UPPER_LIMIT,
      DEFAULT_WINDOW_MAGNIFICATION_RATIO,
      CM_WEGSTEIN, DEFAULT_WEGSTEIN_ACCEL_PARAM, DEFAULT_RELAXATION_PARAM,
      EM_SPLINE,
      0.0, true,
      p.cachePath,
      DEFAULT_CACHE_FLAG_STREAMS, DEFAULT_CACHE_FLAG_HOLDUPS, DEFAULT_CACHE_FLAG_INTERNAL,
      DEFAULT_CACHE_WINDOW,
      DEFAULT_CACHE_FLAG_STREAMS, DEFAULT_CACHE_FLAG_HOLDUPS, DEFAULT_CACHE_FLAG_INTERNAL,
      DEFAULT_CACHE_WINDOW,
      true,
      p.initializeTearStreamsAutoFlag)
  }

  /** A record whose tear-stream flag was switched off keeps it off through
      the as-written initialisation, so two records that differ only in that
      flag are still different after being reset to defaults. */
  lemma InitializeAsWrittenKeepsStaleFlag(p: Params)
    ensures InitializeAsWritten(p) != InitializeAsWritten(p.(initializeTearStreamsAutoFlag := !p.initializeTearStreamsAutoFlag))
  {
    var q := p.(initializeTearStreamsAutoFlag := !p.initializeTearStreamsAutoFlag);
    assert InitializeAsWritten(p).initializeTearStreamsAutoFlag != InitializeAsWritten(q).initializeTearStreamsAutoFlag;
  }

  /** Initialisation as evidently intended: the as-written reset, with the
      tear-stream flag also set to the default the loader uses for files that
      predate it. */
  function Initialize(p: Params): (r: Params)
    ensures r.cachePath == p.cachePath
    ensures CachePolicyAgrees(r)
    ensures r.initializeTearStreamsAutoFlag == DEFAULT_INITIALIZE_TEAR_STREAMS_AUTO
    ensures r.(initializeTearStreamsAutoFlag := p.initializeTearStreamsAutoFlag) == InitializeAsWritten(p)
  {
    InitializeAsWritten(p).(initializeTearStreamsAutoFlag := DEFAULT_INITIALIZE_TEAR_STREAMS_AUTO)
  }

  /** After initialisation nothing of the previous state survives except the
      cache path. */
  lemma InitializeForgetsPriorState(p: Params, q: Params)
    requires p.cachePath == q.cachePath
    ensures Initialize(p) == Initialize(q)
  {
  }

  /** Initialising twice is the same as initialising once. */
  lemma InitializeIdempotent(p: Params)
    ensures Initialize(Initialize(p)) == Initialize(p)
  {
  }

  /** When the built-in defaults are in range, a freshly initialised record
      satisfies the setters' invariant. */
  lemma InitializeIsValid(p: Params)
    requires DefaultsValid()
    ensures Valid(Initialize(p))
  {
  }

  /** Tear-stream flag of a record before the constructor body runs: the
      member initialiser in the class header, which is not part of this model. */
  const HEADER_INITIALIZE_TEAR_STREAMS_AUTO: bool

  /** The constructor as written: the cache path is set to its default, then
      the record is initialised. The as-written initialisation does not touch
      the tear-stream flag, so it keeps the header's initial value. */
  function New(): (r: Params)
    ensures r.cachePath == DEFAULT_CACHE_PATH
    ensures r.initializeTearStreamsAutoFlag == HEADER_INITIALIZE_TEAR_STREAMS_AUTO
    ensures InitializeAsWritten(r) == r
    ensures Initialize(r) == r.(initializeTearStreamsAutoFlag := DEFAULT_INITIALIZE_TEAR_STREAMS_AUTO)
  {
    // Every field but the cache path and the tear-stream flag is overwritten
    // by the initialisation.
    var blank := Params(0.0, 0.0, 0.0, 0.0, 0.0, 0.0, 0, 0, 0, 0, 0.0, 0, 0.0, 0.0, 0,
      0.0, false, DEFAULT_CACHE_PATH, false, false, false, 0, false, false, false, 0, false,
      HEADER_INITIALIZE_TEAR_STREAMS_AUTO);
    InitializeAsWritten(blank)
  }
}

/**
 The validating setters of the flowsheet-parameter record. Each setter
 assigns one field, and does so by one of a few rules:
 - clamp at zero: a non-positive argument stores 0 (tolerances, minimal
   fraction, save time step);
 - accept if positive: a non-positive argument is ignored (window widths,
   iteration limit, cache windows);
 - clamp into [-5, 1] (Wegstein parameter);
 - accept only inside (0, 1] (relaxation parameter);
 - replace a non-positive argument by 1 (magnification ratio);
 - plain assignment (everything else).
 */
module Setters {
  import opened FlowsheetParameters

  /** Distance between two reals. */
  function Distance(a: real, b: real): real {
    if a >= b then a - b else b - a
  }

  /** The non-negative number nearest to val: val itself when it is not
      negative, zero otherwise. */
  function ZeroIfNotPositive(val: real): (r: real)
    ensures r >= 0.0
    ensures forall y :: y >= 0.0 ==> Distance(r, val) <= Distance(y, val)
  {
    if val > 0.0 then val else 0.0
  }

  /** The point of [WEGSTEIN_MIN, WEGSTEIN_MAX] nearest to val. */
  function ClampWegstein(val: real): (r: real)
    ensures WEGSTEIN_MIN <= r <= WEGSTEIN_MAX
    ensures forall y :: WEGSTEIN_MIN <= y <= WEGSTEIN_MAX ==> Distance(r, val) <= Distance(y, val)
  {
    if val < WEGSTEIN_MIN then WEGSTEIN_MIN
    else if val > WEGSTEIN_MAX then WEGSTEIN_MAX
    else val
  }

  /** A nearest point of a closed interval is unique, so the two contracts
      above pin their results down: any other point of the range is strictly
      farther from the argument. */
  lemma NearestIsUnique(lo: real, hi: real, val: real, r: real, y: real)
    requires lo <= r <= hi && lo <= y <= hi && y != r
    requires forall z :: lo <= z <= hi ==> Distance(r, val) <= Distance(z, val)
    ensures Distance(r, val) < Distance(y, val)
  {
    var m := (r + y) / 2.0;
    assert lo <= m <= hi;
    assert Distance(r, val) <= Distance(m, val);
  }

  // ---- tolerances and minimal fraction: clamp at zero ----

  function SetAbsTol(p: Params, val: real): (r: Params)
    ensures r.absTol >= 0.0
    ensures val >= 0.0 ==> r.absTol == val
    ensures val < 0.0 ==> r.absTol == 0.0
    ensures r == p.(absTol := r.absTol)
  {
    p.(absTol := ZeroIfNotPositive(val))
  }

  function SetRelTol(p: Params, val: real): (r: Params)
    ensures r.relTol >= 0.0
    ensures val >= 0.0 ==> r.relTol == val
    ensures val < 0.0 ==> r.relTol == 0.0
    ensures r == p.(relTol := r.relTol)
  {
    p.(relTol := ZeroIfNotPositive(val))
  }

  function SetMinFraction(p: Params, val: real): (r: Params)
    ensures r.minFraction >= 0.0
    ensures val >= 0.0 ==> r.minFraction == val
    ensures val < 0.0 ==> r.minFraction == 0.0
    ensures r == p.(minFraction := r.minFraction)
  {
    p.(minFraction := ZeroIfNotPositive(val))
  }

  // ---- time windows and iteration limit: ignore a non-positive argument ----

  function SetInitTimeWindow(p: Params, val: real): (r: Params)
    ensures val > 0.0 ==> r.initTimeWindow == val
    ensures val <= 0.0 ==> r == p
    ensures p.initTimeWindow > 0.0 ==> r.initTimeWindow > 0.0
    ensures r == p.(initTimeWindow := r.initTimeWindow)
  {
    if val > 0.0 then p.(initTimeWindow := val) else p
  }

  function SetMinTimeWindow(p: Params, val: real): (r: Params)
    ensures val > 0.0 ==> r.minTimeWindow == val
    ensures val <= 0.0 ==> r == p
    ensures p.minTimeWindow > 0.0 ==> r.minTimeWindow > 0.0
    ensures r == p.(minTimeWindow := r.minTimeWindow)
  {
    if val > 0.0 then p.(minTimeWindow := val) else p
  }

  function SetMaxTimeWindow(p: Params, val: real): (r: Params)
    ensures val > 0.0 ==> r.maxTimeWindow == val
    ensures val <= 0.0 ==> r == p
    ensures p.maxTimeWindow > 0.0 ==> r.maxTimeWindow > 0.0
    ensures r == p.(maxTimeWindow := r.maxTimeWindow)
  {
    if val > 0.0 then p.(maxTimeWindow := val) else p
  }

  function SetMaxItersNumber(p: Params, val: nat): (r: Params)
    ensures val > 0 ==> r.maxItersNumber == val
    ensures val == 0 ==> r == p
    ensures p.maxItersNumber > 0 ==> r.maxItersNumber > 0
    ensures r == p.(maxItersNumber := r.maxItersNumber)
  {
    if val > 0 then p.(maxItersNumber := val) else p
  }

  // ---- iteration bounds for window adaptation: plain assignment ----

  function SetItersUpperLimit(p: Params, val: nat): (r: Params)
    ensures r.itersUpperLimit == val
    ensures r == p.(itersUpperLimit := r.itersUpperLimit)
  {
    p.(itersUpperLimit := val)
  }

  function SetItersLowerLimit(p: Params, val: nat): (r: Params)
    ensures r.itersLowerLimit == val
    ensures r == p.(itersLowerLimit := r.itersLowerLimit)
  {
    p.(itersLowerLimit := val)
  }

  function SetIters1stUpperLimit(p: Params, val: nat): (r: Params)
    ensures r.iters1stUpperLimit == val
    ensures r == p.(iters1stUpperLimit := r.iters1stUpperLimit)
  {
    p.(iters1stUpperLimit := val)
  }

  // ---- magnification ratio: a non-positive argument becomes 1 ----

  function SetMagnificationRatio(p: Params, val: real): (r: Params)
    ensures r.magnificationRatio > 0.0
    ensures val > 0.0 ==> r.magnificationRatio == val
    ensures val <= 0.0 ==> r.magnificationRatio == 1.0
    ensures r == p.(magnificationRatio := r.magnificationRatio)
  {
    p.(magnificationRatio := if val > 0.0 then val else 1.0)
  }

  // ---- convergence and extrapolation methods ----

  function SetConvergenceMethod(p: Params, val: nat): (r: Params)
    ensures r.convergenceMethod == val
    ensures r == p.(convergenceMethod := r.convergenceMethod)
  {
    p.(convergenceMethod := val)
  }

  function SetWegsteinAccelParam(p: Params, val: real): (r: Params)
    ensures WEGSTEIN_MIN <= r.wegsteinAccelParam <= WEGSTEIN_MAX
    ensures WEGSTEIN_MIN <= val <= WEGSTEIN_MAX ==> r.wegsteinAccelParam == val
    ensures forall y :: WEGSTEIN_MIN <= y <= WEGSTEIN_MAX ==>
      Distance(r.wegsteinAccelParam, val) <= Distance(y, val)
    ensures r == p.(wegsteinAccelParam := r.wegsteinAccelParam)
  {
    p.(wegsteinAccelParam := ClampWegstein(val))
  }

  function SetRelaxationParam(p: Params, val: real): (r: Params)
    ensures 0.0 < val <= 1.0 ==> r.relaxationParam == val
    ensures !(0.0 < val <= 1.0) ==> r == p
    ensures 0.0 < p.relaxationParam <= 1.0 ==> 0.0 < r.relaxationParam <= 1.0
    ensures r == p.(relaxationParam := r.relaxationParam)
  {
    if 0.0 < val && val <= 1.0 then p.(relaxationParam := val) else p
  }

  function SetExtrapolationMethod(p: Params, val: nat): (r: Params)
    ensures r.extrapolationMethod == val
    ensures r == p.(extrapolationMethod := r.extrapolationMethod)
  {
    p.(extrapolationMethod := val)
  }

  // ---- output compression ----

  function SetSaveTimeStep(p: Params, val: real): (r: Params)
    ensures r.saveTimeStep >= 0.0
    ensures val >= 0.0 ==> r.saveTimeStep == val
    ensures val < 0.0 ==> r.saveTimeStep == 0.0
    ensures r == p.(saveTimeStep := r.saveTimeStep)
  {
    p.(saveTimeStep := ZeroIfNotPositive(val))
  }

  function SetSaveTimeStepFlagHoldups(p: Params, val: bool): (r: Params)
    ensures r.saveTimeStepFlagHoldups == val
    ensures r == p.(saveTimeStepFlagHoldups := r.saveTimeStepFlagHoldups)
  {
    p.(saveTimeStepFlagHoldups := val)
  }

  // ---- cache policy ----

  function SetCachePath(p: Params, val: string): (r: Params)
    ensures r.cachePath == val
    ensures r == p.(cachePath := r.cachePath)
  {
    p.(cachePath := val)
  }

  function SetCacheFlagStreams(p: Params, val: bool): (r: Params)
    ensures r.cacheFlagStreams == val
    ensures r == p.(cacheFlagStreams := r.cacheFlagStreams)
  {
    p.(cacheFlagStreams := val)
  }

  function SetCacheFlagHoldups(p: Params, val: bool): (r: Params)
    ensures r.cacheFlagHoldups == val
    ensures r == p.(cacheFlagHoldups := r.cacheFlagHoldups)
  {
    p.(cacheFlagHoldups := val)
  }

  function SetCacheFlagInternal(p: Params, val: bool): (r: Params)
    ensures r.cacheFlagInternal == val
    ensures r == p.(cacheFlagInternal := r.cacheFlagInternal)
  {
    p.(cacheFlagInternal := val)
  }

  function SetCacheFlagStreamsAfterReload(p: Params, val: bool): (r: Params)
    ensures r.cacheFlagStreamsAfterReload == val
    ensures r == p.(cacheFlagStreamsAfterReload := r.cacheFlagStreamsAfterReload)
  {
    p.(cacheFlagStreamsAfterReload := val)
  }

  function SetCacheFlagHoldupsAfterReload(p: Params, val: bool): (r: Params)
    ensures r.cacheFlagHoldupsAfterReload == val
    ensures r == p.(cacheFlagHoldupsAfterReload := r.cacheFlagHoldupsAfterReload)
  {
    p.(cacheFlagHoldupsAfterReload := val)
  }

  function SetCacheFlagInternalAfterReload(p: Params, val: bool): (r: Params)
    ensures r.cacheFlagInternalAfterReload == val
    ensures r == p.(cacheFlagInternalAfterReload := r.cacheFlagInternalAfterReload)
  {
    p.(cacheFlagInternalAfterReload := val)
  }

  function SetCacheWindow(p: Params, val: nat): (r: Params)
    ensures val > 0 ==> r.cacheWindow == val
    ensures val == 0 ==> r == p
    ensures p.cacheWindow > 0 ==> r.cacheWindow > 0
    ensures r == p.(cacheWindow := r.cacheWindow)
  {
    if val > 0 then p.(cacheWindow := val) else p
  }

  function SetCacheWindowAfterReload(p: Params, val: nat): (r: Params)
    ensures val > 0 ==> r.cacheWindowAfterReload == val
    ensures val == 0 ==> r == p
    ensures p.cacheWindowAfterReload > 0 ==> r.cacheWindowAfterReload > 0
    ensures r == p.(cacheWindowAfterReload := r.cacheWindowAfterReload)
  {
    if val > 0 then p.(cacheWindowAfterReload := val) else p
  }

  // ---- file layout and tear-stream initialisation ----

  function SetFileSingleFlag(p: Params, val: bool): (r: Params)
    ensures r.fileSingleFlag == val
    ensures r == p.(fileSingleFlag := r.fileSingleFlag)
  {
    p.(fileSingleFlag := val)
  }

  function SetInitializeTearStreamsAutoFlag(p: Params, val: bool): (r: Params)
    ensures r.initializeTearStreamsAutoFlag == val
    ensures r == p.(initializeTearStreamsAutoFlag := r.initializeTearStreamsAutoFlag)
  {
    p.(initializeTearStreamsAutoFlag := val)
  }

  // ---- all setters at once ----

  /** One call of a setter, with its argument. */
  datatype Setting =
    | AbsTol(real) | RelTol(real) | MinFraction(real)
    | InitTimeWindow(real) | MinTimeWindow(real) | MaxTimeWindow(real)
    | MaxItersNumber(nat) | ItersUpperLimit(nat) | ItersLowerLimit(nat) | Iters1stUpperLimit(nat)
    | MagnificationRatio(real)
    | ConvergenceMethod(nat) | WegsteinAccelParam(real) | RelaxationParam(real) | ExtrapolationMethod(nat)
    | SaveTimeStep(real) | SaveTimeStepFlagHoldups(bool)
    | CachePath(string)
    | CacheFlagStreams(bool) | CacheFlagHoldups(bool) | CacheFlagInternal(bool) | CacheWindow(nat)
    | CacheFlagStreamsAfterReload(bool) | CacheFlagHoldupsAfterReload(bool)
    | CacheFlagInternalAfterReload(bool) | CacheWindowAfterReload(nat)
    | FileSingleFlag(bool) | InitializeTearStreamsAutoFlag(bool)

  /** Calls the setter a setting names. */
  function Apply(p: Params, s: Setting): Params {
    match s
    case AbsTol(v) => SetAbsTol(p, v)
    case RelTol(v) => SetRelTol(p, v)
    case MinFraction(v) => SetMinFraction(p, v)
    case InitTimeWindow(v) => SetInitTimeWindow(p, v)
    case MinTimeWindow(v) => SetMinTimeWindow(p, v)
    case MaxTimeWindow(v) => SetMaxTimeWindow(p, v)
    case MaxItersNumber(v) => SetMaxItersNumber(p, v)
    case ItersUpperLimit(v) => SetItersUpperLimit(p, v)
    case ItersLowerLimit(v) => SetItersLowerLimit(p, v)
    case Iters1stUpperLimit(v) => SetIters1stUpperLimit(p, v)
    case MagnificationRatio(v) => SetMagnificationRatio(p, v)
    case ConvergenceMethod(v) => SetConvergenceMethod(p, v)
    case WegsteinAccelParam(v) => SetWegsteinAccelParam(p, v)
    case RelaxationParam(v) => SetRelaxationParam(p, v)
    case ExtrapolationMethod(v) => SetExtrapolationMethod(p, v)
    case SaveTimeStep(v) => SetSaveTimeStep(p, v)
    case SaveTimeStepFlagHoldups(v) => SetSaveTimeStepFlagHoldups(p, v)
    case CachePath(v) => SetCachePath(p, v)
    case CacheFlagStreams(v) => SetCacheFlagStreams(p, v)
    case CacheFlagHoldups(v) => SetCacheFlagHoldups(p, v)
    case CacheFlagInternal(v) => SetCacheFlagInternal(p, v)
    case CacheWindow(v) => SetCacheWindow(p, v)
    case CacheFlagStreamsAfterReload(v) => SetCacheFlagStreamsAfterReload(p, v)
    case CacheFlagHoldupsAfterReload(v) => SetCacheFlagHoldupsAfterReload(p, v)
    case CacheFlagInternalAfterReload(v) => SetCacheFlagInternalAfterReload(p, v)
    case CacheWindowAfterReload(v) => SetCacheWindowAfterReload(p, v)
    case FileSingleFlag(v) => SetFileSingleFlag(p, v)
    case InitializeTearStreamsAutoFlag(v) => SetInitializeTearStreamsAutoFlag(p, v)
  }

  /** Every setter keeps the record invariant. */
  lemma ApplyPreservesValid(p: Params, s: Setting)
    requires Valid(p)
    ensures Valid(Apply(p, s))
  {
    if s.AbsTol? || s.RelTol? || s.MinFraction? || s.SaveTimeStep? {
      PreservesValidClampsAtZero(p, s);
    } else if s.InitTimeWindow? || s.MinTimeWindow? || s.MaxTimeWindow? || s.MaxItersNumber? || s.CacheWindow? || s.CacheWindowAfterReload? {
      PreservesValidAcceptsIfPositive(p, s);
    } else if s.WegsteinAccelParam? || s.RelaxationParam? || s.MagnificationRatio? {
      PreservesValidRangeRules(p, s);
    } else if s.ItersUpperLimit? || s.ItersLowerLimit? || s.Iters1stUpperLimit? || s.ConvergenceMethod? || s.ExtrapolationMethod? {
      PreservesValidAssignsLimitsAndMethods(p, s);
    } else if s.CachePath? || s.CacheFlagStreams? || s.CacheFlagHoldups? || s.CacheFlagInternal? {
      PreservesValidAssignsCacheSettings(p, s);
    } else if s.CacheFlagStreamsAfterReload? || s.CacheFlagHoldupsAfterReload? || s.CacheFlagInternalAfterReload? {
      PreservesValidAssignsCacheFlagsAfterReload(p, s);
    } else {
      PreservesValidAssignsFlags(p, s);
    }
  }

  /** Calling a setter a second time with the same argument changes nothing. */
  lemma ApplyIdempotent(p: Params, s: Setting)
    ensures Apply(Apply(p, s), s) == Apply(p, s)
  {
    if s.AbsTol? || s.RelTol? || s.MinFraction? || s.SaveTimeStep? {
      IdempotentClampsAtZero(p, s);
    } else if s.InitTimeWindow? || s.MinTimeWindow? || s.MaxTimeWindow? || s.MaxItersNumber? || s.CacheWindow? || s.CacheWindowAfterReload? {
      IdempotentAcceptsIfPositive(p, s);
    } else if s.WegsteinAccelParam? || s.RelaxationParam? || s.MagnificationRatio? {
      IdempotentRangeRules(p, s);
    } else if s.ItersUpperLimit? || s.ItersLowerLimit? || s.Iters1stUpperLimit? || s.ConvergenceMethod? || s.ExtrapolationMethod? {
      IdempotentAssignsLimitsAndMethods(p, s);
    } else if s.CachePath? || s.CacheFlagStreams? || s.CacheFlagHoldups? || s.CacheFlagInternal? {
      IdempotentAssignsCacheSettings(p, s);
    } else if s.CacheFlagStreamsAfterReload? || s.CacheFlagHoldupsAfterReload? || s.CacheFlagInternalAfterReload? {
      IdempotentAssignsCacheFlagsAfterReload(p, s);
    } else {
      IdempotentAssignsFlags(p, s);
    }
  }

  // ApplyPreservesValid and ApplyIdempotent, one setter rule at a time.

  /** ApplyPreservesValid for the clamp-at-zero setters. */
  lemma PreservesValidClampsAtZero(p: Params, s: Setting)
    requires Valid(p) && (s.AbsTol? || s.RelTol? || s.MinFraction? || s.SaveTimeStep?)
    ensures Valid(Apply(p, s))
  {
  }

  /** ApplyPreservesValid for the setters that ignore a non-positive argument. */
  lemma PreservesValidAcceptsIfPositive(p: Params, s: Setting)
    requires Valid(p) && (s.InitTimeWindow? || s.MinTimeWindow? || s.MaxTimeWindow? || s.MaxItersNumber? || s.CacheWindow? || s.CacheWindowAfterReload?)
    ensures Valid(Apply(p, s))
  {
  }

  /** ApplyPreservesValid for the Wegstein, relaxation and magnification setters. */
  lemma PreservesValidRangeRules(p: Params, s: Setting)
    requires Valid(p) && (s.WegsteinAccelParam? || s.RelaxationParam? || s.MagnificationRatio?)
    ensures Valid(Apply(p, s))
  {
  }

  /** ApplyPreservesValid for plain assignment of iteration limits and method selectors. */
  lemma PreservesValidAssignsLimitsAndMethods(p: Params, s: Setting)
    requires Valid(p) && (s.ItersUpperLimit? || s.ItersLowerLimit? || s.Iters1stUpperLimit? || s.ConvergenceMethod? || s.ExtrapolationMethod?)
    ensures Valid(Apply(p, s))
  {
  }

  /** ApplyPreservesValid for plain assignment of the cache path and the cache flags. */
  lemma PreservesValidAssignsCacheSettings(p: Params, s: Setting)
    requires Valid(p) && (s.CachePath? || s.CacheFlagStreams? || s.CacheFlagHoldups? || s.CacheFlagInternal?)
    ensures Valid(Apply(p, s))
  {
  }

  /** ApplyPreservesValid for plain assignment of the after-reload cache flags. */
  lemma PreservesValidAssignsCacheFlagsAfterReload(p: Params, s: Setting)
    requires Valid(p) && (s.CacheFlagStreamsAfterReload? || s.CacheFlagHoldupsAfterReload? || s.CacheFlagInternalAfterReload?)
    ensures Valid(Apply(p, s))
  {
  }

  /** ApplyPreservesValid for plain assignment of the remaining flags. */
  lemma PreservesValidAssignsFlags(p: Params, s: Setting)
    requires Valid(p) && (s.SaveTimeStepFlagHoldups? || s.FileSingleFlag? || s.InitializeTearStreamsAutoFlag?)
    ensures Valid(Apply(p, s))
  {
  }

  /** ApplyIdempotent for the clamp-at-zero setters. */
  lemma IdempotentClampsAtZero(p: Params, s: Setting)
    requires s.AbsTol? || s.RelTol? || s.MinFraction? || s.SaveTimeStep?
    ensures Apply(Apply(p, s), s) == Apply(p, s)
  {
  }

  /** ApplyIdempotent for the setters that ignore a non-positive argument. */
  lemma IdempotentAcceptsIfPositive(p: Params, s: Setting)
    requires s.InitTimeWindow? || s.MinTimeWindow? || s.MaxTimeWindow? || s.MaxItersNumber? || s.CacheWindow? || s.CacheWindowAfterReload?
    ensures Apply(Apply(p, s), s) == Apply(p, s)
  {
  }

  /** ApplyIdempotent for the Wegstein, relaxation and magnification setters. */
  lemma IdempotentRangeRules(p: Params, s: Setting)
    requires s.WegsteinAccelParam? || s.RelaxationParam? || s.MagnificationRatio?
    ensures Apply(Apply(p, s), s) == Apply(p, s)
  {
  }

  /** ApplyIdempotent for plain assignment of iteration limits and method selectors. */
  lemma IdempotentAssignsLimitsAndMethods(p: Params, s: Setting)
    requires s.ItersUpperLimit? || s.ItersLowerLimit? || s.Iters1stUpperLimit? || s.ConvergenceMethod? || s.ExtrapolationMethod?
    ensures Apply(Apply(p, s), s) == Apply(p, s)
  {
  }

  /** ApplyIdempotent for plain assignment of the cache path and the cache flags. */
  lemma IdempotentAssignsCacheSettings(p: Params, s: Setting)
    requires s.CachePath? || s.CacheFlagStreams? || s.CacheFlagHoldups? || s.CacheFlagInternal?
    ensures Apply(Apply(p, s), s) == Apply(p, s)
  {
  }

  /** ApplyIdempotent for plain assignment of the after-reload cache flags. */
  lemma IdempotentAssignsCacheFlagsAfterReload(p: Params, s: Setting)
    requires s.CacheFlagStreamsAfterReload? || s.CacheFlagHoldupsAfterReload? || s.CacheFlagInternalAfterReload?
    ensures Apply(Apply(p, s), s) == Apply(p, s)
  {
  }

  /** ApplyIdempotent for plain assignment of the remaining flags. */
  lemma IdempotentAssignsFlags(p: Params, s: Setting)
    requires s.SaveTimeStepFlagHoldups? || s.FileSingleFlag? || s.InitializeTearStreamsAutoFlag?
    ensures Apply(Apply(p, s), s) == Apply(p, s)
  {
  }
}

/**
 Versioned saving and loading of the flowsheet-parameter record through the
 abstract file handler. Saving always writes the current format version;
 loading reads whichever version the group carries and substitutes defaults
 for the datasets older versions did not have.
 */
module Persistence {
  import opened FlowsheetParameters
  import opened H5Store

  /** The format version SaveToFile writes. */
  const SAVE_VERSION: int := 4

  /** What dataset k of a group saved from p holds: the field of the same
      name, except that the four cache datasets hold the policy requested for
      after a reload, not the live one. The cache path is never saved. */
  function Stored(p: Params, k: Key): Value {
    match k
    case ATol => Real(p.absTol)
    case RTol => Real(p.relTol)
    case MinFrac => Real(p.minFraction)
    case InitTimeWin => Real(p.initTimeWindow)
    case MinTimeWin => Real(p.minTimeWindow)
    case MaxTimeWin => Real(p.maxTimeWindow)
    case MaxStepsNum => Unsigned(p.maxItersNumber)
    case MagnificRatio => Real(p.magnificationRatio)
    case UpperLimit => Unsigned(p.itersUpperLimit)
    case LowerLimit => Unsigned(p.itersLowerLimit)
    case FirstUpperLimit => Unsigned(p.iters1stUpperLimit)
    case ConvMethod => Unsigned(p.convergenceMethod)
    case WegsteinParam => Real(p.wegsteinAccelParam)
    case RelaxParam => Real(p.relaxationParam)
    case ExtrapMethod => Unsigned(p.extrapolationMethod)
    case SaveTimeStep => Real(p.saveTimeStep)
    case SaveTimeStepFlagHoldups => Flag(p.saveTimeStepFlagHoldups)
    case CacheFlagStreams => Flag(p.cacheFlagStreamsAfterReload)
    case CacheFlagHoldups => Flag(p.cacheFlagHoldupsAfterReload)
    case CacheFlagInternal => Flag(p.cacheFlagInternalAfterReload)
    case CacheWindow => Unsigned(p.cacheWindowAfterReload)
    case FileSingleFlag => Flag(p.fileSingleFlag)
    case InitTearStreamsFlag => Flag(p.initializeTearStreamsAutoFlag)
  }

  /** Position of each dataset in the order SaveToFile writes them. */
  function WriteIndex(k: Key): nat {
    match k
    case ATol => 0
    case RTol => 1
    case MinFrac => 2
    case InitTimeWin => 3
    case MinTimeWin => 4
    case MaxTimeWin => 5
    case MaxStepsNum => 6
    case MagnificRatio => 7
    case UpperLimit => 8
    case LowerLimit => 9
    case FirstUpperLimit => 10
    case ConvMethod => 11
    case WegsteinParam => 12
    case RelaxParam => 13
    case ExtrapMethod => 14
    case SaveTimeStep => 15
    case SaveTimeStepFlagHoldups => 16
    case CacheFlagStreams => 17
    case CacheFlagHoldups => 18
    case CacheFlagInternal => 19
    case CacheWindow => 20
    case FileSingleFlag => 21
    case InitTearStreamsFlag => 22
  }

  /** The order SaveToFile writes the datasets in. */
  const SAVE_ORDER: seq<Key> := [
    ATol, RTol, MinFrac, InitTimeWin, MinTimeWin, MaxTimeWin, MaxStepsNum, MagnificRatio,
    UpperLimit, LowerLimit, FirstUpperLimit, ConvMethod, WegsteinParam, RelaxParam, ExtrapMethod,
    Key.SaveTimeStep, Key.SaveTimeStepFlagHoldups,
    Key.CacheFlagStreams, Key.CacheFlagHoldups, Key.CacheFlagInternal, Key.CacheWindow,
    Key.FileSingleFlag, InitTearStreamsFlag]

  /** SAVE_ORDER names every dataset, dataset k at position WriteIndex(k). */
  lemma SaveOrderCoversKeys()
    ensures forall k :: WriteIndex(k) < |SAVE_ORDER| && SAVE_ORDER[WriteIndex(k)] == k
  {
  }

  /** SAVE_ORDER names no dataset twice: position i holds the dataset whose
      WriteIndex is i. */
  lemma SaveOrderFollowsWriteIndex()
    ensures forall i :: 0 <= i < |SAVE_ORDER| ==> WriteIndex(SAVE_ORDER[i]) == i
  {
  }

  /** The writes SaveToFile performs: each dataset of SAVE_ORDER with what
      Stored says it holds. */
  function Record(p: Params): seq<(Key, Value)> {
    seq(|SAVE_ORDER|, i requires 0 <= i < |SAVE_ORDER| => (SAVE_ORDER[i], Stored(p, SAVE_ORDER[i])))
  }

  /** Saves the record under a group path. An invalid handle is left
      untouched; otherwise the group gets the current version and one dataset
      per persisted field, and no other group changes. */
  function SaveToFile(p: Params, f: File, path: string): (r: File)
    ensures !f.valid ==> r == f
    ensures r.valid == f.valid
    ensures f.valid ==> ReadAttribute(r, path) == SAVE_VERSION
    ensures f.valid ==> forall k :: Lookup(r, path, k) == Some(Stored(p, k))
    ensures forall q :: q != path ==> ReadAttribute(r, q) == ReadAttribute(f, q)
    ensures forall q, k :: q != path ==> Lookup(r, q, k) == Lookup(f, q, k)
  {
    if !f.valid then f
    else
      var w := Record(p);
      SaveOrderCoversKeys();
      SaveOrderFollowsWriteIndex();
      assert Distinct(w) by {
        assert forall i :: 0 <= i < |w| ==> WriteIndex(w[i].0) == i;
      }
      var r := WriteAll(WriteAttribute(f, path, SAVE_VERSION), path, w);
      assert forall k :: Lookup(r, path, k) == Some(Stored(p, k)) by {
        forall k
          ensures Lookup(r, path, k) == Some(Stored(p, k))
        {
          assert w[WriteIndex(k)].0 == k;
        }
      }
      r
  }

  /** Whether the loader reads dataset k from a group of the given version
      (rather than substituting a default for it). */
  predicate PresentIn(k: Key, version: int) {
    match k
    case MinTimeWin => version != 0
    case SaveTimeStep => version >= 3
    case SaveTimeStepFlagHoldups => version >= 3
    case FileSingleFlag => version >= 2
    case InitTearStreamsFlag => version >= 4
    case _ => true
  }

  /** Loads the record from a group path, over the record's current state p.
      A read that fails leaves the field as it was; datasets newer than the
      group's version are not read but replaced by defaults. Loaded values are
      not validated. The live cache policy read from the file is also taken
      as the after-reload policy, and the cache path is not touched.

      `scratch` is the value of the uninitialised local the loader reads both
      method selectors through: when the convergence-method dataset cannot be
      read it is stored as is, and when the extrapolation-method dataset
      cannot be read the convergence method's value is stored again. */
  function LoadFromFile(p: Params, f: File, path: string, scratch: nat): (r: Params)
    ensures r.cachePath == p.cachePath
    ensures CachePolicyAgrees(r)
    ensures ReadAttribute(f, path) == 0 ==> r.minTimeWindow == DEFAULT_MIN_TIME_WINDOW
    ensures ReadAttribute(f, path) < 3 ==> r.saveTimeStep == 0.0 && r.saveTimeStepFlagHoldups
    ensures ReadAttribute(f, path) < 2 ==> r.fileSingleFlag
    ensures ReadAttribute(f, path) < 4 ==> r.initializeTearStreamsAutoFlag
    ensures Lookup(f, path, ConvMethod).None? ==> r.convergenceMethod == scratch
    ensures Lookup(f, path, ExtrapMethod).None? ==> r.extrapolationMethod == r.convergenceMethod
  {
    var version := ReadAttribute(f, path);
    var absTol := ReadReal(f, path, ATol, p.absTol);
    var relTol := ReadReal(f, path, RTol, p.relTol);
    var minFraction := ReadReal(f, path, MinFrac, p.minFraction);
    var initTimeWindow := ReadReal(f, path, InitTimeWin, p.initTimeWindow);
    var minTimeWindow :=
      if version == 0 then DEFAULT_MIN_TIME_WINDOW
      else ReadReal(f, path, MinTimeWin, p.minTimeWindow);
    var maxTimeWindow := ReadReal(f, path, MaxTimeWin, p.maxTimeWindow);
    var maxItersNumber := ReadUnsigned(f, path, MaxStepsNum, p.maxItersNumber);
    var magnificationRatio := ReadReal(f, path, MagnificRatio, p.magnificationRatio);
    var itersUpperLimit := ReadUnsigned(f, path, UpperLimit, p.itersUpperLimit);
    var itersLowerLimit := ReadUnsigned(f, path, LowerLimit, p.itersLowerLimit);
    var iters1stUpperLimit := ReadUnsigned(f, path, FirstUpperLimit, p.iters1stUpperLimit);
    var convergenceMethod := ReadUnsigned(f, path, ConvMethod, scratch);
    var wegsteinAccelParam := ReadReal(f, path, WegsteinParam, p.wegsteinAccelParam);
    var relaxationParam := ReadReal(f, path, RelaxParam, p.relaxationParam);
    var extrapolationMethod := ReadUnsigned(f, path, ExtrapMethod, convergenceMethod);
    var saveTimeStep :=
      if version < 3 then 0.0 else ReadReal(f, path, Key.SaveTimeStep, p.saveTimeStep);
    var saveTimeStepFlagHoldups :=
      if version < 3 then true else ReadFlag(f, path, Key.SaveTimeStepFlagHoldups, p.saveTimeStepFlagHoldups);
    var cacheFlagStreams := ReadFlag(f, path, Key.CacheFlagStreams, p.cacheFlagStreams);
    var cacheFlagHoldups := ReadFlag(f, path, Key.CacheFlagHoldups, p.cacheFlagHoldups);
    var cacheFlagInternal := ReadFlag(f, path, Key.CacheFlagInternal, p.cacheFlagInternal);
    var cacheWindow := ReadUnsigned(f, path, Key.CacheWindow, p.cacheWindow);
    var fileSingleFlag :=
      if version < 2 then true else ReadFlag(f, path, Key.FileSingleFlag, p.fileSingleFlag);
    var initializeTearStreamsAutoFlag :=
      if version < 4 then true else ReadFlag(f, path, InitTearStreamsFlag, p.initializeTearStreamsAutoFlag);
    p.(
      absTol := absTol, relTol := relTol, minFraction := minFraction,
      initTimeWindow := initTimeWindow, minTimeWindow := minTimeWindow, maxTimeWindow := maxTimeWindow,
      maxItersNumber := maxItersNumber, magnificationRatio := magnificationRatio,
      itersUpperLimit := itersUpperLimit, itersLowerLimit := itersLowerLimit,
      iters1stUpperLimit := iters1stUpperLimit,
      convergenceMethod := convergenceMethod, wegsteinAccelParam := wegsteinAccelParam,
      relaxationParam := relaxationParam, extrapolationMethod := extrapolationMethod,
      saveTimeStep := saveTimeStep, saveTimeStepFlagHoldups := saveTimeStepFlagHoldups,
      cacheFlagStreams := cacheFlagStreams, cacheFlagHoldups := cacheFlagHoldups,
      cacheFlagInternal := cacheFlagInternal,
      cacheFlagStreamsAfterReload := cacheFlagStreams, cacheFlagHoldupsAfterReload := cacheFlagHoldups,
      cacheFlagInternalAfterReload := cacheFlagInternal,
      cacheWindow := cacheWindow, cacheWindowAfterReload := cacheWindow,
      fileSingleFlag := fileSingleFlag,
      initializeTearStreamsAutoFlag := initializeTearStreamsAutoFlag)
  }

  /** The record a group written from p in the given format version loads
      as: every persisted field of p, the after-reload cache policy as both
      the live and the after-reload policy, the loader's own cache path, and
      defaults for what the version lacks. */
  function Reloaded(p: Params, version: int, cachePath: string): Params {
    p.(
      cachePath := cachePath,
      cacheFlagStreams := p.cacheFlagStreamsAfterReload,
      cacheFlagHoldups := p.cacheFlagHoldupsAfterReload,
      cacheFlagInternal := p.cacheFlagInternalAfterReload,
      cacheWindow := p.cacheWindowAfterReload,
      minTimeWindow := if version == 0 then DEFAULT_MIN_TIME_WINDOW else p.minTimeWindow,
      saveTimeStep := if version < 3 then 0.0 else p.saveTimeStep,
      saveTimeStepFlagHoldups := if version < 3 then true else p.saveTimeStepFlagHoldups,
      fileSingleFlag := if version < 2 then true else p.fileSingleFlag,
      initializeTearStreamsAutoFlag := if version < 4 then true else p.initializeTearStreamsAutoFlag)
  }

  /** Whether every dataset a group of the given version has holds p's
      value (as SaveToFile would have written it). */
  predicate HoldsVersion(f: File, path: string, p: Params, version: int) {
    && Lookup(f, path, ATol) == Some(Real(p.absTol))
    && Lookup(f, path, RTol) == Some(Real(p.relTol))
    && Lookup(f, path, MinFrac) == Some(Real(p.minFraction))
    && Lookup(f, path, InitTimeWin) == Some(Real(p.initTimeWindow))
    && (version != 0 ==> Lookup(f, path, MinTimeWin) == Some(Real(p.minTimeWindow)))
    && Lookup(f, path, MaxTimeWin) == Some(Real(p.maxTimeWindow))
    && Lookup(f, path, MaxStepsNum) == Some(Unsigned(p.maxItersNumber))
    && Lookup(f, path, MagnificRatio) == Some(Real(p.magnificationRatio))
    && Lookup(f, path, UpperLimit) == Some(Unsigned(p.itersUpperLimit))
    && Lookup(f, path, LowerLimit) == Some(Unsigned(p.itersLowerLimit))
    && Lookup(f, path, FirstUpperLimit) == Some(Unsigned(p.iters1stUpperLimit))
    && Lookup(f, path, ConvMethod) == Some(Unsigned(p.convergenceMethod))
    && Lookup(f, path, WegsteinParam) == Some(Real(p.wegsteinAccelParam))
    && Lookup(f, path, RelaxParam) == Some(Real(p.relaxationParam))
    && Lookup(f, path, ExtrapMethod) == Some(Unsigned(p.extrapolationMethod))
    && (version >= 3 ==> Lookup(f, path, Key.SaveTimeStep) == Some(Real(p.saveTimeStep)))
    && (version >= 3 ==> Lookup(f, path, Key.SaveTimeStepFlagHoldups) == Some(Flag(p.saveTimeStepFlagHoldups)))
    && Lookup(f, path, Key.CacheFlagStreams) == Some(Flag(p.cacheFlagStreamsAfterReload))
    && Lookup(f, path, Key.CacheFlagHoldups) == Some(Flag(p.cacheFlagHoldupsAfterReload))
    && Lookup(f, path, Key.CacheFlagInternal) == Some(Flag(p.cacheFlagInternalAfterReload))
    && Lookup(f, path, Key.CacheWindow) == Some(Unsigned(p.cacheWindowAfterReload))
    && (version >= 2 ==> Lookup(f, path, Key.FileSingleFlag) == Some(Flag(p.fileSingleFlag)))
    && (version >= 4 ==> Lookup(f, path, InitTearStreamsFlag) == Some(Flag(p.initializeTearStreamsAutoFlag)))
  }

  /** Backward compatibility: a valid group of any version that holds p's
      value in every dataset that version has loads as Reloaded(p, version),
      whatever the group holds in datasets the version lacks. */
  lemma LoadFromVersionedGroup(p: Params, q: Params, f: File, path: string, scratch: nat)
    requires f.valid && HoldsVersion(f, path, p, ReadAttribute(f, path))
    ensures LoadFromFile(q, f, path, scratch) == Reloaded(p, ReadAttribute(f, path), q.cachePath)
  {
    VersionedGroupTolerances(p, q, f, path, scratch);
    VersionedGroupTimeWindows(p, q, f, path, scratch);
    VersionedGroupMethods(p, q, f, path, scratch);
    VersionedGroupCompression(p, q, f, path, scratch);
    VersionedGroupCachePolicy(p, q, f, path, scratch);
    VersionedGroupFileFlags(p, q, f, path, scratch);
    SectionsDetermineRecord(LoadFromFile(q, f, path, scratch), Reloaded(p, ReadAttribute(f, path), q.cachePath));
  }

  // LoadFromVersionedGroup, one section at a time.

  lemma VersionedGroupTolerances(p: Params, q: Params, f: File, path: string, scratch: nat)
    requires f.valid && HoldsVersion(f, path, p, ReadAttribute(f, path))
    ensures SameTolerances(LoadFromFile(q, f, path, scratch), Reloaded(p, ReadAttribute(f, path), q.cachePath))
  {
  }

  lemma VersionedGroupTimeWindows(p: Params, q: Params, f: File, path: string, scratch: nat)
    requires f.valid && HoldsVersion(f, path, p, ReadAttribute(f, path))
    ensures SameTimeWindows(LoadFromFile(q, f, path, scratch), Reloaded(p, ReadAttribute(f, path), q.cachePath))
  {
  }

  lemma VersionedGroupMethods(p: Params, q: Params, f: File, path: string, scratch: nat)
    requires f.valid && HoldsVersion(f, path, p, ReadAttribute(f, path))
    ensures SameMethods(LoadFromFile(q, f, path, scratch), Reloaded(p, ReadAttribute(f, path), q.cachePath))
  {
  }

  lemma VersionedGroupCompression(p: Params, q: Params, f: File, path: string, scratch: nat)
    requires f.valid && HoldsVersion(f, path, p, ReadAttribute(f, path))
    ensures SameCompression(LoadFromFile(q, f, path, scratch), Reloaded(p, ReadAttribute(f, path), q.cachePath))
  {
  }

  lemma VersionedGroupCachePolicy(p: Params, q: Params, f: File, path: string, scratch: nat)
    requires f.valid && HoldsVersion(f, path, p, ReadAttribute(f, path))
    ensures SameCachePolicy(LoadFromFile(q, f, path, scratch), Reloaded(p, ReadAttribute(f, path), q.cachePath))
  {
  }

  lemma VersionedGroupFileFlags(p: Params, q: Params, f: File, path: string, scratch: nat)
    requires f.valid && HoldsVersion(f, path, p, ReadAttribute(f, path))
    ensures SameFileFlags(LoadFromFile(q, f, path, scratch), Reloaded(p, ReadAttribute(f, path), q.cachePath))
  {
  }

  /** Save then load on a valid handle restores every persisted field; the
      live and after-reload cache policies both come back as the after-reload
      policy that was saved, and the cache path stays the loader's own. */
  lemma SaveLoadRoundTrip(p: Params, q: Params, f: File, path: string, scratch: nat)
    requires f.valid
    ensures LoadFromFile(q, SaveToFile(p, f, path), path, scratch) == p.(
      cachePath := q.cachePath,
      cacheFlagStreams := p.cacheFlagStreamsAfterReload,
      cacheFlagHoldups := p.cacheFlagHoldupsAfterReload,
      cacheFlagInternal := p.cacheFlagInternalAfterReload,
      cacheWindow := p.cacheWindowAfterReload)
  {
    var r := SaveToFile(p, f, path);
    StoredHoldsVersion(r, path, p, SAVE_VERSION);
    LoadFromVersionedGroup(p, q, r, path, scratch);
  }

  /** A group holding every dataset as saved from p holds p in any version. */
  lemma StoredHoldsVersion(f: File, path: string, p: Params, version: int)
    requires forall k :: Lookup(f, path, k) == Some(Stored(p, k))
    ensures HoldsVersion(f, path, p, version)
  {
    StoredTolerances(f, path, p);
    StoredTimeWindows(f, path, p);
    StoredMethods(f, path, p);
    StoredCompression(f, path, p);
    StoredCachePolicy(f, path, p);
    StoredFileFlags(f, path, p);
  }

  // StoredHoldsVersion, one section at a time.

  lemma StoredTolerances(f: File, path: string, p: Params)
    requires forall k :: Lookup(f, path, k) == Some(Stored(p, k))
    ensures Lookup(f, path, ATol) == Some(Real(p.absTol))
    ensures Lookup(f, path, RTol) == Some(Real(p.relTol))
    ensures Lookup(f, path, MinFrac) == Some(Real(p.minFraction))
  {
  }

  lemma StoredTimeWindows(f: File, path: string, p: Params)
    requires forall k :: Lookup(f, path, k) == Some(Stored(p, k))
    ensures Lookup(f, path, InitTimeWin) == Some(Real(p.initTimeWindow))
    ensures Lookup(f, path, MinTimeWin) == Some(Real(p.minTimeWindow))
    ensures Lookup(f, path, MaxTimeWin) == Some(Real(p.maxTimeWindow))
    ensures Lookup(f, path, MaxStepsNum) == Some(Unsigned(p.maxItersNumber))
    ensures Lookup(f, path, MagnificRatio) == Some(Real(p.magnificationRatio))
    ensures Lookup(f, path, UpperLimit) == Some(Unsigned(p.itersUpperLimit))
    ensures Lookup(f, path, LowerLimit) == Some(Unsigned(p.itersLowerLimit))
    ensures Lookup(f, path, FirstUpperLimit) == Some(Unsigned(p.iters1stUpperLimit))
  {
  }

  lemma StoredMethods(f: File, path: string, p: Params)
    requires forall k :: Lookup(f, path, k) == Some(Stored(p, k))
    ensures Lookup(f, path, ConvMethod) == Some(Unsigned(p.convergenceMethod))
    ensures Lookup(f, path, WegsteinParam) == Some(Real(p.wegsteinAccelParam))
    ensures Lookup(f, path, RelaxParam) == Some(Real(p.relaxationParam))
    ensures Lookup(f, path, ExtrapMethod) == Some(Unsigned(p.extrapolationMethod))
  {
  }

  lemma StoredCompression(f: File, path: string, p: Params)
    requires forall k :: Lookup(f, path, k) == Some(Stored(p, k))
    ensures Lookup(f, path, Key.SaveTimeStep) == Some(Real(p.saveTimeStep))
    ensures Lookup(f, path, Key.SaveTimeStepFlagHoldups) == Some(Flag(p.saveTimeStepFlagHoldups))
  {
  }

  lemma StoredCachePolicy(f: File, path: string, p: Params)
    requires forall k :: Lookup(f, path, k) == Some(Stored(p, k))
    ensures Lookup(f, path, Key.CacheFlagStreams) == Some(Flag(p.cacheFlagStreamsAfterReload))
    ensures Lookup(f, path, Key.CacheFlagHoldups) == Some(Flag(p.cacheFlagHoldupsAfterReload))
    ensures Lookup(f, path, Key.CacheFlagInternal) == Some(Flag(p.cacheFlagInternalAfterReload))
    ensures Lookup(f, path, Key.CacheWindow) == Some(Unsigned(p.cacheWindowAfterReload))
  {
  }

  lemma StoredFileFlags(f: File, path: string, p: Params)
    requires forall k :: Lookup(f, path, k) == Some(Stored(p, k))
    ensures Lookup(f, path, Key.FileSingleFlag) == Some(Flag(p.fileSingleFlag))
    ensures Lookup(f, path, InitTearStreamsFlag) == Some(Flag(p.initializeTearStreamsAutoFlag))
  {
  }

  /** Saving a reloaded record writes exactly what the original save wrote,
      to any handle and path. */
  lemma SaveLoadSaveStable(p: Params, q: Params, f: File, path: string, scratch: nat, g: File, target: string)
    requires f.valid
    ensures SaveToFile(LoadFromFile(q, SaveToFile(p, f, path), path, scratch), g, target) == SaveToFile(p, g, target)
  {
    SaveLoadRoundTrip(p, q, f, path, scratch);
    ReloadedSavesAlike(p, q.cachePath, g, target);
  }

  /** The cache path and the live cache policy are not saved: replacing
      them (the latter by the after-reload policy) saves alike. */
  lemma ReloadedSavesAlike(p: Params, cachePath: string, g: File, target: string)
    ensures SaveToFile(p.(
      cachePath := cachePath,
      cacheFlagStreams := p.cacheFlagStreamsAfterReload,
      cacheFlagHoldups := p.cacheFlagHoldupsAfterReload,
      cacheFlagInternal := p.cacheFlagInternalAfterReload,
      cacheWindow := p.cacheWindowAfterReload), g, target) == SaveToFile(p, g, target)
  {
    var r := p.(
      cachePath := cachePath,
      cacheFlagStreams := p.cacheFlagStreamsAfterReload,
      cacheFlagHoldups := p.cacheFlagHoldupsAfterReload,
      cacheFlagInternal := p.cacheFlagInternalAfterReload,
      cacheWindow := p.cacheWindowAfterReload);
    assert Record(r) == Record(p) by {
      forall i | 0 <= i < |SAVE_ORDER| ensures Stored(r, SAVE_ORDER[i]) == Stored(p, SAVE_ORDER[i]) {
      }
    }
  }

  /** A record that satisfies the setters' invariant still does after a save
      and load. */
  lemma SaveLoadKeepsValid(p: Params, q: Params, f: File, path: string, scratch: nat)
    requires f.valid && Valid(p)
    ensures Valid(LoadFromFile(q, SaveToFile(p, f, path), path, scratch))
  {
    SaveLoadRoundTrip(p, q, f, path, scratch);
  }

  /** Whether two handles agree on dataset k of a path, if a group of the
      given version has it at all. */
  predicate AgreesAt(f: File, g: File, path: string, version: int, k: Key) {
    PresentIn(k, version) ==> Lookup(f, path, k) == Lookup(g, path, k)
  }

  /** Whether two handles agree on everything a load from path reads: validity,
      version, and the datasets that version has. */
  predicate SameReadableGroup(f: File, g: File, path: string) {
    && f.valid == g.valid
    && ReadAttribute(f, path) == ReadAttribute(g, path)
    && forall k :: AgreesAt(f, g, path, ReadAttribute(f, path), k)
  }

  /** The loader reads nothing a group's version lacks: two groups of the
      same version that agree on that version's datasets load alike. */
  lemma LoadIgnoresAbsentDatasets(q: Params, f: File, g: File, path: string, scratch: nat)
    requires SameReadableGroup(f, g, path)
    ensures LoadFromFile(q, f, path, scratch) == LoadFromFile(q, g, path, scratch)
  {
    SameGroupTolerances(q, f, g, path, scratch);
    SameGroupTimeWindows(q, f, g, path, scratch);
    SameGroupMethods(q, f, g, path, scratch);
    SameGroupCompression(q, f, g, path, scratch);
    SameGroupCachePolicy(q, f, g, path, scratch);
    SameGroupFileFlags(q, f, g, path, scratch);
    SectionsDetermineRecord(LoadFromFile(q, f, path, scratch), LoadFromFile(q, g, path, scratch));
  }

  // LoadIgnoresAbsentDatasets, one section at a time.

  lemma SameGroupTolerances(q: Params, f: File, g: File, path: string, scratch: nat)
    requires f.valid == g.valid && ReadAttribute(f, path) == ReadAttribute(g, path)
    requires AgreesAt(f, g, path, ReadAttribute(f, path), ATol)
    requires AgreesAt(f, g, path, ReadAttribute(f, path), RTol)
    requires AgreesAt(f, g, path, ReadAttribute(f, path), MinFrac)
    ensures SameTolerances(LoadFromFile(q, f, path, scratch), LoadFromFile(q, g, path, scratch))
  {
  }

  lemma SameGroupTimeWindows(q: Params, f: File, g: File, path: string, scratch: nat)
    requires f.valid == g.valid && ReadAttribute(f, path) == ReadAttribute(g, path)
    requires AgreesAt(f, g, path, ReadAttribute(f, path), InitTimeWin)
    requires AgreesAt(f, g, path, ReadAttribute(f, path), MinTimeWin)
    requires AgreesAt(f, g, path, ReadAttribute(f, path), MaxTimeWin)
    requires AgreesAt(f, g, path, ReadAttribute(f, path), MaxStepsNum)
    requires AgreesAt(f, g, path, ReadAttribute(f, path), MagnificRatio)
    requires AgreesAt(f, g, path, ReadAttribute(f, path), UpperLimit)
    requires AgreesAt(f, g, path, ReadAttribute(f, path), LowerLimit)
    requires AgreesAt(f, g, path, ReadAttribute(f, path), FirstUpperLimit)
    ensures SameTimeWindows(LoadFromFile(q, f, path, scratch), LoadFromFile(q, g, path, scratch))
  {
  }

  lemma SameGroupMethods(q: Params, f: File, g: File, path: string, scratch: nat)
    requires f.valid == g.valid && ReadAttribute(f, path) == ReadAttribute(g, path)
    requires AgreesAt(f, g, path, ReadAttribute(f, path), ConvMethod)
    requires AgreesAt(f, g, path, ReadAttribute(f, path), WegsteinParam)
    requires AgreesAt(f, g, path, ReadAttribute(f, path), RelaxParam)
    requires AgreesAt(f, g, path, ReadAttribute(f, path), ExtrapMethod)
    ensures SameMethods(LoadFromFile(q, f, path, scratch), LoadFromFile(q, g, path, scratch))
  {
  }

  lemma SameGroupCompression(q: Params, f: File, g: File, path: string, scratch: nat)
    requires f.valid == g.valid && ReadAttribute(f, path) == ReadAttribute(g, path)
    requires AgreesAt(f, g, path, ReadAttribute(f, path), Key.SaveTimeStep)
    requires AgreesAt(f, g, path, ReadAttribute(f, path), Key.SaveTimeStepFlagHoldups)
    ensures SameCompression(LoadFromFile(q, f, path, scratch), LoadFromFile(q, g, path, scratch))
  {
  }

  lemma SameGroupCachePolicy(q: Params, f: File, g: File, path: string, scratch: nat)
    requires f.valid == g.valid && ReadAttribute(f, path) == ReadAttribute(g, path)
    requires AgreesAt(f, g, path, ReadAttribute(f, path), Key.CacheFlagStreams)
    requires AgreesAt(f, g, path, ReadAttribute(f, path), Key.CacheFlagHoldups)
    requires AgreesAt(f, g, path, ReadAttribute(f, path), Key.CacheFlagInternal)
    requires AgreesAt(f, g, path, ReadAttribute(f, path), Key.CacheWindow)
    ensures SameCachePolicy(LoadFromFile(q, f, path, scratch), LoadFromFile(q, g, path, scratch))
  {
  }

  lemma SameGroupFileFlags(q: Params, f: File, g: File, path: string, scratch: nat)
    requires f.valid == g.valid && ReadAttribute(f, path) == ReadAttribute(g, path)
    requires AgreesAt(f, g, path, ReadAttribute(f, path), Key.FileSingleFlag)
    requires AgreesAt(f, g, path, ReadAttribute(f, path), InitTearStreamsFlag)
    ensures SameFileFlags(LoadFromFile(q, f, path, scratch), LoadFromFile(q, g, path, scratch))
  {
  }

  /** Loaded values are taken verbatim: a group holding a negative absolute
      tolerance and a relaxation parameter of 2 loads both, and the result
      breaks the invariant the setters maintain. */
  lemma LoadDoesNotValidate(q: Params, path: string, scratch: nat)
    ensures var f := File(true, map[path := SAVE_VERSION],
                          map[(path, ATol) := Real(-1.0), (path, RelaxParam) := Real(2.0)]);
            var r := LoadFromFile(q, f, path, scratch);
            r.absTol == -1.0 && r.relaxationParam == 2.0 && !Valid(r)
  {
  }
}

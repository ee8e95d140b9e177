# Flowsheet parameters: a Dafny model

This project models the flowsheet-parameter record of the Dyssol simulator core (`CFlowsheetParameters`). The record holds the settings the flowsheet solver runs with:

- convergence tolerances and the minimal fraction;
- time-window sizes and iteration limits;
- the convergence and extrapolation method selectors and their parameters;
- output compression;
- the cache policy, in a live copy and an "after reload" copy;
- the file-layout flag and the automatic tear-stream initialisation flag.

The model covers four things:

- **Default initialisation.** This includes the constructor.
- **The 28 validating setters.** Each one clamps, replaces or ignores its argument by a per-field rule.
- **Versioned saving and loading.** Saving always writes format version 4. Loading reads whichever version a group carries. It substitutes defaults for the datasets older versions lack, and copies the stored cache policy into both the live and the after-reload fields.
- **The HDF5 handler.** It is an abstract versioned key-value store: a validity flag, a save-version attribute per group path, and datasets addressed by path and name.

Modules:

- `FlowsheetParameters` (`flowsheet_parameters.dfy`) holds:
  - the record;
  - its sections;
  - the invariant `Valid` that the setters keep;
  - initialisation.
- `Setters` (`setters.dfy`) holds:
  - one function per setter;
  - a `Setting` datatype naming a setter call;
  - the lemmas that hold for every setter.
- `H5Store` (`h5_store.dfy`) holds the abstract file handler.
- `Persistence` (`persistence.dfy`) holds:
  - the dataset schema;
  - `SaveToFile` and `LoadFromFile`;
  - the round-trip and backward-compatibility lemmas.

All functions are pure. A setter, `Initialize` or `LoadFromFile` takes the record's state and returns the new one. A save takes a file and returns the new file.

## Model

Every source cell refers to `SimulatorCore/FlowsheetParameters.cpp`.

| member | source | states |
|---|---|---|
| FlowsheetParameters.InitializeAsWritten | SimulatorCore/FlowsheetParameters.cpp:14-49 | Initialisation as the code does it. The cache path is kept. The live and after-reload cache policies agree afterwards. Compression is off with holdups flagged, and single-file mode is on. The tear-stream flag keeps whatever value it had. |
| FlowsheetParameters.InitializeAsWrittenKeepsStaleFlag | SimulatorCore/FlowsheetParameters.cpp:14-49 | Two records that differ only in the tear-stream flag are still different after the as-written reset, so that reset does not forget the prior state. |
| FlowsheetParameters.Initialize | SimulatorCore/FlowsheetParameters.cpp:14-49 | Corrected initialisation: the as-written reset, except that the tear-stream flag is also set to its default (true). Keeps the cache path and leaves both cache policies equal. |
| FlowsheetParameters.InitializeForgetsPriorState | SimulatorCore/FlowsheetParameters.cpp:14-49 | Records with the same cache path initialise to the same record. Nothing else of the previous state survives. |
| FlowsheetParameters.InitializeIdempotent | SimulatorCore/FlowsheetParameters.cpp:14-49 | Initialising twice equals initialising once. |
| FlowsheetParameters.InitializeIsValid | SimulatorCore/FlowsheetParameters.cpp:14-49 | If the built-in defaults are in range, an initialised record satisfies the invariant the setters keep. |
| FlowsheetParameters.New | SimulatorCore/FlowsheetParameters.cpp:8-12 | A new record points at `./cache/`, keeps the tear-stream flag its header gave it, and is a fixed point of the as-written initialisation. The corrected initialisation would change only its tear-stream flag. |
| Setters.ZeroIfNotPositive | SimulatorCore/FlowsheetParameters.cpp:167-170 | Returns the non-negative number nearest to the argument. |
| Setters.ClampWegstein | SimulatorCore/FlowsheetParameters.cpp:231-237 | Returns the point of [-5, 1] nearest to the argument. |
| Setters.NearestIsUnique | SimulatorCore/FlowsheetParameters.cpp:231-237 | A nearest point of a closed interval is unique, so the clamp's contract determines its result. |
| Setters.SetAbsTol | SimulatorCore/FlowsheetParameters.cpp:167-170 | The absolute tolerance is never negative afterwards. It equals a non-negative argument, and 0 for a negative one. No other field changes. |
| Setters.SetRelTol | SimulatorCore/FlowsheetParameters.cpp:172-175 | The same rule as SetAbsTol, for the relative tolerance. |
| Setters.SetMinFraction | SimulatorCore/FlowsheetParameters.cpp:177-180 | The same rule as SetAbsTol, for the minimal fraction. |
| Setters.SetInitTimeWindow | SimulatorCore/FlowsheetParameters.cpp:182-186 | A positive argument is stored. A non-positive one leaves the whole record unchanged. A positive window stays positive, and no other field changes. |
| Setters.SetMinTimeWindow | SimulatorCore/FlowsheetParameters.cpp:188-192 | The same accept-if-positive rule, for the minimal window. |
| Setters.SetMaxTimeWindow | SimulatorCore/FlowsheetParameters.cpp:194-198 | The same accept-if-positive rule, for the maximal window. |
| Setters.SetMaxItersNumber | SimulatorCore/FlowsheetParameters.cpp:200-204 | The same accept-if-positive rule, for the iteration limit. Zero is ignored. |
| Setters.SetItersUpperLimit | SimulatorCore/FlowsheetParameters.cpp:206-209 | Stores the argument unchecked and changes no other field. |
| Setters.SetItersLowerLimit | SimulatorCore/FlowsheetParameters.cpp:211-214 | Stores the argument unchecked and changes no other field. |
| Setters.SetIters1stUpperLimit | SimulatorCore/FlowsheetParameters.cpp:216-219 | Stores the argument unchecked and changes no other field. |
| Setters.SetMagnificationRatio | SimulatorCore/FlowsheetParameters.cpp:221-224 | The ratio is always positive afterwards. It equals a positive argument, and exactly 1 otherwise. No other field changes. |
| Setters.SetConvergenceMethod | SimulatorCore/FlowsheetParameters.cpp:226-229 | Stores the selector unchecked and changes no other field. |
| Setters.SetWegsteinAccelParam | SimulatorCore/FlowsheetParameters.cpp:231-237 | The parameter is always in [-5, 1] afterwards. It equals an in-range argument, and otherwise is the nearest bound. No other field changes. |
| Setters.SetRelaxationParam | SimulatorCore/FlowsheetParameters.cpp:239-244 | An argument in (0, 1] is stored. Any other argument leaves the record unchanged. An in-range parameter stays in range, and no other field changes. |
| Setters.SetExtrapolationMethod | SimulatorCore/FlowsheetParameters.cpp:246-249 | Stores the selector unchecked and changes no other field. |
| Setters.SetSaveTimeStep | SimulatorCore/FlowsheetParameters.cpp:251-254 | The save time step is never negative afterwards. It equals a non-negative argument, and 0 for a negative one. No other field changes. |
| Setters.SetSaveTimeStepFlagHoldups | SimulatorCore/FlowsheetParameters.cpp:256-259 | Stores the flag and changes no other field. |
| Setters.SetCachePath | SimulatorCore/FlowsheetParameters.cpp:261-264 | Stores the path and changes no other field. |
| Setters.SetCacheFlagStreams | SimulatorCore/FlowsheetParameters.cpp:266-269 | Stores the live flag only. The after-reload flag is untouched. |
| Setters.SetCacheFlagHoldups | SimulatorCore/FlowsheetParameters.cpp:271-274 | Stores the live flag only. The after-reload flag is untouched. |
| Setters.SetCacheFlagInternal | SimulatorCore/FlowsheetParameters.cpp:276-279 | Stores the live flag only. The after-reload flag is untouched. |
| Setters.SetCacheFlagStreamsAfterReload | SimulatorCore/FlowsheetParameters.cpp:281-284 | Stores the after-reload flag only. The live flag is untouched. |
| Setters.SetCacheFlagHoldupsAfterReload | SimulatorCore/FlowsheetParameters.cpp:286-289 | Stores the after-reload flag only. The live flag is untouched. |
| Setters.SetCacheFlagInternalAfterReload | SimulatorCore/FlowsheetParameters.cpp:291-294 | Stores the after-reload flag only. The live flag is untouched. |
| Setters.SetCacheWindow | SimulatorCore/FlowsheetParameters.cpp:296-300 | Accept-if-positive for the live cache window. Zero leaves the record unchanged, and a positive window stays positive. |
| Setters.SetCacheWindowAfterReload | SimulatorCore/FlowsheetParameters.cpp:302-306 | Accept-if-positive for the after-reload cache window. |
| Setters.SetFileSingleFlag | SimulatorCore/FlowsheetParameters.cpp:308-311 | Stores the flag and changes no other field. |
| Setters.SetInitializeTearStreamsAutoFlag | SimulatorCore/FlowsheetParameters.cpp:313-316 | Stores the flag and changes no other field. |
| Setters.ApplyPreservesValid | SimulatorCore/FlowsheetParameters.cpp:167-316 | Every setter, with any argument, keeps the record invariant: non-negative tolerances, positive windows and limits, Wegstein parameter in [-5, 1], relaxation parameter in (0, 1]. |
| Setters.ApplyIdempotent | SimulatorCore/FlowsheetParameters.cpp:167-316 | Calling any setter twice with the same argument gives the same record as calling it once. |
| H5Store.WriteAttribute | SimulatorCore/FlowsheetParameters.cpp:56 | On a valid handle the attribute of the path reads back as written, and no other path's attribute changes. On an invalid handle nothing changes. |
| H5Store.WriteData | SimulatorCore/FlowsheetParameters.cpp:59 | On a valid handle the dataset reads back as written, and every other dataset is unchanged. On an invalid handle nothing changes. |
| H5Store.ReadAttribute | SimulatorCore/FlowsheetParameters.cpp:101 | On a valid handle whose path carries a save-version attribute, the read returns that version. Otherwise it returns the failure value. |
| H5Store.ReadReal | SimulatorCore/FlowsheetParameters.cpp:104-164 | On a valid handle with a double stored under the name, the read returns it. Otherwise the target variable keeps its current value. |
| H5Store.ReadUnsigned | SimulatorCore/FlowsheetParameters.cpp:104-164 | On a valid handle with an unsigned value stored under the name, the read returns it. Otherwise the target variable keeps its current value. |
| H5Store.ReadFlag | SimulatorCore/FlowsheetParameters.cpp:104-164 | On a valid handle with a boolean stored under the name, the read returns it. Otherwise the target variable keeps its current value. |
| H5Store.ReadAfterWrite | SimulatorCore/FlowsheetParameters.cpp:104 | A typed read of a dataset just written with a value of that type returns the value. |
| H5Store.WriteAll | SimulatorCore/FlowsheetParameters.cpp:58-95 | A run of writes under one path leaves each written dataset holding its value, provided no name repeats. Datasets outside the run and other paths are unchanged, and an invalid handle is untouched. |
| Persistence.SaveOrderCoversKeys | SimulatorCore/FlowsheetParameters.cpp:58-95 | The save writes every dataset of the group. |
| Persistence.SaveOrderFollowsWriteIndex | SimulatorCore/FlowsheetParameters.cpp:58-95 | The save writes no dataset twice. |
| Persistence.SaveToFile | SimulatorCore/FlowsheetParameters.cpp:51-96 | An invalid handle is left untouched. Otherwise the group gets version 4 and every dataset holds its field. The cache datasets hold the after-reload policy. No other group changes. |
| Persistence.LoadFromFile | SimulatorCore/FlowsheetParameters.cpp:98-165 | The cache path is untouched, and the live cache policy equals the after-reload one. Version 0 gives the default minimal window. Below version 3 there is no compression and holdups are flagged. Below version 2 single-file mode is on. Below version 4 tear-stream auto-initialisation is on. An unreadable method selector falls back as described under Left out. |
| Persistence.LoadFromVersionedGroup | SimulatorCore/FlowsheetParameters.cpp:98-165 | Backward compatibility for any version. A group holding p's values in the datasets its version has loads as p, with the defaults above for the missing datasets. |
| Persistence.LoadIgnoresAbsentDatasets | SimulatorCore/FlowsheetParameters.cpp:112-164 | Two groups of the same version that agree on that version's datasets load to the same record. Datasets newer than the version are never read. |
| Persistence.SaveLoadRoundTrip | SimulatorCore/FlowsheetParameters.cpp:51-165 | Save followed by load on a valid handle restores every persisted field. The loader keeps its own cache path, and the live cache policy becomes the saved after-reload one. |
| Persistence.ReloadedSavesAlike | SimulatorCore/FlowsheetParameters.cpp:85-89 | The cache path and the live cache policy are not persisted. Replacing them saves the same file. |
| Persistence.SaveLoadSaveStable | SimulatorCore/FlowsheetParameters.cpp:51-165 | Saving a reloaded record writes exactly what the original save wrote, to any handle and path. |
| Persistence.SaveLoadKeepsValid | SimulatorCore/FlowsheetParameters.cpp:51-165 | A record satisfying the setters' invariant still satisfies it after a save and load. |
| Persistence.LoadDoesNotValidate | SimulatorCore/FlowsheetParameters.cpp:104-128 | Loaded values are not clamped. A group holding a negative tolerance and a relaxation parameter of 2 loads both, and the result violates the invariant. |

## Left out

- The Qt stream editor, the steady-state unit interface and the mixer unit header are not part of this model. They are declarations with no behaviour to state.
- The byte-level HDF5 encoding is not modelled. `CH5Handler` is replaced by an abstract store, which assumes two things the handler's code would have to confirm:
  - a read of a missing dataset, a dataset of the wrong type, or a dataset behind an invalid handle leaves the target variable unchanged;
  - a failed attribute read returns one fixed value, `VERSION_READ_FAILED`, whose value is not fixed by the model.
  - the 23 dataset-name constants `StrConst::FlPar_H5*`, defined in a header that is not part of this model, are pairwise distinct, because dataset names are the constructors of the `Key` datatype; `SaveToFile`'s read-back guarantee and the save/load round trip depend on this;
  - a write on a valid handle never fails; the source ignores the outcome of every write (lines 56-95), so a failed write there would leave a stale dataset that a later load reads back.
- FlowsheetParameters.New: the tear-stream flag's value before the constructor body runs comes from a member initialiser in a header that is not part of this model, so it is the abstract constant `HEADER_INITIALIZE_TEAR_STREAMS_AUTO`.
- The convergence engine, topology ordering, time-window adaptation, extrapolation and the disk cache are not modelled. None of their code is part of this model.
- The values of the `DEFAULT_*` constants and of the `CM_WEGSTEIN` and `EM_SPLINE` enumerators are not modelled. They are defined in a header that is not part of this model, so they are abstract constants. `InitializeIsValid` takes their being in range as a hypothesis (`DefaultsValid`).
- Enum validation on load is not modelled, because the source casts the raw unsigned value without checking it. The method selectors are therefore plain naturals, and no range is claimed for them.
- Persistence.LoadFromFile: models the uninitialised local `nTemp` through which both method selectors are read as a parameter, `scratch`. If the convergence-method dataset cannot be read, `scratch` is stored as the convergence method. If the extrapolation-method dataset cannot be read, the convergence method's raw value is stored again as the extrapolation method.
- Setters.SetWegsteinAccelParam: does not model NaN, because reals have none. In the source a NaN argument fails both comparisons and is stored, so the [-5, 1] guarantee holds only for non-NaN doubles. The other setters send NaN to 0, to 1 or to "ignored", which the model's rules already describe.
- Setters.SetMaxItersNumber: the unsigned fields (iteration limits, cache windows, selectors) are unbounded naturals rather than 32-bit values. No arithmetic is done on them, only comparisons with zero and copies, so no wrap-around can arise inside the record.
- Wide strings are not modelled: the cache path (`std::wstring`) is a sequence of characters, and no encoding is applied.

## Findings

| source | as written | input that shows it | evidently intended | confidence | as-written member | corrected member |
|---|---|---|---|---|---|---|
| SimulatorCore/FlowsheetParameters.cpp:14-49 | `Initialize` assigns every field except `initializeTearStreamsAutoFlag`, so a reset keeps a stale tear-stream flag. | Set the flag to false, then call `Initialize()`: the flag is still false. The loader's default for files without the flag is true. | `Initialize` also resets the flag to true, as it does for every other field of the record. | medium: the flag may carry a default member initialiser in the header, but a later reset still keeps it; not executed | FlowsheetParameters.InitializeAsWrittenKeepsStaleFlag | FlowsheetParameters.InitializeForgetsPriorState |

/**
 An abstract stand-in for the HDF5 file handler the parameter record is
 persisted through. A file is a validity flag (whether the handle is open),
 the integer save-version attribute of each group path, and the datasets,
 each addressed by a group path and a dataset name. Only the read/write
 contract is modelled, not the byte-level encoding.
 */
module H5Store {

  /** Names of the datasets of a parameter group. */
  datatype Key =
    | ATol | RTol | MinFrac
    | InitTimeWin | MinTimeWin | MaxTimeWin | MaxStepsNum | MagnificRatio
    | UpperLimit | LowerLimit | FirstUpperLimit
    | ConvMethod | WegsteinParam | RelaxParam | ExtrapMethod
    | SaveTimeStep | SaveTimeStepFlagHoldups
    | CacheFlagStreams | CacheFlagHoldups | CacheFlagInternal | CacheWindow
    | FileSingleFlag | InitTearStreamsFlag

  /** A stored scalar: a double, an unsigned integer or a boolean. */
  datatype Value = Real(r: real) | Unsigned(n: nat) | Flag(b: bool)

  datatype Option<T> = None | Some(value: T)

  datatype File = File(valid: bool, versions: map<string, int>, data: map<(string, Key), Value>)

  /** What reading the save-version attribute returns when the handle is
      invalid or the attribute is absent. The handler that defines it is not
      part of this model. */
  const VERSION_READ_FAILED: int

  /** The dataset stored under a path and name, if any. */
  function Lookup(f: File, path: string, k: Key): Option<Value> {
    if (path, k) in f.data then Some(f.data[(path, k)]) else None
  }

  function WriteAttribute(f: File, path: string, version: int): (r: File)
    ensures !f.valid ==> r == f
    ensures f.valid ==> ReadAttribute(r, path) == version
    ensures forall q :: q != path ==> ReadAttribute(r, q) == ReadAttribute(f, q)
    ensures r.valid == f.valid && r.data == f.data
  {
    if f.valid then f.(versions := f.versions[path := version]) else f
  }

  /** Reading a group's save-version attribute: the stored version on an open
      handle, the failure value otherwise. */
  function ReadAttribute(f: File, path: string): (r: int)
    ensures f.valid && path in f.versions ==> r == f.versions[path]
    ensures !f.valid || path !in f.versions ==> r == VERSION_READ_FAILED
  {
    if f.valid && path in f.versions then f.versions[path] else VERSION_READ_FAILED
  }

  function WriteData(f: File, path: string, k: Key, v: Value): (r: File)
    ensures !f.valid ==> r == f
    ensures f.valid ==> Lookup(r, path, k) == Some(v)
    ensures forall q, j :: (q, j) != (path, k) ==> Lookup(r, q, j) == Lookup(f, q, j)
    ensures r.valid == f.valid && r.versions == f.versions
  {
    if f.valid then f.(data := f.data[(path, k) := v]) else f
  }

  // Reading a dataset into a variable of the matching type. When the handle
  // is invalid, the dataset is missing, or it holds a value of another type,
  // the read fails and the variable keeps its current value.

  function ReadReal(f: File, path: string, k: Key, current: real): (r: real)
    ensures f.valid && Lookup(f, path, k).Some? && Lookup(f, path, k).value.Real? ==> Lookup(f, path, k) == Some(Real(r))
    ensures !f.valid || Lookup(f, path, k).None? || !Lookup(f, path, k).value.Real? ==> r == current
  {
    if f.valid && Lookup(f, path, k).Some? && Lookup(f, path, k).value.Real? then Lookup(f, path, k).value.r
    else current
  }

  function ReadUnsigned(f: File, path: string, k: Key, current: nat): (r: nat)
    ensures f.valid && Lookup(f, path, k).Some? && Lookup(f, path, k).value.Unsigned? ==> Lookup(f, path, k) == Some(Unsigned(r))
    ensures !f.valid || Lookup(f, path, k).None? || !Lookup(f, path, k).value.Unsigned? ==> r == current
  {
    if f.valid && Lookup(f, path, k).Some? && Lookup(f, path, k).value.Unsigned? then Lookup(f, path, k).value.n
    else current
  }

  function ReadFlag(f: File, path: string, k: Key, current: bool): (r: bool)
    ensures f.valid && Lookup(f, path, k).Some? && Lookup(f, path, k).value.Flag? ==> Lookup(f, path, k) == Some(Flag(r))
    ensures !f.valid || Lookup(f, path, k).None? || !Lookup(f, path, k).value.Flag? ==> r == current
  {
    if f.valid && Lookup(f, path, k).Some? && Lookup(f, path, k).value.Flag? then Lookup(f, path, k).value.b
    else current
  }

  /** Reading back a dataset of a valid file returns what was written. */
  lemma ReadAfterWrite(f: File, path: string, k: Key, v: Value, current: Value)
    requires f.valid && v.Real? == current.Real? && v.Unsigned? == current.Unsigned? && v.Flag? == current.Flag?
    ensures var g := WriteData(f, path, k, v);
      match current
      case Real(c) => ReadReal(g, path, k, c) == v.r
      case Unsigned(c) => ReadUnsigned(g, path, k, c) == v.n
      case Flag(c) => ReadFlag(g, path, k, c) == v.b
  {
  }

  /** The keys of a sequence of writes. */
  function KeysOf(writes: seq<(Key, Value)>): set<Key> {
    set i | 0 <= i < |writes| :: writes[i].0
  }

  /** No dataset is written twice. */
  predicate Distinct(writes: seq<(Key, Value)>) {
    forall i, j :: 0 <= i < j < |writes| ==> writes[i].0 != writes[j].0
  }

  /** A sequence of WriteData calls under one path, in order. On a valid file
      each dataset written holds its (only) written value; nothing else
      changes, and on an invalid file nothing changes at all. */
  function WriteAll(f: File, path: string, writes: seq<(Key, Value)>): (r: File)
    ensures r.valid == f.valid && r.versions == f.versions
    ensures !f.valid ==> r == f
    ensures forall q, k :: (q != path || k !in KeysOf(writes)) ==> Lookup(r, q, k) == Lookup(f, q, k)
    ensures f.valid && Distinct(writes) ==>
      forall i :: 0 <= i < |writes| ==> Lookup(r, path, writes[i].0) == Some(writes[i].1)
    decreases |writes|
  {
    if |writes| == 0 then f
    else
      var rest := writes[1..];
      assert KeysOf(writes) == {writes[0].0} + KeysOf(rest) by {
        assert forall i :: 0 < i < |writes| ==> writes[i] == rest[i - 1];
        assert forall i :: 0 <= i < |rest| ==> rest[i] == writes[i + 1];
      }
      assert Distinct(writes) ==> writes[0].0 !in KeysOf(rest) by {
        assert forall i :: 0 <= i < |rest| ==> rest[i] == writes[i + 1];
      }
      WriteAll(WriteData(f, path, writes[0].0, writes[0].1), path, rest)
  }
}

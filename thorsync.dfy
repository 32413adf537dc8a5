/** ThorSync's HDF5 episode as a table: the global clock, the analog lines copied as they
    are, and the digital lines either clipped to {0, 1} (the lines named binary) or
    widened to 32-bit signed integers; plus the schema's dtype table and the cached state
    of the source. */
module ThorSync {
  import opened Common
  import opened OrderedDict

  /** A dataset of the "AI" group: its name, its dtype and its samples, flattened. */
  datatype AnalogChannel = AnalogChannel(name: string, dtype: DType, samples: seq<real>)

  /** A dataset of the "DI" group: its name and its integer samples, flattened. */
  datatype DigitalChannel = DigitalChannel(name: string, samples: seq<int>)

  /** The episode file: the "Global/GCtr" clock ticks and the "AI" and "DI" groups in
      their stored order; None for a group or dataset the file lacks. */
  datatype SyncFile = SyncFile(
    clock: Option<seq<int>>, analog: Option<seq<AnalogChannel>>, digital: Option<seq<DigitalChannel>>)

  const ClockGroup: string := "Global/GCtr"
  const AnalogGroup: string := "AI"
  const DigitalGroup: string := "DI"

  function Group<T>(g: Option<T>, name: string): Result<T>
  {
    if g.None? then Err(MissingGroup(name)) else Ok(g.value)
  }

  /** The `binary` setter: `set(val) if val else set()`. */
  function BinarySet(val: Option<seq<string>>): (s: set<string>)
    ensures forall n :: n in s <==> val.Some? && n in val.value
    ensures val == None || val == Some([]) ==> s == {}
  {
    if val.Some? && |val.value| > 0 then set n | n in val.value else {}
  }

  function Min(a: int, b: int): int { if a < b then a else b }

  function Max(a: int, b: int): int { if a < b then b else a }

  /** `np.clip(x, 0, 1)` on one sample: min(max(x, 0), 1). */
  function Clip(x: int): (y: int)
    ensures 0 <= y <= 1
    ensures 0 <= x <= 1 ==> y == x
    ensures x < 0 ==> y == 0
    ensures x > 1 ==> y == 1
  {
    Min(Max(x, 0), 1)
  }

  /** `np.clip(arr, 0, 1).astype(np.int8)`: every sample lands in {0, 1}, and samples
      that are already 0 or 1 are kept. */
  function ClipAll(xs: seq<int>): (ys: seq<int>)
    ensures |ys| == |xs|
    ensures forall i :: 0 <= i < |xs| ==> ys[i] == Clip(xs[i])
    ensures forall i :: 0 <= i < |xs| ==> 0 <= ys[i] <= 1
  {
    seq(|xs|, i requires 0 <= i < |xs| => Clip(xs[i]))
  }

  /** Clipping a line twice is clipping it once. */
  lemma ClipIdempotent(xs: seq<int>)
    ensures ClipAll(ClipAll(xs)) == ClipAll(xs)
  {
  }

  /** A line that already carries only 0s and 1s is left as it is. */
  lemma ClipKeepsBinaryLine(xs: seq<int>)
    requires forall i :: 0 <= i < |xs| ==> 0 <= xs[i] <= 1
    ensures ClipAll(xs) == xs
  {
  }

  const Int32Min: int := -0x8000_0000
  const Int32Max: int := 0x7fff_ffff
  const TwoTo32: int := 0x1_0000_0000

  predicate FitsInt32(xs: seq<int>)
  {
    forall i :: 0 <= i < |xs| ==> Int32Min <= xs[i] <= Int32Max
  }

  /** `astype(np.int32)` on one integer sample: the signed 32-bit value congruent to it
      modulo 2^32, which is the sample itself when it fits. */
  function WrapInt32(x: int): (y: int)
    ensures Int32Min <= y <= Int32Max
    ensures (x - y) % TwoTo32 == 0
    ensures Int32Min <= x <= Int32Max ==> y == x
  {
    var m := x - Int32Min;
    assert m == (m / TwoTo32) * TwoTo32 + m % TwoTo32;
    m % TwoTo32 + Int32Min
  }

  /** `arr.astype(np.int32)`: the samples keep their values when they fit in 32 bits. */
  function WidenAll(xs: seq<int>): (ys: seq<int>)
    ensures |ys| == |xs|
    ensures forall i :: 0 <= i < |xs| ==> ys[i] == WrapInt32(xs[i])
    ensures FitsInt32(ys)
    ensures FitsInt32(xs) ==> ys == xs
  {
    seq(|xs|, i requires 0 <= i < |xs| => WrapInt32(xs[i]))
  }

  /** A column of the table. The time column is `clock / clock_rate`, kept as the ticks
      and the rate. */
  datatype Column =
    | TimeColumn(ticks: seq<int>, clockRate: real)
    | AnalogColumn(dtype: DType, samples: seq<real>)
    | BinaryColumn(values: seq<int>)
    | Int32Column(values: seq<int>)

  function ColumnLength(c: Column): nat
  {
    match c
    case TimeColumn(ticks, _) => |ticks|
    case AnalogColumn(_, samples) => |samples|
    case BinaryColumn(values) => |values|
    case Int32Column(values) => |values|
  }

  function AnalogNames(analog: seq<AnalogChannel>): (ns: seq<string>)
    ensures |ns| == |analog| && forall i :: 0 <= i < |analog| ==> ns[i] == analog[i].name
  {
    seq(|analog|, i requires 0 <= i < |analog| => analog[i].name)
  }

  function DigitalNames(digital: seq<DigitalChannel>): (ns: seq<string>)
    ensures |ns| == |digital| && forall i :: 0 <= i < |digital| ==> ns[i] == digital[i].name
  {
    seq(|digital|, i requires 0 <= i < |digital| => digital[i].name)
  }

  /** The column a digital line becomes: clipped to {0, 1} when it is named binary,
      otherwise widened to int32 with its values unchanged whenever they fit. */
  function DigitalColumn(d: DigitalChannel, binary: set<string>): (c: Column)
    ensures d.name in binary ==>
              c.BinaryColumn? && |c.values| == |d.samples| &&
              forall i :: 0 <= i < |d.samples| ==>
                0 <= c.values[i] <= 1 && (0 <= d.samples[i] <= 1 ==> c.values[i] == d.samples[i])
    ensures d.name in binary ==>
              forall i :: 0 <= i < |d.samples| ==> c.values[i] == Clip(d.samples[i])
    ensures d.name !in binary ==>
              c.Int32Column? && |c.values| == |d.samples| && (FitsInt32(d.samples) ==> c.values == d.samples)
    ensures d.name !in binary ==>
              forall i :: 0 <= i < |d.samples| ==> c.values[i] == WrapInt32(d.samples[i])
  {
    if d.name in binary then BinaryColumn(ClipAll(d.samples)) else Int32Column(WidenAll(d.samples))
  }

  function TimeEntry(clock: seq<int>, clockRate: real): (string, Column)
  {
    ("time", TimeColumn(clock, clockRate))
  }

  function AnalogEntries(analog: seq<AnalogChannel>): (es: Dict<Column>)
    ensures |es| == |analog|
    ensures forall i :: 0 <= i < |analog| ==>
              es[i] == (analog[i].name, AnalogColumn(analog[i].dtype, analog[i].samples))
  {
    seq(|analog|, i requires 0 <= i < |analog| =>
      (analog[i].name, AnalogColumn(analog[i].dtype, analog[i].samples)))
  }

  function DigitalEntries(digital: seq<DigitalChannel>, binary: set<string>): (es: Dict<Column>)
    ensures |es| == |digital|
    ensures forall i :: 0 <= i < |digital| ==> es[i] == (digital[i].name, DigitalColumn(digital[i], binary))
  {
    seq(|digital|, i requires 0 <= i < |digital| => (digital[i].name, DigitalColumn(digital[i], binary)))
  }

  /** The `data` dictionary of `_load_dataframe`: time, then each analog line, then each
      digital line, assigned in file order. */
  function DataOf(clock: seq<int>, analog: seq<AnalogChannel>, digital: seq<DigitalChannel>,
                  binary: set<string>, clockRate: real): Dict<Column>
  {
    PutAll(PutAll([TimeEntry(clock, clockRate)], AnalogEntries(analog)), DigitalEntries(digital, binary))
  }

  /** A data frame: its columns in order, and its number of rows. */
  datatype Table = Table(columns: Dict<Column>, rows: nat)

  predicate SameLength(data: Dict<Column>, n: nat)
  {
    forall i :: 0 <= i < |data| ==> ColumnLength(data[i].1) == n
  }

  /** `pd.DataFrame(data)`: columns of unequal length are refused. */
  function MakeTable(data: Dict<Column>): (r: Result<Table>)
    ensures |data| > 0 ==> (r.Ok? <==> SameLength(data, ColumnLength(data[0].1)))
    ensures r.Err? ==> r == Err(LengthMismatch)
    ensures r.Ok? ==> r.value.columns == data && SameLength(data, r.value.rows)
  {
    if |data| == 0 then Ok(Table(data, 0))
    else if SameLength(data, ColumnLength(data[0].1)) then Ok(Table(data, ColumnLength(data[0].1)))
    else Err(LengthMismatch)
  }

  /** What `_load_dataframe` builds from the file: the clock is read first, then the
      analog group, then the digital group. */
  function TableOf(file: SyncFile, binary: set<string>, clockRate: real): Result<Table>
  {
    var clock :- Group(file.clock, ClockGroup);
    var analog :- Group(file.analog, AnalogGroup);
    var digital :- Group(file.digital, DigitalGroup);
    MakeTable(DataOf(clock, analog, digital, binary, clockRate))
  }

  function AnalogDTypes(analog: seq<AnalogChannel>): (es: Dict<DType>)
    ensures |es| == |analog|
    ensures forall i :: 0 <= i < |analog| ==> es[i] == (analog[i].name, analog[i].dtype)
  {
    seq(|analog|, i requires 0 <= i < |analog| => (analog[i].name, analog[i].dtype))
  }

  /** The int8 entries of the digital lines named binary, in file order; the other
      digital lines get no entry. */
  function BinaryDTypes(digital: seq<DigitalChannel>, binary: set<string>): Dict<DType>
    decreases |digital|
  {
    if |digital| == 0 then []
    else
      var init := BinaryDTypes(digital[..|digital| - 1], binary);
      var last := digital[|digital| - 1];
      if last.name in binary then init + [(last.name, Int8)] else init
  }

  /** The `dtypes` dictionary of `_get_schema`. */
  function DTypesOf(analog: seq<AnalogChannel>, digital: seq<DigitalChannel>, binary: set<string>)
    : Dict<DType>
  {
    PutAll(PutAll([("time", Float64)], AnalogDTypes(analog)), BinaryDTypes(digital, binary))
  }

  /** The schema: the path, (clock length, number of dtype entries), the dtype keys as
      columns in insertion order, and the dtype table. */
  datatype SyncSchema = SyncSchema(path: string, shape: (nat, nat), columns: seq<string>, dtypes: Dict<DType>)

  function SchemaOf(file: SyncFile, binary: set<string>, path: string): Result<SyncSchema>
  {
    var clock :- Group(file.clock, ClockGroup);
    var analog :- Group(file.analog, AnalogGroup);
    var digital :- Group(file.digital, DigitalGroup);
    var dtypes := DTypesOf(analog, digital, binary);
    Ok(SyncSchema(path, (|clock|, |dtypes|), Keys(dtypes), dtypes))
  }

  /** One digital line more adds its int8 entry exactly when it is named binary. */
  lemma BinaryDTypesStep(digital: seq<DigitalChannel>, binary: set<string>, i: nat)
    requires i < |digital|
    ensures BinaryDTypes(digital[..i + 1], binary) ==
            BinaryDTypes(digital[..i], binary) +
            (if digital[i].name in binary then [(digital[i].name, Int8)] else [])
  {
    assert digital[..i + 1][..i] == digital[..i];
  }

  /** A digital line has an entry in the dtype table exactly when it is named binary. */
  lemma {:induction false} BinaryDTypesKeys(digital: seq<DigitalChannel>, binary: set<string>, k: string)
    ensures k in Keys(BinaryDTypes(digital, binary)) <==> k in DigitalNames(digital) && k in binary
    decreases |digital|
  {
    if |digital| > 0 {
      var init := digital[..|digital| - 1];
      var last := digital[|digital| - 1];
      BinaryDTypesKeys(init, binary, k);
      assert DigitalNames(digital) == DigitalNames(init) + [last.name];
      var es := BinaryDTypes(init, binary);
      assert Keys(es + [(last.name, Int8)]) == Keys(es) + [last.name];
    }
  }

  /** Every digital line gets a dtype entry exactly when every digital line is named binary;
      there are never more entries than lines. */
  lemma {:induction false} BinaryDTypesCount(digital: seq<DigitalChannel>, binary: set<string>)
    ensures |BinaryDTypes(digital, binary)| <= |digital|
    ensures |BinaryDTypes(digital, binary)| == |digital| <==>
            forall i :: 0 <= i < |digital| ==> digital[i].name in binary
    decreases |digital|
  {
    if |digital| > 0 {
      var init := digital[..|digital| - 1];
      BinaryDTypesCount(init, binary);
      assert forall i :: 0 <= i < |init| ==> init[i] == digital[i];
    }
  }

  /** Keeping only some digital names keeps them distinct from each other and from `prefix`. */
  lemma {:induction false} BinaryDTypesDistinct(prefix: seq<string>, digital: seq<DigitalChannel>,
                                                binary: set<string>)
    requires Distinct(prefix + DigitalNames(digital))
    ensures Distinct(prefix + Keys(BinaryDTypes(digital, binary)))
    decreases |digital|
  {
    if |digital| > 0 {
      var init := digital[..|digital| - 1];
      var last := digital[|digital| - 1];
      var all := prefix + DigitalNames(digital);
      assert prefix + DigitalNames(init) == all[..|all| - 1];
      DistinctPrefix(all, |all| - 1);
      BinaryDTypesDistinct(prefix, init, binary);
      if last.name in binary {
        var ks := prefix + Keys(BinaryDTypes(init, binary));
        assert prefix + Keys(BinaryDTypes(digital, binary)) == ks + [last.name];
        forall j | 0 <= j < |ks|
          ensures ks[j] != last.name
        {
          if j < |prefix| {
            assert ks[j] == all[j] && all[|all| - 1] == last.name;
          } else {
            BinaryDTypesKeys(init, binary, ks[j]);
            assert ks[j] in DigitalNames(init);
            var m :| 0 <= m < |init| && DigitalNames(init)[m] == ks[j];
            assert all[|prefix| + m] == ks[j] && all[|all| - 1] == last.name;
          }
        }
      }
    }
  }

  /** The dtype table holds "time", every analog name, and exactly the digital names that
      are named binary. */
  lemma DTypesKeys(analog: seq<AnalogChannel>, digital: seq<DigitalChannel>, binary: set<string>, k: string)
    ensures k in Keys(DTypesOf(analog, digital, binary)) <==>
            k == "time" || k in AnalogNames(analog) || (k in DigitalNames(digital) && k in binary)
  {
    var base := [("time", Float64)];
    assert Keys(base) == ["time"];
    PutAllKeys(base, AnalogDTypes(analog), k);
    PutAllKeys(PutAll(base, AnalogDTypes(analog)), BinaryDTypes(digital, binary), k);
    BinaryDTypesKeys(digital, binary, k);
    assert Keys(AnalogDTypes(analog)) == AnalogNames(analog);
  }

  /** No column name repeats in the schema. */
  lemma DTypesUnique(analog: seq<AnalogChannel>, digital: seq<DigitalChannel>, binary: set<string>)
    ensures Distinct(Keys(DTypesOf(analog, digital, binary)))
  {
    var base := [("time", Float64)];
    PutAllDistinct(base, AnalogDTypes(analog));
    PutAllDistinct(PutAll(base, AnalogDTypes(analog)), BinaryDTypes(digital, binary));
  }

  /** No two lines share a name and none is called "time". */
  predicate DistinctNames(analog: seq<AnalogChannel>, digital: seq<DigitalChannel>)
  {
    Distinct(["time"] + AnalogNames(analog) + DigitalNames(digital))
  }

  lemma DistinctSplit(a: seq<string>, b: seq<string>)
    requires Distinct(a + b)
    ensures Distinct(a)
  {
    assert (a + b)[..|a|] == a;
    DistinctPrefix(a + b, |a|);
  }

  /** With distinct names, the dtype table is "time" first, the analog lines in file order,
      then the binary digital lines in file order. */
  lemma DTypesLayout(analog: seq<AnalogChannel>, digital: seq<DigitalChannel>, binary: set<string>)
    requires DistinctNames(analog, digital)
    ensures DTypesOf(analog, digital, binary) ==
            [("time", Float64)] + AnalogDTypes(analog) + BinaryDTypes(digital, binary)
  {
    var base := [("time", Float64)];
    var head := ["time"] + AnalogNames(analog);
    DistinctSplit(head, DigitalNames(digital));
    assert Keys(base) + Keys(AnalogDTypes(analog)) == head;
    PutAllFresh(base, AnalogDTypes(analog));
    assert ["time"] + AnalogNames(analog) + DigitalNames(digital) == head + DigitalNames(digital);
    BinaryDTypesDistinct(head, digital, binary);
    assert Keys(base + AnalogDTypes(analog)) == head;
    PutAllFresh(base + AnalogDTypes(analog), BinaryDTypes(digital, binary));
  }

  /** The table has a column for "time", every analog line and every digital line. */
  lemma ColumnKeys(clock: seq<int>, analog: seq<AnalogChannel>, digital: seq<DigitalChannel>,
                   binary: set<string>, clockRate: real, k: string)
    ensures k in Keys(DataOf(clock, analog, digital, binary, clockRate)) <==>
            k == "time" || k in AnalogNames(analog) || k in DigitalNames(digital)
  {
    var base := [TimeEntry(clock, clockRate)];
    assert Keys(base) == ["time"];
    PutAllKeys(base, AnalogEntries(analog), k);
    PutAllKeys(PutAll(base, AnalogEntries(analog)), DigitalEntries(digital, binary), k);
    assert Keys(AnalogEntries(analog)) == AnalogNames(analog);
    assert Keys(DigitalEntries(digital, binary)) == DigitalNames(digital);
  }

  /** No column name repeats in the table. */
  lemma ColumnsUnique(clock: seq<int>, analog: seq<AnalogChannel>, digital: seq<DigitalChannel>,
                      binary: set<string>, clockRate: real)
    ensures Distinct(Keys(DataOf(clock, analog, digital, binary, clockRate)))
  {
    var base := [TimeEntry(clock, clockRate)];
    PutAllDistinct(base, AnalogEntries(analog));
    PutAllDistinct(PutAll(base, AnalogEntries(analog)), DigitalEntries(digital, binary));
  }

  /** With distinct names, the columns are time, the analog lines in file order, then the
      digital lines in file order. */
  lemma ColumnsLayout(clock: seq<int>, analog: seq<AnalogChannel>, digital: seq<DigitalChannel>,
                      binary: set<string>, clockRate: real)
    requires DistinctNames(analog, digital)
    ensures DataOf(clock, analog, digital, binary, clockRate) ==
            [TimeEntry(clock, clockRate)] + AnalogEntries(analog) + DigitalEntries(digital, binary)
  {
    var base := [TimeEntry(clock, clockRate)];
    var head := ["time"] + AnalogNames(analog);
    DistinctSplit(head, DigitalNames(digital));
    assert Keys(base) + Keys(AnalogEntries(analog)) == head;
    PutAllFresh(base, AnalogEntries(analog));
    assert Keys(base + AnalogEntries(analog)) + Keys(DigitalEntries(digital, binary)) ==
           ["time"] + AnalogNames(analog) + DigitalNames(digital);
    PutAllFresh(base + AnalogEntries(analog), DigitalEntries(digital, binary));
  }

  /** Every line has as many samples as the clock has ticks. */
  predicate ClockAligned(clock: seq<int>, analog: seq<AnalogChannel>, digital: seq<DigitalChannel>)
  {
    && (forall i :: 0 <= i < |analog| ==> |analog[i].samples| == |clock|)
    && (forall i :: 0 <= i < |digital| ==> |digital[i].samples| == |clock|)
  }

  /** With distinct names, the table is built exactly when every line is as long as the
      clock; it then has one row per clock tick. */
  lemma TableNeedsAlignedLines(clock: seq<int>, analog: seq<AnalogChannel>, digital: seq<DigitalChannel>,
                               binary: set<string>, clockRate: real)
    requires DistinctNames(analog, digital)
    ensures var t := MakeTable(DataOf(clock, analog, digital, binary, clockRate));
            (t.Ok? <==> ClockAligned(clock, analog, digital)) &&
            (t.Ok? ==> t.value.rows == |clock|) &&
            (t.Err? ==> t == Err(LengthMismatch))
  {
    ColumnsLayout(clock, analog, digital, binary, clockRate);
    var data := DataOf(clock, analog, digital, binary, clockRate);
    var a, d := AnalogEntries(analog), DigitalEntries(digital, binary);
    assert ColumnLength(data[0].1) == |clock|;
    if SameLength(data, |clock|) {
      forall i | 0 <= i < |analog|
        ensures |analog[i].samples| == |clock|
      {
        assert data[1 + i] == a[i];
      }
      forall i | 0 <= i < |digital|
        ensures |digital[i].samples| == |clock|
      {
        assert data[1 + |analog| + i] == d[i];
      }
    }
    if ClockAligned(clock, analog, digital) {
      forall i | 0 <= i < |data|
        ensures ColumnLength(data[i].1) == |clock|
      {
        if 1 <= i < 1 + |analog| {
          assert data[i] == a[i - 1];
        } else if 1 + |analog| <= i {
          assert data[i] == d[i - 1 - |analog|];
        }
      }
    }
  }

  /** With distinct names, the schema lists as many columns as the table has exactly when
      every digital line is named binary: the other digital lines have no dtype entry. */
  lemma SchemaColumnsMatchTable(clock: seq<int>, analog: seq<AnalogChannel>, digital: seq<DigitalChannel>,
                                binary: set<string>, clockRate: real)
    requires DistinctNames(analog, digital)
    ensures |DTypesOf(analog, digital, binary)| == |DataOf(clock, analog, digital, binary, clockRate)| <==>
            forall i :: 0 <= i < |digital| ==> digital[i].name in binary
  {
    DTypesLayout(analog, digital, binary);
    ColumnsLayout(clock, analog, digital, binary, clockRate);
    BinaryDTypesCount(digital, binary);
  }

  /** The schema fails exactly when a group is missing, and then reading the table fails
      with the same error, since both read the groups in the same order. */
  lemma SchemaAndTableFailAlike(file: SyncFile, binary: set<string>, path: string, clockRate: real)
    ensures SchemaOf(file, binary, path).Err? <==>
            file.clock.None? || file.analog.None? || file.digital.None?
    ensures SchemaOf(file, binary, path).Err? ==>
            TableOf(file, binary, clockRate) == Err(SchemaOf(file, binary, path).error)
  {
  }

  /** A schema's shape is (clock length, number of columns), and its columns are distinct. */
  lemma SchemaShape(file: SyncFile, binary: set<string>, path: string)
    requires SchemaOf(file, binary, path).Ok?
    ensures var s := SchemaOf(file, binary, path).value;
            s.path == path && s.shape == (|file.clock.value|, |s.columns|) && Distinct(s.columns)
  {
    DTypesUnique(file.analog.value, file.digital.value, binary);
  }

  /** A known path is kept when it is non-empty and the file it names still exists. */
  predicate KeepsPath(known: Option<string>, present: bool)
  {
    known.Some? && |known.value| > 0 && present
  }

  /** The path the file is read from: the known one when it is kept, otherwise the one
      located afresh (None: the lookup fails with FileNotFound). */
  function ResolvedPath(known: Option<string>, present: bool, located: Option<string>): Option<string>
  {
    if KeepsPath(known, present) then known else located
  }

  /** The `path` attribute after resolution: a failed lookup leaves it as it was. */
  function PathAfter(known: Option<string>, present: bool, located: Option<string>): Option<string>
  {
    if ResolvedPath(known, present, located).Some? then ResolvedPath(known, present, located) else known
  }

  /** `ThorSyncSource`. Path resolution is abstracted: `present` says whether the file at
      the known path still exists, `located` is the unique file the input path or the
      episode pattern names (None when there is none), and `file` is the content of the
      file at the resolved path. */
  class ThorSyncSource {
    const inputPath: string
    var path: Option<string>
    var binary: set<string>
    const clockRate: real
    var schema: Option<SyncSchema>
    var dataframe: Option<Table>

    /** A cached schema was read from the resolved path. */
    ghost predicate Valid()
      reads this
    {
      schema.Some? ==> path.Some?
    }

    /** `__init__`: nothing is read yet; `binary` goes through its setter. */
    constructor (inputPath: string, binary: Option<seq<string>>, clockRate: real)
      ensures Valid()
      ensures this.inputPath == inputPath && this.clockRate == clockRate
      ensures this.binary == BinarySet(binary)
      ensures path == None && schema == None && dataframe == None
    {
      this.inputPath := inputPath;
      this.binary := BinarySet(binary);
      this.clockRate := clockRate;
      path := None;
      schema := None;
      dataframe := None;
    }

    /** The `binary` setter. */
    method SetBinary(val: Option<seq<string>>)
      modifies this`binary
      ensures binary == BinarySet(val)
    {
      binary := {};
      if val.Some? && |val.value| > 0 {
        binary := set n | n in val.value;
      }
    }

    /** `_get_schema`: resolves the path again when it is empty or its file is gone, then
        fills `dtypes` with "time", each analog line's dtype, and int8 for each digital
        line named binary. */
    method GetSchemaFromFile(located: Option<string>, present: bool, file: SyncFile)
      returns (r: Result<SyncSchema>)
      modifies this`path
      ensures path == PathAfter(old(path), present, located)
      ensures var used := ResolvedPath(old(path), present, located);
              r == if used.Some? then SchemaOf(file, binary, used.value) else Err(FileNotFound(inputPath))
    {
      if !(path.Some? && |path.value| > 0 && present) {
        if located.None? {
          return Err(FileNotFound(inputPath));
        }
        path := located;
      }
      var resolved := path.value;
      var clock :- Group(file.clock, ClockGroup);
      var dtypes: Dict<DType> := [("time", Float64)];
      var analog :- Group(file.analog, AnalogGroup);
      for i := 0 to |analog|
        invariant path == Some(resolved)
        invariant dtypes == PutAll([("time", Float64)], AnalogDTypes(analog)[..i])
      {
        PutAllStep([("time", Float64)], AnalogDTypes(analog), i);
        dtypes := Put(dtypes, analog[i].name, analog[i].dtype);
      }
      assert AnalogDTypes(analog)[..|analog|] == AnalogDTypes(analog);
      var digital :- Group(file.digital, DigitalGroup);
      ghost var base := dtypes;
      for i := 0 to |digital|
        invariant path == Some(resolved)
        invariant dtypes == PutAll(base, BinaryDTypes(digital[..i], binary))
      {
        BinaryDTypesStep(digital, binary, i);
        if digital[i].name in binary {
          PutAllSnoc(base, BinaryDTypes(digital[..i], binary), (digital[i].name, Int8));
          dtypes := Put(dtypes, digital[i].name, Int8);
        } else {
          assert BinaryDTypes(digital[..i + 1], binary) == BinaryDTypes(digital[..i], binary);
        }
      }
      assert digital[..|digital|] == digital;
      r := Ok(SyncSchema(resolved, (|clock|, |dtypes|), Keys(dtypes), dtypes));
    }

    /** `_load_metadata`: the schema is computed only while none is cached. */
    method LoadMetadata(located: Option<string>, present: bool, file: SyncFile)
      returns (r: Result<SyncSchema>)
      requires Valid()
      modifies this`path, this`schema
      ensures Valid()
      ensures old(schema).Some? ==> r == Ok(old(schema).value) && schema == old(schema) && path == old(path)
      ensures old(schema).None? ==>
                var used := ResolvedPath(old(path), present, located);
                && path == PathAfter(old(path), present, located)
                && r == (if used.Some? then SchemaOf(file, binary, used.value) else Err(FileNotFound(inputPath)))
                && schema == (if r.Ok? then Some(r.value) else None)
    {
      if schema.Some? {
        return Ok(schema.value);
      }
      r := GetSchemaFromFile(located, present, file);
      if r.Ok? {
        schema := Some(r.value);
      }
    }

    /** `get_schema`: loads the metadata, then builds the schema afresh from the file. A
        path that the load has just resolved names an existing file. */
    method GetSchema(located: Option<string>, present: bool, file: SyncFile)
      returns (r: Result<SyncSchema>)
      requires Valid()
      modifies this`path, this`schema
      ensures Valid()
      ensures path == PathAfter(old(path), present, located)
      ensures var used := ResolvedPath(old(path), present, located);
              r == if used.Some? then SchemaOf(file, binary, used.value) else Err(FileNotFound(inputPath))
      ensures old(schema).Some? ==> schema == old(schema)
      ensures old(schema).None? ==> schema == (if r.Ok? then Some(r.value) else None)
    {
      var wasCached := schema.Some?;
      var loaded :- LoadMetadata(located, present, file);
      r := GetSchemaFromFile(located, present || !wasCached, file);
    }

    /** The reading part of `_load_dataframe`: fills `data` with the time column, each
        analog line as it is, and each digital line clipped or widened, then builds the
        frame. */
    method ReadData(file: SyncFile) returns (r: Result<Table>)
      ensures r == TableOf(file, binary, clockRate)
    {
      var clock :- Group(file.clock, ClockGroup);
      var base := [TimeEntry(clock, clockRate)];
      var data: Dict<Column> := base;
      var analog :- Group(file.analog, AnalogGroup);
      for i := 0 to |analog|
        invariant data == PutAll(base, AnalogEntries(analog)[..i])
      {
        PutAllStep(base, AnalogEntries(analog), i);
        data := Put(data, analog[i].name, AnalogColumn(analog[i].dtype, analog[i].samples));
      }
      assert AnalogEntries(analog)[..|analog|] == AnalogEntries(analog);
      var digital :- Group(file.digital, DigitalGroup);
      ghost var afterAnalog := data;
      for i := 0 to |digital|
        invariant data == PutAll(afterAnalog, DigitalEntries(digital, binary)[..i])
      {
        PutAllStep(afterAnalog, DigitalEntries(digital, binary), i);
        var column;
        if digital[i].name in binary {
          column := BinaryColumn(ClipAll(digital[i].samples));
        } else {
          column := Int32Column(WidenAll(digital[i].samples));
        }
        data := Put(data, digital[i].name, column);
      }
      assert DigitalEntries(digital, binary)[..|digital|] == DigitalEntries(digital, binary);
      r := MakeTable(data);
    }

    /** `_load_dataframe`: loads the metadata first, so a missing file or group fails
        before any data is read. With a cached schema the cached path is opened as it is,
        and fails when its file is gone. */
    method LoadDataframe(located: Option<string>, present: bool, file: SyncFile)
      returns (r: Result<Table>)
      requires Valid()
      modifies this`path, this`schema
      ensures Valid()
      ensures path == (if old(schema).Some? then old(path) else PathAfter(old(path), present, located))
      ensures old(schema).Some? ==>
                r == if KeepsPath(old(path), present) then TableOf(file, binary, clockRate)
                     else Err(FileNotFound(old(path).value))
      ensures old(schema).None? ==>
                var used := ResolvedPath(old(path), present, located);
                r == if used.Some? then TableOf(file, binary, clockRate) else Err(FileNotFound(inputPath))
      ensures old(schema).Some? ==> schema == old(schema)
      ensures old(schema).None? ==>
                var used := ResolvedPath(old(path), present, located);
                schema == if used.Some? && SchemaOf(file, binary, used.value).Ok?
                          then Some(SchemaOf(file, binary, used.value).value) else None
    {
      ghost var resolved := ResolvedPath(path, present, located);
      if schema.None? && resolved.Some? {
        SchemaAndTableFailAlike(file, binary, resolved.value, clockRate);
      }
      if schema.Some? && !(|path.value| > 0 && present) {
        return Err(FileNotFound(path.value));
      }
      var loaded :- LoadMetadata(located, present, file);
      r := ReadData(file);
    }

    /** `_get_partition`: the data frame is loaded once and then served from the cache. */
    method GetPartition(located: Option<string>, present: bool, file: SyncFile)
      returns (r: Result<Table>)
      requires Valid()
      modifies this`path, this`schema, this`dataframe
      ensures Valid()
      ensures old(dataframe).Some? ==>
                r == Ok(old(dataframe).value) && dataframe == old(dataframe) &&
                schema == old(schema) && path == old(path)
      ensures old(dataframe).None? ==>
                && path == (if old(schema).Some? then old(path) else PathAfter(old(path), present, located))
                && dataframe == (if r.Ok? then Some(r.value) else None)
      ensures old(dataframe).None? && old(schema).Some? ==>
                r == if KeepsPath(old(path), present) then TableOf(file, binary, clockRate)
                     else Err(FileNotFound(old(path).value))
      ensures old(dataframe).None? && old(schema).None? ==>
                var used := ResolvedPath(old(path), present, located);
                r == if used.Some? then TableOf(file, binary, clockRate) else Err(FileNotFound(inputPath))
      ensures old(dataframe).None? && old(schema).Some? ==> schema == old(schema)
      ensures old(dataframe).None? && old(schema).None? ==>
                var used := ResolvedPath(old(path), present, located);
                schema == if used.Some? && SchemaOf(file, binary, used.value).Ok?
                          then Some(SchemaOf(file, binary, used.value).value) else None
    {
      if dataframe.None? {
        var table :- LoadDataframe(located, present, file);
        dataframe := Some(table);
      }
      r := Ok(dataframe.value);
    }

    /** `_close`: drops the cached schema and data frame; the resolved path stays. */
    method Close()
      modifies this`schema, this`dataframe
      ensures Valid()
      ensures schema == None && dataframe == None
    {
      schema := None;
      dataframe := None;
    }
  }

  /** The data frame is read once: a second request is served from the cache even when
      the file has changed in between, until `_close`, after which the file is read again. */
  method PartitionCachedUntilClose(src: ThorSyncSource, located: Option<string>, present: bool,
                                   file: SyncFile, changed: SyncFile)
    returns (first: Result<Table>, second: Result<Table>, third: Result<Table>)
    requires src.Valid() && src.dataframe == None
    modifies src
    ensures first.Ok? ==> second == first
    ensures first.Ok? ==> third == TableOf(changed, src.binary, src.clockRate)
  {
    first := src.GetPartition(located, present, file);
    second := src.GetPartition(located, present, changed);
    src.Close();
    third := src.GetPartition(located, present, changed);
  }
}

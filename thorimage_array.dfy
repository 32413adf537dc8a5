/** ThorImage's raw-image array source: the array geometry inferred from the metadata
    record and the raw file's byte size, the chunk request for the lazy array, and the
    cached state that `_close` resets. */
module ThorImageArray {
  import opened Common
  import opened ThorImageMetadata

  /** Python's `a // b`: the floor of the quotient, also for a negative divisor (where
      Dafny's Euclidean `/` would round the other way). */
  function FloorDiv(a: int, b: int): (q: int)
    requires b != 0
    ensures b > 0 ==> q * b <= a < q * b + b
    ensures b < 0 ==> q * b >= a > q * b + b
  {
    if b > 0 then a / b else (-a) / (-b)
  }

  /** `prod(frame_shape) * itemsize`: the bytes of one frame. */
  function FrameBytes(frameShape: (int, int), itemSize: nat): int
  {
    frameShape.0 * frameShape.1 * itemSize
  }

  /** `filesize // framesize`: the number of whole frames in the file; trailing bytes of a
      partial frame are ignored. */
  function FrameCount(fileSize: nat, frameBytes: int): (r: Result<int>)
    ensures frameBytes == 0 <==> r == Err(DivisionByZero)
    ensures frameBytes != 0 <==> r.Ok?
    ensures frameBytes > 0 ==>
              r.Ok? && 0 <= r.value && r.value * frameBytes <= fileSize < (r.value + 1) * frameBytes
  {
    if frameBytes == 0 then Err(DivisionByZero) else Ok(FloorDiv(fileSize, frameBytes))
  }

  /** The shape `_get_schema` infers without a given shape: (frame count, *frame.shape).
      Confocal records have no frame, and multi-channel frames are refused. */
  function InferShape(md: Metadata, fileSize: nat): (r: Result<seq<int>>)
    ensures md.acquisition.ConfocalAcquisition? ==> r == Err(NoFrame)
    ensures !md.acquisition.ConfocalAcquisition? && md.acquisition.frame.channels != 1 ==>
              r == Err(UnsupportedChannels(md.acquisition.frame.channels))
    ensures !md.acquisition.ConfocalAcquisition? && md.acquisition.frame.channels == 1 ==>
      var f := md.acquisition.frame;
      var n := FrameBytes(f.shape, ItemSize(f.dtype));
      && (n == 0 <==> r == Err(DivisionByZero))
      && (n != 0 ==> r == Ok([FloorDiv(fileSize, n), f.shape.0, f.shape.1]))
    ensures r.Ok? ==>
      var f := md.acquisition.frame;
      var n := FrameBytes(f.shape, ItemSize(f.dtype));
      && !md.acquisition.ConfocalAcquisition? && f.channels == 1
      && |r.value| == 3 && r.value[1] == f.shape.0 && r.value[2] == f.shape.1
      && n != 0 && Ok(r.value[0]) == FrameCount(fileSize, n)
  {
    match md.acquisition
    case ConfocalAcquisition => Err(NoFrame)
    case _ =>
      var frame := md.acquisition.frame;
      if frame.channels != 1 then Err(UnsupportedChannels(frame.channels))
      else
        var count :- FrameCount(fileSize, FrameBytes(frame.shape, ItemSize(frame.dtype)));
        Ok([count, frame.shape.0, frame.shape.1])
  }

  /** Decoded metadata always describes 2-byte pixels, so an inferred shape holds as many
      whole frames as fit in the file: count * framesize <= filesize < (count + 1) * framesize. */
  lemma InferredFramesFitFile(md: Metadata, fileSize: nat)
    requires InferShape(md, fileSize).Ok?
    requires md.acquisition.frame.dtype == UInt16LE
    requires md.acquisition.frame.shape.0 > 0 && md.acquisition.frame.shape.1 > 0
    ensures var s, f := InferShape(md, fileSize).value, md.acquisition.frame;
      var frameBytes := f.shape.0 * f.shape.1 * 2;
      s[0] >= 0 && s[0] * frameBytes <= fileSize < (s[0] + 1) * frameBytes
  {
    var f := md.acquisition.frame;
    assert FrameBytes(f.shape, ItemSize(f.dtype)) == f.shape.0 * f.shape.1 * 2;
    assert f.shape.0 * f.shape.1 > 0;
  }

  /** Every frame the decoder produces uses the 16-bit little-endian dtype. */
  lemma DecodedFrameIsUInt16(doc: Document, floatOf: FloatParser)
    requires DecodeExperiment(doc, floatOf).Ok?
    requires !DecodeExperiment(doc, floatOf).value.acquisition.ConfocalAcquisition?
    ensures DecodeExperiment(doc, floatOf).value.acquisition.frame.dtype == UInt16LE
  {
  }

  /** A file of 100 frames of 512 x 512 pixels and 37 trailing bytes has 100 frames. */
  lemma TrailingBytesIgnored()
    ensures FrameCount(100 * 512 * 512 * 2 + 37, FrameBytes((512, 512), 2)) == Ok(100)
  {
  }

  /** `-1 if not chunks else chunks`: no chunk size (None or 0) means one chunk. */
  function ChunksArg(chunks: Option<int>): (c: int)
    ensures chunks == None || chunks == Some(0) ==> c == -1
    ensures chunks.Some? && chunks.value != 0 ==> c == chunks.value
  {
    if chunks.None? || chunks.value == 0 then -1 else chunks.value
  }

  /** The chunk request: the caller's extent on the leading axis, -1 (the whole axis)
      on every other. */
  predicate IsChunkSpec(c: seq<int>, rank: nat, arg: int)
  {
    |c| == rank && rank > 0 && c[0] == arg && forall i :: 1 <= i < rank ==> c[i] == -1
  }

  /** Where the shape comes from: the one given to the constructor (with no extra
      metadata), or the one inferred from the record that `to_dict` returns for the
      Experiment.xml next to the raw file (with that record). `toDict` is that outcome. */
  function ResolveShape(shape: Option<seq<int>>, toDict: Result<Metadata>, fileSize: nat)
    : (r: Result<(seq<int>, Option<Metadata>)>)
    ensures shape.Some? ==> r == Ok((shape.value, None))
    ensures shape.None? && toDict.Err? ==> r == Err(toDict.error)
    ensures shape.None? && toDict.Ok? ==>
              match InferShape(toDict.value, fileSize)
              case Ok(s) => r == Ok((s, Some(toDict.value)))
              case Err(e) => r == Err(e)
  {
    if shape.Some? then Ok((shape.value, None))
    else
      var md :- toDict;
      var inferred :- InferShape(md, fileSize);
      Ok((inferred, Some(md)))
  }

  datatype ArraySchema = ArraySchema(
    path: string, shape: seq<int>, dtype: DType, chunks: seq<int>, extra: Option<Metadata>)

  /** `np.memmap(path, shape=shape, dtype=dtype, mode="r")`. */
  datatype MemoryMap = MemoryMap(path: string, shape: seq<int>, dtype: DType)

  /** `dask.array.from_array(memmap, chunks=chunks)`. */
  datatype LazyArray = LazyArray(source: MemoryMap, chunks: seq<int>)

  /** `ThorImageArraySource`, with its raw file path already resolved. */
  class ThorImageArraySource {
    const path: string
    var shape: Option<seq<int>>
    var dtype: DType
    const chunksArg: int
    var chunks: Option<seq<int>>
    var schema: Option<ArraySchema>
    var memmap: Option<MemoryMap>
    var arr: Option<LazyArray>

    /** The schema, the memory map and the lazy array are built together and reset
        together, and they agree with the shape, dtype and chunks they were built from. */
    ghost predicate Valid()
      reads this
    {
      && (schema.Some? <==> arr.Some?)
      && (memmap.Some? <==> arr.Some?)
      && (arr.Some? ==>
            && shape.Some? && chunks.Some?
            && memmap == Some(MemoryMap(path, shape.value, dtype))
            && arr.value == LazyArray(memmap.value, chunks.value)
            && schema.value.path == path && schema.value.shape == shape.value
            && schema.value.dtype == dtype && schema.value.chunks == chunks.value)
    }

    /** `__init__`: only the chunk argument is normalised. */
    constructor (path: string, shape: Option<seq<int>>, dtype: DType, chunks: Option<int>)
      ensures Valid()
      ensures this.path == path && this.shape == shape && this.dtype == dtype
      ensures chunksArg == ChunksArg(chunks)
      ensures this.chunks == None && schema == None && memmap == None && arr == None
    {
      this.path := path;
      this.shape := shape;
      this.dtype := dtype;
      this.chunks := None;
      chunksArg := ChunksArg(chunks);
      schema := None;
      memmap := None;
      arr := None;
    }

    /** `_get_schema`. The frame count uses the metadata's dtype, while the array keeps
        the constructor's dtype. An existing array leaves `extra_metadata` unbound. */
    method GetSchemaFromFiles(toDict: Result<Metadata>, fileSize: nat)
      returns (r: Result<ArraySchema>)
      modifies this`shape, this`chunks, this`memmap, this`arr
      ensures old(arr).Some? ==> r == Err(UnboundExtraMetadata) && unchanged(this)
      ensures old(arr).None? && ResolveShape(old(shape), toDict, fileSize).Err? ==>
                r == Err(ResolveShape(old(shape), toDict, fileSize).error) && unchanged(this)
      ensures old(arr).None? && ResolveShape(old(shape), toDict, fileSize).Ok? ==>
                var resolved := ResolveShape(old(shape), toDict, fileSize).value;
                && shape == Some(resolved.0) && dtype == old(dtype)
                && (old(chunks).Some? ==> chunks == old(chunks))
                && (old(chunks).None? && |resolved.0| == 0 ==>
                      chunks == Some([]) && r == Err(EmptyShape) && memmap == old(memmap) && arr == None)
                && (old(chunks).None? && |resolved.0| > 0 ==>
                      chunks.Some? && IsChunkSpec(chunks.value, |resolved.0|, chunksArg))
                && (r.Ok? ==>
                      && memmap == Some(MemoryMap(path, resolved.0, dtype))
                      && arr == Some(LazyArray(memmap.value, chunks.value))
                      && r.value == ArraySchema(path, resolved.0, dtype, chunks.value, resolved.1))
                && (r.Err? <==> old(chunks).None? && |resolved.0| == 0)
                && (r.Err? ==> r == Err(EmptyShape) && memmap == old(memmap) && arr == old(arr))
    {
      if arr.Some? {
        return Err(UnboundExtraMetadata);
      }
      var resolved :- ResolveShape(shape, toDict, fileSize);
      shape := Some(resolved.0);
      if chunks.None? {
        var spec := seq(|resolved.0|, _ => -1);
        chunks := Some(spec);
        if |spec| == 0 {
          return Err(EmptyShape);
        }
        spec := spec[0 := chunksArg];
        chunks := Some(spec);
      }
      memmap := Some(MemoryMap(path, resolved.0, dtype));
      arr := Some(LazyArray(memmap.value, chunks.value));
      r := Ok(ArraySchema(path, resolved.0, dtype, chunks.value, resolved.1));
    }

    /** `_load_metadata`: the schema is built only while none is cached. */
    method LoadMetadata(toDict: Result<Metadata>, fileSize: nat)
      returns (r: Result<ArraySchema>)
      requires Valid()
      modifies this`shape, this`chunks, this`memmap, this`arr, this`schema
      ensures Valid()
      ensures old(schema).Some? ==> r == Ok(old(schema).value) && unchanged(this)
      ensures old(schema).None? && r.Ok? ==> schema == Some(r.value) && r.value.shape == shape.value
      ensures old(schema).None? && r.Ok? && old(shape).Some? ==>
                r.value.extra == None && r.value.shape == old(shape).value
      ensures old(schema).None? && r.Ok? && old(shape).None? ==>
                toDict.Ok? && r.value.extra == Some(toDict.value) &&
                InferShape(toDict.value, fileSize) == Ok(r.value.shape)
      ensures old(schema).None? && old(shape).Some? && old(chunks).Some? ==> r.Ok?
      ensures r.Err? ==> schema == None
      ensures old(schema).None? && ResolveShape(old(shape), toDict, fileSize).Err? ==>
                r == Err(ResolveShape(old(shape), toDict, fileSize).error) && unchanged(this)
      ensures old(schema).None? && ResolveShape(old(shape), toDict, fileSize).Ok? ==>
                var resolved := ResolveShape(old(shape), toDict, fileSize).value;
                && shape == Some(resolved.0)
                && (old(chunks).Some? ==> chunks == old(chunks))
                && (old(chunks).None? && |resolved.0| == 0 ==>
                      chunks == Some([]) && r == Err(EmptyShape) &&
                      memmap == None && arr == None && schema == None)
                && (old(chunks).None? && |resolved.0| > 0 ==>
                      chunks.Some? && IsChunkSpec(chunks.value, |resolved.0|, chunksArg))
                && (r.Ok? <==> old(chunks).Some? || |resolved.0| > 0)
                && (r.Ok? ==>
                      && r.value == ArraySchema(path, resolved.0, dtype, chunks.value, resolved.1)
                      && schema == Some(r.value)
                      && memmap == Some(MemoryMap(path, resolved.0, dtype))
                      && arr == Some(LazyArray(memmap.value, chunks.value)))
    {
      if schema.Some? {
        return Ok(schema.value);
      }
      r := GetSchemaFromFiles(toDict, fileSize);
      if r.Ok? {
        schema := Some(r.value);
      }
    }

    /** `_close`: drops the schema, the memory map and the lazy array; the resolved
        shape, dtype and chunks stay. */
    method Close()
      requires Valid()
      modifies this`schema, this`memmap, this`arr
      ensures Valid()
      ensures schema == None && memmap == None && arr == None
    {
      schema := None;
      memmap := None;
      arr := None;
    }
  }

  /** A source opened with a shape and a chunk extent: the first load needs no metadata
      and chunks the leading axis by that extent, keeping the other axes whole. */
  method LoadGivenShape(path: string, dtype: DType, toDict: Result<Metadata>, fileSize: nat)
    returns (r: Result<ArraySchema>)
    ensures r == Ok(ArraySchema(path, [3, 4, 5], dtype, [2, -1, -1], None))
  {
    var src := new ThorImageArraySource(path, Some([3, 4, 5]), dtype, Some(2));
    r := src.LoadMetadata(toDict, fileSize);
    var c := src.chunks.value;
    assert IsChunkSpec(c, 3, 2);
    assert c[1] == -1 && c[2] == -1;
    assert c == [2, -1, -1];
  }

  /** After `_close`, loading again rebuilds the schema from the shape cached by the first
      load: same shape, and no metadata record any more. */
  method LoadCloseLoad(src: ThorImageArraySource, toDict: Result<Metadata>, fileSize: nat)
    returns (first: Result<ArraySchema>, second: Result<ArraySchema>)
    requires src.Valid() && src.schema == None && src.shape == None
    modifies src
    ensures first.Ok? ==> second.Ok? && second.value.shape == first.value.shape &&
                          second.value.extra == None && first.value.extra.Some?
  {
    first := src.LoadMetadata(toDict, fileSize);
    src.Close();
    second := src.LoadMetadata(toDict, fileSize);
  }
}

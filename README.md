# intake_thorlabs decoders in Dafny

This project models the two decoders of `intake_thorlabs`, the intake plugin for
Thorlabs microscopy output, and proves properties of them.

- **ThorImage** (`thorimage.py`). `ThorImageMetadataSource.to_dict` turns an
  Experiment.xml document into a metadata record. The record holds the software
  version, the date, the capture mode, the modality, and then a frame (camera),
  a frame with four PMTs and the Pockels cells (multiphoton), or nothing more
  (confocal). `ThorImageArraySource` derives the geometry of the raw image file:
  the number of whole frames from the file size, and the chunk request for the
  lazy array. It caches its schema until `_close`.
- **ThorSync** (`thorsync.py`). `ThorSyncSource` reads the HDF5 episode: the global
  clock, the analog lines ("AI") and the digital lines ("DI"). It builds a table
  whose columns are time, the analog lines as they are, and the digital lines.
  A digital line named in `binary` is clipped to {0, 1}. Every other digital line
  is cast to int32. The schema has its own dtype table: only the digital lines
  named binary appear in it. The source caches both the schema and the data frame
  until `_close`.

The XML document is a map from element tag (or path) to attribute map, plus the
Pockels attribute maps in document order. The HDF5 file is a clock sequence plus two
ordered lists of named sample sequences. A missing element, attribute or group is
an error value. Each Python exception the code raises has its own `Error`
constructor. Python's float() is a parameter `floatOf`, and float arithmetic is
exact real arithmetic. Python's dict is an insertion-ordered sequence of pairs
(`OrderedDict`): assigning an existing key keeps its position.

In these places the code behaves in ways a reader may not expect, and the model follows the code:

- A non-binary digital line is cast with numpy's `astype(np.int32)`. That cast
  wraps values outside the signed 32-bit range, so values are unchanged only when
  they fit (`ThorSync.WidenAll`).
- The ThorSync schema's dtype table leaves out the digital lines not named
  binary. So its column count matches the table's only when every digital line is
  binary (`ThorSync.SchemaColumnsMatchTable`).
- The array's frame count divides by the metadata frame's item size (2 bytes,
  `<H`). The array itself keeps the dtype given to the constructor.
- `_get_schema` called while the array already exists (after `_load_metadata`,
  without `_close`) reads an unbound `extra_metadata` and fails. After `_close`,
  reloading reuses the cached shape, so the new schema carries no metadata record
  (`ThorImageArray.LoadCloseLoad`).

Files: `common.dfy` (results, errors, dtypes, left-to-right map-or-fail),
`text.dfy` (int(), lower(), bin() and counting), `ordered_dict.dfy` (dict
assignment order), `thorimage_metadata.dfy`, `thorimage_array.dfy`,
`thorsync.dfy`.

## Model

| member | source | states |
|---|---|---|
| Common.MapAllOk | intake_thorlabs/thorimage.py:175-188 | An append loop over elements succeeds exactly when every element parses. It then yields one entry per element, in order. |
| Common.MapAllFirstError | intake_thorlabs/thorimage.py:175-188 | A failing append loop reports the error of the first element that fails. |
| Common.MapAllPrefixError | intake_thorlabs/thorimage.py:175-188 | Once an element fails, the loop's outcome is that failure whatever follows. |
| Common.MapAllStep | intake_thorlabs/thorimage.py:177-181 | One loop iteration extends the list of a successful prefix by the new element's entry, or fails with its error. |
| Common.ItemSize | intake_thorlabs/thorimage.py:301-302 | The item size of the `<H` dtype is 2 bytes. |
| Text.ParseInt | intake_thorlabs/thorimage.py:64-68 | int() accepts exactly a non-empty digit string, optionally after one '+' or '-'. Its value is the decimal value of the digits, negated after '-'. |
| Text.ShowNatValue | intake_thorlabs/thorimage.py:64 | A natural number written in decimal reads back as itself. |
| Text.ParseShowInt | intake_thorlabs/thorimage.py:64-68 | int() of any integer's decimal text gives back that integer, negative ones included. |
| Text.ShowNat | intake_thorlabs/thorimage.py:64 | A natural number's decimal text is non-empty and all digits. |
| Text.Lower | intake_thorlabs/thorimage.py:76 | lower() keeps the length, maps each character on its own, and leaves no ASCII capital. |
| Text.Binary | intake_thorlabs/thorimage.py:159 | A number's binary digits are never empty. |
| Text.CountConcat | intake_thorlabs/thorimage.py:159 | Counting a character in a concatenation adds the counts of the two parts. |
| Text.BinaryOnes | intake_thorlabs/thorimage.py:159 | The '1's among the binary digits of n are the set bits of n. |
| Text.BinSliceOnes | intake_thorlabs/thorimage.py:159 | `bin(n)[2:].count("1")` is the popcount of abs(n); for negative n the leftover 'b' is not counted. |
| OrderedDict.Keys | intake_thorlabs/thorsync.py:114-115 | The column list has one key per entry, in entry order. |
| OrderedDict.IndexOf | intake_thorlabs/thorsync.py:107 | The first position of a present key holds that key, and no earlier position does. |
| OrderedDict.PutAbsent | intake_thorlabs/thorsync.py:107 | Assigning a key that is not present appends it at the end. |
| OrderedDict.PutPresent | intake_thorlabs/thorsync.py:107 | Assigning a present key replaces its entry in place, at its first position. |
| OrderedDict.PutSpec | intake_thorlabs/thorsync.py:107 | `d[k] = v` replaces the entry of a present key where it stands, and appends a new key. |
| OrderedDict.PutKeys | intake_thorlabs/thorsync.py:107 | After `d[k] = v` the keys are unchanged if k was present, else k is appended. |
| OrderedDict.PutAllStep | intake_thorlabs/thorsync.py:106-107 | One more loop iteration is one more assignment. |
| OrderedDict.PutAllSnoc | intake_thorlabs/thorsync.py:110-112 | Assigning one entry after a sequence is the assignment of the extended sequence. |
| OrderedDict.PutAllKeys | intake_thorlabs/thorsync.py:103-112 | A key is present after the loops exactly when it was present before or was assigned. |
| OrderedDict.PutAllDistinct | intake_thorlabs/thorsync.py:103-112 | A dict never repeats a key, whatever is assigned. |
| OrderedDict.DistinctPrefix | intake_thorlabs/thorsync.py:115 | A prefix of a repetition-free key list is repetition-free. |
| OrderedDict.PutAllFresh | intake_thorlabs/thorsync.py:103-112 | Assigning new, distinct keys appends the entries in order: the dict is the old entries followed by the new ones. |
| ThorImageMetadata.Averaging | intake_thorlabs/thorimage.py:129 | Averaging is 1 when averageMode is the text "0", otherwise int(averageNum); a missing averageMode is an error. |
| ThorImageMetadata.CaptureModeOf | intake_thorlabs/thorimage.py:68-73 | Mode 0 is a z-series and mode 1 a t-series (both directions); every other mode is an UnknownCaptureMode error carrying the mode. |
| ThorImageMetadata.ModalityOf | intake_thorlabs/thorimage.py:76-79 | The lower-cased name is accepted exactly when it is camera, multiphoton or confocal, each giving its own modality; otherwise an UnknownModality error carries the lower-cased name. |
| ThorImageMetadata.ReadBasicInfo | intake_thorlabs/thorimage.py:63-79 | The common part succeeds exactly when Software/@version is present, Date/@uTime is an integer, the mode maps to a capture mode and the Modality name to a modality. It then reports that version, that integer, and the mode and modality. |
| ThorImageMetadata.IntPair | intake_thorlabs/thorimage.py:124 | A pair of integer attributes is read only when both parse, and holds their values in the given order. |
| ThorImageMetadata.FieldOfView | intake_thorlabs/thorimage.py:126 | The size is (float(heightUM), float(widthUM)) and exists only when both parse. |
| ThorImageMetadata.Exposure | intake_thorlabs/thorimage.py:130 | The exposure in seconds times 1000 is the milliseconds, and it is zero exactly when they are. |
| ThorImageMetadata.CameraRate | intake_thorlabs/thorimage.py:131 | rate times exposure times averaging is 1. |
| ThorImageMetadata.ParseCamera | intake_thorlabs/thorimage.py:119-146 | The camera frame exists exactly when the Camera element has every attribute well formed and a non-zero exposure and averaging. Its shape is (height, width), dtype `<H`, channels 1, zoom 1. It has the averaging rule, an exposure of ms/1000, rate·exposure·averaging = 1, and binning (binningY, binningX). A missing Camera element is its own error. |
| ThorImageMetadata.ChannelCount | intake_thorlabs/thorimage.py:159 | The channel count is the number of set bits of the ChannelEnable mask (of its absolute value). |
| ThorImageMetadata.Zoom | intake_thorlabs/thorimage.py:160 | zoom times shape[0] is pixelY. |
| ThorImageMetadata.AveragedRate | intake_thorlabs/thorimage.py:162 | rate times averaging is the frame rate. |
| ThorImageMetadata.MultiphotonFrame | intake_thorlabs/thorimage.py:153-172 | The LSM frame exists exactly when every attribute it reads is well formed and pixelX and the averaging are non-zero. Its shape is (pixelX, pixelY), the reverse of the camera order. Its channels are the popcount of the enable mask, zoom·pixelX = pixelY, the averaging rule applies, rate·averaging = frameRate, and it has no exposure or binning. |
| ThorImageMetadata.PmtsAreFourInOrder | intake_thorlabs/thorimage.py:175-181 | A PMT list always has exactly four entries, the i-th read from letter "ABCD"[i], whatever the enable flags. |
| ThorImageMetadata.PmtEnabled | intake_thorlabs/thorimage.py:178 | A PMT is enabled exactly when its enable attribute is a non-zero integer. |
| ThorImageMetadata.PockelsInDocumentOrder | intake_thorlabs/thorimage.py:184-188 | The Pockels list exists exactly when every Pockels element has a well-formed start and stop. It then has one entry per element, in document order. |
| ThorImageMetadata.CaptureModeIsMapped | intake_thorlabs/thorimage.py:68-73 | A decoded record has mode 0 → z-series or 1 → t-series; a readable mode outside {0, 1} yields no record at all. |
| ThorImageMetadata.KeysFollowModality | intake_thorlabs/thorimage.py:81-89 | "frame" is a key exactly for camera and multiphoton; "PMTs" and "pockels" exactly for multiphoton. |
| ThorImageMetadata.DecodedModality | intake_thorlabs/thorimage.py:76-89 | The record's modality is the one the lower-cased Modality name maps to. |
| ThorImageMetadata.UnknownModalityRejected | intake_thorlabs/thorimage.py:77-78 | A modality name outside the three known ones yields no record. |
| ThorImageMetadata.MultiphotonRecordShape | intake_thorlabs/thorimage.py:175-188 | A multiphoton record has four PMTs and as many Pockels entries as the document has Pockels elements. |
| ThorImageMetadata.CameraExampleIntegers | intake_thorlabs/thorimage.py:124-132 | The example's Camera element reads as shape (512, 512), binning (1, 1) and averaging 1. |
| ThorImageMetadata.CameraExampleFrame | intake_thorlabs/thorimage.py:119-146 | A camera with a 50 ms exposure and averageMode 0, 512 x 512 pixels over 256 x 256 µm and binning 1: rate 20, exposure 0.05, averaging 1, shape (512, 512), binning (1, 1). |
| ThorImageMetadata.ExampleBasicInfo | intake_thorlabs/thorimage.py:63-79 | The example document's common part is software 4.0 and a z-series, with the modality its name maps to, or that name's error. |
| ThorImageMetadata.CameraExampleDecodes | intake_thorlabs/thorimage.py:57-90 | The whole camera example decodes to a z-series camera record with that frame. |
| ThorImageMetadata.GalvoExampleRejected | intake_thorlabs/thorimage.py:76-79 | The modality "Galvo" fails with UnknownModality("galvo"), and no record is made. |
| ThorImageMetadata.ParsePmts | intake_thorlabs/thorimage.py:175-181 | The PMT append loop computes the PMT list, stopping at the first bad attribute; on success it has four entries. |
| ThorImageMetadata.ParsePockelsList | intake_thorlabs/thorimage.py:184-188 | The Pockels append loop computes the Pockels list, one entry per element, stopping at the first bad element. |
| ThorImageMetadata.ParseMultiphoton | intake_thorlabs/thorimage.py:148-190 | `_parse_multiphoton` returns the frame, the PMTs and the Pockels list, read in that order. |
| ThorImageMetadata.Decode | intake_thorlabs/thorimage.py:57-90 | `to_dict` builds the record once, from the common part and the modality's branch. It returns exactly the decoded record or the first error. |
| ThorImageMetadata.ThorImageMetadataSource.constructor | intake_thorlabs/thorimage.py:42-51 | A new source has no resolved path and no schema. |
| ThorImageMetadata.ThorImageMetadataSource.GetSchema | intake_thorlabs/thorimage.py:98-117 | The path is resolved only while unknown; the schema records it, or a FileNotFound error names the input path. |
| ThorImageMetadata.ThorImageMetadataSource.LoadMetadata | intake_thorlabs/thorimage.py:52-55 | A cached schema is returned untouched; otherwise the schema is computed and cached on success. |
| ThorImageMetadata.ThorImageMetadataSource.ToDict | intake_thorlabs/thorimage.py:52-90 | With a cached schema, `to_dict` decodes the document and changes nothing. Otherwise the path is kept if known, else taken from the lookup. The schema then records that path and the document is decoded; with no path, the schema stays empty and the error is FileNotFound for the input path. |
| ThorImageArray.FloorDiv | intake_thorlabs/thorimage.py:304 | Python's `//`: q·b ≤ a < q·b + b for a positive divisor, the mirror image for a negative one. |
| ThorImageArray.FrameCount | intake_thorlabs/thorimage.py:302-304 | A zero frame size is a ZeroDivisionError. For a positive frame size, count·framesize ≤ filesize < (count+1)·framesize with count ≥ 0. |
| ThorImageArray.InferShape | intake_thorlabs/thorimage.py:294-304 | Confocal metadata has no frame (KeyError), and channels ≠ 1 is refused. Otherwise a zero frame size is a ZeroDivisionError, and a non-zero one gives exactly the shape (filesize // framesize, *frame.shape). |
| ThorImageArray.InferredFramesFitFile | intake_thorlabs/thorimage.py:294-304 | For a frame of 2-byte pixels, the inferred count is the number of whole frames in the file: trailing bytes are ignored. |
| ThorImageArray.DecodedFrameIsUInt16 | intake_thorlabs/thorimage.py:125 | Every decoded frame has the `<H` dtype. |
| ThorImageArray.TrailingBytesIgnored | intake_thorlabs/thorimage.py:304 | 100 frames of 512 x 512 pixels plus 37 bytes count as 100 frames. |
| ThorImageArray.ChunksArg | intake_thorlabs/thorimage.py:233 | None or 0 chunks means -1 (the whole axis); any other value is kept. |
| ThorImageArray.ResolveShape | intake_thorlabs/thorimage.py:294-307 | A given shape is used with no extra metadata. Without one, `to_dict`'s error is passed on, or its record and the inferred shape are used. |
| ThorImageArray.ThorImageArraySource.constructor | intake_thorlabs/thorimage.py:216-237 | A new source has the given shape and dtype, the normalised chunk argument, and no chunks, schema, memmap or array. |
| ThorImageArray.ThorImageArraySource.GetSchemaFromFiles | intake_thorlabs/thorimage.py:270-333 | An existing array gives the unbound-variable error. A shape error leaves the state alone. Otherwise the shape is stored. Chunks already set are kept; missing ones become one entry per axis, -1 except the leading one, which is the chunk argument. An empty shape ends in IndexError after chunks = []. The memmap, array and schema agree with the shape, dtype and chunks. |
| ThorImageArray.ThorImageArraySource.LoadMetadata | intake_thorlabs/thorimage.py:335-339 | A cached schema is returned with nothing changed. Otherwise a shape error is returned with nothing changed. With a shape, that shape is stored. Chunks already set are kept, and missing ones become the leading-axis chunk specification (chunks = [] and IndexError for an empty shape). The load succeeds exactly when it does not hit that IndexError. It then caches the schema (path, shape, dtype, chunks, and the record exactly when no shape was known) and builds the memmap and array from them. The state stays consistent. |
| ThorImageArray.ThorImageArraySource.Close | intake_thorlabs/thorimage.py:261-264 | `_close` resets the schema, the memmap and the array. |
| ThorImageArray.LoadGivenShape | intake_thorlabs/thorimage.py:261-287 | A source opened with shape (3, 4, 5) and chunks 2 loads without metadata, with chunks (2, -1, -1). |
| ThorImageArray.LoadCloseLoad | intake_thorlabs/thorimage.py:261-264 | Load, close, load: the second schema has the first one's shape and no metadata record. |
| ThorSync.BinarySet | intake_thorlabs/thorsync.py:66-68 | The binary set holds exactly the given names; None or an empty collection gives the empty set. |
| ThorSync.Clip | intake_thorlabs/thorsync.py:162 | `np.clip(x, 0, 1)` lies in [0, 1], keeps 0 and 1, sends negatives to 0 and values above 1 to 1. |
| ThorSync.ClipAll | intake_thorlabs/thorsync.py:162 | A clipped line keeps its length and every value is in {0, 1}. |
| ThorSync.ClipIdempotent | intake_thorlabs/thorsync.py:162 | Clipping twice is clipping once. |
| ThorSync.ClipKeepsBinaryLine | intake_thorlabs/thorsync.py:162 | A line already made of 0s and 1s is left as it is. |
| ThorSync.WrapInt32 | intake_thorlabs/thorsync.py:165 | `astype(np.int32)` gives the signed 32-bit value congruent mod 2^32, which is the value itself when it fits. |
| ThorSync.WidenAll | intake_thorlabs/thorsync.py:165 | A widened line keeps its length, fits in int32, and equals the input when the input fits. |
| ThorSync.AnalogNames | intake_thorlabs/thorsync.py:106 | The analog names in file order. |
| ThorSync.DigitalNames | intake_thorlabs/thorsync.py:110 | The digital names in file order. |
| ThorSync.DigitalColumn | intake_thorlabs/thorsync.py:157-166 | A binary line becomes a column of 0s and 1s: each sample is clipped, so values above 1 become 1 and negative values 0. Any other line becomes an int32 column: each sample wraps modulo 2^32, so values that fit are unchanged. |
| ThorSync.AnalogEntries | intake_thorlabs/thorsync.py:151-153 | Each analog line gives a column with its name, dtype and samples verbatim. |
| ThorSync.DigitalEntries | intake_thorlabs/thorsync.py:156-166 | Each digital line gives a column with its name and its converted samples. |
| ThorSync.MakeTable | intake_thorlabs/thorsync.py:168 | The data frame is built exactly when all columns have the first column's length. It keeps the columns in order, with that many rows; otherwise it is a length-mismatch error. |
| ThorSync.AnalogDTypes | intake_thorlabs/thorsync.py:106-107 | Each analog line gives a (name, dtype) entry. |
| ThorSync.BinaryDTypesStep | intake_thorlabs/thorsync.py:110-112 | One more digital line adds an int8 entry exactly when it is named binary. |
| ThorSync.BinaryDTypesKeys | intake_thorlabs/thorsync.py:110-112 | A digital name has a dtype entry exactly when it is named binary. |
| ThorSync.BinaryDTypesCount | intake_thorlabs/thorsync.py:110-112 | There are never more binary entries than digital lines, and as many exactly when every line is binary. |
| ThorSync.BinaryDTypesDistinct | intake_thorlabs/thorsync.py:110-112 | Filtering distinct digital names keeps them distinct from each other and from earlier names. |
| ThorSync.DTypesKeys | intake_thorlabs/thorsync.py:101-112 | The dtype table holds "time", every analog name, and exactly the binary digital names. |
| ThorSync.DTypesUnique | intake_thorlabs/thorsync.py:114-115 | The schema's columns never repeat. |
| ThorSync.DistinctSplit | intake_thorlabs/thorsync.py:115 | A name list whose extension is repetition-free is repetition-free. |
| ThorSync.DTypesLayout | intake_thorlabs/thorsync.py:101-115 | With distinct names, the dtype table is time (float64), then the analog dtypes in file order, then int8 for the binary digital lines in file order. |
| ThorSync.ColumnKeys | intake_thorlabs/thorsync.py:147-166 | The table has a column for time, every analog line and every digital line, and no other. |
| ThorSync.ColumnsUnique | intake_thorlabs/thorsync.py:147-168 | The table's column names never repeat. |
| ThorSync.ColumnsLayout | intake_thorlabs/thorsync.py:147-168 | With distinct names, the columns are time, the analog lines in file order, then the digital lines in file order. |
| ThorSync.TableNeedsAlignedLines | intake_thorlabs/thorsync.py:147-168 | With distinct names, the table is built exactly when every line is as long as the clock, and then has one row per tick. Otherwise it is a length mismatch. |
| ThorSync.SchemaColumnsMatchTable | intake_thorlabs/thorsync.py:101-115 | With distinct names, the schema has as many columns as the table exactly when every digital line is binary. |
| ThorSync.SchemaAndTableFailAlike | intake_thorlabs/thorsync.py:99-112 | The schema fails exactly when the clock, AI or DI is missing. Reading the table then fails with the same error. |
| ThorSync.SchemaShape | intake_thorlabs/thorsync.py:114-125 | The schema's shape is (clock length, column count), with the resolved path and distinct columns. |
| ThorSync.ThorSyncSource.constructor | intake_thorlabs/thorsync.py:45-60 | A new source has the binary set from its setter, the clock rate, and no path, schema or data frame. |
| ThorSync.ThorSyncSource.SetBinary | intake_thorlabs/thorsync.py:66-68 | The setter stores `set(val)` when val is non-empty, else the empty set. |
| ThorSync.ThorSyncSource.GetSchemaFromFile | intake_thorlabs/thorsync.py:86-125 | The known path is kept when it is non-empty and its file still exists. Otherwise the path is located afresh, and FileNotFound leaves it unchanged. The loops fill the dtype table, and the result is the schema of the file at the path used. |
| ThorSync.ThorSyncSource.LoadMetadata | intake_thorlabs/thorsync.py:127-129 | A cached schema is returned untouched. Otherwise the path is resolved as in `_get_schema`, the schema is computed and cached on success, and a failure leaves no schema. |
| ThorSync.ThorSyncSource.GetSchema | intake_thorlabs/thorsync.py:70-72 | `get_schema` loads the metadata, then returns a freshly built schema of the file at the resolved path. A path the load has just resolved is kept by the second resolution. |
| ThorSync.ThorSyncSource.ReadData | intake_thorlabs/thorsync.py:137-170 | The loops fill the data dictionary and the result is exactly the table of the file. |
| ThorSync.ThorSyncSource.LoadDataframe | intake_thorlabs/thorsync.py:131-170 | With a cached schema, the cached path is opened as it is. Its table is the result, or FileNotFound for that path when the path is empty or its file is gone. Otherwise the path is resolved as in `_get_schema`, and the schema is cached exactly when it builds. The result is then the table of the file at that path, or FileNotFound for the input path before anything is read. |
| ThorSync.ThorSyncSource.GetPartition | intake_thorlabs/thorsync.py:78-84 | A cached data frame is returned with nothing changed. Otherwise the table is loaded as in `_load_dataframe`, including its FileNotFound for a cached schema whose file is gone. It is cached on success, and the path and schema change as that load changes them. |
| ThorSync.ThorSyncSource.Close | intake_thorlabs/thorsync.py:74-76 | `_close` resets the schema and the data frame. |
| ThorSync.PartitionCachedUntilClose | intake_thorlabs/thorsync.py:74-84 | A second read is served from the cache even if the file changed. After `_close` the changed file is read. |

## Left out

- XML parsing (ElementTree) is not modelled: the document is already a map of attribute maps. Where an element appears more than once, `doc.find` takes the first.
- HDF5 access (h5py, fsspec) is not modelled: the file is a clock and two ordered lists of named lines. `reshape(-1)` is assumed done: samples are flat.
- Path resolution (`find_file`, `os.path.isdir`, `os.path.exists`, the file pattern) is kept abstract as parameters. `located` is the unique match or None, and a missing match is a FileNotFound error. For ThorSync, `present` is `os.path.exists` of the known path. `intake_thorlabs/common.py` is not part of this model.
- ThorImageArray.ThorImageArraySource: takes its raw-file path already resolved, and takes `to_dict`'s outcome for the Experiment.xml next to it as a parameter. The metadata source's own path lookup is in ThorImageMetadataSource.
- `os.stat(path).st_size` is a parameter `fileSize`.
- Floating point: float(), the sizes, exposure, rate, zoom, gains, Pockels start/stop and the time column are modelled as exact reals or kept symbolic. float64 rounding, inf and nan are not modelled. The time column keeps the ticks and the clock rate rather than their quotient.
- `datetime.fromtimestamp` is not modelled: it depends on the time zone. The record keeps the integer `uTime` behind "date". Its range errors (OverflowError, ValueError or OSError for a `uTime` outside the platform's range) are not modelled either, so ThorImageMetadata.ReadBasicInfo accepts every integer `uTime`.
- Python int() is modelled on an optional sign and ASCII digits only; spaces and underscores are not accepted. lower() is modelled on ASCII letters only.
- `np.prod` on int64 could overflow for huge frames; the model multiplies exact integers.
- numpy memmap and dask: the model records what they are built from, not what they read. `self.chunks = self._arr.chunks` (dask's resolved chunk tuples) is not modelled: the chunks stay the requested specification.
- `read`, `to_dask`, `to_memmap`, `read_partition`, and the array source's `_get_partition` (a dask block) are not modelled: they only hand out the lazy array or compute blocks.
- The intake `DataSource` base class is not modelled. Its `_load_metadata` is taken to compute `_get_schema` only while `_schema` is None, as the array and sync sources write out.
- ThorSync.ThorSyncSource.SetBinary: a bare string given as `binary` would be split into characters by `set(val)`; the model takes a sequence of names.
- Default argument values (`clock_rate`, patterns, dtype `<H`) are not modelled: every constructor takes its arguments explicitly.
- The test files and `setup.py` are not modelled: they need sample data on disk or only package the module.

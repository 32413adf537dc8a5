/** ThorImage's Experiment.xml decoder: the metadata record of one acquisition,
    whose fields depend on the capture mode and the imaging modality. */
module ThorImageMetadata {
  import opened Common
  import opened Text

  type Attrs = map<string, string>

  /** An Experiment.xml document reduced to what the decoder reads: the attribute map of
      the first element found for each tag or path ("Camera", "LSM",
      "Wavelengths/ChannelEnable", ...), and the attribute maps of all "Pockels"
      elements in document order. */
  datatype Document = Document(elements: map<string, Attrs>, pockels: seq<Attrs>)

  /** Python's float() on attribute text: None where float() raises. */
  type FloatParser = string -> Option<real>

  datatype CaptureMode = ZSeries | TSeries

  datatype Modality = Camera | Multiphoton | Confocal

  /** The "frame" entry. `exposure` and `binning` exist only for camera frames. */
  datatype Frame = Frame(
    name: string,
    shape: (int, int),
    dtype: DType,
    size: (real, real),
    channels: nat,
    zoom: real,
    averaging: int,
    rate: real,
    exposure: Option<real>,
    binning: Option<(int, int)>)

  datatype Pmt = Pmt(enabled: bool, gain: real)

  datatype Pockels = Pockels(start: real, stop: real)

  /** What the modality adds to the record: a frame for camera, a frame with PMTs and
      Pockels cells for multiphoton, nothing for confocal. */
  datatype Acquisition =
    | CameraAcquisition(frame: Frame)
    | MultiphotonAcquisition(frame: Frame, pmts: seq<Pmt>, pockels: seq<Pockels>)
    | ConfocalAcquisition

  /** The dictionary `to_dict` returns; `uTime` is the epoch-seconds value behind "date". */
  datatype Metadata = Metadata(
    softwareVersion: string,
    uTime: int,
    captureMode: CaptureMode,
    acquisition: Acquisition)

  function ModalityOfRecord(md: Metadata): Modality
  {
    match md.acquisition
    case CameraAcquisition(_) => Camera
    case MultiphotonAcquisition(_, _, _) => Multiphoton
    case ConfocalAcquisition => Confocal
  }

  /** The keys of the record, in the order `to_dict` inserts them. */
  function Keys(md: Metadata): seq<string>
  {
    ["software_version", "date", "capture_mode", "modality"] +
    match md.acquisition
    case CameraAcquisition(_) => ["frame"]
    case MultiphotonAcquisition(_, _, _) => ["frame", "PMTs", "pockels"]
    case ConfocalAcquisition => []
  }

  // ---- attribute access -------------------------------------------------------

  /** `doc.find(tag).attrib`. */
  function Element(doc: Document, tag: string): Result<Attrs>
  {
    if tag in doc.elements then Ok(doc.elements[tag]) else Err(MissingElement(tag))
  }

  /** `node[key]` on the attributes of element `tag`. */
  function Attribute(node: Attrs, tag: string, key: string): Result<string>
  {
    if key in node then Ok(node[key]) else Err(MissingAttribute(tag, key))
  }

  function IntOf(text: string): Result<int>
  {
    match ParseInt(text)
    case Some(n) => Ok(n)
    case None => Err(NotAnInteger(text))
  }

  function FloatOf(floatOf: FloatParser, text: string): Result<real>
  {
    match floatOf(text)
    case Some(x) => Ok(x)
    case None => Err(NotAFloat(text))
  }

  /** `int(node[key])`. */
  function IntAttribute(node: Attrs, tag: string, key: string): Result<int>
  {
    var text :- Attribute(node, tag, key);
    IntOf(text)
  }

  /** `float(node[key])`. */
  function FloatAttribute(floatOf: FloatParser, node: Attrs, tag: string, key: string): Result<real>
  {
    var text :- Attribute(node, tag, key);
    FloatOf(floatOf, text)
  }

  /** Frame averaging: 1 when "averageMode" is the text "0", otherwise int("averageNum"). */
  function Averaging(node: Attrs, tag: string): (r: Result<int>)
    ensures "averageMode" !in node ==> r == Err(MissingAttribute(tag, "averageMode"))
    ensures "averageMode" in node && node["averageMode"] == "0" ==> r == Ok(1)
    ensures "averageMode" in node && node["averageMode"] != "0" ==>
              r == IntAttribute(node, tag, "averageNum")
  {
    var mode :- Attribute(node, tag, "averageMode");
    if mode == "0" then Ok(1) else IntAttribute(node, tag, "averageNum")
  }

  // ---- capture mode and modality ----------------------------------------------

  /** 0 is a z-series and 1 a t-series; every other mode is rejected. */
  function CaptureModeOf(mode: int): (r: Result<CaptureMode>)
    ensures r == Ok(ZSeries) <==> mode == 0
    ensures r == Ok(TSeries) <==> mode == 1
    ensures r.Err? <==> mode != 0 && mode != 1
    ensures r.Err? ==> r.error == UnknownCaptureMode(mode)
  {
    if mode == 0 then Ok(ZSeries)
    else if mode == 1 then Ok(TSeries)
    else Err(UnknownCaptureMode(mode))
  }

  /** The lower-cased name must be one of the three known modalities. */
  function ModalityOf(name: string): (r: Result<Modality>)
    ensures r.Ok? <==> Lower(name) in {"camera", "multiphoton", "confocal"}
    ensures r == Ok(Camera) <==> Lower(name) == "camera"
    ensures r == Ok(Multiphoton) <==> Lower(name) == "multiphoton"
    ensures r == Ok(Confocal) <==> Lower(name) == "confocal"
    ensures r.Err? ==> r.error == UnknownModality(Lower(name))
  {
    var lowered := Lower(name);
    if lowered == "camera" then Ok(Camera)
    else if lowered == "multiphoton" then Ok(Multiphoton)
    else if lowered == "confocal" then Ok(Confocal)
    else Err(UnknownModality(lowered))
  }

  /** The integer "mode" attribute of the CaptureMode element. */
  function ModeValue(doc: Document): Result<int>
  {
    var node :- Element(doc, "CaptureMode");
    IntAttribute(node, "CaptureMode", "mode")
  }

  /** The "name" attribute of the Modality element. */
  function ModalityName(doc: Document): Result<string>
  {
    var node :- Element(doc, "Modality");
    Attribute(node, "Modality", "name")
  }

  datatype BasicInfo = BasicInfo(
    softwareVersion: string, uTime: int, captureMode: CaptureMode, modality: Modality)

  /** The common part of the record, read in the order the source reads it: software
      version, date, capture mode, modality. */
  function ReadBasicInfo(doc: Document): (r: Result<BasicInfo>)
    ensures r.Ok? <==>
              && "Software" in doc.elements && "version" in doc.elements["Software"]
              && "Date" in doc.elements && IntAttribute(doc.elements["Date"], "Date", "uTime").Ok?
              && ModeValue(doc).Ok? && CaptureModeOf(ModeValue(doc).value).Ok?
              && ModalityName(doc).Ok? && ModalityOf(ModalityName(doc).value).Ok?
    ensures r.Ok? ==> r.value.softwareVersion == doc.elements["Software"]["version"]
    ensures r.Ok? ==> IntAttribute(doc.elements["Date"], "Date", "uTime") == Ok(r.value.uTime)
    ensures r.Ok? ==> ModeValue(doc).Ok? && CaptureModeOf(ModeValue(doc).value) == Ok(r.value.captureMode)
    ensures r.Ok? ==> ModalityName(doc).Ok? && ModalityOf(ModalityName(doc).value) == Ok(r.value.modality)
  {
    var software :- Element(doc, "Software");
    var version :- Attribute(software, "Software", "version");
    var date :- Element(doc, "Date");
    var uTime :- IntAttribute(date, "Date", "uTime");
    var mode :- ModeValue(doc);
    var captureMode :- CaptureModeOf(mode);
    var name :- ModalityName(doc);
    var modality :- ModalityOf(name);
    Ok(BasicInfo(version, uTime, captureMode, modality))
  }

  /** Two integer attributes read one after the other, as a pair. */
  function IntPair(node: Attrs, tag: string, first: string, second: string): (r: Result<(int, int)>)
    ensures r.Ok? <==> IntAttribute(node, tag, first).Ok? && IntAttribute(node, tag, second).Ok?
    ensures r.Ok? ==> IntAttribute(node, tag, first) == Ok(r.value.0) &&
                      IntAttribute(node, tag, second) == Ok(r.value.1)
  {
    var a :- IntAttribute(node, tag, first);
    var b :- IntAttribute(node, tag, second);
    Ok((a, b))
  }

  /** The field of view in micrometers: float("heightUM"), then float("widthUM"). */
  function FieldOfView(floatOf: FloatParser, node: Attrs, tag: string): (r: Result<(real, real)>)
    ensures r.Ok? <==> FloatAttribute(floatOf, node, tag, "heightUM").Ok? &&
                       FloatAttribute(floatOf, node, tag, "widthUM").Ok?
    ensures r.Ok? ==> FloatAttribute(floatOf, node, tag, "heightUM") == Ok(r.value.0) &&
                      FloatAttribute(floatOf, node, tag, "widthUM") == Ok(r.value.1)
  {
    var h :- FloatAttribute(floatOf, node, tag, "heightUM");
    var w :- FloatAttribute(floatOf, node, tag, "widthUM");
    Ok((h, w))
  }

  // ---- camera ---------------------------------------------------------------

  /** `float(exposureTimeMS) / 1000`, in seconds. */
  function Exposure(milliseconds: real): (seconds: real)
    ensures seconds * 1000.0 == milliseconds
    ensures seconds == 0.0 <==> milliseconds == 0.0
  {
    milliseconds / 1000.0
  }

  /** Frames per second of a camera: one frame per exposure, divided by the averaging. */
  function CameraRate(exposure: real, averaging: int): (rate: real)
    requires exposure != 0.0 && averaging != 0
    ensures rate * exposure * (averaging as real) == 1.0
  {
    (1.0 / exposure) / (averaging as real)
  }

  /** Every attribute the camera branch reads is present and well formed, and neither
      the exposure nor the averaging is zero (they are divided by). */
  predicate CameraValid(node: Attrs, floatOf: FloatParser)
  {
    && "name" in node
    && IntPair(node, "Camera", "height", "width").Ok?
    && FieldOfView(floatOf, node, "Camera").Ok?
    && Averaging(node, "Camera").Ok? && Averaging(node, "Camera").value != 0
    && FloatAttribute(floatOf, node, "Camera", "exposureTimeMS").Ok?
    && FloatAttribute(floatOf, node, "Camera", "exposureTimeMS").value != 0.0
    && IntPair(node, "Camera", "binningY", "binningX").Ok?
  }

  /** `_parse_camera`: the frame of a camera acquisition, from the Camera element. */
  function ParseCamera(doc: Document, floatOf: FloatParser): (r: Result<Frame>)
    ensures "Camera" !in doc.elements ==> r == Err(MissingElement("Camera"))
    ensures r.Ok? <==> "Camera" in doc.elements && CameraValid(doc.elements["Camera"], floatOf)
    ensures r.Ok? ==>
      var node, f := doc.elements["Camera"], r.value;
      && f.name == node["name"]
      && IntPair(node, "Camera", "height", "width") == Ok(f.shape)
      && f.dtype == UInt16LE
      && FieldOfView(floatOf, node, "Camera") == Ok(f.size)
      && f.channels == 1 && f.zoom == 1.0
      && Averaging(node, "Camera") == Ok(f.averaging)
      && f.exposure.Some?
      && FloatAttribute(floatOf, node, "Camera", "exposureTimeMS") == Ok(f.exposure.value * 1000.0)
      && f.exposure.value != 0.0 && f.averaging != 0
      && f.rate == CameraRate(f.exposure.value, f.averaging)
      && f.binning.Some?
      && IntPair(node, "Camera", "binningY", "binningX") == Ok(f.binning.value)
  {
    var node :- Element(doc, "Camera");
    var name :- Attribute(node, "Camera", "name");
    var shape :- IntPair(node, "Camera", "height", "width");
    var size :- FieldOfView(floatOf, node, "Camera");
    var averaging :- Averaging(node, "Camera");
    var exposureMS :- FloatAttribute(floatOf, node, "Camera", "exposureTimeMS");
    var exposure := Exposure(exposureMS);
    if exposure == 0.0 || averaging == 0 then Err(DivisionByZero)
    else
      var rate := CameraRate(exposure, averaging);
      var binning :- IntPair(node, "Camera", "binningY", "binningX");
      Ok(Frame(name, shape, UInt16LE, size, 1, 1.0, averaging, rate, Some(exposure), Some(binning)))
  }

  // ---- multiphoton ------------------------------------------------------------

  /** The "Set" bitmask of the ChannelEnable element. */
  function EnableMask(doc: Document): Result<int>
  {
    var node :- Element(doc, "Wavelengths/ChannelEnable");
    IntAttribute(node, "Wavelengths/ChannelEnable", "Set")
  }

  /** `bin(mask)[2:].count("1")`, the number of enabled channels. */
  function ChannelCount(mask: int): (n: nat)
    ensures n == PopCount(if mask < 0 then -mask else mask)
  {
    BinSliceOnes(mask);
    Count(Bin(mask)[2..], '1')
  }

  /** `int(pixelY) / shape[0]`: the ratio of the two pixel counts. */
  function Zoom(pixelY: int, pixelX: int): (zoom: real)
    requires pixelX != 0
    ensures zoom * (pixelX as real) == pixelY as real
  {
    (pixelY as real) / (pixelX as real)
  }

  /** `float(frameRate) / averaging`. */
  function AveragedRate(frameRate: real, averaging: int): (rate: real)
    requires averaging != 0
    ensures rate * (averaging as real) == frameRate
  {
    frameRate / (averaging as real)
  }

  /** Every attribute the multiphoton frame reads is present and well formed, and
      neither pixelX nor the averaging is zero (they are divided by). */
  predicate LsmValid(doc: Document, floatOf: FloatParser)
  {
    && "LSM" in doc.elements
    && var node := doc.elements["LSM"];
    && "name" in node
    && IntPair(node, "LSM", "pixelX", "pixelY").Ok?
    && IntPair(node, "LSM", "pixelX", "pixelY").value.0 != 0
    && FieldOfView(floatOf, node, "LSM").Ok?
    && EnableMask(doc).Ok?
    && Averaging(node, "LSM").Ok? && Averaging(node, "LSM").value != 0
    && FloatAttribute(floatOf, node, "LSM", "frameRate").Ok?
  }

  /** The frame part of `_parse_multiphoton`, from the LSM element. Its shape is
      (pixelX, pixelY), the reverse of the camera's (height, width). */
  function MultiphotonFrame(doc: Document, floatOf: FloatParser): (r: Result<Frame>)
    ensures "LSM" !in doc.elements ==> r == Err(MissingElement("LSM"))
    ensures r.Ok? <==> LsmValid(doc, floatOf)
    ensures r.Ok? ==>
      var node, f := doc.elements["LSM"], r.value;
      && f.name == node["name"]
      && IntPair(node, "LSM", "pixelX", "pixelY") == Ok(f.shape)
      && f.dtype == UInt16LE
      && FieldOfView(floatOf, node, "LSM") == Ok(f.size)
      && EnableMask(doc).Ok? && f.channels == ChannelCount(EnableMask(doc).value)
      && f.shape.0 != 0 && f.zoom == Zoom(f.shape.1, f.shape.0)
      && Averaging(node, "LSM") == Ok(f.averaging) && f.averaging != 0
      && FloatAttribute(floatOf, node, "LSM", "frameRate").Ok?
      && f.rate == AveragedRate(FloatAttribute(floatOf, node, "LSM", "frameRate").value, f.averaging)
      && f.exposure.None? && f.binning.None?
  {
    var node :- Element(doc, "LSM");
    var name :- Attribute(node, "LSM", "name");
    var shape :- IntPair(node, "LSM", "pixelX", "pixelY");
    var size :- FieldOfView(floatOf, node, "LSM");
    var mask :- EnableMask(doc);
    var channels := ChannelCount(mask);
    if shape.0 == 0 then Err(DivisionByZero)
    else
      var zoom := Zoom(shape.1, shape.0);
      var averaging :- Averaging(node, "LSM");
      var frameRate :- FloatAttribute(floatOf, node, "LSM", "frameRate");
      if averaging == 0 then Err(DivisionByZero)
      else Ok(Frame(name, shape, UInt16LE, size, channels, zoom, averaging,
                    AveragedRate(frameRate, averaging), None, None))
  }

  const PmtLetters: string := "ABCD"

  /** One PMT entry: `enable<L>` as a boolean (a non-zero integer) and `gain<L>`. */
  function ParsePmt(floatOf: FloatParser, node: Attrs, letter: char): Result<Pmt>
  {
    var enable :- IntAttribute(node, "PMT", "enable" + [letter]);
    var gain :- FloatAttribute(floatOf, node, "PMT", "gain" + [letter]);
    Ok(Pmt(enable != 0, gain))
  }

  /** The PMT list: one entry per letter A to D, whatever the enable flags say. */
  function PmtsOf(doc: Document, floatOf: FloatParser): Result<seq<Pmt>>
  {
    var node :- Element(doc, "PMT");
    MapAll(letter => ParsePmt(floatOf, node, letter), PmtLetters)
  }

  function ParsePockels(floatOf: FloatParser, node: Attrs): Result<Pockels>
  {
    var start :- FloatAttribute(floatOf, node, "Pockels", "start");
    var stop :- FloatAttribute(floatOf, node, "Pockels", "stop");
    Ok(Pockels(start, stop))
  }

  /** The Pockels list: one entry per Pockels element, in document order. */
  function PockelsOf(doc: Document, floatOf: FloatParser): Result<seq<Pockels>>
  {
    MapAll(node => ParsePockels(floatOf, node), doc.pockels)
  }

  /** `_parse_multiphoton`: frame, PMTs and Pockels, read in that order. */
  function MultiphotonOf(doc: Document, floatOf: FloatParser): Result<Acquisition>
  {
    var frame :- MultiphotonFrame(doc, floatOf);
    var pmts :- PmtsOf(doc, floatOf);
    var pockels :- PockelsOf(doc, floatOf);
    Ok(MultiphotonAcquisition(frame, pmts, pockels))
  }

  /** Whatever the enable flags, a multiphoton record has exactly four PMTs, the i-th read
      from the attributes of letter "ABCD"[i]. */
  lemma PmtsAreFourInOrder(doc: Document, floatOf: FloatParser)
    requires PmtsOf(doc, floatOf).Ok?
    ensures "PMT" in doc.elements
    ensures |PmtsOf(doc, floatOf).value| == 4
    ensures forall i :: 0 <= i < 4 ==>
              ParsePmt(floatOf, doc.elements["PMT"], PmtLetters[i]) == Ok(PmtsOf(doc, floatOf).value[i])
  {
    var node := doc.elements["PMT"];
    MapAllOk(letter => ParsePmt(floatOf, node, letter), PmtLetters);
  }

  /** The PMT entry of letter L is enabled exactly when int("enable" + L) is non-zero. */
  lemma PmtEnabled(doc: Document, floatOf: FloatParser, i: nat)
    requires PmtsOf(doc, floatOf).Ok? && i < 4
    ensures "PMT" in doc.elements
    ensures IntAttribute(doc.elements["PMT"], "PMT", "enable" + [PmtLetters[i]]).Ok?
    ensures |PmtsOf(doc, floatOf).value| == 4
    ensures PmtsOf(doc, floatOf).value[i].enabled <==>
              IntAttribute(doc.elements["PMT"], "PMT", "enable" + [PmtLetters[i]]).value != 0
  {
    PmtsAreFourInOrder(doc, floatOf);
  }

  /** The Pockels list has one entry per Pockels element, in document order, and it is
      produced exactly when every element has a well-formed start and stop. */
  lemma PockelsInDocumentOrder(doc: Document, floatOf: FloatParser)
    ensures PockelsOf(doc, floatOf).Ok? <==>
              forall i :: 0 <= i < |doc.pockels| ==> ParsePockels(floatOf, doc.pockels[i]).Ok?
    ensures PockelsOf(doc, floatOf).Ok? ==>
              |PockelsOf(doc, floatOf).value| == |doc.pockels| &&
              forall i :: 0 <= i < |doc.pockels| ==>
                ParsePockels(floatOf, doc.pockels[i]) == Ok(PockelsOf(doc, floatOf).value[i])
  {
    MapAllOk(node => ParsePockels(floatOf, node), doc.pockels);
  }

  // ---- the whole record ---------------------------------------------------------

  function AcquisitionOf(modality: Modality, doc: Document, floatOf: FloatParser): Result<Acquisition>
  {
    match modality
    case Camera =>
      var frame :- ParseCamera(doc, floatOf);
      Ok(CameraAcquisition(frame))
    case Multiphoton => MultiphotonOf(doc, floatOf)
    case Confocal => Ok(ConfocalAcquisition)
  }

  /** `to_dict`, as a function of the document. */
  function DecodeExperiment(doc: Document, floatOf: FloatParser): Result<Metadata>
  {
    var info :- ReadBasicInfo(doc);
    var acquisition :- AcquisitionOf(info.modality, doc, floatOf);
    Ok(Metadata(info.softwareVersion, info.uTime, info.captureMode, acquisition))
  }

  /** A decoded record's capture mode is 0 -> z-series, 1 -> t-series; a readable mode
      outside {0, 1} rejects the whole document. */
  lemma CaptureModeIsMapped(doc: Document, floatOf: FloatParser)
    ensures DecodeExperiment(doc, floatOf).Ok? ==>
              && ModeValue(doc).Ok?
              && (ModeValue(doc).value == 0 ==> DecodeExperiment(doc, floatOf).value.captureMode == ZSeries)
              && (ModeValue(doc).value == 1 ==> DecodeExperiment(doc, floatOf).value.captureMode == TSeries)
              && (ModeValue(doc).value == 0 || ModeValue(doc).value == 1)
    ensures ModeValue(doc).Ok? && ModeValue(doc).value != 0 && ModeValue(doc).value != 1 ==>
              DecodeExperiment(doc, floatOf).Err?
  {
  }

  /** The modality alone decides which keys the record has: confocal adds none of
      "frame", "PMTs", "pockels"; camera adds "frame"; multiphoton adds all three. */
  lemma KeysFollowModality(md: Metadata)
    ensures "frame" in Keys(md) <==> ModalityOfRecord(md) != Confocal
    ensures "PMTs" in Keys(md) <==> ModalityOfRecord(md) == Multiphoton
    ensures "pockels" in Keys(md) <==> ModalityOfRecord(md) == Multiphoton
  {
    var k := Keys(md);
    assert k[..4] == ["software_version", "date", "capture_mode", "modality"];
    assert "frame" !in k[..4] && "PMTs" !in k[..4] && "pockels" !in k[..4];
    assert k == k[..4] + k[4..];
  }

  /** The record's modality is the lower-cased Modality name of the document. */
  lemma DecodedModality(doc: Document, floatOf: FloatParser)
    requires DecodeExperiment(doc, floatOf).Ok?
    ensures ModalityName(doc).Ok?
    ensures ModalityOf(ModalityName(doc).value) == Ok(ModalityOfRecord(DecodeExperiment(doc, floatOf).value))
  {
  }

  /** An unknown modality name rejects the document: no record is produced. */
  lemma UnknownModalityRejected(doc: Document, floatOf: FloatParser)
    requires ModalityName(doc).Ok?
    requires Lower(ModalityName(doc).value) !in {"camera", "multiphoton", "confocal"}
    ensures DecodeExperiment(doc, floatOf).Err?
  {
  }

  /** A multiphoton record carries exactly four PMTs and one Pockels entry per element. */
  lemma MultiphotonRecordShape(doc: Document, floatOf: FloatParser)
    requires DecodeExperiment(doc, floatOf).Ok?
    requires ModalityOfRecord(DecodeExperiment(doc, floatOf).value) == Multiphoton
    ensures var a := DecodeExperiment(doc, floatOf).value.acquisition;
      |a.pmts| == 4 && |a.pockels| == |doc.pockels|
  {
    PmtsAreFourInOrder(doc, floatOf);
    PockelsInDocumentOrder(doc, floatOf);
  }

  // ---- worked examples ---------------------------------------------------------

  /** An experiment document whose only varying part is the modality name and the Camera
      element: mode 0, no averaging, 50 ms exposure, 512 x 512 pixels over 256 x 256
      micrometres, no binning. */
  function ExampleDocument(modality: string): Document
  {
    Document(
      map[
        "Software" := map["version" := "4.0"],
        "Date" := map["uTime" := "1600000000"],
        "CaptureMode" := map["mode" := "0"],
        "Modality" := map["name" := modality],
        "Camera" := map[
          "name" := "cam", "height" := "512", "width" := "512",
          "heightUM" := "256", "widthUM" := "256", "averageMode" := "0",
          "exposureTimeMS" := "50", "binningX" := "1", "binningY" := "1"]],
      [])
  }

  /** The integer attributes of the example's Camera element. */
  lemma CameraExampleIntegers()
    ensures var node := ExampleDocument("Camera").elements["Camera"];
      && IntPair(node, "Camera", "height", "width") == Ok((512, 512))
      && IntPair(node, "Camera", "binningY", "binningX") == Ok((1, 1))
      && Averaging(node, "Camera") == Ok(1)
  {
    assert "512"[..2] == "51" && "51"[..1] == "5" && "1"[..0] == "";
    assert DigitsValue("5") == 5 && DigitsValue("51") == 51 && DigitsValue("512") == 512;
    assert DigitsValue("1") == 1;
  }

  /** The Camera element of the example alone yields that frame. */
  lemma CameraExampleFrame(floatOf: FloatParser)
    requires floatOf("50") == Some(50.0) && floatOf("256") == Some(256.0)
    ensures var r := ParseCamera(ExampleDocument("Camera"), floatOf);
      && r.Ok? && r.value.rate == 20.0 && r.value.exposure == Some(0.05) && r.value.averaging == 1
      && r.value.shape == (512, 512) && r.value.size == (256.0, 256.0) && r.value.binning == Some((1, 1))
  {
    var node := ExampleDocument("Camera").elements["Camera"];
    CameraExampleIntegers();
    assert FieldOfView(floatOf, node, "Camera") == Ok((256.0, 256.0));
    assert FloatAttribute(floatOf, node, "Camera", "exposureTimeMS") == Ok(50.0);
    assert CameraValid(node, floatOf);
    var f := ParseCamera(ExampleDocument("Camera"), floatOf).value;
    assert f.exposure.value * 1000.0 == 50.0;
    assert f.exposure.value == 0.05;
    assert CameraRate(0.05, 1) == 20.0;
  }

  /** The common part of the example: software 4.0, a z-series. */
  lemma ExampleBasicInfo(modality: string)
    ensures var r := ReadBasicInfo(ExampleDocument(modality));
            match ModalityOf(modality)
            case Ok(m) => r.Ok? && r.value.softwareVersion == "4.0" && r.value.captureMode == ZSeries &&
                          r.value.modality == m
            case Err(e) => r == Err(e)
  {
    assert "0"[..0] == "";
    assert DigitsValue("0") == 0;
  }

  /** The camera example decodes to a z-series frame of 512 x 512 pixels taken at 20
      frames per second with a 0.05 s exposure and no averaging. */
  lemma CameraExampleDecodes(floatOf: FloatParser)
    requires floatOf("50") == Some(50.0) && floatOf("256") == Some(256.0)
    ensures var r := DecodeExperiment(ExampleDocument("Camera"), floatOf);
      && r.Ok? && r.value.captureMode == ZSeries && r.value.acquisition.CameraAcquisition?
      && var f := r.value.acquisition.frame;
         && f.rate == 20.0 && f.exposure == Some(0.05) && f.averaging == 1
         && f.shape == (512, 512) && f.size == (256.0, 256.0) && f.binning == Some((1, 1))
  {
    assert forall i :: 0 <= i < 6 ==> Lower("Camera")[i] == "camera"[i];
    ExampleBasicInfo("Camera");
    CameraExampleFrame(floatOf);
  }

  /** An unknown modality is rejected with its lower-cased name, and no record is made. */
  lemma GalvoExampleRejected(floatOf: FloatParser)
    ensures DecodeExperiment(ExampleDocument("Galvo"), floatOf) == Err(UnknownModality("galvo"))
  {
    assert forall i :: 0 <= i < 5 ==> Lower("Galvo")[i] == "galvo"[i];
    ExampleBasicInfo("Galvo");
  }

  // ---- the imperative decoder -------------------------------------------------

  /** The PMT loop of `_parse_multiphoton`. */
  method ParsePmts(doc: Document, floatOf: FloatParser) returns (r: Result<seq<Pmt>>)
    ensures r == PmtsOf(doc, floatOf)
    ensures r.Ok? ==> |r.value| == 4
  {
    if "PMT" !in doc.elements {
      return Err(MissingElement("PMT"));
    }
    var node := doc.elements["PMT"];
    ghost var f := letter => ParsePmt(floatOf, node, letter);
    var pmts: seq<Pmt> := [];
    for i := 0 to |PmtLetters|
      invariant MapAll(f, PmtLetters[..i]) == Ok(pmts)
    {
      MapAllStep(f, PmtLetters, i);
      var pmt := ParsePmt(floatOf, node, PmtLetters[i]);
      if pmt.Err? {
        MapAllPrefixError(f, PmtLetters, i + 1);
        return Err(pmt.error);
      }
      pmts := pmts + [pmt.value];
    }
    assert PmtLetters[..|PmtLetters|] == PmtLetters;
    r := Ok(pmts);
    MapAllOk(f, PmtLetters);
  }

  /** The Pockels loop of `_parse_multiphoton`. */
  method ParsePockelsList(doc: Document, floatOf: FloatParser) returns (r: Result<seq<Pockels>>)
    ensures r == PockelsOf(doc, floatOf)
    ensures r.Ok? ==> |r.value| == |doc.pockels|
  {
    ghost var f := node => ParsePockels(floatOf, node);
    var nodes := doc.pockels;
    var pockels: seq<Pockels> := [];
    for i := 0 to |nodes|
      invariant MapAll(f, nodes[..i]) == Ok(pockels)
    {
      MapAllStep(f, nodes, i);
      var pock := ParsePockels(floatOf, nodes[i]);
      if pock.Err? {
        MapAllPrefixError(f, nodes, i + 1);
        return Err(pock.error);
      }
      pockels := pockels + [pock.value];
    }
    assert nodes[..|nodes|] == nodes;
    r := Ok(pockels);
    MapAllOk(f, nodes);
  }

  /** `_parse_multiphoton`. */
  method ParseMultiphoton(doc: Document, floatOf: FloatParser) returns (r: Result<Acquisition>)
    ensures r == MultiphotonOf(doc, floatOf)
  {
    var frame :- MultiphotonFrame(doc, floatOf);
    var pmts :- ParsePmts(doc, floatOf);
    var pockels :- ParsePockelsList(doc, floatOf);
    r := Ok(MultiphotonAcquisition(frame, pmts, pockels));
  }

  /** The record `to_dict` builds once, from the common part and the modality's branch. */
  method Decode(doc: Document, floatOf: FloatParser) returns (r: Result<Metadata>)
    ensures r == DecodeExperiment(doc, floatOf)
  {
    var info :- ReadBasicInfo(doc);
    var acquisition: Acquisition;
    match info.modality {
      case Camera =>
        var frame :- ParseCamera(doc, floatOf);
        acquisition := CameraAcquisition(frame);
      case Multiphoton =>
        acquisition :- ParseMultiphoton(doc, floatOf);
      case Confocal =>
        acquisition := ConfocalAcquisition;
    }
    r := Ok(Metadata(info.softwareVersion, info.uTime, info.captureMode, acquisition));
  }

  /** The resolved location of Experiment.xml, as `_get_schema` records it. */
  datatype MetadataSchema = MetadataSchema(path: string)

  /** `ThorImageMetadataSource`: caches the resolved path and the schema. */
  class ThorImageMetadataSource {
    const inputPath: string
    var path: Option<string>
    var schema: Option<MetadataSchema>

    constructor (inputPath: string)
      ensures this.inputPath == inputPath && path == None && schema == None
    {
      this.inputPath := inputPath;
      path := None;
      schema := None;
    }

    /** `_get_schema`: the path is resolved only while it is unknown. `located` is what
        path resolution answers (None when no unique file matches). */
    method GetSchema(located: Option<string>) returns (r: Result<MetadataSchema>)
      modifies this`path
      ensures path == if old(path).Some? then old(path) else located
      ensures r == if path.Some? then Ok(MetadataSchema(path.value)) else Err(FileNotFound(inputPath))
    {
      if path.None? {
        if located.None? {
          return Err(FileNotFound(inputPath));
        }
        path := located;
      }
      r := Ok(MetadataSchema(path.value));
    }

    /** `_load_metadata`: the schema is computed only while none is cached. */
    method LoadMetadata(located: Option<string>) returns (r: Result<MetadataSchema>)
      modifies this`path, this`schema
      ensures old(schema).Some? ==> r == Ok(old(schema).value) && schema == old(schema) && path == old(path)
      ensures old(schema).None? ==>
                path == (if old(path).Some? then old(path) else located) &&
                r == (if path.Some? then Ok(MetadataSchema(path.value)) else Err(FileNotFound(inputPath))) &&
                schema == (if r.Ok? then Some(r.value) else None)
    {
      if schema.Some? {
        return Ok(schema.value);
      }
      r := GetSchema(located);
      if r.Ok? {
        schema := Some(r.value);
      }
    }

    /** `to_dict`: loads the schema, then decodes `doc`, the document at its path. */
    method ToDict(located: Option<string>, doc: Document, floatOf: FloatParser) returns (r: Result<Metadata>)
      modifies this`path, this`schema
      ensures old(schema).Some? ==>
                r == DecodeExperiment(doc, floatOf) && schema == old(schema) && path == old(path)
      ensures old(schema).None? ==>
                && path == (if old(path).Some? then old(path) else located)
                && schema == (if path.Some? then Some(MetadataSchema(path.value)) else None)
                && r == (if path.Some? then DecodeExperiment(doc, floatOf) else Err(FileNotFound(inputPath)))
    {
      var loaded :- LoadMetadata(located);
      r := Decode(doc, floatOf);
    }
  }
}

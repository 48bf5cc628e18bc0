/**
 * The Batched 3D Model reader of `b3dm.cpp`: a 28-byte header, the feature table (JSON and binary),
 * the batch table (JSON and binary) and the glTF that follows, read one after another from a device
 * with a read cursor.
 *
 * The layout is the one of the "Batched 3D Model" chapter of OGC 3D Tiles 1.0: the 4-byte magic
 * "b3dm", then six little-endian `uint32` fields (version, byteLength, featureTableJSONByteLength,
 * featureTableBinaryByteLength, batchTableJSONByteLength, batchTableBinaryByteLength), then the
 * four table sections in that order, then the binary glTF up to `byteLength`.
 */
module B3dmReader {
  import opened Wrappers

  type byte = x: int | 0 <= x < 256

  const HeaderSize := 28
  const Two31 := 0x8000_0000
  const Two32 := 0x1_0000_0000
  const Two63 := 0x8000_0000_0000_0000
  const Two64 := 0x1_0000_0000_0000_0000

  /** The ASCII bytes of "b3dm". */
  const Magic: seq<byte> := [98, 51, 100, 109]

  function Min(a: int, b: int): int {
    if a <= b then a else b
  }

  // ---------------------------------------------------------------------------------------------
  // Little-endian words

  /** The power of 256 one past the largest value of `n` little-endian bytes. */
  function ByteBound(n: nat): (b: nat)
    ensures b >= 1
  {
    if n == 0 then 1 else 256 * ByteBound(n - 1)
  }

  /** The unsigned value of bytes stored least significant first. */
  function LittleEndian(b: seq<byte>): (v: nat)
    ensures v < ByteBound(|b|)
  {
    if |b| == 0 then 0 else b[0] + 256 * LittleEndian(b[1..])
  }

  /** The `uint32` stored little-endian at `i`, as the x86 build reads it. */
  function U32At(s: seq<byte>, i: nat): (v: nat)
    requires i + 4 <= |s|
    ensures v < Two32
  {
    assert ByteBound(4) == Two32;
    LittleEndian(s[i..i + 4])
  }

  /** The `n` bytes of `v`, least significant first (the higher digits of `v` are dropped). */
  function LittleEndianBytes(v: nat, n: nat): (s: seq<byte>)
    ensures |s| == n
  {
    if n == 0 then [] else [v % 256] + LittleEndianBytes(v / 256, n - 1)
  }

  /** Writing a value below `256^n` as `n` bytes and reading them back gives the value. */
  lemma {:induction false} LittleEndianRoundTrip(v: nat, n: nat)
    requires v < ByteBound(n)
    ensures LittleEndian(LittleEndianBytes(v, n)) == v
  {
    if n > 0 {
      var s := LittleEndianBytes(v, n);
      assert v / 256 < ByteBound(n - 1);
      LittleEndianRoundTrip(v / 256, n - 1);
      assert s[1..] == LittleEndianBytes(v / 256, n - 1);
    }
  }

  /** A `uint32` as the four bytes the x86 build stores. */
  function U32Bytes(v: nat): (s: seq<byte>)
    requires v < Two32
    ensures |s| == 4
  {
    LittleEndianBytes(v, 4)
  }

  lemma U32RoundTrip(v: nat)
    requires v < Two32
    ensures U32At(U32Bytes(v), 0) == v
  {
    assert ByteBound(4) == Two32;
    LittleEndianRoundTrip(v, 4);
    assert U32Bytes(v)[0..4] == U32Bytes(v);
  }

  // ---------------------------------------------------------------------------------------------
  // The header

  /** `B3dm::Header`. */
  datatype Header = Header(
    magic: seq<byte>, version: nat, byteLength: nat,
    featureTableJsonByteLength: nat, featureTableBinaryByteLength: nat,
    batchTableJsonByteLength: nat, batchTableBinaryByteLength: nat)

  predicate WellFormedHeader(h: Header) {
    |h.magic| == 4 && h.version < Two32 && h.byteLength < Two32
    && h.featureTableJsonByteLength < Two32 && h.featureTableBinaryByteLength < Two32
    && h.batchTableJsonByteLength < Two32 && h.batchTableBinaryByteLength < Two32
  }

  /** The struct laid over its 28 bytes. */
  function DecodeHeader(raw: seq<byte>): (h: Header)
    requires |raw| == HeaderSize
    ensures WellFormedHeader(h) && h.magic == raw[..4]
  {
    Header(raw[..4], U32At(raw, 4), U32At(raw, 8), U32At(raw, 12), U32At(raw, 16), U32At(raw, 20), U32At(raw, 24))
  }

  function EncodeHeader(h: Header): (raw: seq<byte>)
    requires WellFormedHeader(h)
    ensures |raw| == HeaderSize
  {
    h.magic + U32Bytes(h.version) + U32Bytes(h.byteLength)
    + U32Bytes(h.featureTableJsonByteLength) + U32Bytes(h.featureTableBinaryByteLength)
    + U32Bytes(h.batchTableJsonByteLength) + U32Bytes(h.batchTableBinaryByteLength)
  }

  lemma U32InHeader(raw: seq<byte>, i: nat, v: nat)
    requires i + 4 <= |raw| && v < Two32 && raw[i..i + 4] == U32Bytes(v)
    ensures U32At(raw, i) == v
  {
    U32RoundTrip(v);
    assert U32Bytes(v)[0..4] == U32Bytes(v);
  }

  /** Reading back the bytes of a header gives the header. */
  lemma HeaderRoundTrip(h: Header)
    requires WellFormedHeader(h)
    ensures DecodeHeader(EncodeHeader(h)) == h
  {
    var raw := EncodeHeader(h);
    assert raw[..4] == h.magic;
    assert raw[4..8] == U32Bytes(h.version);
    assert raw[8..12] == U32Bytes(h.byteLength);
    assert raw[12..16] == U32Bytes(h.featureTableJsonByteLength);
    assert raw[16..20] == U32Bytes(h.featureTableBinaryByteLength);
    assert raw[20..24] == U32Bytes(h.batchTableJsonByteLength);
    assert raw[24..28] == U32Bytes(h.batchTableBinaryByteLength);
    U32InHeader(raw, 4, h.version);
    U32InHeader(raw, 8, h.byteLength);
    U32InHeader(raw, 12, h.featureTableJsonByteLength);
    U32InHeader(raw, 16, h.featureTableBinaryByteLength);
    U32InHeader(raw, 20, h.batchTableJsonByteLength);
    U32InHeader(raw, 24, h.batchTableBinaryByteLength);
  }

  // ---------------------------------------------------------------------------------------------
  // Integer conversions of the source

  /** `(int)` of a `uint32`: values from 2^31 on become negative. */
  function Int32(v: nat): (r: int)
    requires v < Two32
    ensures v < Two31 ==> r == v
    ensures v >= Two31 ==> r < 0
  {
    if v < Two31 then v else v - Two32
  }

  /**
   * A subtraction chain in `size_t` (it starts from `byteLength - sizeof(Header)`) passed to
   * `QIODevice::read(qint64)`: the difference modulo 2^64, read as a signed 64-bit count.
   */
  function ReadCount(difference: int): (r: int)
    ensures 0 <= difference < Two63 ==> r == difference
    ensures -Two63 <= difference < 0 ==> r == difference
  {
    var wrapped := difference % Two64;
    if wrapped < Two63 then wrapped else wrapped - Two64
  }

  /** The glTF length as written: the feature-table binary is subtracted twice, the batch-table binary never. */
  function GltfLengthAsWritten(h: Header): (r: int)
    ensures WellFormedHeader(h) ==>
      r == GltfLength(h) + h.batchTableBinaryByteLength - h.featureTableBinaryByteLength
  {
    ReadCount(h.byteLength - HeaderSize - h.batchTableJsonByteLength - h.featureTableBinaryByteLength
              - h.featureTableBinaryByteLength - h.featureTableJsonByteLength)
  }

  /** The glTF length the layout gives: everything after the four table sections. */
  function GltfLength(h: Header): (r: int)
    ensures WellFormedHeader(h) ==> (r == h.byteLength - HeaderSize - h.featureTableJsonByteLength
      - h.featureTableBinaryByteLength - h.batchTableJsonByteLength - h.batchTableBinaryByteLength)
  {
    ReadCount(h.byteLength - HeaderSize - h.featureTableJsonByteLength - h.featureTableBinaryByteLength
              - h.batchTableJsonByteLength - h.batchTableBinaryByteLength)
  }

  // ---------------------------------------------------------------------------------------------
  // JSON values and the feature table

  /**
   * A JSON value as `QJsonValue` sees it; a missing key is `JUndefined`. A number with an integral
   * value is a `JInteger`, any other number a `JNumber`.
   */
  datatype JsonValue =
    | JInteger(i: int)
    | JNumber(n: real)
    | JArray(items: seq<JsonValue>)
    | JObject(fields: map<string, JsonValue>)
    | JUndefined
    | JOther

  function Get(obj: map<string, JsonValue>, key: string): JsonValue {
    if key in obj then obj[key] else JUndefined
  }

  /** `QJsonValue::toDouble()`: a number's value, else 0. */
  function ToDouble(v: JsonValue): real {
    match v
    case JInteger(i) => i as real
    case JNumber(n) => n
    case _ => 0.0
  }

  /** `QJsonValue::toInt()`: an integral number in the `int` range, else 0. */
  function ToInt(v: JsonValue): (r: int)
    ensures -Two31 <= r < Two31
    ensures v.JInteger? && -Two31 <= v.i < Two31 ==> r == v.i
  {
    if v.JInteger? && -Two31 <= v.i < Two31 then v.i else 0
  }

  /** `(uint)` of an `int`. */
  function ToUint(i: int): (r: nat)
    requires -Two31 <= i < Two31
    ensures r < Two32 && (0 <= i ==> r == i) && (i < 0 ==> r == i + Two32)
  {
    if i < 0 then i + Two32 else i
  }

  /** `FeatureTable`: the batch length and the RTC centre. */
  datatype FeatureTable = FeatureTable(batchLength: nat, rtcCenter: (real, real, real))

  /** `FeatureTable()`. */
  const DefaultFeatureTable := FeatureTable(0, (0.0, 0.0, 0.0))

  /**
   * `QJsonArray::takeAt(i)` followed by `toDouble()`: the element's number and the array without
   * it; an index out of range gives an undefined value, so 0, and leaves the array as it is.
   */
  function TakeAt(items: seq<JsonValue>, i: int): (r: (real, seq<JsonValue>))
    ensures 0 <= i < |items| ==>
      r.0 == ToDouble(items[i]) && |r.1| + 1 == |items|
      && (forall j | 0 <= j < i :: r.1[j] == items[j])
      && (forall j | i <= j < |r.1| :: r.1[j] == items[j + 1])
    ensures !(0 <= i < |items|) ==> r == (0.0, items)
  {
    if 0 <= i < |items| then (ToDouble(items[i]), items[..i] + items[i + 1..])
    else (0.0, items)
  }

  /**
   * `QVector3D(a.takeAt(0), a.takeAt(1), a.takeAt(2))` when the arguments are evaluated left to
   * right: each call removes an element, so the second and third index into a shorter array.
   */
  function RtcTakenLeftToRight(items: seq<JsonValue>): (r: (real, real, real))
    ensures r.0 == RtcFromArray(items).0
  {
    var first := TakeAt(items, 0);
    var second := TakeAt(first.1, 1);
    var third := TakeAt(second.1, 2);
    (first.0, second.0, third.0)
  }

  /** The same call with the arguments evaluated right to left (the order of the usual x86 builds). */
  function RtcTakenRightToLeft(items: seq<JsonValue>): (r: (real, real, real))
    ensures |items| >= 3 ==> r.2 == ToDouble(items[2])
    ensures |items| < 3 ==> r.2 == 0.0
  {
    var third := TakeAt(items, 2);
    var second := TakeAt(third.1, 1);
    var first := TakeAt(second.1, 0);
    (first.0, second.0, third.0)
  }

  /** The centre the code means: the first three numbers of the array, in order (`at` gives 0 past the end). */
  function RtcFromArray(items: seq<JsonValue>): (r: (real, real, real))
    ensures |items| >= 3 ==> r == (ToDouble(items[0]), ToDouble(items[1]), ToDouble(items[2]))
  {
    (if |items| > 0 then ToDouble(items[0]) else 0.0,
     if |items| > 1 then ToDouble(items[1]) else 0.0,
     if |items| > 2 then ToDouble(items[2]) else 0.0)
  }

  /**
   * Which centre a build gets depends on the unspecified argument order: right to left gives the
   * intended centre for every array, left to right skips the middle number, and past the end of a
   * short array reads 0.
   */
  lemma RtcDependsOnEvaluationOrder(items: seq<JsonValue>)
    ensures RtcTakenRightToLeft(items) == RtcFromArray(items)
    ensures |items| >= 5 ==>
      RtcTakenLeftToRight(items) == (ToDouble(items[0]), ToDouble(items[2]), ToDouble(items[4]))
    ensures 3 <= |items| <= 4 ==> RtcTakenLeftToRight(items) == (ToDouble(items[0]), ToDouble(items[2]), 0.0)
    ensures 1 <= |items| <= 2 ==> RtcTakenLeftToRight(items) == (ToDouble(items[0]), 0.0, 0.0)
    ensures |items| >= 3 && ToDouble(items[1]) != ToDouble(items[2]) ==> RtcTakenLeftToRight(items) != RtcFromArray(items)
  {
    if |items| >= 2 {
      var s := TakeAt(items, 0).1;
      assert s[0] == items[1];
      if |items| >= 3 {
        assert s[1] == items[2];
        var t := TakeAt(items, 2).1;
        assert t[1] == items[1] && t[0] == items[0];
        var u := TakeAt(t, 1).1;
        assert u[0] == items[0];
      }
      if |items| >= 5 {
        var v := TakeAt(s, 1).1;
        assert v[2] == items[4];
      }
    } else if |items| == 1 {
      assert TakeAt(items, 0).1 == [];
    }
  }

  /** Three floats at a byte offset of the binary; reading past its end is undefined in the source. */
  function FloatsAt(binary: seq<byte>, offset: nat, decodeFloat: seq<byte> -> real): (r: Result<(real, real, real)>)
    ensures r.Success? <==> offset + 12 <= |binary|
    ensures r.Success? ==> r.value.1 == decodeFloat(binary[offset + 4..offset + 8])
  {
    if offset + 12 > |binary| then Failure("RTC_CENTER reads past the binary")
    else Success((decodeFloat(binary[offset..offset + 4]), decodeFloat(binary[offset + 4..offset + 8]),
                  decodeFloat(binary[offset + 8..offset + 12])))
  }

  /**
   * `FeatureTable(obj, binary)`: RTC_CENTER from an array (its `takeAt` arguments evaluated right
   * to left) or from 32-bit floats of the binary, then BATCH_LENGTH from the binary (when it is an
   * object) or from the JSON number. A binary reference into an empty binary throws.
   */
  function ParseFeatureTable(obj: map<string, JsonValue>, binary: seq<byte>, decodeFloat: seq<byte> -> real): (r: Result<FeatureTable>)
    ensures r.Success? && "RTC_CENTER" in obj && obj["RTC_CENTER"].JArray? ==>
      r.value.rtcCenter == RtcFromArray(obj["RTC_CENTER"].items)
    ensures "RTC_CENTER" !in obj && "BATCH_LENGTH" !in obj ==> r == Success(DefaultFeatureTable)
  {
    var rtc: Result<(real, real, real)> :=
      if "RTC_CENTER" !in obj then Success((0.0, 0.0, 0.0))
      else match obj["RTC_CENTER"]
        case JArray(items) => (RtcDependsOnEvaluationOrder(items); Success(RtcTakenRightToLeft(items)))
        case JObject(fields) =>
          if |binary| == 0 then Failure("binary size is 0 but RTC_CENTER is referencing it!")
          else FloatsAt(binary, ToUint(ToInt(Get(fields, "byteOffset"))), decodeFloat)
        case _ => Success((0.0, 0.0, 0.0));
    if rtc.Failure? then Failure(rtc.error)
    else if "BATCH_LENGTH" !in obj then Success(FeatureTable(0, rtc.value))
    else match obj["BATCH_LENGTH"]
      case JObject(fields) =>
        var offset := ToUint(ToInt(Get(fields, "byteOffset")));
        if |binary| == 0 then Failure("binary size is 0 but BATCH_LENGTH is referencing it!")
        else if offset + 4 > |binary| then Failure("BATCH_LENGTH reads past the binary")
        else Success(FeatureTable(U32At(binary, offset), rtc.value))
      case other => Success(FeatureTable(ToUint(ToInt(other)), rtc.value))
  }

  /** The feature-table step as `load` runs it: the JSON bytes parsed, then `FeatureTable(obj, binary)`. */
  type TableParser = (seq<byte>, seq<byte>) -> Result<FeatureTable>

  function FeatureTableOf(parseJson: seq<byte> -> map<string, JsonValue>, decodeFloat: seq<byte> -> real): (parse: TableParser)
    ensures forall json, bin :: parse(json, bin) == ParseFeatureTable(parseJson(json), bin, decodeFloat)
  {
    (json, bin) => ParseFeatureTable(parseJson(json), bin, decodeFloat)
  }

  /** What `FeatureTable(obj, binary)` builds or refuses, key by key. */
  lemma ParseFeatureTableCases(obj: map<string, JsonValue>, binary: seq<byte>, decodeFloat: seq<byte> -> real)
    ensures var r := ParseFeatureTable(obj, binary, decodeFloat);
      && ("RTC_CENTER" !in obj && "BATCH_LENGTH" !in obj ==> r == Success(DefaultFeatureTable))
      && ((|binary| == 0 && (("RTC_CENTER" in obj && obj["RTC_CENTER"].JObject?)
                            || ("BATCH_LENGTH" in obj && obj["BATCH_LENGTH"].JObject?))) ==> r.Failure?)
      && (r.Success? && "BATCH_LENGTH" in obj && !obj["BATCH_LENGTH"].JObject? ==>
            r.value.batchLength == ToUint(ToInt(obj["BATCH_LENGTH"])))
      && (r.Success? && "BATCH_LENGTH" in obj && obj["BATCH_LENGTH"].JObject? ==>
            var offset := ToUint(ToInt(Get(obj["BATCH_LENGTH"].fields, "byteOffset")));
            offset + 4 <= |binary| && r.value.batchLength == U32At(binary, offset))
      && (r.Success? && "BATCH_LENGTH" !in obj ==> r.value.batchLength == 0)
      && (r.Success? && "RTC_CENTER" in obj && obj["RTC_CENTER"].JArray? ==>
            r.value.rtcCenter == RtcFromArray(obj["RTC_CENTER"].items))
      && (r.Success? && ("RTC_CENTER" !in obj || (!obj["RTC_CENTER"].JArray? && !obj["RTC_CENTER"].JObject?)) ==>
            r.value.rtcCenter == (0.0, 0.0, 0.0))
  {
  }

  // ---------------------------------------------------------------------------------------------
  // The device and the reader

  /** `QIODevice::read(n)` from `pos`: at most `n` bytes, fewer at the end, none for a negative count. */
  function ReadBytes(data: seq<byte>, pos: nat, n: int): (r: seq<byte>)
    requires pos <= |data|
    ensures |r| == if n <= 0 then 0 else Min(n, |data| - pos)
    ensures r == data[pos..pos + |r|]
  {
    if n <= 0 then [] else data[pos..Min(pos + n, |data|)]
  }

  /** The reader's fields: the raw header struct, the feature table, and whether a batch table was built. */
  datatype ReaderState = ReaderState(headerBytes: seq<byte>, featureTable: FeatureTable, batchTableRead: bool)

  /** What `load` leaves behind: the fields, the cursor, whether the device was closed, and the glTF bytes or the exception. */
  datatype Outcome = Outcome(state: ReaderState, pos: nat, closed: bool, result: Result<seq<byte>>)

  /** The header struct after `read(&mHeader, 28)`: the bytes read, then what the struct held before. */
  function HeaderRead(prior: seq<byte>, data: seq<byte>, pos: nat): (r: seq<byte>)
    requires |prior| == HeaderSize && pos <= |data|
    ensures |r| == HeaderSize
    ensures pos + HeaderSize <= |data| ==> r == data[pos..pos + HeaderSize]
  {
    var raw := ReadBytes(data, pos, HeaderSize);
    raw + prior[|raw|..]
  }

  /**
   * `B3dm::load` on the bytes of a device at cursor `pos`, with the glTF length given by
   * `gltfLength`. A header read short of 28 bytes keeps the rest of the previous struct.
   */
  function LoadBytes(prior: ReaderState, data: seq<byte>, pos: nat, parseTable: TableParser, gltfLength: Header -> int): (o: Outcome)
    requires |prior.headerBytes| == HeaderSize && pos <= |data|
    ensures pos <= o.pos <= |data| && |o.state.headerBytes| == HeaderSize
    ensures o.result.Success? ==> o.closed
    ensures !o.closed ==> o.result.Failure?
  {
    var headerBytes := HeaderRead(prior.headerBytes, data, pos);
    var h := DecodeHeader(headerBytes);
    var p1 := pos + Min(HeaderSize, |data| - pos);
    var s1 := prior.(headerBytes := headerBytes);
    if h.magic != Magic then Outcome(s1, p1, false, Failure("Not a b3dm file"))
    else AfterHeader(s1, data, p1, h, parseTable, gltfLength)
  }

  /** Past a matching magic, `load` goes on with the feature table at the cursor after the header. */
  lemma LoadBytesAfterMagic(prior: ReaderState, data: seq<byte>, pos: nat, parseTable: TableParser, gltfLength: Header -> int,
                            s1: ReaderState, p1: nat, h: Header)
    requires |prior.headerBytes| == HeaderSize && pos <= |data|
    requires s1 == prior.(headerBytes := HeaderRead(prior.headerBytes, data, pos))
    requires p1 == pos + Min(HeaderSize, |data| - pos) && h == DecodeHeader(s1.headerBytes)
    requires h.magic == Magic
    ensures LoadBytes(prior, data, pos, parseTable, gltfLength) == AfterHeader(s1, data, p1, h, parseTable, gltfLength)
  {
  }

  /** A magic other than "b3dm" ends `load` right after the header, with the device left open. */
  lemma LoadBytesBadMagic(prior: ReaderState, data: seq<byte>, pos: nat, parseTable: TableParser, gltfLength: Header -> int)
    requires |prior.headerBytes| == HeaderSize && pos <= |data|
    requires DecodeHeader(HeaderRead(prior.headerBytes, data, pos)).magic != Magic
    ensures LoadBytes(prior, data, pos, parseTable, gltfLength)
         == Outcome(prior.(headerBytes := HeaderRead(prior.headerBytes, data, pos)), pos + Min(HeaderSize, |data| - pos),
                    false, Failure("Not a b3dm file"))
  {
  }

  /** `load` once the magic is checked: the feature table, then the rest. */
  function AfterHeader(s: ReaderState, data: seq<byte>, pos: nat, h: Header, parseTable: TableParser, gltfLength: Header -> int): (o: Outcome)
    requires pos <= |data| && WellFormedHeader(h)
    ensures pos <= o.pos <= |data| && o.state.headerBytes == s.headerBytes
    ensures o.result.Success? ==> o.closed
    ensures !o.closed ==> o.result.Failure?
  {
    var feature := FeatureTableStep(s, data, pos, h, parseTable);
    if feature.result.Failure? then feature
    else AfterFeatureTable(feature.state, data, feature.pos, h, gltfLength)
  }

  /** `load` once the feature table is read: the batch table, then the glTF. */
  function AfterFeatureTable(s: ReaderState, data: seq<byte>, pos: nat, h: Header, gltfLength: Header -> int): (o: Outcome)
    requires pos <= |data| && WellFormedHeader(h)
    ensures pos <= o.pos <= |data| && o.state.headerBytes == s.headerBytes
    ensures o.result.Success? ==> o.closed
    ensures !o.closed ==> o.result.Failure?
  {
    var batch := BatchTableStep(s, data, pos, h);
    if batch.result.Failure? then batch
    else
      var gltf := ReadBytes(data, batch.pos, gltfLength(h));
      Outcome(batch.state, batch.pos + |gltf|, true, Success(gltf))
  }

  /** A failing feature-table step is where `load` stops. */
  lemma AfterHeaderStops(s: ReaderState, data: seq<byte>, pos: nat, h: Header, parseTable: TableParser, gltfLength: Header -> int)
    requires pos <= |data| && WellFormedHeader(h)
    requires FeatureTableStep(s, data, pos, h, parseTable).result.Failure?
    ensures AfterHeader(s, data, pos, h, parseTable, gltfLength) == FeatureTableStep(s, data, pos, h, parseTable)
  {
  }

  /** A successful feature-table step hands its fields and cursor on to the batch table. */
  lemma AfterHeaderGoesOn(s: ReaderState, data: seq<byte>, pos: nat, h: Header, parseTable: TableParser, gltfLength: Header -> int)
    requires pos <= |data| && WellFormedHeader(h)
    requires FeatureTableStep(s, data, pos, h, parseTable).result.Success?
    ensures var f := FeatureTableStep(s, data, pos, h, parseTable);
      AfterHeader(s, data, pos, h, parseTable, gltfLength) == AfterFeatureTable(f.state, data, f.pos, h, gltfLength)
  {
  }

  /** A failing batch-table step is where `load` stops. */
  lemma AfterFeatureTableStops(s: ReaderState, data: seq<byte>, pos: nat, h: Header, gltfLength: Header -> int)
    requires pos <= |data| && WellFormedHeader(h)
    requires BatchTableStep(s, data, pos, h).result.Failure?
    ensures AfterFeatureTable(s, data, pos, h, gltfLength) == BatchTableStep(s, data, pos, h)
  {
  }

  /** After a successful batch-table step `load` reads the glTF and closes the device. */
  lemma AfterFeatureTableReads(s: ReaderState, data: seq<byte>, pos: nat, h: Header, gltfLength: Header -> int)
    requires pos <= |data| && WellFormedHeader(h)
    requires BatchTableStep(s, data, pos, h).result.Success?
    ensures var b := BatchTableStep(s, data, pos, h);
      var gltf := ReadBytes(data, b.pos, gltfLength(h));
      AfterFeatureTable(s, data, pos, h, gltfLength) == Outcome(b.state, b.pos + |gltf|, true, Success(gltf))
  {
  }

  /** The feature-table step of `load`: nothing unless the JSON length is positive. */
  function FeatureTableStep(s: ReaderState, data: seq<byte>, pos: nat, h: Header,
                            parseTable: TableParser): (o: Outcome)
    requires pos <= |data| && WellFormedHeader(h)
    ensures pos <= o.pos <= |data| && !o.closed && o.state.headerBytes == s.headerBytes
    ensures o.state.batchTableRead == s.batchTableRead
    ensures h.featureTableJsonByteLength == 0 ==> o == Outcome(s, pos, false, Success([]))
  {
    if h.featureTableJsonByteLength == 0 then Outcome(s, pos, false, Success([]))
    else
      var json := ReadBytes(data, pos, h.featureTableJsonByteLength);
      if |json| != Int32(h.featureTableJsonByteLength) then
        Outcome(s, pos + |json|, false, Failure("binary badly read for featureTableJsonByteLength"))
      else
        var bin := ReadBytes(data, pos + |json|, h.featureTableBinaryByteLength);
        var p := pos + |json| + |bin|;
        if |bin| != Int32(h.featureTableBinaryByteLength) then
          Outcome(s, p, false, Failure("binary badly read for featureTableBinaryByteLength"))
        else
          var table := parseTable(json, bin);
          if table.Failure? then Outcome(s, p, false, Failure(table.error))
          else Outcome(s.(featureTable := table.value), p, false, Success([]))
  }

  /** The batch-table step of `load`: only when its JSON length and the batch length are positive. */
  function BatchTableStep(s: ReaderState, data: seq<byte>, pos: nat, h: Header): (o: Outcome)
    requires pos <= |data| && WellFormedHeader(h)
    ensures pos <= o.pos <= |data| && !o.closed && o.state.headerBytes == s.headerBytes
    ensures o.state.featureTable == s.featureTable
    ensures !(h.batchTableJsonByteLength > 0 && s.featureTable.batchLength > 0) ==> o == Outcome(s, pos, false, Success([]))
  {
    if !(h.batchTableJsonByteLength > 0 && s.featureTable.batchLength > 0) then Outcome(s, pos, false, Success([]))
    else
      var json := ReadBytes(data, pos, h.batchTableJsonByteLength);
      if |json| != Int32(h.batchTableJsonByteLength) then
        Outcome(s, pos + |json|, false, Failure("binary badly read for batchTableJsonByteLength"))
      else
        var bin := ReadBytes(data, pos + |json|, h.batchTableBinaryByteLength);
        var p := pos + |json| + |bin|;
        if |bin| != Int32(h.batchTableBinaryByteLength) then
          Outcome(s, p, false, Failure("binary badly read for batchTableBinaryByteLength"))
        else Outcome(s.(batchTableRead := true), p, false, Success([]))
  }

  /** A section shorter than its header length makes `load` throw. */
  lemma ShortFeatureTableFails(prior: ReaderState, data: seq<byte>, pos: nat, parseTable: TableParser, gltfLength: Header -> int)
    requires |prior.headerBytes| == HeaderSize && pos + HeaderSize <= |data|
    requires DecodeHeader(data[pos..pos + HeaderSize]).magic == Magic
    requires 0 < DecodeHeader(data[pos..pos + HeaderSize]).featureTableJsonByteLength < Two31
    requires |data| - pos - HeaderSize < DecodeHeader(data[pos..pos + HeaderSize]).featureTableJsonByteLength
    ensures LoadBytes(prior, data, pos, parseTable, gltfLength).result.Failure?
    ensures LoadBytes(prior, data, pos, parseTable, gltfLength).state.featureTable == prior.featureTable
  {
    var raw := ReadBytes(data, pos, HeaderSize);
    assert raw + prior.headerBytes[|raw|..] == data[pos..pos + HeaderSize];
  }

  /** The magic is the first check: any other four bytes make `load` throw with nothing else read. */
  lemma BadMagicFails(prior: ReaderState, data: seq<byte>, pos: nat, parseTable: TableParser, gltfLength: Header -> int)
    requires |prior.headerBytes| == HeaderSize && pos + 4 <= |data| && data[pos..pos + 4] != Magic
    ensures LoadBytes(prior, data, pos, parseTable, gltfLength).result.Failure?
    ensures LoadBytes(prior, data, pos, parseTable, gltfLength).pos == pos + Min(HeaderSize, |data| - pos)
    ensures LoadBytes(prior, data, pos, parseTable, gltfLength).state.featureTable == prior.featureTable
  {
    var raw := ReadBytes(data, pos, HeaderSize);
    var headerBytes := raw + prior.headerBytes[|raw|..];
    assert 4 <= |raw| && raw[..4] == data[pos..pos + 4];
    assert headerBytes[..4] == raw[..4];
    LoadBytesBadMagic(prior, data, pos, parseTable, gltfLength);
  }

  // ---------------------------------------------------------------------------------------------
  // Well-formed files

  /** The bytes of a file laid out as the standard says, with `byteLength` the total length. */
  function FileBytes(version: nat, ftJson: seq<byte>, ftBin: seq<byte>, btJson: seq<byte>, btBin: seq<byte>, gltf: seq<byte>): (r: seq<byte>)
    requires version < Two32
    requires HeaderSize + |ftJson| + |ftBin| + |btJson| + |btBin| + |gltf| < Two32
  {
    EncodeHeader(FileHeader(version, ftJson, ftBin, btJson, btBin, gltf)) + ftJson + ftBin + btJson + btBin + gltf
  }

  function FileHeader(version: nat, ftJson: seq<byte>, ftBin: seq<byte>, btJson: seq<byte>, btBin: seq<byte>, gltf: seq<byte>): (h: Header)
    requires version < Two32
    requires HeaderSize + |ftJson| + |ftBin| + |btJson| + |btBin| + |gltf| < Two32
    ensures WellFormedHeader(h)
  {
    Header(Magic, version, HeaderSize + |ftJson| + |ftBin| + |btJson| + |btBin| + |gltf|,
           |ftJson|, |ftBin|, |btJson|, |btBin|)
  }

  /** What a well-formed file needs of its tables so that the reader's cursor reaches the glTF. */
  predicate Readable(ftJson: seq<byte>, ftBin: seq<byte>, btJson: seq<byte>, btBin: seq<byte>,
                     parseTable: TableParser) {
    |ftJson| > 0 && parseTable(ftJson, ftBin).Success?
    && (|btJson| > 0 ==> parseTable(ftJson, ftBin).value.batchLength > 0)
    && (|btJson| == 0 ==> |btBin| == 0)
  }

  /** The header section of a file. */
  lemma FileHeaderSection(version: nat, ftJson: seq<byte>, ftBin: seq<byte>, btJson: seq<byte>, btBin: seq<byte>, gltf: seq<byte>)
    requires version < Two32
    requires HeaderSize + |ftJson| + |ftBin| + |btJson| + |btBin| + |gltf| < Two31
    ensures var data := FileBytes(version, ftJson, ftBin, btJson, btBin, gltf);
      HeaderSize <= |data| && data[..HeaderSize] == EncodeHeader(FileHeader(version, ftJson, ftBin, btJson, btBin, gltf))
  {
    var head := EncodeHeader(FileHeader(version, ftJson, ftBin, btJson, btBin, gltf));
    assert FileBytes(version, ftJson, ftBin, btJson, btBin, gltf) == head + (ftJson + ftBin + btJson + btBin + gltf);
  }

  /** The two feature-table sections of a file, right after the header. */
  lemma FileFeatureSections(version: nat, ftJson: seq<byte>, ftBin: seq<byte>, btJson: seq<byte>, btBin: seq<byte>, gltf: seq<byte>)
    requires version < Two32
    requires HeaderSize + |ftJson| + |ftBin| + |btJson| + |btBin| + |gltf| < Two31
    ensures var data := FileBytes(version, ftJson, ftBin, btJson, btBin, gltf);
      var a := HeaderSize + |ftJson|;
      a + |ftBin| <= |data| && data[HeaderSize..a] == ftJson && data[a..a + |ftBin|] == ftBin
  {
    var head := EncodeHeader(FileHeader(version, ftJson, ftBin, btJson, btBin, gltf));
    var data := FileBytes(version, ftJson, ftBin, btJson, btBin, gltf);
    assert data == (head + ftJson + ftBin) + (btJson + btBin + gltf);
  }

  /** The two batch-table sections of a file, after the feature table. */
  lemma FileBatchSections(version: nat, ftJson: seq<byte>, ftBin: seq<byte>, btJson: seq<byte>, btBin: seq<byte>, gltf: seq<byte>)
    requires version < Two32
    requires HeaderSize + |ftJson| + |ftBin| + |btJson| + |btBin| + |gltf| < Two31
    ensures var data := FileBytes(version, ftJson, ftBin, btJson, btBin, gltf);
      var b := HeaderSize + |ftJson| + |ftBin|;
      var c := b + |btJson|;
      c + |btBin| <= |data| && data[b..c] == btJson && data[c..c + |btBin|] == btBin
  {
    var head := EncodeHeader(FileHeader(version, ftJson, ftBin, btJson, btBin, gltf));
    var data := FileBytes(version, ftJson, ftBin, btJson, btBin, gltf);
    var front := head + ftJson + ftBin;
    assert data == front + (btJson + btBin) + gltf;
    assert data[|front|..|front| + |btJson| + |btBin|] == btJson + btBin;
  }

  /** The glTF section of a file: everything after the tables. */
  lemma FileGltfSection(version: nat, ftJson: seq<byte>, ftBin: seq<byte>, btJson: seq<byte>, btBin: seq<byte>, gltf: seq<byte>)
    requires version < Two32
    requires HeaderSize + |ftJson| + |ftBin| + |btJson| + |btBin| + |gltf| < Two31
    ensures var data := FileBytes(version, ftJson, ftBin, btJson, btBin, gltf);
      var d := HeaderSize + |ftJson| + |ftBin| + |btJson| + |btBin|;
      |data| == d + |gltf| && data[d..] == gltf
  {
    var head := EncodeHeader(FileHeader(version, ftJson, ftBin, btJson, btBin, gltf));
    var data := FileBytes(version, ftJson, ftBin, btJson, btBin, gltf);
    assert data == (head + ftJson + ftBin + btJson + btBin) + gltf;
  }

  /** A feature table whose sections are all there is read and parsed, and the cursor passes both. */
  lemma FeatureTableStepReads(s: ReaderState, data: seq<byte>, pos: nat, h: Header, json: seq<byte>, bin: seq<byte>,
                              parseTable: TableParser)
    requires WellFormedHeader(h) && pos + |json| + |bin| <= |data| && 0 < |json| < Two31 && |bin| < Two31
    requires h.featureTableJsonByteLength == |json| && h.featureTableBinaryByteLength == |bin|
    requires data[pos..pos + |json|] == json && data[pos + |json|..pos + |json| + |bin|] == bin
    requires parseTable(json, bin).Success?
    ensures FeatureTableStep(s, data, pos, h, parseTable)
         == Outcome(s.(featureTable := parseTable(json, bin).value),
                    pos + |json| + |bin|, false, Success([]))
  {
    assert ReadBytes(data, pos, h.featureTableJsonByteLength) == json;
    assert ReadBytes(data, pos + |json|, h.featureTableBinaryByteLength) == bin;
  }

  /** A batch table that is there (and announced by the feature table) is read, and the cursor passes it. */
  lemma BatchTableStepReads(s: ReaderState, data: seq<byte>, pos: nat, h: Header, json: seq<byte>, bin: seq<byte>)
    requires WellFormedHeader(h) && pos + |json| + |bin| <= |data| && |json| < Two31 && |bin| < Two31
    requires h.batchTableJsonByteLength == |json| && h.batchTableBinaryByteLength == |bin|
    requires data[pos..pos + |json|] == json && data[pos + |json|..pos + |json| + |bin|] == bin
    requires |json| > 0 ==> s.featureTable.batchLength > 0
    requires |json| == 0 ==> |bin| == 0
    ensures BatchTableStep(s, data, pos, h)
         == Outcome(s.(batchTableRead := |json| > 0 || s.batchTableRead), pos + |json| + |bin|, false, Success([]))
  {
    if |json| > 0 {
      assert ReadBytes(data, pos, h.batchTableJsonByteLength) == json;
      assert ReadBytes(data, pos + |json|, h.batchTableBinaryByteLength) == bin;
    }
  }

  /** `load` as the composition of its steps, once each step's outcome is known. */
  lemma LoadSteps(prior: ReaderState, data: seq<byte>, h: Header, s2: ReaderState, b: nat, s3: ReaderState, d: nat,
                  parseTable: TableParser, gltfLength: Header -> int)
    requires |prior.headerBytes| == HeaderSize && HeaderSize <= |data| && b <= |data| && d <= |data|
    requires WellFormedHeader(h) && h.magic == Magic
    requires DecodeHeader(HeaderRead(prior.headerBytes, data, 0)) == h
    requires FeatureTableStep(prior.(headerBytes := HeaderRead(prior.headerBytes, data, 0)), data, HeaderSize, h, parseTable)
          == Outcome(s2, b, false, Success([]))
    requires BatchTableStep(s2, data, b, h) == Outcome(s3, d, false, Success([]))
    ensures var read := ReadBytes(data, d, gltfLength(h));
      LoadBytes(prior, data, 0, parseTable, gltfLength) == Outcome(s3, d + |read|, true, Success(read))
  {
    var s1 := prior.(headerBytes := HeaderRead(prior.headerBytes, data, 0));
    LoadBytesAfterMagic(prior, data, 0, parseTable, gltfLength, s1, HeaderSize, h);
  }

  /** The header of a file is read whole and decodes to the header it was built from. */
  lemma FileHeaderStep(prior: ReaderState, version: nat, ftJson: seq<byte>, ftBin: seq<byte>, btJson: seq<byte>, btBin: seq<byte>, gltf: seq<byte>)
    requires |prior.headerBytes| == HeaderSize && version < Two32
    requires HeaderSize + |ftJson| + |ftBin| + |btJson| + |btBin| + |gltf| < Two31
    ensures var data := FileBytes(version, ftJson, ftBin, btJson, btBin, gltf);
      HeaderSize <= |data|
      && DecodeHeader(HeaderRead(prior.headerBytes, data, 0)) == FileHeader(version, ftJson, ftBin, btJson, btBin, gltf)
  {
    FileHeaderSection(version, ftJson, ftBin, btJson, btBin, gltf);
    HeaderRoundTrip(FileHeader(version, ftJson, ftBin, btJson, btBin, gltf));
  }

  /**
   * `load` on bytes laid out as header, feature table, batch table and glTF, whatever else makes
   * them up: the tables are read and the glTF length is taken from the rest.
   */
  lemma LoadLaidOut(prior: ReaderState, data: seq<byte>, h: Header, ftJson: seq<byte>, ftBin: seq<byte>, btJson: seq<byte>,
                    btBin: seq<byte>, gltf: seq<byte>, parseTable: TableParser, gltfLength: Header -> int)
    requires |prior.headerBytes| == HeaderSize && HeaderSize <= |data|
    requires DecodeHeader(HeaderRead(prior.headerBytes, data, 0)) == h && h.magic == Magic
    requires h.featureTableJsonByteLength == |ftJson| && h.featureTableBinaryByteLength == |ftBin|
    requires h.batchTableJsonByteLength == |btJson| && h.batchTableBinaryByteLength == |btBin|
    requires |ftJson| + |ftBin| + |btJson| + |btBin| < Two31
    requires Readable(ftJson, ftBin, btJson, btBin, parseTable)
    requires var a := HeaderSize + |ftJson|;
      var b := a + |ftBin|;
      var c := b + |btJson|;
      var d := c + |btBin|;
      && |data| == d + |gltf| && data[HeaderSize..a] == ftJson && data[a..b] == ftBin
      && data[b..c] == btJson && data[c..d] == btBin && data[d..] == gltf
    requires 0 <= gltfLength(h) <= |gltf|
    ensures var o := LoadBytes(prior, data, 0, parseTable, gltfLength);
      o.result == Success(gltf[..gltfLength(h)]) && o.closed
      && o.state.featureTable == parseTable(ftJson, ftBin).value
      && o.state.batchTableRead == (|btJson| > 0 || prior.batchTableRead)
  {
    var s1 := prior.(headerBytes := HeaderRead(prior.headerBytes, data, 0));
    var s2 := s1.(featureTable := parseTable(ftJson, ftBin).value);
    var s3 := s2.(batchTableRead := |btJson| > 0 || s2.batchTableRead);
    var b := HeaderSize + |ftJson| + |ftBin|;
    var d := b + |btJson| + |btBin|;
    FeatureTableStepReads(s1, data, HeaderSize, h, ftJson, ftBin, parseTable);
    BatchTableStepReads(s2, data, b, h, btJson, btBin);
    assert ReadBytes(data, d, gltfLength(h)) == gltf[..gltfLength(h)];
    LoadSteps(prior, data, h, s2, b, s3, d, parseTable, gltfLength);
  }

  /**
   * The steps of `load` on a well-formed file, for any glTF length within the glTF section: the
   * result is that many bytes of the glTF.
   */
  lemma LoadPath(prior: ReaderState, version: nat, ftJson: seq<byte>, ftBin: seq<byte>, btJson: seq<byte>,
                 btBin: seq<byte>, gltf: seq<byte>, parseTable: TableParser, gltfLength: Header -> int)
    requires |prior.headerBytes| == HeaderSize && version < Two32
    requires HeaderSize + |ftJson| + |ftBin| + |btJson| + |btBin| + |gltf| < Two31
    requires Readable(ftJson, ftBin, btJson, btBin, parseTable)
    requires 0 <= gltfLength(FileHeader(version, ftJson, ftBin, btJson, btBin, gltf)) <= |gltf|
    ensures var o := LoadBytes(prior, FileBytes(version, ftJson, ftBin, btJson, btBin, gltf), 0, parseTable, gltfLength);
      o.result == Success(gltf[..gltfLength(FileHeader(version, ftJson, ftBin, btJson, btBin, gltf))]) && o.closed
      && o.state.featureTable == parseTable(ftJson, ftBin).value
      && o.state.batchTableRead == (|btJson| > 0 || prior.batchTableRead)
  {
    var h := FileHeader(version, ftJson, ftBin, btJson, btBin, gltf);
    var data := FileBytes(version, ftJson, ftBin, btJson, btBin, gltf);
    FileHeaderStep(prior, version, ftJson, ftBin, btJson, btBin, gltf);
    FileFeatureSections(version, ftJson, ftBin, btJson, btBin, gltf);
    FileBatchSections(version, ftJson, ftBin, btJson, btBin, gltf);
    FileGltfSection(version, ftJson, ftBin, btJson, btBin, gltf);
    LoadLaidOut(prior, data, h, ftJson, ftBin, btJson, btBin, gltf, parseTable, gltfLength);
  }

  /**
   * With the corrected length, loading a well-formed file hands exactly its glTF bytes on, with
   * the feature table its JSON and binary describe.
   */
  lemma LoadReadsGltf(prior: ReaderState, version: nat, ftJson: seq<byte>, ftBin: seq<byte>, btJson: seq<byte>,
                      btBin: seq<byte>, gltf: seq<byte>, parseTable: TableParser)
    requires |prior.headerBytes| == HeaderSize && version < Two32
    requires HeaderSize + |ftJson| + |ftBin| + |btJson| + |btBin| + |gltf| < Two31
    requires Readable(ftJson, ftBin, btJson, btBin, parseTable)
    ensures var o := LoadBytes(prior, FileBytes(version, ftJson, ftBin, btJson, btBin, gltf), 0, parseTable, GltfLength);
      o.result == Success(gltf) && o.closed
      && o.state.featureTable == parseTable(ftJson, ftBin).value
      && o.state.batchTableRead == (|btJson| > 0 || prior.batchTableRead)
  {
    var h := FileHeader(version, ftJson, ftBin, btJson, btBin, gltf);
    assert GltfLength(h) == |gltf|;
    LoadPath(prior, version, ftJson, ftBin, btJson, btBin, gltf, parseTable, GltfLength);
    assert gltf[..GltfLength(h)] == gltf;
  }

  /** As written, a file whose feature-table binary is longer than its batch-table binary loses the end of its glTF. */
  lemma LoadAsWrittenTruncatesGltf(prior: ReaderState, version: nat, ftJson: seq<byte>, ftBin: seq<byte>, btJson: seq<byte>,
                                   btBin: seq<byte>, gltf: seq<byte>, parseTable: TableParser)
    requires |prior.headerBytes| == HeaderSize && version < Two32
    requires HeaderSize + |ftJson| + |ftBin| + |btJson| + |btBin| + |gltf| < Two31
    requires Readable(ftJson, ftBin, btJson, btBin, parseTable)
    requires |btBin| < |ftBin| <= |gltf| + |btBin|
    ensures var o := LoadBytes(prior, FileBytes(version, ftJson, ftBin, btJson, btBin, gltf), 0, parseTable, GltfLengthAsWritten);
      o.result == Success(gltf[..|gltf| - (|ftBin| - |btBin|)]) && o.result != Success(gltf)
  {
    var h := FileHeader(version, ftJson, ftBin, btJson, btBin, gltf);
    var n := |gltf| - (|ftBin| - |btBin|);
    assert GltfLengthAsWritten(h) == n;
    LoadPath(prior, version, ftJson, ftBin, btJson, btBin, gltf, parseTable, GltfLengthAsWritten);
    var o := LoadBytes(prior, FileBytes(version, ftJson, ftBin, btJson, btBin, gltf), 0, parseTable, GltfLengthAsWritten);
    assert o.result == Success(gltf[..n]);
    assert |gltf[..n]| != |gltf|;
  }

  // ---------------------------------------------------------------------------------------------
  // The objects

  /** A `QIODevice` opened for reading: its bytes and its read cursor. */
  class Device {
    const data: seq<byte>
    var pos: nat
    var isOpen: bool

    constructor (data: seq<byte>)
      ensures this.data == data && pos == 0 && isOpen
    {
      this.data := data;
      pos := 0;
      isOpen := true;
    }

    predicate Valid()
      reads this
    {
      pos <= |data|
    }

    /** `read(n)`. */
    method Read(n: int) returns (bytes: seq<byte>)
      requires Valid()
      modifies this`pos
      ensures Valid() && bytes == ReadBytes(data, old(pos), n) && pos == old(pos) + |bytes|
    {
      bytes := ReadBytes(data, pos, n);
      pos := pos + |bytes|;
    }

    /** `close()`. */
    method Close()
      modifies this`isOpen
      ensures !isOpen
    {
      isOpen := false;
    }
  }

  /** `B3dm`: the header struct (as its raw bytes), the feature table and the batch table. */
  class B3dm {
    var headerBytes: seq<byte>
    var featureTable: FeatureTable
    /** `BatchTable` has no fields; this records whether `load` built one. */
    var batchTableRead: bool

    /** `B3dm()`: a value-initialised header and default tables. */
    constructor ()
      ensures headerBytes == seq(HeaderSize, i => 0) && featureTable == DefaultFeatureTable && !batchTableRead
    {
      headerBytes := seq(HeaderSize, i => 0);
      featureTable := DefaultFeatureTable;
      batchTableRead := false;
    }

    function State(): ReaderState
      reads this
    {
      ReaderState(headerBytes, featureTable, batchTableRead)
    }

    function Header(): Header
      reads this
      requires |headerBytes| == HeaderSize
    {
      DecodeHeader(headerBytes)
    }

    /**
     * `load(dev)`: the sections in order, each read checked against its header length, then the
     * glTF bytes (returned: the glTF loader itself is disabled) and the device closed.
     */
    method Load(dev: Device, parseTable: TableParser)
      returns (result: Result<seq<byte>>)
      requires dev.Valid() && dev.isOpen && |headerBytes| == HeaderSize
      modifies this, dev`pos, dev`isOpen
      ensures dev.Valid()
      ensures Outcome(State(), dev.pos, !dev.isOpen, result)
           == LoadBytes(old(State()), dev.data, old(dev.pos), parseTable, GltfLength)
    {
      ghost var s0, p0 := State(), dev.pos;
      ReadHeader(dev);
      var h := DecodeHeader(headerBytes);
      if h.magic != Magic {
        LoadBytesBadMagic(s0, dev.data, p0, parseTable, GltfLength);
        return Failure("Not a b3dm file");
      }
      ghost var s1, p1 := State(), dev.pos;
      assert s1 == s0.(headerBytes := headerBytes);
      LoadBytesAfterMagic(s0, dev.data, p0, parseTable, GltfLength, s1, p1, h);
      result := LoadTables(dev, h, parseTable);
    }

    /** `load` past the magic check: the feature table, then the rest. */
    method LoadTables(dev: Device, h: Header, parseTable: TableParser)
      returns (result: Result<seq<byte>>)
      requires dev.Valid() && dev.isOpen && WellFormedHeader(h)
      modifies this`featureTable, this`batchTableRead, dev`pos, dev`isOpen
      ensures dev.Valid()
      ensures Outcome(State(), dev.pos, !dev.isOpen, result)
           == AfterHeader(old(State()), dev.data, old(dev.pos), h, parseTable, GltfLength)
    {
      ghost var s1, p1 := State(), dev.pos;
      result := ReadFeatureTable(dev, h, parseTable);
      if result.Failure? {
        AfterHeaderStops(s1, dev.data, p1, h, parseTable, GltfLength);
        return;
      }
      AfterHeaderGoesOn(s1, dev.data, p1, h, parseTable, GltfLength);
      result := LoadBatchAndGltf(dev, h);
    }

    /** `load` past the feature table: the batch table, then the glTF and the device closed. */
    method LoadBatchAndGltf(dev: Device, h: Header) returns (result: Result<seq<byte>>)
      requires dev.Valid() && dev.isOpen && WellFormedHeader(h)
      modifies this`batchTableRead, dev`pos, dev`isOpen
      ensures dev.Valid()
      ensures Outcome(State(), dev.pos, !dev.isOpen, result) == AfterFeatureTable(old(State()), dev.data, old(dev.pos), h, GltfLength)
    {
      ghost var s2, p2 := State(), dev.pos;
      result := ReadBatchTable(dev, h);
      if result.Failure? {
        AfterFeatureTableStops(s2, dev.data, p2, h, GltfLength);
        return;
      }
      AfterFeatureTableReads(s2, dev.data, p2, h, GltfLength);
      var gltf := dev.Read(GltfLength(h));
      dev.Close();
      result := Success(gltf);
    }

    /** `dev.read((char *) &mHeader, sizeof(mHeader))`. */
    method ReadHeader(dev: Device)
      requires dev.Valid() && |headerBytes| == HeaderSize
      modifies this`headerBytes, dev`pos
      ensures dev.Valid() && headerBytes == HeaderRead(old(headerBytes), dev.data, old(dev.pos))
      ensures dev.pos == old(dev.pos) + Min(HeaderSize, |dev.data| - old(dev.pos))
    {
      var raw := dev.Read(HeaderSize);
      headerBytes := raw + headerBytes[|raw|..];
    }

    /** The feature-table reads of `load`. */
    method ReadFeatureTable(dev: Device, h: Header, parseTable: TableParser)
      returns (result: Result<seq<byte>>)
      requires dev.Valid() && WellFormedHeader(h)
      modifies this`featureTable, dev`pos
      ensures dev.Valid()
      ensures Outcome(State(), dev.pos, false, result) == FeatureTableStep(old(State()), dev.data, old(dev.pos), h, parseTable)
    {
      result := Success([]);
      if h.featureTableJsonByteLength > 0 {
        var json := dev.Read(h.featureTableJsonByteLength);
        if |json| != Int32(h.featureTableJsonByteLength) {
          return Failure("binary badly read for featureTableJsonByteLength");
        }
        var bin := dev.Read(h.featureTableBinaryByteLength);
        if |bin| != Int32(h.featureTableBinaryByteLength) {
          return Failure("binary badly read for featureTableBinaryByteLength");
        }
        var table := parseTable(json, bin);
        if table.Failure? {
          return Failure(table.error);
        }
        featureTable := table.value;
      }
    }

    /** The batch-table reads of `load`. */
    method ReadBatchTable(dev: Device, h: Header) returns (result: Result<seq<byte>>)
      requires dev.Valid() && WellFormedHeader(h)
      modifies this`batchTableRead, dev`pos
      ensures dev.Valid()
      ensures Outcome(State(), dev.pos, false, result) == BatchTableStep(old(State()), dev.data, old(dev.pos), h)
    {
      result := Success([]);
      if h.batchTableJsonByteLength > 0 && featureTable.batchLength > 0 {
        var json := dev.Read(h.batchTableJsonByteLength);
        if |json| != Int32(h.batchTableJsonByteLength) {
          return Failure("binary badly read for batchTableJsonByteLength");
        }
        var bin := dev.Read(h.batchTableBinaryByteLength);
        if |bin| != Int32(h.batchTableBinaryByteLength) {
          return Failure("binary badly read for batchTableBinaryByteLength");
        }
        batchTableRead := true;
      }
    }
  }
}

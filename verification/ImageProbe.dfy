/** app/imaging.py, probe_image_dimensions: width and height from an image header, without decoding. */
module ImageProbe {
  import opened Collections

  type Byte = x: int | 0 <= x < 256

  const PNG_SIGNATURE: seq<Byte> := [0x89, 0x50, 0x4E, 0x47, 0x0D, 0x0A, 0x1A, 0x0A]
  const JPEG_SOI: seq<Byte> := [0xFF, 0xD8]
  const BMP_SIGNATURE: seq<Byte> := [0x42, 0x4D]

  type Dimensions = Option<(int, int)>

  // ---------------------------------------------------------------- struct.unpack

  function BigU16(data: seq<Byte>, at: nat): (r: nat)
    requires at + 2 <= |data|
    ensures r < 0x1_0000
  {
    data[at] as int * 256 + data[at + 1]
  }

  function BigU32(data: seq<Byte>, at: nat): nat
    requires at + 4 <= |data|
  {
    BigU16(data, at) * 0x1_0000 + BigU16(data, at + 2)
  }

  /** Two's complement, least significant byte first. */
  function LittleI32(data: seq<Byte>, at: nat): int
    requires at + 4 <= |data|
  {
    var u := data[at] as int + 0x100 * data[at + 1] as int + 0x1_0000 * data[at + 2] as int + 0x100_0000 * data[at + 3] as int;
    if u < 0x8000_0000 then u else u - 0x1_0000_0000
  }

  function Abs(x: int): int {
    if x < 0 then -x else x
  }

  // ---------------------------------------------------------------- JPEG markers

  /** SOFn: the markers whose segment is a frame header. */
  predicate IsFrameMarker(m: Byte) {
    0xC0 <= m <= 0xCF && m != 0xC4 && m != 0xC8 && m != 0xCC
  }

  /** SOI, TEM and RSTm: markers without a segment. */
  predicate IsStandalone(m: Byte) {
    m == 0xD8 || m == 0x01 || 0xD0 <= m <= 0xD7
  }

  /** The marker scan from position pos on. */
  function Scan(data: seq<Byte>, pos: nat): Dimensions
    decreases |data| - pos
  {
    if pos + 4 > |data| then None
    else if data[pos] != 0xFF then Scan(data, pos + 1)
    else
      var marker := data[pos + 1];
      if IsFrameMarker(marker) then
        if pos + 9 > |data| then None else Some((BigU16(data, pos + 7), BigU16(data, pos + 5)))
      else if IsStandalone(marker) then Scan(data, pos + 2)
      else Scan(data, pos + 2 + BigU16(data, pos + 2))
  }

  function Probe(data: seq<Byte>): Dimensions
  {
    if PNG_SIGNATURE <= data then
      if |data| < 24 then None else Some((BigU32(data, 16), BigU32(data, 20)))
    else if JPEG_SOI <= data then
      Scan(data, 2)
    else if BMP_SIGNATURE <= data then
      if |data| < 26 then None else Some((LittleI32(data, 18), Abs(LittleI32(data, 22))))
    else None
  }

  /** The loop terminates on every input and reads inside the data only. */
  method ProbeImageDimensions(data: seq<Byte>) returns (r: Dimensions)
    ensures r == Probe(data)
  {
    if PNG_SIGNATURE <= data {
      if |data| < 24 {
        return None;
      }
      return Some((BigU32(data, 16), BigU32(data, 20)));
    }
    if JPEG_SOI <= data {
      var pos := 2;
      while pos + 4 <= |data|
        invariant Scan(data, pos) == Scan(data, 2)
        decreases |data| - pos
      {
        if data[pos] != 0xFF {
          pos := pos + 1;
          continue;
        }
        var marker := data[pos + 1];
        if IsFrameMarker(marker) {
          if pos + 9 > |data| {
            return None;
          }
          return Some((BigU16(data, pos + 7), BigU16(data, pos + 5)));
        }
        if IsStandalone(marker) {
          pos := pos + 2;
          continue;
        }
        pos := pos + 2 + BigU16(data, pos + 2);
      }
      return None;
    }
    if BMP_SIGNATURE <= data {
      if |data| < 26 {
        return None;
      }
      return Some((LittleI32(data, 18), Abs(LittleI32(data, 22))));
    }
    return None;
  }

  // ---------------------------------------------------------------- a prefix never lies

  lemma {:induction false} ScanPrefix(data: seq<Byte>, n: nat, pos: nat)
    requires n <= |data|
    ensures Scan(data[..n], pos) == None || Scan(data[..n], pos) == Scan(data, pos)
    decreases |data| - pos
  {
    var head := data[..n];
    if pos + 4 <= n {
      assert head[pos] == data[pos] && head[pos + 1] == data[pos + 1];
      var marker := data[pos + 1];
      if data[pos] != 0xFF {
        ScanPrefix(data, n, pos + 1);
      } else if IsFrameMarker(marker) {
      } else if IsStandalone(marker) {
        ScanPrefix(data, n, pos + 2);
      } else {
        assert BigU16(head, pos + 2) == BigU16(data, pos + 2);
        ScanPrefix(data, n, pos + 2 + BigU16(data, pos + 2));
      }
    }
  }

  /**
   Main result.  Probing a prefix gives None or exactly what probing the whole file gives, for
   every byte string: the callers' 64 KB read never yields a wrong size.
   */
  lemma PrefixNeverLies(data: seq<Byte>, n: nat)
    requires n <= |data|
    ensures Probe(data[..n]) == None || Probe(data[..n]) == Probe(data)
  {
    var head := data[..n];
    assert PNG_SIGNATURE <= head ==> PNG_SIGNATURE <= data;
    assert JPEG_SOI <= head ==> JPEG_SOI <= data && data[0] == 0xFF;
    assert BMP_SIGNATURE <= head ==> BMP_SIGNATURE <= data && data[0] == 0x42;
    assert PNG_SIGNATURE <= data ==> data[0] == 0x89;
    ScanPrefix(data, n, 2);
  }

  // ---------------------------------------------------------------- what a JPEG answer means

  /** Table B.1 of ITU-T T.81: SOF0 to SOF15; 0xC4, 0xC8 and 0xCC are DHT, JPG and DAC. */
  const FRAME_MARKERS: set<Byte> :=
    {0xC0, 0xC1, 0xC2, 0xC3, 0xC5, 0xC6, 0xC7, 0xC9, 0xCA, 0xCB, 0xCD, 0xCE, 0xCF}

  /** TEM, RST0 to RST7, and SOI. */
  const STANDALONE_MARKERS: set<Byte> := {0x01, 0xD0, 0xD1, 0xD2, 0xD3, 0xD4, 0xD5, 0xD6, 0xD7, 0xD8}

  lemma MarkersOfTableB1(m: Byte)
    ensures IsFrameMarker(m) <==> m in FRAME_MARKERS
    ensures IsStandalone(m) <==> m in STANDALONE_MARKERS
  {
  }

  /** A frame header of section B.2.2 at position p: marker, length, precision, then the two big-endian sizes. */
  predicate FrameHeaderAt(data: seq<Byte>, p: nat, width: int, height: int) {
    && p + 9 <= |data|
    && data[p] == 0xFF && data[p + 1] in FRAME_MARKERS
    && height == data[p + 5] as int * 256 + data[p + 6] as int && width == data[p + 7] as int * 256 + data[p + 8] as int
  }

  lemma {:induction false} ScanFindsFrameHeader(data: seq<Byte>, pos: nat) returns (p: nat)
    requires Scan(data, pos).Some?
    ensures pos <= p && FrameHeaderAt(data, p, Scan(data, pos).value.0, Scan(data, pos).value.1)
    decreases |data| - pos
  {
    var marker := data[pos + 1];
    MarkersOfTableB1(marker);
    if data[pos] != 0xFF {
      p := ScanFindsFrameHeader(data, pos + 1);
    } else if IsFrameMarker(marker) {
      p := pos;
    } else if IsStandalone(marker) {
      p := ScanFindsFrameHeader(data, pos + 2);
    } else {
      p := ScanFindsFrameHeader(data, pos + 2 + BigU16(data, pos + 2));
    }
  }

  // ---------------------------------------------------------------- JPEG round trip

  /**
   What may precede the frame header: marker segments (section B.1.1.4), among them DHT, JPG, DAC, SOS,
   DQT, DNL, DRI, APPn and COM, and standalone markers.  The scan takes any code that is in neither
   list for a segment, those that T.81 reserves and 0x00, 0xD9 and 0xFF included, and steps over any
   other byte where it expects a marker.
   */
  datatype Item = Segment(marker: Byte, payload: seq<Byte>) | Standalone(marker: Byte) | Stray(byte: Byte)

  predicate ValidItem(item: Item) {
    match item
    case Segment(m, payload) => m !in FRAME_MARKERS && m !in STANDALONE_MARKERS && |payload| + 2 < 0x1_0000
    case Standalone(m) => m in STANDALONE_MARKERS
    case Stray(b) => b != 0xFF
  }

  function U16Bytes(n: nat): (r: seq<Byte>)
    requires n < 0x1_0000
    ensures |r| == 2
  {
    [n / 256, n % 256]
  }

  /** The length field of a segment counts itself. */
  function EncodeItem(item: Item): (r: seq<Byte>)
    requires ValidItem(item)
    ensures |r| >= 1
  {
    match item
    case Segment(m, payload) => [0xFF, m] + U16Bytes(|payload| + 2) + payload
    case Standalone(m) => [0xFF, m]
    case Stray(b) => [b]
  }

  function EncodeItems(items: seq<Item>): seq<Byte>
    requires forall i :: 0 <= i < |items| ==> ValidItem(items[i])
  {
    if items == [] then [] else EncodeItem(items[0]) + EncodeItems(items[1..])
  }

  /** Marker, length, sample precision, number of lines Y, samples per line X, the rest. */
  function EncodeFrameHeader(marker: Byte, length: nat, precision: Byte, height: nat, width: nat, rest: seq<Byte>): (r: seq<Byte>)
    requires length < 0x1_0000 && height < 0x1_0000 && width < 0x1_0000
    ensures |r| >= 9
  {
    [0xFF, marker] + U16Bytes(length) + [precision] + U16Bytes(height) + U16Bytes(width) + rest
  }

  /** Bytes that the scan passes over in one step. */
  predicate Passable(code: seq<Byte>) {
    if |code| == 1 then code[0] != 0xFF
    else
      && |code| >= 2 && code[0] == 0xFF && !IsFrameMarker(code[1])
      && if IsStandalone(code[1]) then |code| == 2
         else |code| >= 4 && |code| == 2 + (code[2] as int * 256 + code[3] as int)
  }

  lemma ItemIsPassable(item: Item)
    requires ValidItem(item)
    ensures Passable(EncodeItem(item))
  {
    if !item.Stray? {
      MarkersOfTableB1(item.marker);
    }
  }

  lemma PassCode(before: seq<Byte>, code: seq<Byte>, after: seq<Byte>)
    requires Passable(code) && |after| >= 4
    ensures Scan(before + code + after, |before|) == Scan(before + code + after, |before + code|)
  {
    var data := before + code + after;
    assert data[|before|] == code[0];
    if |code| > 1 {
      assert data[|before| + 1] == code[1];
    }
    if |code| > 1 && !IsStandalone(code[1]) {
      assert data[|before| + 2] == code[2] && data[|before| + 3] == code[3];
      ScanSkips(data, |before|, code[1], code[2] as int * 256 + code[3] as int);
    }
  }

  lemma ScanSkips(data: seq<Byte>, pos: nat, m: Byte, length: nat)
    requires pos + 4 <= |data| && data[pos] == 0xFF && data[pos + 1] == m && !IsFrameMarker(m) && !IsStandalone(m)
    requires data[pos + 2] as int * 256 + data[pos + 3] as int == length
    ensures Scan(data, pos) == Scan(data, pos + 2 + length)
  {
  }

  lemma {:induction false} SkipItems(before: seq<Byte>, items: seq<Item>, after: seq<Byte>)
    requires forall i :: 0 <= i < |items| ==> ValidItem(items[i])
    requires |after| >= 4
    ensures Scan(before + EncodeItems(items) + after, |before|) ==
            Scan(before + EncodeItems(items) + after, |before + EncodeItems(items)|)
    decreases |items|
  {
    if items != [] {
      var first, rest := EncodeItem(items[0]), EncodeItems(items[1..]);
      assert before + EncodeItems(items) + after == before + first + (rest + after);
      ItemIsPassable(items[0]);
      PassCode(before, first, rest + after);
      assert before + EncodeItems(items) + after == (before + first) + rest + after;
      SkipItems(before + first, items[1..], after);
    } else {
      assert before + EncodeItems(items) + after == before + after;
    }
  }

  /**
   Main result.  For any sequence of marker segments and standalone markers, followed by a frame
   header with Y lines of X samples and anything after it, the probe returns (X, Y).
   */
  lemma JpegRoundTrip(items: seq<Item>, marker: Byte, length: nat, precision: Byte,
                      height: nat, width: nat, rest: seq<Byte>)
    requires forall i :: 0 <= i < |items| ==> ValidItem(items[i])
    requires marker in FRAME_MARKERS && length < 0x1_0000 && height < 0x1_0000 && width < 0x1_0000
    ensures Probe([0xFF, 0xD8] + EncodeItems(items) + EncodeFrameHeader(marker, length, precision, height, width, rest))
            == Some((width, height))
  {
    var frame := EncodeFrameHeader(marker, length, precision, height, width, rest);
    var data := JPEG_SOI + EncodeItems(items) + frame;
    var pos := |JPEG_SOI + EncodeItems(items)|;
    MarkersOfTableB1(marker);
    SkipItems(JPEG_SOI, items, frame);
    FrameAt(JPEG_SOI + EncodeItems(items), marker, length, precision, height, width, rest);
    assert data[0] == 0xFF && data[1] == 0xD8;
    assert JPEG_SOI <= data && !(PNG_SIGNATURE <= data);
    assert Scan(data, 2) == Scan(data, pos);
  }

  /** At the frame header the scan reads the size. */
  lemma FrameAt(before: seq<Byte>, marker: Byte, length: nat, precision: Byte, height: nat, width: nat, rest: seq<Byte>)
    requires IsFrameMarker(marker) && length < 0x1_0000 && height < 0x1_0000 && width < 0x1_0000
    ensures Scan(before + EncodeFrameHeader(marker, length, precision, height, width, rest), |before|) == Some((width, height))
  {
    var frame := EncodeFrameHeader(marker, length, precision, height, width, rest);
    var data := before + frame;
    FrameBytes(marker, length, precision, height, width, rest);
    assert data[|before|] == frame[0] && data[|before| + 1] == frame[1];
    assert data[|before| + 5] == frame[5] && data[|before| + 6] == frame[6];
    assert data[|before| + 7] == frame[7] && data[|before| + 8] == frame[8];
    ScanReads(data, |before|, marker, width, height);
  }

  lemma FrameBytes(marker: Byte, length: nat, precision: Byte, height: nat, width: nat, rest: seq<Byte>)
    requires length < 0x1_0000 && height < 0x1_0000 && width < 0x1_0000
    ensures var frame := EncodeFrameHeader(marker, length, precision, height, width, rest);
            && frame[0] == 0xFF && frame[1] == marker
            && frame[5] as int * 256 + frame[6] as int == height && frame[7] as int * 256 + frame[8] as int == width
  {
  }

  lemma ScanReads(data: seq<Byte>, pos: nat, marker: Byte, width: nat, height: nat)
    requires pos + 9 <= |data| && data[pos] == 0xFF && data[pos + 1] == marker && IsFrameMarker(marker)
    requires data[pos + 5] as int * 256 + data[pos + 6] as int == height
    requires data[pos + 7] as int * 256 + data[pos + 8] as int == width
    ensures Scan(data, pos) == Some((width, height))
  {
  }

  // ---------------------------------------------------------------- PNG and BMP round trips

  function U32Bytes(n: nat): (r: seq<Byte>)
    requires n < 0x1_0000_0000
    ensures |r| == 4
  {
    [n / 0x100_0000, n / 0x1_0000 % 256, n / 256 % 256, n % 256]
  }

  function Reverse4(r: seq<Byte>): (q: seq<Byte>)
    requires |r| == 4
    ensures |q| == 4
  {
    [r[3], r[2], r[1], r[0]]
  }

  /** Signature, the length and type of IHDR, then width and height. */
  lemma PngRoundTrip(chunkHead: seq<Byte>, width: nat, height: nat, rest: seq<Byte>)
    requires |chunkHead| == 8 && width < 0x1_0000_0000 && height < 0x1_0000_0000
    ensures Probe([0x89, 0x50, 0x4E, 0x47, 0x0D, 0x0A, 0x1A, 0x0A] + chunkHead + U32Bytes(width) + U32Bytes(height) + rest)
            == Some((width, height))
  {
    var data := PNG_SIGNATURE + chunkHead + U32Bytes(width) + U32Bytes(height) + rest;
    assert PNG_SIGNATURE <= data;
    assert data[16..20] == U32Bytes(width) && data[20..24] == U32Bytes(height);
    assert BigU32(data, 16) == width by {
      assert forall i :: 0 <= i < 4 ==> data[16 + i] == data[16..20][i];
      FourDigits(width);
    }
    assert BigU32(data, 20) == height by {
      assert forall i :: 0 <= i < 4 ==> data[20 + i] == data[20..24][i];
      FourDigits(height);
    }
  }

  lemma FourDigits(n: nat)
    requires n < 0x1_0000_0000
    ensures n == n / 0x100_0000 * 0x100_0000 + n / 0x1_0000 % 256 * 0x1_0000 + n / 256 % 256 * 256 + n % 256
  {
    var a := n / 256;
    var b := a / 256;
    Quotients(n, a, b, b / 256);
  }

  /** Dividing by 256 again and again is dividing by its powers. */
  lemma Quotients(n: nat, a: nat, b: nat, c: nat)
    requires a * 256 <= n < a * 256 + 256 && b * 256 <= a < b * 256 + 256 && c * 256 <= b < c * 256 + 256
    ensures n / 256 == a && n / 0x1_0000 == b && n / 0x100_0000 == c
    ensures n % 256 == n - a * 256 && a % 256 == a - b * 256 && b % 256 == b - c * 256
  {
  }

  /** A signed 32-bit value as two's complement. */
  function Unsigned(x: int): nat
    requires -0x8000_0000 <= x < 0x8000_0000
  {
    if x < 0 then x + 0x1_0000_0000 else x
  }

  /** A negative BMP height means that the rows are stored top-down; the size is its absolute value. */
  lemma BmpRoundTrip(head: seq<Byte>, width: int, height: int, rest: seq<Byte>)
    requires |head| == 16
    requires -0x8000_0000 <= width < 0x8000_0000 && -0x8000_0000 <= height < 0x8000_0000
    ensures Probe([0x42, 0x4D] + head + Reverse4(U32Bytes(Unsigned(width))) + Reverse4(U32Bytes(Unsigned(height))) + rest)
            == Some((width, if height < 0 then -height else height))
  {
    var w, h := Reverse4(U32Bytes(Unsigned(width))), Reverse4(U32Bytes(Unsigned(height)));
    var data := BMP_SIGNATURE + head + w + h + rest;
    assert BMP_SIGNATURE <= data && data[0] == 0x42;
    assert !(PNG_SIGNATURE <= data) && !(JPEG_SOI <= data);
    assert LittleI32(data, 18) == width by {
      assert forall i :: 0 <= i < 4 ==> data[18 + i] == w[i];
      FourDigits(Unsigned(width));
    }
    assert LittleI32(data, 22) == height by {
      assert forall i :: 0 <= i < 4 ==> data[22 + i] == h[i];
      FourDigits(Unsigned(height));
    }
  }
}

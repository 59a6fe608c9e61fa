/** The orientation scanner `getOrientation` (processImg.js:52-83): it walks
    the marker segments of a JPEG stream (ITU-T T.81, Annex B) and, inside
    the first APP1 segment, reads the TIFF header (TIFF 6.0, section 2) and
    scans the IFD0 entries (section 8) for the Orientation tag.  A first
    APP1 segment without the Exif identifier ends the scan with -1, even
    when an Exif segment follows.

    The specification is `Orientation`, built from `ScanStep` (one turn of
    the scanner's `while` loop), `ScanFrom` (the loop) and `FindEntry` (the
    inner `for` loop over the IFD entries).  The method `GetOrientation` is
    the scanner itself, a cursor `offset` advanced through the buffer; its
    APP1 branch and the inner loop are the methods `ReadApp1Segment` and
    `FindOrientationEntry`, each proved against its own function. */
module OrientationScanner {
  import opened DataView

  const SOI: nat := 0xFFD8                // start-of-image marker
  const APP1: nat := 0xFFE1               // application segment 1 marker
  const EXIF_ID: nat := 0x4578_6966       // "Exif"
  const LITTLE_ENDIAN: nat := 0x4949      // TIFF byte-order word "II"
  const ORIENTATION_TAG: nat := 0x0112    // TIFF tag 274
  const ENTRY_SIZE: nat := 12             // bytes per IFD entry

  const NOT_JPEG: int := -2
  const NOT_FOUND: int := -1

  /** What `getOrientation` does: return a number, or throw the `RangeError`
      of a read past the end of the buffer. */
  datatype Outcome = Code(value: int) | RangeError

  /** A result the scanner can return without throwing. */
  predicate IsScanCode(v: int) {
    v == NOT_JPEG || v == NOT_FOUND || 0 <= v < 0x1_0000
  }

  /** The outcome of scanning the IFD entries from entry `i` on. */
  datatype EntrySearch = Found(value: nat) | Missing | Overrun

  /** The tag read of entry `i`: the first two bytes of the 12-byte entry. */
  function TagAt(buf: seq<Byte>, entries: nat, little: bool, i: nat): (r: Read)
    ensures var e := entries + i * ENTRY_SIZE;
      (r.Ok? <==> e + 2 <= |buf|) && (r.Ok? ==> r.value < 0x1_0000)
  {
    GetUint16(buf, entries + i * ENTRY_SIZE, little)
  }

  /** The value read of entry `i`: bytes 8 and 9 of the entry, where a SHORT
      value sits. */
  function ValueAt(buf: seq<Byte>, entries: nat, little: bool, i: nat): (r: Read)
    ensures var e := entries + i * ENTRY_SIZE + 8;
      (r.Ok? <==> e + 2 <= |buf|) && (r.Ok? ==> r.value < 0x1_0000)
  {
    GetUint16(buf, entries + i * ENTRY_SIZE + 8, little)
  }

  /** The tag of entry `i` is stored in the entry's bytes 0 and 1, and its
      value in bytes 8 and 9, in the TIFF byte order. */
  lemma EntryFieldBytes(buf: seq<Byte>, entries: nat, little: bool, i: nat)
    ensures var e := entries + i * ENTRY_SIZE;
      (TagAt(buf, entries, little, i).Ok? ==>
         Uint16Bytes(TagAt(buf, entries, little, i).value, little) == buf[e..e + 2]) &&
      (ValueAt(buf, entries, little, i).Ok? ==>
         Uint16Bytes(ValueAt(buf, entries, little, i).value, little) == buf[e + 8..e + 10])
  {
  }

  /** The inner loop over the `count` entries that start at `entries`
      (processImg.js:71-75), from entry `i` on. */
  function FindEntry(buf: seq<Byte>, entries: nat, count: nat, little: bool, i: nat): (s: EntrySearch)
    decreases count - i
    ensures s.Found? ==> s.value < 0x1_0000
  {
    if i >= count then Missing
    else match TagAt(buf, entries, little, i)
      case OutOfRange => Overrun
      case Ok(tag) =>
        if tag == ORIENTATION_TAG then
          match ValueAt(buf, entries, little, i)
          case OutOfRange => Overrun
          case Ok(v) => Found(v)
        else FindEntry(buf, entries, count, little, i + 1)
  }

  /** One turn of the scan loop: stop with an outcome, or resume at the next
      offset.  A skipped segment advances by its length, which has been
      seen to exceed 8; an APP1 segment whose IFD0 lacks the tag resumes at
      its first IFD entry.  Either way the cursor moves forward. */
  datatype Step = Stop(result: Outcome) | Resume(next: nat)

  function ScanStep(buf: seq<Byte>, offset: nat): (s: Step)
    ensures s.Resume? ==> s.next >= offset + 11
    ensures s.Stop? && s.result.Code? ==> s.result.value == NOT_FOUND || 0 <= s.result.value < 0x1_0000
  {
    match GetUint16(buf, offset + 2, false)
    case OutOfRange => Stop(RangeError)
    case Ok(segmentLength) =>
      if segmentLength <= 8 then Stop(Code(NOT_FOUND))
      else
        var marker := GetUint16(buf, offset, false).value;
        if marker == APP1 then AppStep(buf, offset + 2)
        else if marker / 0x100 != 0xFF then Stop(Code(NOT_FOUND))
        else Resume(offset + 2 + GetUint16(buf, offset + 2, false).value)
  }

  /** The APP1 branch (processImg.js:64-75), entered with the cursor just past
      the marker. */
  function AppStep(buf: seq<Byte>, cursor: nat): (s: Step)
    ensures s.Resume? ==> s.next >= cursor + 10
    ensures s.Stop? && s.result.Code? ==> s.result.value == NOT_FOUND || 0 <= s.result.value < 0x1_0000
  {
    match GetUint32(buf, cursor + 2, false)
    case OutOfRange => Stop(RangeError)
    case Ok(identifier) =>
      if identifier != EXIF_ID then Stop(Code(NOT_FOUND))
      else
        var tiff := cursor + 8;
        match GetUint16(buf, tiff, false)
        case OutOfRange => Stop(RangeError)
        case Ok(byteOrder) =>
          var little := byteOrder == LITTLE_ENDIAN;
          match GetUint32(buf, tiff + 4, little)
          case OutOfRange => Stop(RangeError)
          case Ok(ifdOffset) =>
            var ifd := tiff + ifdOffset;
            match GetUint16(buf, ifd, little)
            case OutOfRange => Stop(RangeError)
            case Ok(count) =>
              match FindEntry(buf, ifd + 2, count, little, 0)
              case Found(v) => Stop(Code(v))
              case Overrun => Stop(RangeError)
              case Missing => Resume(ifd + 2)
  }

  /** The scan loop (processImg.js:59-82) from `offset` on. */
  function ScanFrom(buf: seq<Byte>, offset: nat): (r: Outcome)
    decreases |buf| - offset
    ensures r.Code? ==> r.value == NOT_FOUND || 0 <= r.value < 0x1_0000
  {
    if offset >= |buf| then Code(NOT_FOUND)
    else match ScanStep(buf, offset)
      case Stop(result) => result
      case Resume(next) => ScanFrom(buf, next)
  }

  /** What `getOrientation` returns for the buffer `buf`: the SOI check, then
      the scan from offset 2. */
  function Orientation(buf: seq<Byte>): (r: Outcome)
    ensures r.Code? ==> IsScanCode(r.value)
    ensures |buf| < 2 ==> r == RangeError
    ensures r == Code(NOT_JPEG) <==> |buf| >= 2 && (buf[0] != 0xFF || buf[1] != 0xD8)
  {
    match GetUint16(buf, 0, false)
    case OutOfRange => RangeError
    case Ok(soi) => if soi != SOI then Code(NOT_JPEG) else ScanFrom(buf, 2)
  }

  /** The `for` loop over the IFD entries (processImg.js:71-75): the first
      entry tagged 0x0112 gives its value, a read past the end throws, and
      a loop that runs out of entries gives `Missing`. */
  method FindOrientationEntry(view: seq<Byte>, entries: nat, count: nat, little: bool) returns (s: EntrySearch)
    ensures s == FindEntry(view, entries, count, little, 0)
  {
    for i := 0 to count
      invariant FindEntry(view, entries, count, little, i) == FindEntry(view, entries, count, little, 0)
    {
      var tag := GetUint16(view, entries + i * ENTRY_SIZE, little);
      if tag.OutOfRange? {
        return Overrun;
      }
      if tag.value == ORIENTATION_TAG {
        var value := GetUint16(view, entries + i * ENTRY_SIZE + 8, little);
        if value.OutOfRange? {
          return Overrun;
        }
        return Found(value.value);
      }
    }
    return Missing;
  }

  /** The APP1 branch of the scan loop (processImg.js:64-75), entered with
      `offset` just past the marker.  Either the scan ends here, or it goes
      on with `offset` where the branch leaves it: at the first IFD0 entry. */
  method ReadApp1Segment(view: seq<Byte>, cursor: nat) returns (s: Step)
    ensures s == AppStep(view, cursor)
  {
    var offset := cursor + 2;
    var identifier := GetUint32(view, offset, false);
    if identifier.OutOfRange? {
      return Stop(RangeError);
    }
    if identifier.value != EXIF_ID {
      return Stop(Code(NOT_FOUND));
    }
    offset := offset + 6;
    var byteOrder := GetUint16(view, offset, false);
    if byteOrder.OutOfRange? {
      return Stop(RangeError);
    }
    var little := byteOrder.value == LITTLE_ENDIAN;
    var ifdOffset := GetUint32(view, offset + 4, little);
    if ifdOffset.OutOfRange? {
      return Stop(RangeError);
    }
    offset := offset + ifdOffset.value;
    var tags := GetUint16(view, offset, little);
    if tags.OutOfRange? {
      return Stop(RangeError);
    }
    offset := offset + 2;
    var entry := FindOrientationEntry(view, offset, tags.value, little);
    if entry.Found? {
      return Stop(Code(entry.value));
    }
    if entry.Overrun? {
      return Stop(RangeError);
    }
    return Resume(offset);
  }

  /** `getOrientation(byts)`: the buffer is only read (there is no `modifies`
      clause), and the result is the one the specification gives. */
  method GetOrientation(byts: array<Byte>) returns (r: Outcome)
    ensures r == Orientation(byts[..])
  {
    var view := byts[..];
    var soi := GetUint16(view, 0, false);
    if soi.OutOfRange? {
      return RangeError;
    }
    if soi.value != SOI {
      return Code(NOT_JPEG);
    }
    var length := |view|;
    var offset := 2;
    while offset < length
      invariant ScanFrom(view, offset) == Orientation(view)
      decreases length - offset
    {
      var segmentLength := GetUint16(view, offset + 2, false);
      if segmentLength.OutOfRange? {
        return RangeError;
      }
      if segmentLength.value <= 8 {
        return Code(NOT_FOUND);
      }
      var marker := GetUint16(view, offset, false).value;
      offset := offset + 2;
      if marker == APP1 {
        var step := ReadApp1Segment(view, offset);
        if step.Stop? {
          return step.result;
        }
        offset := step.next;
      } else if marker / 0x100 != 0xFF {
        break;
      } else {
        offset := offset + GetUint16(view, offset, false).value;
      }
    }
    return Code(NOT_FOUND);
  }

  // The inner loop returns the value of the first entry tagged 0x0112.

  /** None of the entries `i` up to `k` (exclusive) can be read and found
      wanting: each tag read succeeds and is not the Orientation tag. */
  ghost predicate NoMatchBetween(buf: seq<Byte>, entries: nat, little: bool, i: nat, k: nat) {
    forall j :: i <= j < k ==> TagAt(buf, entries, little, j).Ok? && TagAt(buf, entries, little, j).value != ORIENTATION_TAG
  }

  /** The first entry tagged 0x0112 decides the search: its value, or a
      `RangeError` if the value lies past the end of the buffer. */
  lemma {:induction false} FindEntryFirstMatch(buf: seq<Byte>, entries: nat, count: nat, little: bool, i: nat, k: nat)
    requires i <= k < count
    requires NoMatchBetween(buf, entries, little, i, k)
    requires TagAt(buf, entries, little, k) == Ok(ORIENTATION_TAG)
    ensures FindEntry(buf, entries, count, little, i) ==
      match ValueAt(buf, entries, little, k)
      case Ok(v) => Found(v)
      case OutOfRange => Overrun
    decreases k - i
  {
    if i < k {
      FindEntryFirstMatch(buf, entries, count, little, i + 1, k);
    }
  }

  /** A tag read past the end before any match throws. */
  lemma {:induction false} FindEntryTagOverrun(buf: seq<Byte>, entries: nat, count: nat, little: bool, i: nat, k: nat)
    requires i <= k < count
    requires NoMatchBetween(buf, entries, little, i, k)
    requires TagAt(buf, entries, little, k) == OutOfRange
    ensures FindEntry(buf, entries, count, little, i) == Overrun
    decreases k - i
  {
    if i < k {
      FindEntryTagOverrun(buf, entries, count, little, i + 1, k);
    }
  }

  /** When every entry is readable and none is tagged 0x0112, the loop ends
      without a result. */
  lemma {:induction false} FindEntryNoMatch(buf: seq<Byte>, entries: nat, count: nat, little: bool, i: nat)
    requires i <= count
    requires NoMatchBetween(buf, entries, little, i, count)
    ensures FindEntry(buf, entries, count, little, i) == Missing
    decreases count - i
  {
    if i < count {
      FindEntryNoMatch(buf, entries, count, little, i + 1);
    }
  }

  /** Conversely, a search only ends without a result when every entry is
      readable and none is tagged 0x0112. */
  lemma {:induction false} FindEntryMissingOnlyIfNoMatch(buf: seq<Byte>, entries: nat, count: nat, little: bool, i: nat)
    requires i <= count
    requires FindEntry(buf, entries, count, little, i) == Missing
    ensures NoMatchBetween(buf, entries, little, i, count)
    decreases count - i
  {
    if i < count {
      FindEntryMissingOnlyIfNoMatch(buf, entries, count, little, i + 1);
    }
  }

  // One turn of the scan loop, case by case.

  /** A segment length of 8 or less ends the scan with -1. */
  lemma SegmentLengthTooSmall(buf: seq<Byte>, offset: nat)
    requires offset + 4 <= |buf|
    requires buf[offset + 2] == 0 && buf[offset + 3] <= 8
    ensures ScanFrom(buf, offset) == Code(NOT_FOUND)
  {
  }

  /** Near the end of the buffer, the look at the length field already reads
      past the end and throws. */
  lemma LengthPeekPastEnd(buf: seq<Byte>, offset: nat)
    requires offset < |buf| < offset + 4
    ensures ScanFrom(buf, offset) == RangeError
  {
  }

  /** A byte other than 0xFF where a marker should start ends the scan
      with -1. */
  lemma NonMarkerStops(buf: seq<Byte>, offset: nat)
    requires offset + 4 <= |buf|
    requires GetUint16(buf, offset + 2, false).value > 8
    requires buf[offset] != 0xFF
    ensures ScanFrom(buf, offset) == Code(NOT_FOUND)
  {
  }

  /** Any marker other than APP1 is skipped by its big-endian length, which
      counts the two length bytes, so the scan resumes at the next marker. */
  lemma SkipSegment(buf: seq<Byte>, offset: nat)
    requires offset + 4 <= |buf|
    requires buf[offset] == 0xFF && buf[offset + 1] != 0xE1
    requires GetUint16(buf, offset + 2, false).value > 8
    ensures ScanFrom(buf, offset) == ScanFrom(buf, offset + 2 + 0x100 * (buf[offset + 2] as int) + (buf[offset + 3] as int))
  {
  }

  /** An APP1 segment is entered with these reads: big-endian length and
      marker, the identifier at the marker plus 4, the TIFF byte-order word
      at the marker plus 10, the IFD0 offset 4 bytes later and the entry
      count at the TIFF header plus that offset.  `little` holds exactly
      when the byte-order word is "II". */
  ghost predicate ExifHeader(buf: seq<Byte>, offset: nat, little: bool, ifd: nat, count: nat) {
    offset + 4 <= |buf| &&
    buf[offset] == 0xFF && buf[offset + 1] == 0xE1 &&
    GetUint16(buf, offset + 2, false).value > 8 &&
    GetUint32(buf, offset + 4, false) == Ok(EXIF_ID) &&
    offset + 12 <= |buf| &&
    (little <==> buf[offset + 10] == 0x49 && buf[offset + 11] == 0x49) &&
    GetUint32(buf, offset + 14, little).Ok? &&
    ifd == offset + 10 + GetUint32(buf, offset + 14, little).value &&
    GetUint16(buf, ifd, little) == Ok(count)
  }

  /** An APP1 segment without the "Exif" identifier ends the scan with -1. */
  lemma ExifIdentifierMissing(buf: seq<Byte>, offset: nat)
    requires offset + 8 <= |buf|
    requires buf[offset] == 0xFF && buf[offset + 1] == 0xE1
    requires GetUint16(buf, offset + 2, false).value > 8
    requires GetUint32(buf, offset + 4, false) != Ok(EXIF_ID)
    ensures ScanFrom(buf, offset) == Code(NOT_FOUND)
  {
  }

  /** In an Exif APP1 segment the result is the value at byte 8 of the first
      IFD0 entry tagged 0x0112, read in the TIFF header's byte order. */
  lemma {:induction false} ExifOrientationFound(buf: seq<Byte>, offset: nat, little: bool, ifd: nat, count: nat, k: nat)
    requires ExifHeader(buf, offset, little, ifd, count)
    requires k < count && NoMatchBetween(buf, ifd + 2, little, 0, k)
    requires TagAt(buf, ifd + 2, little, k) == Ok(ORIENTATION_TAG)
    requires ValueAt(buf, ifd + 2, little, k).Ok?
    ensures ScanFrom(buf, offset) == Code(ValueAt(buf, ifd + 2, little, k).value)
  {
    assert (GetUint16(buf, offset + 10, false) == Ok(LITTLE_ENDIAN)) == little;
    FindEntryFirstMatch(buf, ifd + 2, count, little, 0, k);
  }

  /** An Exif APP1 segment whose IFD0 has no entry tagged 0x0112 does not end
      the scan: it resumes with the cursor at the first IFD0 entry. */
  lemma {:induction false} ExifOrientationMissing(buf: seq<Byte>, offset: nat, little: bool, ifd: nat, count: nat)
    requires ExifHeader(buf, offset, little, ifd, count)
    requires NoMatchBetween(buf, ifd + 2, little, 0, count)
    ensures ScanFrom(buf, offset) == ScanFrom(buf, ifd + 2)
  {
    assert (GetUint16(buf, offset + 10, false) == Ok(LITTLE_ENDIAN)) == little;
    FindEntryNoMatch(buf, ifd + 2, count, little, 0);
  }

  /** A buffer that does not start with SOI gives -2 whatever follows its
      first two bytes. */
  lemma NotJpegIgnoresRest(buf: seq<Byte>, rest: seq<Byte>)
    requires |buf| >= 2 && (buf[0] != 0xFF || buf[1] != 0xD8)
    ensures Orientation(buf + rest) == Code(NOT_JPEG)
  {
    assert (buf + rest)[0] == buf[0] && (buf + rest)[1] == buf[1];
  }

  /** A minimal Exif JPEG: SOI, an APP1 segment of length 34 whose TIFF
      header is little-endian with IFD0 at offset 8 holding one entry,
      Orientation = 6, then EOI. */
  function ExampleJpeg(): seq<Byte> {
    [0xFF, 0xD8,
     0xFF, 0xE1, 0x00, 0x22,
     0x45, 0x78, 0x69, 0x66, 0x00, 0x00,
     0x49, 0x49, 0x2A, 0x00, 0x08, 0x00, 0x00, 0x00,
     0x01, 0x00,
     0x12, 0x01, 0x03, 0x00, 0x01, 0x00, 0x00, 0x00, 0x06, 0x00, 0x00, 0x00,
     0x00, 0x00, 0x00, 0x00,
     0xFF, 0xD9]
  }

  /** The reads of the example's APP1 segment, one lemma each. */
  lemma ExampleIdentifier(buf: seq<Byte>)
    requires buf == ExampleJpeg()
    ensures GetUint32(buf, 6, false) == Ok(EXIF_ID)
  {
  }

  lemma ExampleIfdOffset(buf: seq<Byte>)
    requires buf == ExampleJpeg()
    ensures GetUint32(buf, 16, true) == Ok(8)
  {
  }

  lemma ExampleIfdEntry(buf: seq<Byte>)
    requires buf == ExampleJpeg()
    ensures GetUint16(buf, 20, true) == Ok(1)
    ensures TagAt(buf, 22, true, 0) == Ok(ORIENTATION_TAG)
    ensures ValueAt(buf, 22, true, 0) == Ok(6)
  {
  }

  lemma ExampleJpegHeader(buf: seq<Byte>)
    requires buf == ExampleJpeg()
    ensures ExifHeader(buf, 2, true, 20, 1)
  {
    assert buf[2] == 0xFF && buf[3] == 0xE1 && buf[4] == 0 && buf[5] == 0x22;
    assert buf[12] == 0x49 && buf[13] == 0x49;
    ExampleIdentifier(buf);
    ExampleIfdOffset(buf);
    ExampleIfdEntry(buf);
  }

  /** The Exif JPEG above has orientation 6. */
  lemma ExampleJpegOrientation(buf: seq<Byte>)
    requires buf == ExampleJpeg()
    ensures Orientation(buf) == Code(6)
  {
    ExampleJpegHeader(buf);
    ExampleIfdEntry(buf);
    ExifOrientationFound(buf, 2, true, 20, 1, 0);
    assert GetUint16(buf, 0, false) == Ok(SOI);
  }
}

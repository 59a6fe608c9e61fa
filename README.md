# Client-side image downscaling with Exif orientation, in Dafny

This project models the core of `processImg.js`. That file is a browser helper that reads an
uploaded JPEG, finds the Exif orientation tag, and redraws the picture on a canvas. The new
picture is no larger than a maximum width and height, and it is turned upright.

The model has two parts:

- **The orientation scanner (`getOrientation`).** It walks the JPEG marker segments
  (ITU-T T.81, Annex B). In the first APP1 segment it reads the TIFF header and the
  entries of IFD0 (TIFF 6.0, sections 2 and 8), and it returns the value of tag `0x0112`.
  A first APP1 segment without the Exif identifier ends the scan with `-1`, even when an
  Exif segment follows it.
  - It returns `-2` when the buffer does not start with SOI (`FF D8`).
  - It returns `-1` when the segment walk ends without finding the tag.
  - Where `DataView` would throw a `RangeError`, the model returns an explicit outcome.
- **The resize geometry of `resizeMe`.** This covers the fitted size, the canvas size, the
  transform calls issued on the 2D context, and the rectangle the image is drawn into. All of
  these are plain values. A small canvas semantics (`Canvas2D`) says where each source pixel
  lands on the canvas.

Modules:

- `DataView` (`dataview.dfy`): `getUint16` and `getUint32` in both byte orders. A read past
  the end of the buffer gives `OutOfRange`.
- `OrientationScanner` (`orientation_scanner.dfy`): the imperative scanner `GetOrientation`.
  It runs over an `array` of bytes, with the `while` loop of the source. Its APP1 branch is
  the method `ReadApp1Segment`, and its inner `for` loop over the IFD entries is the method
  `FindOrientationEntry`. Each of the three methods is proved equal to a specification
  function (`Orientation`/`ScanFrom`, `AppStep` and `FindEntry`). The lemmas state what the
  scan returns in each case.
- `Canvas2D` (`canvas.dfy`): the context calls `translate`, `scale(-1, 1)` and `rotate` in
  whole degrees, recorded as data. `Transform` gives their meaning as a map on points.
- `ResizePlanner` (`resize_planner.dfy`): `Fit`, `OrientationOps` and `Plan`. It also holds
  the upright-display semantics of the Exif orientation codes (`Upright`) and the proof that
  the plan displays the image upright.

## Model

| member | source | states |
|---|---|---|
| DataView.GetUint16 | processImg.js:60-61 | a 16-bit read succeeds exactly when both bytes lie inside the buffer; the value is below 65536; big-endian puts the first byte high and little-endian puts it low |
| DataView.GetUint32 | processImg.js:64 | a 32-bit read succeeds exactly when all four bytes lie inside the buffer, and the value is below 2^32 |
| DataView.Uint32ReadBytes | processImg.js:64 | a 32-bit read at any offset inside the buffer yields the value whose four bytes, in the given byte order, are the four bytes at that offset |
| DataView.Uint32ReadsStoredValue | processImg.js:68 | a value stored in four bytes at any offset, in either byte order, is read back by a 32-bit read at that offset (converse of Uint32ReadBytes) |
| DataView.Uint32ReadIsLocal | processImg.js:64 | a 32-bit read depends only on its own four bytes |
| DataView.Uint16ReadIsLocal | processImg.js:60-61 | a 16-bit read depends only on its own two bytes |
| DataView.Uint16RoundTrip | processImg.js:67-69 | reading back the two bytes that store a 16-bit value, in either byte order, gives that value |
| DataView.Uint32RoundTrip | processImg.js:68 | reading back the four bytes that store a 32-bit value, in either byte order, gives that value |
| DataView.Uint16ByteOrder | processImg.js:67-69 | a little-endian read of two bytes equals a big-endian read of the same bytes swapped |
| OrientationScanner.TagAt | processImg.js:72 | the tag read of entry `i` succeeds exactly when the entry's first two bytes, 12*i bytes after the first entry, lie inside the buffer, and gives a 16-bit value |
| OrientationScanner.ValueAt | processImg.js:73 | the value read of entry `i` succeeds exactly when the entry's bytes 8 and 9 lie inside the buffer, and gives a 16-bit value |
| OrientationScanner.EntryFieldBytes | processImg.js:72-73 | the tag read of an entry gives the value stored in its bytes 0-1, and the value read gives the one stored in its bytes 8-9, in the TIFF byte order |
| OrientationScanner.FindEntry | processImg.js:71-75 | an orientation value found among the IFD entries is a 16-bit value |
| OrientationScanner.FindOrientationEntry | processImg.js:71-75 | the entry loop returns exactly the outcome of the entry search `FindEntry` from entry 0: found value, read overrun, or no match |
| OrientationScanner.FindEntryFirstMatch | processImg.js:71-74 | if entries before `k` all carry a readable tag other than 0x0112 and entry `k` carries 0x0112, the search returns the value read 8 bytes into entry `k`, or an overrun if that read fails |
| OrientationScanner.FindEntryTagOverrun | processImg.js:72 | if the tag read of the first non-skipped entry falls past the end, the search throws |
| OrientationScanner.FindEntryNoMatch | processImg.js:71-75 | if no entry carries the tag, the search reports no match |
| OrientationScanner.FindEntryMissingOnlyIfNoMatch | processImg.js:71-75 | the search reports no match only when every entry has a readable tag other than 0x0112 (converse of FindEntryNoMatch) |
| OrientationScanner.AppStep | processImg.js:63-75 | one APP1 segment either stops the scan with -1, a 16-bit value or a RangeError, or resumes at least 10 bytes further on |
| OrientationScanner.ReadApp1Segment | processImg.js:63-75 | the APP1 branch, with its in-place offset arithmetic, computes exactly `AppStep` |
| OrientationScanner.ScanStep | processImg.js:59-80 | one loop iteration either stops with -1, a 16-bit value or a RangeError, or moves the cursor at least 11 bytes forward |
| OrientationScanner.ScanFrom | processImg.js:59-82 | the segment walk ends on every buffer, with -1, a 16-bit value or a RangeError |
| OrientationScanner.Orientation | processImg.js:52-83 | the result is -2 exactly when the buffer has two bytes that are not FF D8; a buffer shorter than 2 bytes throws; every other result is -1 or a 16-bit value |
| OrientationScanner.GetOrientation | processImg.js:52-83 | the imperative scan over the byte array returns exactly `Orientation` of its contents, and changes nothing |
| OrientationScanner.SegmentLengthTooSmall | processImg.js:60 | a segment whose length field is at most 8 ends the scan with -1 |
| OrientationScanner.LengthPeekPastEnd | processImg.js:59-60 | a cursor inside the buffer but fewer than 4 bytes from its end throws a RangeError |
| OrientationScanner.NonMarkerStops | processImg.js:76-77 | a segment whose first byte is not FF ends the scan with -1 |
| OrientationScanner.SkipSegment | processImg.js:78-80 | any other marker is skipped: the scan continues at offset + 2 + its big-endian length field |
| OrientationScanner.ExifIdentifierMissing | processImg.js:64-65 | an APP1 segment without the "Exif" identifier ends the scan with -1 |
| OrientationScanner.ExifOrientationFound | processImg.js:63-74 | in a well-formed Exif APP1 segment whose IFD0 has the tag at entry `k` (and no earlier match), the scan returns that entry's value read in the TIFF byte order |
| OrientationScanner.ExifOrientationMissing | processImg.js:67-75 | in a well-formed Exif APP1 segment without the tag, the scan resumes at the IFD's first entry |
| OrientationScanner.NotJpegIgnoresRest | processImg.js:54-56 | a buffer that does not start with FF D8 gives -2, whatever follows |
| OrientationScanner.ExampleJpegOrientation | processImg.js:52-83 | a 40-byte little-endian Exif JPEG with orientation 6 is scanned to 6 |
| Canvas2D.ApplyOp | processImg.js:20-35 | the meaning of one context call on a point: `translate` moves it by its offsets; `scale(-1, 1)` and a quarter or half `rotate` keep it at its distance from the origin |
| Canvas2D.ApplyOpInverse | processImg.js:20-35 | each call is undone by the call with the opposite offset or angle, and the flip undoes itself |
| Canvas2D.Transform | processImg.js:20-38 | the map of a list of calls, the first call issued outermost; a list without translations keeps every point at its distance from the origin |
| Canvas2D.TransformAppend | processImg.js:20-37 | issuing two lists of calls one after the other composes their maps |
| ResizePlanner.RoundedQuotient | processImg.js:8 | the quotient is n/d rounded to the nearest integer, with halves rounded up |
| ResizePlanner.RoundedQuotientAtMost | processImg.js:8 | rounding keeps n/d below a bound k that n/d does not exceed |
| ResizePlanner.Fit | processImg.js:6-14 | a landscape image wider than the limit gets the limit width and its rounded scaled height; a portrait or square image taller than the limit gets the limit height and its rounded scaled width; any other image keeps its size |
| ResizePlanner.SwapsAxes | processImg.js:16 | the membership test in `[6, 8, 5, 7]` holds exactly for the orientations 5 to 8 |
| ResizePlanner.OrientationOps | processImg.js:22-37 | every op in the switch tables is a flip or a quarter or half turn about the origin, and the table ends in a turn of 90 or -90 degrees exactly for the orientations that swap the canvas sides |
| ResizePlanner.Layout | processImg.js:16-21 | the canvas is the scaled size, possibly with its sides exchanged; the draw rectangle of either branch (lines 30 and 38) is the scaled image centred on the origin; the ops are translate(0, 0), the translate to the canvas centre, then the orientation ops |
| ResizePlanner.Plan | processImg.js:3-39 | the image is never enlarged, and every op has a meaning; after the two translates the image is only flipped or turned about the canvas centre (CanvasSize, DrawCentred, OpTable and PlanDisplaysUpright state the rest) |
| ResizePlanner.FitBounds | processImg.js:6-14 | the fitted size is never larger than the original, and the dominant side is within its limit |
| ResizePlanner.FitWithinBoundsIsIdentity | processImg.js:6-14 | an image already within both limits is not resized |
| ResizePlanner.FitKeepsAspect | processImg.js:7-13 | a rescaled image keeps its aspect ratio up to half a pixel on the derived side |
| ResizePlanner.FitMinorSideUnbounded | processImg.js:6-14 | only the dominant side is checked: a 4000x3000 image with limits 2000x100 becomes 2000x1500 |
| ResizePlanner.CanvasSize | processImg.js:16-18 | the canvas takes the fitted size, with width and height swapped exactly for orientations 5-8 |
| ResizePlanner.DrawCentred | processImg.js:20-21 | the first two ops are translate(0, 0) and a translate to the canvas centre, and the image is drawn centred on the origin |
| ResizePlanner.OpTable | processImg.js:22-37 | the ops after the two translates, for each orientation code: rotate 90 (6), -90 (8), flip then 90 (5), flip then -90 (7), 180 (3), flip (2 and 4), nothing otherwise |
| ResizePlanner.OtherCodesAsOne | processImg.js:22-37 | any code outside 2-8 (including -1 and -2) gives the same plan as orientation 1 |
| ResizePlanner.ExamplePlan | processImg.js:3-39 | a 4000x3000 image with limits 2000x2000 and orientation 6 gets the whole plan shown in the lemma |
| ResizePlanner.UprightFillsBox | processImg.js:16-18 | the upright-display map of each orientation sends the stored image onto a box of the canvas size, and has an inverse |
| ResizePlanner.LayoutTransform | processImg.js:20-21 | the two translates shift every drawn point by half the canvas |
| ResizePlanner.QuarterTurnUpright | processImg.js:22-30 | for orientations 5-8, the issued ops map each stored pixel to its upright position relative to the centre |
| ResizePlanner.StraightUpright | processImg.js:31-38 | for orientations other than 4-8, the issued ops map each stored pixel to its upright position relative to the centre |
| ResizePlanner.LayoutUpright | processImg.js:16-38 | for every orientation but 4, the laid-out image shows each pixel at its upright position on the canvas |
| ResizePlanner.PlanDisplaysUpright | processImg.js:3-39 | for every orientation but 4, the plan draws each pixel of the fitted image at its upright position on the canvas |
| ResizePlanner.OrientationFourAsWritten | processImg.js:35 | orientation 4 as written mirrors left-right, while the upright display of code 4 mirrors top-bottom |
| ResizePlanner.OrientationFourMirrorsWrongAxis | processImg.js:35 | a 4x2 image with orientation 4 puts its top-left pixel at (4, 0); upright display puts it at (0, 2) |
| ResizePlanner.CorrectedPlanDisplaysUpright | processImg.js:32-38 | with orientation 4 drawn as a half turn plus a left-right flip, every orientation code displays upright, and every other code keeps the plan as written |

## Left out

- Rendering is left out: `document.createElement`, `getContext`, the pixels `drawImage` draws, `ctx.restore` and `canvas.toDataURL` (processImg.js:2, 19, 30, 38, 40-41). The context calls and the draw rectangle are data, and `Canvas2D.Transform` gives their meaning.
- The base64 decode with `atob` and the loop that copies the decoded string into a `Uint8Array` (processImg.js:42-49) are left out. They are encoding plumbing with no geometry in them.
- `processfile` and the default export (processImg.js:85-121) are left out, because they are promise, `FileReader`, `Blob`, `Image` and `window` glue. This includes three behaviours of that glue:
  - `resolve(file)` at line 87 is not followed by a `return`;
  - a `RangeError` thrown from `getOrientation` inside `onload` is never caught, so that promise never settles;
  - the browser feature check at line 112.
- Angles are whole degrees, not radians, and `Math.PI` is not modelled. Only quarter turns are given a meaning, and those are the only angles the source issues.
- `ResizePlanner.RoundedQuotient`: `Math.round(height *= max / width)` is computed in floating point. The model rounds the exact rational quotient to nearest with halves up. It does not capture double rounding of the product.
- `ResizePlanner.Fit`: the image and limit dimensions are natural numbers. Non-integer or negative `max_width` and `max_height` options are not modelled.
- Offsets are unbounded naturals. JavaScript number precision of the cursor (above 2^53) is not modelled. It cannot be reached, because the cursor is checked against the buffer length.
- `OrientationScanner.GetOrientation` takes the whole `ArrayBuffer` as an immutable byte array. `DataView` views over part of a buffer are not modelled.
- A read past the end throws a `RangeError` in the code. The model keeps this as its own outcome, not as `-1`.
- When an Exif IFD0 has no `0x0112` entry, the code resumes the marker walk at the IFD's first entry, reading the entries as marker segments. The model keeps this fall-through as written (`ExifOrientationMissing`).
- The fit checks only the dominant side against its limit, so the other side can stay above its own limit (`FitMinorSideUnbounded`). The model keeps this as written.

## Findings

| source | as written | input that shows it | evidently intended | confidence | as-written member | corrected member |
|---|---|---|---|---|---|---|
| processImg.js:35 | orientation 4 issues `scale(-1, 1)`, a left-right mirror, the same as orientation 2 | a 4x2 image with orientation 4: its top-left stored pixel lands at canvas (4, 0) | TIFF 6.0 Orientation = 4 means row 0 is the visual bottom, so the image needs a top-bottom mirror, and that pixel belongs at (0, 2) | high; not executed | ResizePlanner.OrientationFourMirrorsWrongAxis | ResizePlanner.CorrectedPlanDisplaysUpright |

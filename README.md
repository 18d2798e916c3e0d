# Accelerometer and GPS tracker: a Dafny model

The application is one Android activity, `MainActivity`. It records accelerometer
samples and GPS fixes into two in-memory buffers. A tracking flag is set by
"start" and cleared by "stop". "Export" writes the buffers as a GPX document:
one `trkpt` per index present in both buffers, carrying latitude, longitude, a
constant elevation, the current date, and the first three accelerometer axes
under `extensions/acceleration`.

The model has four modules:

- `Options` (xml.dfy): the usual optional value.
- `XmlEvents` (xml.dfy): the platform's XML pull-serializer.
  - The serializer is a class whose methods append one event each to a log. The model treats the exported document as that log.
  - `Walk` and `WellNested` define when a log is well nested.
  - `Count` counts the occurrences of an event.
- `Gpx` (gpx.dfy): the document an export must produce, as functions of the two buffers.
  - `Document` is built from `TrackPoint`s.
  - `ReadGpx` is an independent reader of such logs.
  - The round trip has two parts. The loop writes `PointEvents` of the expected field texts, one point per index pair. The reader inverts `PointEvents` for any sequence of points.
  - There are also lemmas on the number of track points, well-nestedness and the empty export.
- `Tracking` (tracking.dfy): the activity itself.
  - It is a class with the two buffers and the flag as fields.
  - It has the callbacks, start, stop and the export method.
  - The export method drives a fresh serializer in a loop and is proved to produce `Gpx.Document` of the buffers.

`Scenarios` (scenarios.dfy) drives whole sessions through the activity and states what they leave behind.

Things the activity takes from the platform are inputs to the model:

- A `Gpx.Platform` value represents:
  - Kotlin's `Double.toString` and `Float.toString`;
  - `Date().toString()`, read once per point. `dateAt(i)` is the text the clock gives while point `i` is written.
- `Tracking.LocationRequest` is what `requestLocationUpdates` does: it registers or throws `SecurityException`.
- Floating-point values are `real`s. They matter only through those text conversions.

The model follows the code in two places where a reader might expect otherwise:

- The callbacks append whether or not tracking is on. `isTracking` is written but never read.
- A second start while tracking clears both buffers again. Nothing guards against re-entry.

## Model

| member | source | states |
|---|---|---|
| Tracking.MainActivity.constructor | app/src/main/java/com/example/myapplication/MainActivity.kt:31-33 | Both buffers start empty and the flag starts false. |
| Tracking.MainActivity.OnSensorChanged | app/src/main/java/com/example/myapplication/MainActivity.kt:99-104 | An event whose sensor is the accelerometer appends a copy of its values. An event that is null, has a null sensor, or comes from another sensor changes nothing. The location buffer and the flag never change. |
| Tracking.MainActivity.OnLocationChanged | app/src/main/java/com/example/myapplication/MainActivity.kt:106-110 | Every fix is appended, whether or not tracking is on. The other buffer and the flag are unchanged. |
| Tracking.MainActivity.StartTracking | app/src/main/java/com/example/myapplication/MainActivity.kt:131-147 | Both buffers are empty afterwards, whatever they held before. The flag is true exactly when the location request succeeded. On `SecurityException` the fallback to stop leaves the flag false and the buffers empty. |
| Tracking.MainActivity.StopTracking | app/src/main/java/com/example/myapplication/MainActivity.kt:153-160 | The flag is false. Both buffers are kept unchanged for a later export. |
| Tracking.MainActivity.ExportGpx | app/src/main/java/com/example/myapplication/MainActivity.kt:166-206 | The serializer receives exactly `Gpx.Document` of the two buffers. The method has no `modifies` clause, so the buffers and the flag are unchanged. |
| Tracking.WriteHeader | app/src/main/java/com/example/myapplication/MainActivity.kt:173-176 | Appends the document start, the `gpx` start tag and its `version` and `samu` attributes. |
| Tracking.WriteTrackPoint | app/src/main/java/com/example/myapplication/MainActivity.kt:182-202 | The loop body appends exactly one `Gpx.TrackPoint` of the sample, the fix and the time. |
| Tracking.WriteTextElement | app/src/main/java/com/example/myapplication/MainActivity.kt:186-192 | An `ele` or `time` element holding one text node. |
| Tracking.WriteExtensions | app/src/main/java/com/example/myapplication/MainActivity.kt:194-200 | `extensions` holding an empty `acceleration` element with the x, y and z attributes from axes 0, 1 and 2. |
| Tracking.WriteFooter | app/src/main/java/com/example/myapplication/MainActivity.kt:205-206 | Appends the `gpx` end tag and the document end. |
| XmlEvents.Serializer.StartDocument | app/src/main/java/com/example/myapplication/MainActivity.kt:173 | Appends one event with the encoding and the standalone flag and changes nothing else. |
| XmlEvents.Serializer.StartTag | app/src/main/java/com/example/myapplication/MainActivity.kt:174 | Appends one start-tag event. |
| XmlEvents.Serializer.Attribute | app/src/main/java/com/example/myapplication/MainActivity.kt:175-176 | Appends one attribute event. |
| XmlEvents.Serializer.Text | app/src/main/java/com/example/myapplication/MainActivity.kt:187 | Appends one text event. |
| XmlEvents.Serializer.EndTag | app/src/main/java/com/example/myapplication/MainActivity.kt:205 | Appends one end-tag event. |
| XmlEvents.Serializer.EndDocument | app/src/main/java/com/example/myapplication/MainActivity.kt:206 | Appends the end-of-document event. |
| XmlEvents.WalkAppend | app/src/main/java/com/example/myapplication/MainActivity.kt:173-206 | Reading two logs in turn is the same as reading their concatenation. The nesting proofs are built on this. |
| XmlEvents.ElementNested | app/src/main/java/com/example/myapplication/MainActivity.kt:182-202 | An element whose content is well nested inside it leaves the reader where it was before the element. |
| XmlEvents.ElementCount | app/src/main/java/com/example/myapplication/MainActivity.kt:182-202 | The tags in an element are its own start and end tags plus those in its content. Attributes hold no tags. |
| Gpx.Min | app/src/main/java/com/example/myapplication/MainActivity.kt:178 | The loop bound `size.coerceAtMost(other)` is at most both sizes and equals one of them. |
| Gpx.ExportRoundTrip | app/src/main/java/com/example/myapplication/MainActivity.kt:173-206 | Reading the exported log back gives version "1.1", samu "Corrida das notas" and min(\|acc\|, \|gps\|) points in index order. Point `i` has lat/lon from fix `i`, ele "0.0", the time read at point `i`, and x/y/z from axes 0..2 of sample `i`. |
| Gpx.TrackPointsEvents | app/src/main/java/com/example/myapplication/MainActivity.kt:178-203 | The first `n` passes of the loop write, in index order, the points holding the texts expected of the first `n` index pairs. These are the fix's coordinates, "0.0", the time read at that point and the sample's first three axes. |
| Gpx.ReadPointsEvents | app/src/main/java/com/example/myapplication/MainActivity.kt:182-202 | The reader inverts point writing: any sequence of points, written one after the other, reads back as exactly that sequence. |
| Gpx.ReadPointEvents | app/src/main/java/com/example/myapplication/MainActivity.kt:182-202 | The events of one `trkpt` read back as exactly the fields it was written from. |
| Gpx.ReadRoot | app/src/main/java/com/example/myapplication/MainActivity.kt:173-176 | Around any body that reads as points, the document reads as a track with version "1.1", samu "Corrida das notas" and those points. |
| Gpx.ExportTrackPointCount | app/src/main/java/com/example/myapplication/MainActivity.kt:178-202 | The log holds exactly min(\|acc\|, \|gps\|) `trkpt` start tags and as many `trkpt` end tags. |
| Gpx.TrackPointsCount | app/src/main/java/com/example/myapplication/MainActivity.kt:178-203 | `n` passes of the loop write `n` `trkpt` start tags and `n` end tags. |
| Gpx.RootCount | app/src/main/java/com/example/myapplication/MainActivity.kt:173-176 | The document start, the root and its attributes add no `trkpt` tag to those in the body. |
| Gpx.TrackPointTags | app/src/main/java/com/example/myapplication/MainActivity.kt:182-202 | One pass writes one `trkpt` start tag and one end tag. |
| Gpx.ExportWellNested | app/src/main/java/com/example/myapplication/MainActivity.kt:173-206 | Every exported log is well nested. Each end tag closes the innermost open element and attributes follow a start tag. The log ends with nothing open. |
| Gpx.RootNested | app/src/main/java/com/example/myapplication/MainActivity.kt:173-176 | A body that leaves only the root open, read just inside it, makes a well-nested document. |
| Gpx.TrackPointNested | app/src/main/java/com/example/myapplication/MainActivity.kt:182-202 | One track point is well nested at any depth. |
| Gpx.TrackPointsNested | app/src/main/java/com/example/myapplication/MainActivity.kt:178-203 | Any number of passes of the loop is well nested inside the root. |
| Gpx.EmptyExport | app/src/main/java/com/example/myapplication/MainActivity.kt:173-178 | When either buffer is empty the loop writes nothing. The log is the bare `gpx` root with its two attributes, and it reads back as a track with no points. |
| Scenarios.ShortRun | app/src/main/java/com/example/myapplication/MainActivity.kt:99-110 | The session has three accelerometer samples, one reading from another sensor and two fixes. It exports two points, built from the first two samples and the two fixes. |
| Scenarios.LateSamplesAreKept | app/src/main/java/com/example/myapplication/MainActivity.kt:99-104 | A sample that arrives after stop is still buffered. Events that are null or have no sensor are ignored. |
| Scenarios.RestartClears | app/src/main/java/com/example/myapplication/MainActivity.kt:131-135 | A second start while tracking drops what the first start collected and leaves the flag on. |
| Scenarios.RefusedStart | app/src/main/java/com/example/myapplication/MainActivity.kt:137-147 | A refused location request leaves the session stopped and empty. Its export is the bare root. |

## Left out

- Activity lifecycle and permissions (`onCreate`, `onResume`, `onPause`, `onRequestPermissionsResult`, MainActivity.kt:40-93, 112-129): button wiring and listener registration with the platform are outside the model. The callbacks and start are modelled as methods that anyone may call in any order.
- `locationManager.requestLocationUpdates` and `removeUpdates` (MainActivity.kt:138-143, 157-160) are platform calls.
  - The outcome of the first is the `LocationRequest` parameter.
  - The second is not modelled. Its `SecurityException` is caught and only logged, so it has no effect on the model's state.
- Logging (`Log.d`, `Log.e`) and the start button's enabled state (MainActivity.kt:149-150, 162-163) are user-interface effects.
- Writing `track.gpx` to the cache directory, showing its path, and the `IOException` handler (MainActivity.kt:208-219) are file and screen I/O. The model stops at the serializer's log.
- A serializer that throws `IOException` part-way would leave a truncated log. The modelled serializer never fails.
- The characters the serializer writes are not modelled: the XML declaration, escaping, and the `null` namespace. The log of calls stands for the document.
- `Double.toString`, `Float.toString` and `Date().toString()` are opaque functions of the `Platform` value. The clock is reached only through `dateAt`, so the model says nothing about the time texts beyond where each one appears.
- Concurrency between the sensor and location callbacks and the export is not modelled. Each call is atomic.
- Tracking.MainActivity.ExportGpx: requires each exported sample to hold at least three values. With a shorter sample, the source's `acceleration[2]` would throw an index exception that nothing catches. The model does not capture that crash. The platform's accelerometer always reports three axes.

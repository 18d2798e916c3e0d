/**
  The GPX document that `exportGpx` writes for the two buffers of a session,
  as the serializer log it produces, and what a reader finds in that log.

  Numbers are carried as `real` and only passed through; how the platform
  turns a double, a float or the current date into text is not modelled and
  is given by a `Platform` value instead.
*/
module Gpx {
  import opened Options
  import opened XmlEvents

  /** A GPS fix as far as the export reads it. */
  datatype Location = Location(latitude: real, longitude: real)

  /**
    The platform conversions the export calls: `Double.toString` for the
    coordinates, `Float.toString` for the acceleration components, and the
    text of `Date()` when the i-th track point is written (the clock is read
    anew for every point).
  */
  datatype Platform = Platform(
    doubleToString: real -> string,
    floatToString: real -> string,
    dateAt: nat -> string)

  const ENCODING := "UTF-8"
  const GPX_VERSION := "1.1"
  const LABEL := "Corrida das notas"
  /** The elevation text of every track point: the export has no altitude. */
  const ELEVATION := "0.0"

  /** `coerceAtMost`: the smaller of the two. */
  function Min(a: int, b: int): (m: int)
    ensures m <= a && m <= b
    ensures m == a || m == b
  {
    if a <= b then a else b
  }

  /** Every acceleration sample that gets paired with a fix has the three axis values the export reads. */
  predicate Exportable(acc: seq<seq<real>>, gps: seq<Location>)
  {
    forall i :: 0 <= i < |acc| && i < |gps| ==> 3 <= |acc[i]|
  }

  /** The two attributes of the `gpx` root. */
  function RootAttrs(): seq<XmlEvent>
  {
    [Attr("version", GPX_VERSION), Attr("samu", LABEL)]
  }

  /** The events of one `trkpt` element for one (sample, fix) pair. */
  function TrackPoint(acceleration: seq<real>, location: Location, time: string, p: Platform): seq<XmlEvent>
    requires 3 <= |acceleration|
  {
    Element("trkpt",
      [Attr("lat", p.doubleToString(location.latitude)), Attr("lon", p.doubleToString(location.longitude))],
      Element("ele", [], [Text(ELEVATION)])
      + Element("time", [], [Text(time)])
      + Element("extensions", [],
          Element("acceleration",
            [ Attr("x", p.floatToString(acceleration[0])),
              Attr("y", p.floatToString(acceleration[1])),
              Attr("z", p.floatToString(acceleration[2])) ],
            [])))
  }

  /** The track points of the first `n` pairs, in index order. */
  function TrackPoints(acc: seq<seq<real>>, gps: seq<Location>, p: Platform, n: nat): seq<XmlEvent>
    requires n <= |acc| && n <= |gps| && Exportable(acc, gps)
  {
    if n == 0 then []
    else TrackPoints(acc, gps, p, n - 1) + TrackPoint(acc[n - 1], gps[n - 1], p.dateAt(n - 1), p)
  }

  /** One more pass of the export loop extends the log by the next pair's track point. */
  lemma TrackPointsStep(header: seq<XmlEvent>, acc: seq<seq<real>>, gps: seq<Location>, p: Platform, i: nat)
    requires i < |acc| && i < |gps| && Exportable(acc, gps)
    ensures header + TrackPoints(acc, gps, p, i) + TrackPoint(acc[i], gps[i], p.dateAt(i), p)
      == header + TrackPoints(acc, gps, p, i + 1)
  {
  }

  /** A whole log: the document holding the `gpx` root, with `body` inside the root after its attributes. */
  function Root(body: seq<XmlEvent>): seq<XmlEvent>
  {
    [StartDocument(ENCODING, true)] + Element("gpx", RootAttrs(), body) + [EndDocument]
  }

  /** The whole log of one export of the buffers `acc` and `gps`. */
  function Document(acc: seq<seq<real>>, gps: seq<Location>, p: Platform): seq<XmlEvent>
    requires Exportable(acc, gps)
  {
    Root(TrackPoints(acc, gps, p, Min(|acc|, |gps|)))
  }

  /** The log of an export, cut where the export loop starts and ends. */
  lemma DocumentEvents(acc: seq<seq<real>>, gps: seq<Location>, p: Platform)
    requires Exportable(acc, gps)
    ensures Document(acc, gps, p) ==
      [StartDocument(ENCODING, true), StartTag("gpx")] + RootAttrs()
      + TrackPoints(acc, gps, p, Min(|acc|, |gps|)) + [EndTag("gpx"), EndDocument]
  {
  }

  // ---------------------------------------------------------------------
  // Reading a track back from a log

  /** The texts a GPX reader finds in one `trkpt` element. */
  datatype PointFields = PointFields(
    lat: string, lon: string, ele: string, time: string,
    x: string, y: string, z: string)

  /** The root's two attributes and the track points under it. */
  datatype Track = Track(version: string, samu: string, points: seq<PointFields>)

  /** The events that carry the fields `f` as one `trkpt` element, in the order the export writes them. */
  function PointEvents(f: PointFields): seq<XmlEvent>
  {
    Element("trkpt", [Attr("lat", f.lat), Attr("lon", f.lon)],
      Element("ele", [], [Text(f.ele)])
      + Element("time", [], [Text(f.time)])
      + Element("extensions", [], Element("acceleration", [Attr("x", f.x), Attr("y", f.y), Attr("z", f.z)], [])))
  }

  /** The events of several points, one after the other. */
  function PointsEvents(ps: seq<PointFields>): seq<XmlEvent>
    decreases |ps|
  {
    if ps == [] then [] else PointsEvents(ps[..|ps| - 1]) + PointEvents(ps[|ps| - 1])
  }

  /** One position in the fixed shape of a `trkpt` element: a given event, an attribute with a given key, or any text. */
  datatype Slot = Exactly(event: XmlEvent) | AttrNamed(key: string) | AnyText

  predicate SlotFits(e: XmlEvent, s: Slot)
  {
    match s
    case Exactly(event) => e == event
    case AttrNamed(key) => e.Attr? && e.key == key
    case AnyText => e.Text?
  }

  /** `e` has the shape `shape`, event by event. */
  predicate Fits(e: seq<XmlEvent>, shape: seq<Slot>)
    decreases |shape|
  {
    |e| == |shape| && (shape == [] || (SlotFits(e[0], shape[0]) && Fits(e[1..], shape[1..])))
  }

  /** The shape of an element whose attributes and content have the given shapes. */
  function ElementShape(name: string, attrs: seq<Slot>, content: seq<Slot>): seq<Slot>
  {
    [Exactly(StartTag(name))] + attrs + content + [Exactly(EndTag(name))]
  }

  /** The shape a reader expects of a `trkpt` element. */
  const POINT_SHAPE: seq<Slot> :=
    ElementShape("trkpt", [AttrNamed("lat"), AttrNamed("lon")],
      ElementShape("ele", [], [AnyText])
      + ElementShape("time", [], [AnyText])
      + ElementShape("extensions", [],
          ElementShape("acceleration", [AttrNamed("x"), AttrNamed("y"), AttrNamed("z")], [])))

  function AttrValue(e: XmlEvent): string
  {
    if e.Attr? then e.value else ""
  }

  function TextOf(e: XmlEvent): string
  {
    if e.Text? then e.text else ""
  }

  /** Reads one `trkpt` element of the expected shape, or None. */
  function ReadPoint(e: seq<XmlEvent>): Option<PointFields>
  {
    if Fits(e, POINT_SHAPE)
    then Some(PointFields(AttrValue(e[1]), AttrValue(e[2]), TextOf(e[4]), TextOf(e[7]),
                          AttrValue(e[11]), AttrValue(e[12]), AttrValue(e[13])))
    else None
  }

  /** Reads `e` as a run of records of `width` events each, with `read`; None if one does not read. */
  function ReadRun<T>(e: seq<XmlEvent>, width: nat, read: seq<XmlEvent> -> Option<T>): Option<seq<T>>
    requires 0 < width
    decreases |e|
  {
    if e == [] then Some([])
    else if |e| < width then None
    else match read(e[..width])
      case None => None
      case Some(record) =>
        match ReadRun(e[width..], width, read)
        case None => None
        case Some(rest) => Some([record] + rest)
  }

  /** Reads a run of `trkpt` elements, or None if anything else is there. */
  function ReadPoints(e: seq<XmlEvent>): Option<seq<PointFields>>
  {
    ReadRun(e, 17, ReadPoint)
  }

  /** Reads a `gpx` document with its two root attributes, or None. */
  function ReadGpx(e: seq<XmlEvent>): Option<Track>
  {
    if 6 <= |e| && e[0] == StartDocument(ENCODING, true) && e[1] == StartTag("gpx")
      && e[2].Attr? && e[2].key == "version" && e[3].Attr? && e[3].key == "samu"
      && e[|e| - 2] == EndTag("gpx") && e[|e| - 1] == EndDocument
    then match ReadPoints(e[4..|e| - 2])
      case None => None
      case Some(points) => Some(Track(e[2].value, e[3].value, points))
    else None
  }

  /** What the reader must find for pair `i`: the fix's coordinates, the sample's three axes, the fixed elevation and the clock text of that point. */
  function Expected(acc: seq<seq<real>>, gps: seq<Location>, p: Platform, i: nat): PointFields
    requires i < |acc| && i < |gps| && 3 <= |acc[i]|
  {
    PointFields(
      p.doubleToString(gps[i].latitude), p.doubleToString(gps[i].longitude),
      ELEVATION, p.dateAt(i),
      p.floatToString(acc[i][0]), p.floatToString(acc[i][1]), p.floatToString(acc[i][2]))
  }

  /** What the reader must find for the first `n` pairs, in index order. */
  function ExpectedPoints(acc: seq<seq<real>>, gps: seq<Location>, p: Platform, n: nat): seq<PointFields>
    requires n <= |acc| && n <= |gps| && Exportable(acc, gps)
  {
    seq(n, i requires 0 <= i < n => Expected(acc, gps, p, i))
  }

  // ---------------------------------------------------------------------
  // Properties of the export

  /** Shapes compose along concatenation. */
  lemma {:induction false} FitsAppend(a: seq<XmlEvent>, b: seq<XmlEvent>, s: seq<Slot>, t: seq<Slot>)
    requires Fits(a, s) && Fits(b, t)
    ensures Fits(a + b, s + t)
    decreases |s|
  {
    if s == [] {
      assert a + b == b && s + t == t;
    } else {
      assert (a + b)[1..] == a[1..] + b && (s + t)[1..] == s[1..] + t;
      FitsAppend(a[1..], b, s[1..], t);
    }
  }

  lemma ElementFits(name: string, attrs: seq<XmlEvent>, content: seq<XmlEvent>, sa: seq<Slot>, sc: seq<Slot>)
    requires Fits(attrs, sa) && Fits(content, sc)
    ensures Fits(Element(name, attrs, content), ElementShape(name, sa, sc))
  {
    assert [StartTag(name)][1..] == [] && [Exactly(StartTag(name))][1..] == [];
    assert [EndTag(name)][1..] == [] && [Exactly(EndTag(name))][1..] == [];
    FitsAppend([StartTag(name)], attrs, [Exactly(StartTag(name))], sa);
    FitsAppend([StartTag(name)] + attrs, content, [Exactly(StartTag(name))] + sa, sc);
    FitsAppend([StartTag(name)] + attrs + content, [EndTag(name)], [Exactly(StartTag(name))] + sa + sc, [Exactly(EndTag(name))]);
  }

  /** Reading a run that starts with a whole record begins with reading that record. */
  lemma ReadRunFront<T>(x: seq<XmlEvent>, y: seq<XmlEvent>, width: nat, read: seq<XmlEvent> -> Option<T>)
    requires 0 < width <= |x|
    ensures ReadRun(x + y, width, read) ==
      match read(x[..width])
      case None => None
      case Some(record) =>
        match ReadRun(x[width..] + y, width, read)
        case None => None
        case Some(rest) => Some([record] + rest)
  {
    assert (x + y)[..width] == x[..width];
    assert (x + y)[width..] == x[width..] + y;
  }

  /** Reading two runs one after the other gives both runs' records in order. */
  lemma {:induction false} ReadRunAppend<T>(x: seq<XmlEvent>, y: seq<XmlEvent>, width: nat, read: seq<XmlEvent> -> Option<T>)
    requires 0 < width
    requires ReadRun(x, width, read).Some? && ReadRun(y, width, read).Some?
    ensures ReadRun(x + y, width, read) == Some(ReadRun(x, width, read).value + ReadRun(y, width, read).value)
    decreases |x|
  {
    if x == [] {
      assert x + y == y;
      assert ReadRun(x, width, read).value == [];
      assert [] + ReadRun(y, width, read).value == ReadRun(y, width, read).value;
    } else {
      var record := read(x[..width]).value;
      var rest := ReadRun(x[width..], width, read).value;
      ReadRunAppend(x[width..], y, width, read);
      ReadRunFront(x, y, width, read);
      assert [record] + (rest + ReadRun(y, width, read).value) == [record] + rest + ReadRun(y, width, read).value;
    }
  }

  /** Points followed by one more point read as those points and that one. */
  lemma ReadPointsSnoc(x: seq<XmlEvent>, y: seq<XmlEvent>, xs: seq<PointFields>, r: PointFields)
    requires ReadPoints(x) == Some(xs) && ReadPoints(y) == Some([r])
    ensures ReadPoints(x + y) == Some(xs + [r])
  {
    ReadRunAppend(x, y, 17, ReadPoint);
  }

  /** The events of one point, one by one. */
  lemma PointEventsFlat(f: PointFields)
    ensures PointEvents(f) ==
      [ StartTag("trkpt"), Attr("lat", f.lat), Attr("lon", f.lon),
        StartTag("ele"), Text(f.ele), EndTag("ele"),
        StartTag("time"), Text(f.time), EndTag("time"),
        StartTag("extensions"),
        StartTag("acceleration"), Attr("x", f.x), Attr("y", f.y), Attr("z", f.z), EndTag("acceleration"),
        EndTag("extensions"),
        EndTag("trkpt") ]
  {
  }

  /** The events of every point have the shape a reader expects. */
  lemma PointEventsFit(f: PointFields)
    ensures Fits(PointEvents(f), POINT_SHAPE)
  {
    var coords := [Attr("lat", f.lat), Attr("lon", f.lon)];
    var axes := [Attr("x", f.x), Attr("y", f.y), Attr("z", f.z)];
    assert coords[1..][1..] == [] && Fits(coords, [AttrNamed("lat"), AttrNamed("lon")]);
    assert axes[1..][1..][1..] == [] && Fits(axes, [AttrNamed("x"), AttrNamed("y"), AttrNamed("z")]);
    var e: seq<XmlEvent> := [];
    var se: seq<Slot> := [];
    assert Fits(e, se);
    assert [Text(f.ele)][1..] == [] && Fits([Text(f.ele)], [AnyText]);
    assert [Text(f.time)][1..] == [] && Fits([Text(f.time)], [AnyText]);
    ElementFits("ele", e, [Text(f.ele)], se, [AnyText]);
    ElementFits("time", e, [Text(f.time)], se, [AnyText]);
    ElementFits("acceleration", axes, e, [AttrNamed("x"), AttrNamed("y"), AttrNamed("z")], se);
    var accel := Element("acceleration", axes, e);
    var accelShape := ElementShape("acceleration", [AttrNamed("x"), AttrNamed("y"), AttrNamed("z")], se);
    ElementFits("extensions", e, accel, se, accelShape);
    var ele := Element("ele", e, [Text(f.ele)]);
    var clock := Element("time", e, [Text(f.time)]);
    var ext := Element("extensions", e, accel);
    FitsAppend(ele, clock, ElementShape("ele", se, [AnyText]), ElementShape("time", se, [AnyText]));
    FitsAppend(ele + clock, ext, ElementShape("ele", se, [AnyText]) + ElementShape("time", se, [AnyText]),
               ElementShape("extensions", se, accelShape));
    ElementFits("trkpt", coords, ele + clock + ext, [AttrNamed("lat"), AttrNamed("lon")],
                ElementShape("ele", se, [AnyText]) + ElementShape("time", se, [AnyText]) + ElementShape("extensions", se, accelShape));
  }

  /** The reader gets back exactly the fields one point was written from. */
  lemma ReadPointEvents(f: PointFields)
    ensures ReadPoints(PointEvents(f)) == Some([f])
  {
    var e := PointEvents(f);
    PointEventsFit(f);
    PointEventsFlat(f);
    assert |e| == 17 && e[..17] == e && e[17..] == [];
    assert ReadPoint(e) == Some(f);
    assert ReadRun(e[17..], 17, ReadPoint) == Some([]);
    var read: seq<XmlEvent> -> Option<PointFields> := ReadPoint;
    assert read(e[..17]) == Some(f);
    assert ReadRun(e, 17, read) == Some([f] + []);
    assert [f] + [] == [f];
  }

  /** The reader inverts the writing of any sequence of points. */
  lemma {:induction false} ReadPointsEvents(ps: seq<PointFields>)
    ensures ReadPoints(PointsEvents(ps)) == Some(ps)
    decreases |ps|
  {
    if ps == [] {
      assert ReadPoints([]) == Some([]);
    } else {
      var front, last := ps[..|ps| - 1], ps[|ps| - 1];
      ReadPointsEvents(front);
      ReadPointEvents(last);
      ReadPointsSnoc(PointsEvents(front), PointEvents(last), front, last);
      assert front + [last] == ps;
    }
  }

  /** A track point is the point of the fix's coordinates, the fixed elevation, the time and the sample's first three axes. */
  lemma TrackPointFields(acceleration: seq<real>, location: Location, time: string, p: Platform)
    requires 3 <= |acceleration|
    ensures TrackPoint(acceleration, location, time, p) == PointEvents(PointFields(
      p.doubleToString(location.latitude), p.doubleToString(location.longitude), ELEVATION, time,
      p.floatToString(acceleration[0]), p.floatToString(acceleration[1]), p.floatToString(acceleration[2])))
  {
  }

  lemma ExpectedPointsSnoc(acc: seq<seq<real>>, gps: seq<Location>, p: Platform, n: nat)
    requires 0 < n <= |acc| && n <= |gps| && Exportable(acc, gps)
    ensures ExpectedPoints(acc, gps, p, n)[..n - 1] == ExpectedPoints(acc, gps, p, n - 1)
    ensures ExpectedPoints(acc, gps, p, n)[n - 1] == Expected(acc, gps, p, n - 1)
  {
  }

  /** The first `n` passes of the export loop write the points expected of the first `n` pairs, in index order. */
  lemma {:induction false} TrackPointsEvents(acc: seq<seq<real>>, gps: seq<Location>, p: Platform, n: nat)
    requires n <= |acc| && n <= |gps| && Exportable(acc, gps)
    ensures TrackPoints(acc, gps, p, n) == PointsEvents(ExpectedPoints(acc, gps, p, n))
  {
    if n == 0 {
      assert ExpectedPoints(acc, gps, p, n) == [];
    } else {
      TrackPointsEvents(acc, gps, p, n - 1);
      ExpectedPointsSnoc(acc, gps, p, n);
      TrackPointFields(acc[n - 1], gps[n - 1], p.dateAt(n - 1), p);
    }
  }

  /** The reader finds the root's version and label, and reads the points in the body. */
  lemma ReadRoot(body: seq<XmlEvent>, points: seq<PointFields>)
    requires ReadPoints(body) == Some(points)
    ensures ReadGpx(Root(body)) == Some(Track(GPX_VERSION, LABEL, points))
  {
    var d := Root(body);
    assert d[4..|d| - 2] == body;
  }

  /**
    Exporting and reading back: the root carries version "1.1" and the label,
    and it holds exactly min(|acc|, |gps|) track points in index order, the
    i-th made of gps[i] and acc[i]; what lies beyond the shorter buffer is not
    in the document.
  */
  lemma ExportRoundTrip(acc: seq<seq<real>>, gps: seq<Location>, p: Platform)
    requires Exportable(acc, gps)
    ensures ReadGpx(Document(acc, gps, p)) == Some(Track(GPX_VERSION, LABEL, ExpectedPoints(acc, gps, p, Min(|acc|, |gps|))))
    ensures |ExpectedPoints(acc, gps, p, Min(|acc|, |gps|))| == Min(|acc|, |gps|)
    ensures forall i :: 0 <= i < Min(|acc|, |gps|) ==>
      ExpectedPoints(acc, gps, p, Min(|acc|, |gps|))[i] == Expected(acc, gps, p, i)
  {
    var n := Min(|acc|, |gps|);
    var points := ExpectedPoints(acc, gps, p, n);
    TrackPointsEvents(acc, gps, p, n);
    ReadPointsEvents(points);
    ReadRoot(PointsEvents(points), points);
  }

  /** One track point opens and closes `trkpt` exactly once. */
  lemma TrackPointTags(acceleration: seq<real>, location: Location, time: string, p: Platform, x: XmlEvent)
    requires 3 <= |acceleration|
    requires x == StartTag("trkpt") || x == EndTag("trkpt")
    ensures Count(TrackPoint(acceleration, location, time, p), x) == 1
  {
    var coords := [Attr("lat", p.doubleToString(location.latitude)), Attr("lon", p.doubleToString(location.longitude))];
    var axes := [ Attr("x", p.floatToString(acceleration[0])),
                  Attr("y", p.floatToString(acceleration[1])),
                  Attr("z", p.floatToString(acceleration[2])) ];
    var e: seq<XmlEvent> := [];
    assert [Text(ELEVATION)][1..] == [] && [Text(time)][1..] == [];
    ElementCount("ele", e, [Text(ELEVATION)], x);
    ElementCount("time", e, [Text(time)], x);
    ElementCount("acceleration", axes, e, x);
    var accel := Element("acceleration", axes, e);
    ElementCount("extensions", e, accel, x);
    var ele := Element("ele", e, [Text(ELEVATION)]);
    var clock := Element("time", e, [Text(time)]);
    var ext := Element("extensions", e, accel);
    CountAppend(ele, clock, x);
    CountAppend(ele + clock, ext, x);
    ElementCount("trkpt", coords, ele + clock + ext, x);
  }

  /** The start and end tags of `trkpt` both occur exactly `n` times in the first `n` track points. */
  lemma {:induction false} TrackPointsCount(acc: seq<seq<real>>, gps: seq<Location>, p: Platform, n: nat, x: XmlEvent)
    requires n <= |acc| && n <= |gps| && Exportable(acc, gps)
    requires x == StartTag("trkpt") || x == EndTag("trkpt")
    ensures Count(TrackPoints(acc, gps, p, n), x) == n
  {
    if n > 0 {
      TrackPointsCount(acc, gps, p, n - 1, x);
      TrackPointTags(acc[n - 1], gps[n - 1], p.dateAt(n - 1), p, x);
      CountAppend(TrackPoints(acc, gps, p, n - 1), TrackPoint(acc[n - 1], gps[n - 1], p.dateAt(n - 1), p), x);
    }
  }

  /** The document and the root add no `trkpt` tag to the body. */
  lemma RootCount(body: seq<XmlEvent>, x: XmlEvent)
    requires x == StartTag("trkpt") || x == EndTag("trkpt")
    ensures Count(Root(body), x) == Count(body, x)
  {
    var root := Element("gpx", RootAttrs(), body);
    assert [StartDocument(ENCODING, true)][1..] == [] && [EndDocument][1..] == [];
    ElementCount("gpx", RootAttrs(), body, x);
    CountAppend([StartDocument(ENCODING, true)], root, x);
    CountAppend([StartDocument(ENCODING, true)] + root, [EndDocument], x);
  }

  /** The export holds exactly min(|acc|, |gps|) `trkpt` start tags and as many end tags. */
  lemma ExportTrackPointCount(acc: seq<seq<real>>, gps: seq<Location>, p: Platform)
    requires Exportable(acc, gps)
    ensures Count(Document(acc, gps, p), StartTag("trkpt")) == Min(|acc|, |gps|)
    ensures Count(Document(acc, gps, p), EndTag("trkpt")) == Min(|acc|, |gps|)
  {
    forall x | x == StartTag("trkpt") || x == EndTag("trkpt")
      ensures Count(Document(acc, gps, p), x) == Min(|acc|, |gps|)
    {
      TrackPointsCount(acc, gps, p, Min(|acc|, |gps|), x);
      RootCount(TrackPoints(acc, gps, p, Min(|acc|, |gps|)), x);
    }
  }

  /** Read inside any open elements, a track point closes everything it opens. */
  lemma TrackPointNested(c: Cursor, acceleration: seq<real>, location: Location, time: string, p: Platform)
    requires 3 <= |acceleration|
    ensures Walk(c, TrackPoint(acceleration, location, time, p)) == Some(Cursor(c.open, false))
  {
    var coords := [Attr("lat", p.doubleToString(location.latitude)), Attr("lon", p.doubleToString(location.longitude))];
    var axes := [ Attr("x", p.floatToString(acceleration[0])),
                  Attr("y", p.floatToString(acceleration[1])),
                  Attr("z", p.floatToString(acceleration[2])) ];
    var point := c.open + ["trkpt"];
    // ele and time: one text node each
    var ele := Element("ele", [], [Text(ELEVATION)]);
    TextWalk(Cursor(point + ["ele"], true), ELEVATION);
    ElementNested(Cursor(point, true), "ele", [], [Text(ELEVATION)]);
    var clock := Element("time", [], [Text(time)]);
    TextWalk(Cursor(point + ["time"], true), time);
    ElementNested(Cursor(point, false), "time", [], [Text(time)]);
    // extensions holding the empty acceleration element
    var accel := Element("acceleration", axes, []);
    ElementNested(Cursor(point + ["extensions"], true), "acceleration", axes, []);
    var ext := Element("extensions", [], accel);
    ElementNested(Cursor(point, false), "extensions", [], accel);
    // the point's content, then the point
    WalkAppend(Cursor(point, true), ele, clock);
    WalkAppend(Cursor(point, true), ele + clock, ext);
    ElementNested(c, "trkpt", coords, ele + clock + ext);
  }

  /** Read inside any open elements, the track points leave the same elements open. */
  lemma {:induction false} TrackPointsNested(c: Cursor, acc: seq<seq<real>>, gps: seq<Location>, p: Platform, n: nat)
    requires n <= |acc| && n <= |gps| && Exportable(acc, gps)
    ensures Walk(c, TrackPoints(acc, gps, p, n)).Some?
    ensures Walk(c, TrackPoints(acc, gps, p, n)).value.open == c.open
  {
    if n > 0 {
      TrackPointsNested(c, acc, gps, p, n - 1);
      var mid := Walk(c, TrackPoints(acc, gps, p, n - 1)).value;
      TrackPointNested(mid, acc[n - 1], gps[n - 1], p.dateAt(n - 1), p);
      WalkAppend(c, TrackPoints(acc, gps, p, n - 1), TrackPoint(acc[n - 1], gps[n - 1], p.dateAt(n - 1), p));
    }
  }

  /** A body that, read just inside the root, leaves only the root open makes a well-nested log. */
  lemma RootNested(body: seq<XmlEvent>)
    requires Walk(Cursor(["gpx"], true), body).Some?
    requires Walk(Cursor(["gpx"], true), body).value.open == ["gpx"]
    ensures WellNested(Root(body))
  {
    var none := Cursor([], false);
    assert [] + ["gpx"] == ["gpx"];
    ElementNested(none, "gpx", RootAttrs(), body);
    var root := Element("gpx", RootAttrs(), body);
    assert [StartDocument(ENCODING, true)][1..] == [];
    assert Walk(none, [StartDocument(ENCODING, true)]) == Some(none);
    assert [EndDocument][1..] == [];
    assert Walk(none, [EndDocument]) == Some(none);
    WalkAppend(none, [StartDocument(ENCODING, true)], root);
    WalkAppend(none, [StartDocument(ENCODING, true)] + root, [EndDocument]);
  }

  /** Every export is a well-nested document: each start tag is closed by the matching end tag, innermost first. */
  lemma ExportWellNested(acc: seq<seq<real>>, gps: seq<Location>, p: Platform)
    requires Exportable(acc, gps)
    ensures WellNested(Document(acc, gps, p))
  {
    TrackPointsNested(Cursor(["gpx"], true), acc, gps, p, Min(|acc|, |gps|));
    RootNested(TrackPoints(acc, gps, p, Min(|acc|, |gps|)));
  }

  /** With an empty buffer the export is a `gpx` root with its two attributes and no child at all. */
  lemma EmptyExport(acc: seq<seq<real>>, gps: seq<Location>, p: Platform)
    requires acc == [] || gps == []
    ensures Document(acc, gps, p) ==
      [StartDocument(ENCODING, true), StartTag("gpx"), Attr("version", GPX_VERSION), Attr("samu", LABEL),
       EndTag("gpx"), EndDocument]
    ensures ReadGpx(Document(acc, gps, p)) == Some(Track(GPX_VERSION, LABEL, []))
  {
  }
}

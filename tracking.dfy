/**
  The tracking activity: two buffers that the sensor and location callbacks
  append to, the tracking flag that start and stop set, and the export that
  pairs the buffers by index and drives the serializer.

  Everything else the activity does (layout, buttons, permission prompts,
  the file the log is written to) is platform glue and is not modelled.
*/
module Tracking {
  import opened Options
  import opened XmlEvents
  import opened Gpx

  /** `Sensor.TYPE_ACCELEROMETER` of the platform. */
  const TYPE_ACCELEROMETER: int := 1

  datatype Sensor = Sensor(sensorType: int)

  /** A sensor reading; its sensor may be missing, as the null-safe chain in the callback allows. */
  datatype SensorEvent = SensorEvent(sensor: Option<Sensor>, values: seq<real>)

  /** What `requestLocationUpdates` does when tracking starts. */
  datatype LocationRequest = Registered | ThrowsSecurityException

  /** `event?.sensor?.type == Sensor.TYPE_ACCELEROMETER`: false as soon as a link of the chain is null. */
  predicate IsAccelerometerEvent(event: Option<SensorEvent>)
  {
    event.Some? && event.value.sensor.Some? && event.value.sensor.value.sensorType == TYPE_ACCELEROMETER
  }

  /** The lines of the export before its loop: the document and the `gpx` root with its attributes. */
  method WriteHeader(xml: Serializer)
    modifies xml
    ensures xml.events == old(xml.events) + [StartDocument(ENCODING, true), StartTag("gpx")] + RootAttrs()
  {
    xml.StartDocument(ENCODING, true);
    xml.StartTag("gpx");
    xml.Attribute("version", GPX_VERSION);
    xml.Attribute("samu", LABEL);
  }

  /** The lines of the export after its loop: the end of the root and of the document. */
  method WriteFooter(xml: Serializer)
    modifies xml
    ensures xml.events == old(xml.events) + [EndTag("gpx"), EndDocument]
  {
    xml.EndTag("gpx");
    xml.EndDocument();
  }

  /** Lines of the export loop that write an element holding one text node (`ele`, `time`). */
  method WriteTextElement(xml: Serializer, name: string, text: string)
    modifies xml
    ensures xml.events == old(xml.events) + Element(name, [], [Text(text)])
  {
    xml.StartTag(name);
    xml.Text(text);
    xml.EndTag(name);
  }

  /** Lines of the export loop that write `extensions` with the sample's three axes. */
  method WriteExtensions(xml: Serializer, acceleration: seq<real>, p: Platform)
    requires 3 <= |acceleration|
    modifies xml
    ensures xml.events == old(xml.events) + Element("extensions", [],
      Element("acceleration",
        [ Attr("x", p.floatToString(acceleration[0])),
          Attr("y", p.floatToString(acceleration[1])),
          Attr("z", p.floatToString(acceleration[2])) ],
        []))
  {
    xml.StartTag("extensions");
    xml.StartTag("acceleration");
    xml.Attribute("x", p.floatToString(acceleration[0]));
    xml.Attribute("y", p.floatToString(acceleration[1]));
    xml.Attribute("z", p.floatToString(acceleration[2]));
    xml.EndTag("acceleration");
    xml.EndTag("extensions");
  }

  /** The body of the export loop: the calls that write one track point. */
  method WriteTrackPoint(xml: Serializer, acceleration: seq<real>, location: Location, time: string, p: Platform)
    requires 3 <= |acceleration|
    modifies xml
    ensures xml.events == old(xml.events) + TrackPoint(acceleration, location, time, p)
  {
    ghost var before := xml.events;
    xml.StartTag("trkpt");
    xml.Attribute("lat", p.doubleToString(location.latitude));
    xml.Attribute("lon", p.doubleToString(location.longitude));
    ghost var afterStart := xml.events;
    WriteTextElement(xml, "ele", ELEVATION);
    WriteTextElement(xml, "time", time);
    WriteExtensions(xml, acceleration, p);
    ghost var content := xml.events[|afterStart|..];
    xml.EndTag("trkpt");
    assert xml.events == afterStart + content + [EndTag("trkpt")];
  }

  class MainActivity {
    /** One entry per accelerometer event, a copy of its values. */
    var accelerometerDataList: seq<seq<real>>
    /** One entry per location fix, in arrival order. */
    var gpsDataList: seq<Location>
    var isTracking: bool

    constructor ()
      ensures accelerometerDataList == [] && gpsDataList == [] && !isTracking
    {
      accelerometerDataList := [];
      gpsDataList := [];
      isTracking := false;
    }

    /**
      An accelerometer event appends a copy of its values, whatever the
      tracking flag says; any other event changes nothing.
    */
    method OnSensorChanged(event: Option<SensorEvent>)
      modifies this`accelerometerDataList
      ensures accelerometerDataList ==
        if IsAccelerometerEvent(event) then old(accelerometerDataList) + [event.value.values]
        else old(accelerometerDataList)
      ensures gpsDataList == old(gpsDataList) && isTracking == old(isTracking)
    {
      if IsAccelerometerEvent(event) {
        var values := event.value.values;
        accelerometerDataList := accelerometerDataList + [values];
      }
    }

    /** Every fix is appended, whatever the tracking flag says. */
    method OnLocationChanged(location: Location)
      modifies this`gpsDataList
      ensures gpsDataList == old(gpsDataList) + [location]
      ensures accelerometerDataList == old(accelerometerDataList) && isTracking == old(isTracking)
    {
      gpsDataList := gpsDataList + [location];
    }

    /**
      Clears both buffers and sets the flag, even when tracking is already on;
      if the location request throws, falls back to `StopTracking`, which
      clears the flag and keeps the (now empty) buffers.
    */
    method StartTracking(request: LocationRequest)
      modifies this
      ensures accelerometerDataList == [] && gpsDataList == []
      ensures isTracking <==> request == Registered
    {
      accelerometerDataList := [];
      gpsDataList := [];
      isTracking := true;
      if request == ThrowsSecurityException {
        StopTracking();
      }
    }

    /** Clears the flag; the buffers stay as they are, ready for an export. */
    method StopTracking()
      modifies this`isTracking
      ensures !isTracking
      ensures accelerometerDataList == old(accelerometerDataList) && gpsDataList == old(gpsDataList)
    {
      isTracking := false;
    }

    /**
      Writes the GPX log of the buffers: the root, then one track point for
      each index below the shorter buffer's length. It has no `modifies`
      clause, so the buffers and the flag are left as they were.
    */
    method ExportGpx(p: Platform) returns (events: seq<XmlEvent>)
      requires Exportable(accelerometerDataList, gpsDataList)
      ensures events == Document(accelerometerDataList, gpsDataList, p)
    {
      var xml := new Serializer();
      WriteHeader(xml);
      ghost var header := xml.events;
      assert header == [StartDocument(ENCODING, true), StartTag("gpx")] + RootAttrs();
      var n := Min(|accelerometerDataList|, |gpsDataList|);
      for i := 0 to n
        invariant xml.events == header + TrackPoints(accelerometerDataList, gpsDataList, p, i)
      {
        WriteTrackPoint(xml, accelerometerDataList[i], gpsDataList[i], p.dateAt(i), p);
        TrackPointsStep(header, accelerometerDataList, gpsDataList, p, i);
      }
      ghost var body := TrackPoints(accelerometerDataList, gpsDataList, p, n);
      assert xml.events == header + body;
      WriteFooter(xml);
      events := xml.events;
      assert events == header + body + [EndTag("gpx"), EndDocument];
      DocumentEvents(accelerometerDataList, gpsDataList, p);
    }
  }
}

/**
  Whole sessions driven through the activity's callbacks, as the platform
  would drive them, with what each one leaves behind.
*/
module Scenarios {
  import opened Options
  import opened XmlEvents
  import opened Gpx
  import opened Tracking

  function Accelerometer(values: seq<real>): Option<SensorEvent>
  {
    Some(SensorEvent(Some(Sensor(TYPE_ACCELEROMETER)), values))
  }

  /** The callbacks of a short session: three accelerometer samples, a gyroscope reading and two fixes. */
  method ShortSession() returns (activity: MainActivity)
    ensures fresh(activity) && !activity.isTracking
    ensures activity.accelerometerDataList == [[1.0, 0.0, 9.5], [0.5, 0.25, 9.75], [2.0, 2.0, 2.0]]
    ensures activity.gpsDataList == [Location(10.0, 20.0), Location(11.0, 21.0)]
  {
    activity := new MainActivity();
    activity.StartTracking(Registered);
    activity.OnSensorChanged(Accelerometer([1.0, 0.0, 9.5]));
    activity.OnSensorChanged(Some(SensorEvent(Some(Sensor(4)), [3.0, 3.0, 3.0])));
    activity.OnLocationChanged(Location(10.0, 20.0));
    activity.OnSensorChanged(Accelerometer([0.5, 0.25, 9.75]));
    activity.OnSensorChanged(Accelerometer([2.0, 2.0, 2.0]));
    activity.OnLocationChanged(Location(11.0, 21.0));
    activity.StopTracking();
  }

  /**
    Exporting the short session pairs the first two samples with the two
    fixes; the third sample, which has no fix, is not written.
  */
  method ShortRun(p: Platform) returns (track: Option<Track>)
    ensures track == Some(Track(GPX_VERSION, LABEL, [
      PointFields(p.doubleToString(10.0), p.doubleToString(20.0), "0.0", p.dateAt(0),
        p.floatToString(1.0), p.floatToString(0.0), p.floatToString(9.5)),
      PointFields(p.doubleToString(11.0), p.doubleToString(21.0), "0.0", p.dateAt(1),
        p.floatToString(0.5), p.floatToString(0.25), p.floatToString(9.75))]))
  {
    var activity := ShortSession();
    var acc, gps := activity.accelerometerDataList, activity.gpsDataList;
    var events := activity.ExportGpx(p);
    ExportRoundTrip(acc, gps, p);
    track := ReadGpx(events);
    assert Min(|acc|, |gps|) == 2;
    var points := ExpectedPoints(acc, gps, p, 2);
    assert points == [Expected(acc, gps, p, 0), Expected(acc, gps, p, 1)];
  }

  /**
    Samples that arrive after tracking stopped are still buffered, and an
    event without a sensor is ignored.
  */
  method LateSamplesAreKept() returns (samples: nat, tracking: bool)
    ensures samples == 3 && !tracking
  {
    var activity := new MainActivity();
    activity.StartTracking(Registered);
    activity.OnSensorChanged(Accelerometer([0.0, 0.0, 9.8]));
    activity.OnSensorChanged(Accelerometer([0.0, 0.1, 9.8]));
    activity.StopTracking();
    activity.OnSensorChanged(Accelerometer([0.0, 0.2, 9.8]));
    activity.OnSensorChanged(Some(SensorEvent(None, [1.0, 1.0, 1.0])));
    activity.OnSensorChanged(None);
    samples, tracking := |activity.accelerometerDataList|, activity.isTracking;
  }

  /** Starting again while tracking drops what the first start collected. */
  method RestartClears() returns (samples: nat, fixes: nat, tracking: bool)
    ensures samples == 0 && fixes == 0 && tracking
  {
    var activity := new MainActivity();
    activity.StartTracking(Registered);
    activity.OnSensorChanged(Accelerometer([0.0, 0.0, 9.8]));
    activity.OnLocationChanged(Location(1.0, 2.0));
    activity.StartTracking(Registered);
    samples, fixes, tracking := |activity.accelerometerDataList|, |activity.gpsDataList|, activity.isTracking;
  }

  /**
    When the location request is refused, the session is left stopped and
    empty, and exporting it writes only the root element.
  */
  method RefusedStart(p: Platform) returns (tracking: bool, events: seq<XmlEvent>)
    ensures !tracking
    ensures events == [StartDocument("UTF-8", true), StartTag("gpx"),
      Attr("version", "1.1"), Attr("samu", "Corrida das notas"), EndTag("gpx"), EndDocument]
  {
    var activity := new MainActivity();
    activity.OnSensorChanged(Accelerometer([0.0, 0.0, 9.8]));
    activity.StartTracking(ThrowsSecurityException);
    tracking := activity.isTracking;
    events := activity.ExportGpx(p);
    EmptyExport(activity.accelerometerDataList, activity.gpsDataList, p);
  }
}

/** The dashboard's state logic: the overall status derived from the five metric
    statuses, the sliding history window, and the state cells that the timer tick and
    the device selection update. */
module Dashboard {
  import opened Metrics
  import opened Walk
  import opened Generator
  import opened Classification
  import Devices

  /** The overall label the status panel shows. */
  datatype Overall = Excellent | Good | OverallWarning | OverallCritical

  /** The statuses of a reading's five metrics, in the source's order. */
  function StatusesOf(r: Reading): (ss: seq<Status>)
    ensures |ss| == 5
    ensures forall m :: GetStatus(r.values.Get(m), Config(m)) in ss
    ensures forall s :: s in ss ==> exists m :: GetStatus(r.values.Get(m), Config(m)) == s
  {
    [GetStatus(r.values.pH, Config(PH)), GetStatus(r.values.turbidity, Config(Turbidity)),
     GetStatus(r.values.salinity, Config(Salinity)), GetStatus(r.values.dissolvedOxygen, Config(DissolvedOxygen)),
     GetStatus(r.values.temperature, Config(Temperature))]
  }

  /** `getOverallStatus` over a list of statuses: any critical wins, then any warning;
      all normal is excellent and anything else good. Since a status is only ever
      normal, warning or critical, `Good` never comes out. */
  function Aggregate(statuses: seq<Status>): (o: Overall)
    ensures o == OverallCritical <==> Critical in statuses
    ensures o == OverallWarning <==> Critical !in statuses && Warning in statuses
    ensures o == Excellent <==> forall s :: s in statuses ==> s == Normal
    ensures o != Good
  {
    if Critical in statuses then OverallCritical
    else if Warning in statuses then OverallWarning
    else if forall s :: s in statuses ==> s == Normal then Excellent
    else Good
  }

  /** `getOverallStatus()` of a reading: overall critical exactly when one of its five
      metrics is critical, whatever the other four are; excellent exactly when all
      five are normal; warning exactly when none is critical and one is warning. */
  function OverallOf(r: Reading): (o: Overall)
    ensures o == OverallCritical <==> exists m :: GetStatus(r.values.Get(m), Config(m)) == Critical
    ensures o == Excellent <==> forall m :: GetStatus(r.values.Get(m), Config(m)) == Normal
    ensures o == OverallWarning <==>
              (forall m :: GetStatus(r.values.Get(m), Config(m)) != Critical) &&
              exists m :: GetStatus(r.values.Get(m), Config(m)) == Warning
  {
    Aggregate(StatusesOf(r))
  }

  /** The tick's window update `[...prev.slice(1), x]`: a non-empty history keeps its
      length, drops its oldest entry and ends with `x`. */
  function Slide<T>(h: seq<T>, x: T): (r: seq<T>)
    ensures |h| == 0 ==> r == [x]
    ensures 0 < |h| ==> |r| == |h| && r[|h| - 1] == x
    ensures forall i :: 0 <= i < |h| - 1 ==> r[i] == h[i + 1]
  {
    (if |h| == 0 then [] else h[1..]) + [x]
  }

  /** The window after one tick per element of `xs`, in order. */
  function SlideAll<T>(h: seq<T>, xs: seq<T>): seq<T>
    decreases |xs|
  {
    if xs == [] then h else SlideAll(Slide(h, xs[0]), xs[1..])
  }

  /** After any number of ticks a non-empty window holds the latest |h| entries of the
      old window followed by the new readings. */
  lemma {:induction false} SlideAllKeepsLatest<T>(h: seq<T>, xs: seq<T>)
    requires 0 < |h|
    ensures SlideAll(h, xs) == (h + xs)[|xs|..]
    ensures |SlideAll(h, xs)| == |h|
    decreases |xs|
  {
    if xs != [] {
      var h' := Slide(h, xs[0]);
      SlideAllKeepsLatest(h', xs[1..]);
      assert h' + xs[1..] == (h + xs)[1..];
    }
  }

  /** The dashboard's state cells. The registry the handlers draw from is the module's
      singleton in the source, so it is passed to each handler rather than owned. */
  class Dashboard {
    var devices: seq<Devices.Device>
    var selectedDevice: string
    var currentData: Reading
    var previousData: Reading
    var historicalData: seq<Reading>
    var lastUpdate: int

    /** The selected station is one the registry knows, and the history window holds
        the default number of points. */
    ghost predicate Valid()
      reads this
    {
      selectedDevice in Devices.KnownIds && |historicalData| == Devices.DefaultHistoryPoints
    }

    /** The initial state: the device list, then a current reading, a previous reading
        and a history, all from `device-001`, in that order. */
    constructor (registry: Devices.MultiDeviceDataGenerator, now: int, statusDraws: seq<Devices.StatusDraw>,
                 currentDraws: PerMetric<Draw>, previousDraws: PerMetric<Draw>, historyDraws: seq<PerMetric<Draw>>)
      requires registry.Valid()
      requires |statusDraws| == |Devices.DeviceConfigs|
      requires |historyDraws| == Devices.DefaultHistoryPoints
      modifies registry.generators.Values
      ensures Valid() && registry.Valid() && registry.generators == old(registry.generators)
      ensures selectedDevice == "device-001" && lastUpdate == now
      ensures devices == Devices.DeviceInfo(now, statusDraws)
      ensures var g := registry.generators["device-001"];
              var afterCurrent := Next(old(g.State()), currentDraws);
              var afterPrevious := Next(afterCurrent, previousDraws);
              && currentData == Reading(afterCurrent.baseValues, now)
              && previousData == Reading(afterPrevious.baseValues, now)
              && historicalData == History(afterPrevious, historyDraws, now, Devices.DefaultHistoryPoints)
              && g.State() == Advance(afterPrevious, historyDraws)
      ensures forall id :: id in registry.generators && id != "device-001" ==> unchanged(registry.generators[id])
    {
      var first := "device-001";
      var current := registry.GenerateReading(first, now, currentDraws);
      var previous := registry.GenerateReading(first, now, previousDraws);
      var history := registry.GenerateHistoricalData(first, Devices.DefaultHistoryPoints, now, historyDraws);
      devices := Devices.DeviceInfo(now, statusDraws);
      selectedDevice := first;
      currentData := current.value;
      previousData := previous.value;
      historicalData := history.value;
      lastUpdate := now;
    }

    /** One timer tick: the current reading becomes the previous one, the selected
        station steps once for the new current reading, the history window slides by
        that reading, and the device list is drawn afresh. */
    method Tick(registry: Devices.MultiDeviceDataGenerator, now: int, ds: PerMetric<Draw>, statusDraws: seq<Devices.StatusDraw>)
      requires Valid() && registry.Valid()
      requires |statusDraws| == |Devices.DeviceConfigs|
      modifies this, registry.generators.Values
      ensures Valid() && registry.Valid() && registry.generators == old(registry.generators)
      ensures selectedDevice == old(selectedDevice) && lastUpdate == now
      ensures previousData == old(currentData)
      ensures var g := registry.generators[selectedDevice];
              && g.State() == Next(old(g.State()), ds)
              && currentData == Reading(g.baseValues, now)
      ensures historicalData == Slide(old(historicalData), currentData)
      ensures devices == Devices.DeviceInfo(now, statusDraws)
      ensures forall id :: id in registry.generators && id != selectedDevice ==> unchanged(registry.generators[id])
    {
      var selected, current, history := selectedDevice, currentData, historicalData;
      var newReading := registry.GenerateReading(selected, now, ds);
      previousData := current;
      currentData := newReading.value;
      historicalData := history[1..] + [newReading.value];
      devices := Devices.DeviceInfo(now, statusDraws);
      lastUpdate := now;
    }

    /** Selecting a station: it becomes the selected one, steps once for the current
        reading and then backfills a fresh history; the previous reading is the old
        current one, even though that came from the station selected before. */
    method HandleDeviceSelect(registry: Devices.MultiDeviceDataGenerator, deviceId: string, now: int,
                              ds: PerMetric<Draw>, dss: seq<PerMetric<Draw>>)
      requires Valid() && registry.Valid() && deviceId in Devices.KnownIds
      requires |dss| == Devices.DefaultHistoryPoints
      modifies this, registry.generators.Values
      ensures Valid() && registry.Valid() && registry.generators == old(registry.generators)
      ensures selectedDevice == deviceId && lastUpdate == now && devices == old(devices)
      ensures previousData == old(currentData)
      ensures var g := registry.generators[deviceId];
              var stepped := Next(old(g.State()), ds);
              && currentData == Reading(stepped.baseValues, now)
              && historicalData == History(stepped, dss, now, Devices.DefaultHistoryPoints)
              && g.State() == Advance(stepped, dss)
      ensures forall id :: id in registry.generators && id != deviceId ==> unchanged(registry.generators[id])
    {
      var current := currentData;
      var newReading := registry.GenerateReading(deviceId, now, ds);
      var newHistorical := registry.GenerateHistoricalData(deviceId, Devices.DefaultHistoryPoints, now, dss);
      selectedDevice := deviceId;
      previousData := current;
      currentData := newReading.value;
      historicalData := newHistorical.value;
      lastUpdate := now;
    }
  }
}

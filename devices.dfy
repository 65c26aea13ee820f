/** The multi-device registry: a fixed table of three monitoring stations, one reading
    generator per station, and the simulated connectivity shown for each. */
module Devices {
  import opened Metrics
  import opened Walk
  import opened Generator

  /** A station of the fixed device table and the baselines its generator starts from. */
  datatype DeviceConfig = DeviceConfig(id: string, name: string, location: string, baseValues: PerMetric<real>)

  const DeviceConfigs: seq<DeviceConfig> := [
    DeviceConfig("device-001", "Sensor Station Alpha", "North Monitoring Point", PerMetric(7.1, 1.8, 33.2, 8.8, 23.5)),
    DeviceConfig("device-002", "Sensor Station Beta", "Central Monitoring Point", PerMetric(7.4, 3.2, 32.1, 7.9, 25.1)),
    DeviceConfig("device-003", "Sensor Station Gamma", "South Monitoring Point", PerMetric(6.9, 2.1, 34.0, 8.2, 24.8))
  ]

  /** Every station's seeded baselines lie in the clamp range, so a fresh registry
      starts with every generator in range and with bounded trends. */
  lemma SeededStatesInRange(trendDraws: seq<PerMetric<Unit>>, i: nat)
    requires i < |DeviceConfigs| == |trendDraws|
    ensures InRange(GenState(DeviceConfigs[i].baseValues, InitialTrends(trendDraws[i])))
    ensures TrendsBounded(GenState(DeviceConfigs[i].baseValues, InitialTrends(trendDraws[i])))
  {
  }

  /** The ids the registry answers for. */
  const KnownIds: set<string> := {"device-001", "device-002", "device-003"}

  /** The history length the dashboard asks for when it gives none. */
  const DefaultHistoryPoints: int := 20

  /** Simulated connectivity of a station. */
  datatype Connectivity = Online | Offline | Warning

  datatype Device = Device(id: string, name: string, location: string, status: Connectivity, lastSeen: int)

  /** The draws behind one station's connectivity: `online` decides online, `warning`
      (consumed only when not online) picks warning over offline, `age` picks the
      last-seen time. */
  datatype StatusDraw = StatusDraw(online: Unit, warning: Unit, age: Unit)

  /** The one error the registry raises: `Device <id> not found`. */
  datatype RegistryError = DeviceNotFound(id: string)

  datatype Result<T> = Ok(value: T) | Err(error: RegistryError)

  /** Milliseconds a station's last-seen time may lie before now. */
  const LastSeenWindowMs: int := 300000

  /** A millisecond time value cut to a whole number toward zero, as a `Date` does. */
  function TimeClip(x: real): (t: int)
    ensures x - 1.0 < t as real <= x || x <= t as real < x + 1.0
    ensures 0.0 <= x ==> t as real <= x
    ensures x <= 0.0 ==> x <= t as real
  {
    if 0.0 <= x then x.Floor else -((-x).Floor)
  }

  /** `new Date(now - r * 300000)`: a last-seen time in the five minutes up to now. */
  function LastSeen(now: int, r: Unit): (t: int)
    ensures now - LastSeenWindowMs <= t <= now
  {
    TimeClip(now as real - r * LastSeenWindowMs as real)
  }

  /** The connectivity one row shows: online when the first draw exceeds 0.1;
      otherwise warning when the second exceeds 0.5, else offline. */
  function ConnectivityOf(d: StatusDraw): (c: Connectivity)
    ensures c == Online <==> d.online > 0.1
    ensures c == Warning <==> d.online <= 0.1 && d.warning > 0.5
    ensures c == Offline <==> d.online <= 0.1 && d.warning <= 0.5
  {
    if d.online > 0.1 then Online else if d.warning > 0.5 then Warning else Offline
  }

  /** `getDeviceInfo()`: one entry per station, in table order, with its connectivity
      and last-seen time drawn afresh. */
  function DeviceInfo(now: int, draws: seq<StatusDraw>): (ds: seq<Device>)
    requires |draws| == |DeviceConfigs|
    ensures |ds| == |DeviceConfigs|
    ensures forall i :: 0 <= i < |ds| ==>
              ds[i].id == DeviceConfigs[i].id && ds[i].name == DeviceConfigs[i].name &&
              ds[i].location == DeviceConfigs[i].location
    ensures forall i :: 0 <= i < |ds| ==> now - LastSeenWindowMs <= ds[i].lastSeen <= now
    ensures forall i :: 0 <= i < |ds| ==> (ds[i].status == Online <==> draws[i].online > 0.1)
    ensures forall i :: 0 <= i < |ds| ==>
              (ds[i].status == Warning <==> draws[i].online <= 0.1 && draws[i].warning > 0.5)
  {
    seq(|DeviceConfigs|, i requires 0 <= i < |DeviceConfigs| => DeviceRow(DeviceConfigs[i], now, draws[i]))
  }

  function DeviceRow(c: DeviceConfig, now: int, d: StatusDraw): Device
  {
    Device(c.id, c.name, c.location, ConnectivityOf(d), LastSeen(now, d.age))
  }

  /** The ids of the first `i` table entries. */
  function IdsBefore(i: nat): set<string>
    requires i <= |DeviceConfigs|
  {
    if i == 0 then {} else IdsBefore(i - 1) + {DeviceConfigs[i - 1].id}
  }

  /** The table lists exactly the known ids, each once. */
  lemma TableIds()
    ensures IdsBefore(|DeviceConfigs|) == KnownIds
    ensures forall i, j :: 0 <= i < j < |DeviceConfigs| ==> DeviceConfigs[i].id != DeviceConfigs[j].id
  {
    assert IdsBefore(1) == {"device-001"};
    assert IdsBefore(2) == {"device-001", "device-002"};
    assert DeviceConfigs[0].id[9] == '1' && DeviceConfigs[1].id[9] == '2' && DeviceConfigs[2].id[9] == '3';
  }

  /** A station's generator: a fresh default generator whose baselines are then
      overwritten by the station's own. */
  method NewStationGenerator(config: DeviceConfig, trendDraws: PerMetric<Unit>) returns (g: DataGenerator)
    ensures fresh(g) && g.Valid()
    ensures g.State() == GenState(config.baseValues, InitialTrends(trendDraws))
  {
    g := new DataGenerator(trendDraws);
    g.OverrideBaseValues(config.baseValues);
  }

  class MultiDeviceDataGenerator {
    var generators: map<string, DataGenerator>

    /** One valid generator per known id, no two ids sharing a generator. */
    ghost predicate Valid()
      reads this, generators.Values
    {
      generators.Keys == KnownIds &&
      (forall id :: id in generators ==> generators[id].Valid()) &&
      (forall a, b :: a in generators && b in generators && a != b ==> generators[a] != generators[b])
    }

    /** One fresh generator per table entry, started from that station's baselines;
        `trendDraws[i]` draws the initial trends of station i. */
    constructor (trendDraws: seq<PerMetric<Unit>>)
      requires |trendDraws| == |DeviceConfigs|
      ensures Valid() && fresh(generators.Values)
      ensures forall i :: 0 <= i < |DeviceConfigs| ==>
                generators[DeviceConfigs[i].id].State() == GenState(DeviceConfigs[i].baseValues, InitialTrends(trendDraws[i]))
    {
      TableIds();
      var gens: map<string, DataGenerator> := map[];
      for i := 0 to |DeviceConfigs|
        invariant gens.Keys == IdsBefore(i)
        invariant forall id :: id in gens ==> fresh(gens[id]) && gens[id].Valid()
        invariant forall a, b :: a in gens && b in gens && a != b ==> gens[a] != gens[b]
        invariant forall j :: 0 <= j < i ==> DeviceConfigs[j].id in gens
        invariant forall j :: 0 <= j < i ==>
                    gens[DeviceConfigs[j].id].State() == GenState(DeviceConfigs[j].baseValues, InitialTrends(trendDraws[j]))
      {
        var config := DeviceConfigs[i];
        var generator := NewStationGenerator(config, trendDraws[i]);
        gens := gens[config.id := generator];
      }
      generators := gens;
    }

    /** `generateReading(deviceId)`: a reading from that station's generator, which
        steps once; no other station's state changes. An unknown id fails and changes
        nothing. */
    method GenerateReading(deviceId: string, now: int, ds: PerMetric<Draw>) returns (r: Result<Reading>)
      requires Valid()
      modifies generators.Values
      ensures Valid() && generators == old(generators)
      ensures r.Ok? <==> deviceId in KnownIds
      ensures forall id :: id in generators && id != deviceId ==> unchanged(generators[id])
      ensures deviceId !in KnownIds ==> r == Err(DeviceNotFound(deviceId))
      ensures deviceId in KnownIds ==>
                generators[deviceId].State() == Next(old(generators[deviceId].State()), ds) &&
                r == Ok(Reading(generators[deviceId].baseValues, now))
    {
      if deviceId !in generators {
        return Err(DeviceNotFound(deviceId));
      }
      var generator := generators[deviceId];
      var reading := generator.GenerateReading(now, ds);
      r := Ok(reading);
    }

    /** `generateHistoricalData(deviceId, points)`: that station's backfilled history,
        its generator stepping once per point; no other station's state changes. An
        unknown id fails and changes nothing. */
    method GenerateHistoricalData(deviceId: string, points: int, now: int, dss: seq<PerMetric<Draw>>)
      returns (r: Result<seq<Reading>>)
      requires Valid() && |dss| == HistoryLength(points)
      modifies generators.Values
      ensures Valid() && generators == old(generators)
      ensures r.Ok? <==> deviceId in KnownIds
      ensures forall id :: id in generators && id != deviceId ==> unchanged(generators[id])
      ensures deviceId !in KnownIds ==> r == Err(DeviceNotFound(deviceId))
      ensures deviceId in KnownIds ==>
                generators[deviceId].State() == Advance(old(generators[deviceId].State()), dss) &&
                r == Ok(History(old(generators[deviceId].State()), dss, now, points))
    {
      if deviceId !in generators {
        return Err(DeviceNotFound(deviceId));
      }
      var generator := generators[deviceId];
      var data := generator.GenerateHistoricalData(points, now, dss);
      r := Ok(data);
    }
  }
}

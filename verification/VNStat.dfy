/** Turning vnstat counters into samples: rounding in exact arithmetic, and which entry is taken. */
module VNStat {
  import opened Wrappers
  import opened BackupModel
  import opened Alerts

  // ----- Rounding -----

  /** Rounds half away from zero, as math.Round does. */
  function Round(x: real): int {
    if x >= 0.0 then (x + 0.5).Floor else -((0.5 - x).Floor)
  }

  /** The counter in thousandths of a megabyte. */
  function MilliMB(bytes: real): real {
    bytes / 1048576.0 * 1000.0
  }

  function BytesToMB(bytes: real): real {
    Round(MilliMB(bytes)) as real / 1000.0
  }

  lemma {:induction false} RoundNear(x: real)
    ensures -0.5 <= x - Round(x) as real <= 0.5
  {
  }

  lemma {:induction false} RoundMonotone(x: real, y: real)
    requires x <= y
    ensures Round(x) <= Round(y)
  {
  }

  /** Rounding is monotone and stays within 0.0005 MB of the exact value. */
  lemma {:induction false} BytesToMBClose(a: real, b: real)
    requires a <= b
    ensures BytesToMB(a) <= BytesToMB(b)
    ensures -0.0005 <= BytesToMB(a) - a / 1048576.0 <= 0.0005
  {
    RoundMonotone(MilliMB(a), MilliMB(b));
    RoundNear(MilliMB(a));
  }

  /** Rounding upload, download and their sum separately puts the total off by at most one thousandth. */
  lemma {:induction false} TotalClose(tx: real, rx: real)
    ensures -0.001 <= BytesToMB(tx + rx) - (BytesToMB(tx) + BytesToMB(rx)) <= 0.001
  {
    assert MilliMB(tx + rx) == MilliMB(tx) + MilliMB(rx);
    RoundNear(MilliMB(tx));
    RoundNear(MilliMB(rx));
    RoundNear(MilliMB(tx + rx));
    assert -1 <= Round(MilliMB(tx + rx)) - (Round(MilliMB(tx)) + Round(MilliMB(rx))) <= 1;
  }

  // ----- Entries -----

  datatype CivilTime = CivilTime(year: int, month: int, day: int, hour: int, minute: int)

  datatype Entry = Entry(timestamp: int, civil: CivilTime, rx: real, tx: real)

  /** The entry's moment; `utc` is the calendar arithmetic of the time library. */
  function EntryTime(utc: CivilTime -> int, e: Entry): int {
    if e.timestamp > 0 then e.timestamp
    else
      var c := e.civil;
      utc(c.(month := if c.month <= 0 then 1 else c.month, day := if c.day <= 0 then 1 else c.day))
  }

  function SampleFromEntry(utc: CivilTime -> int, machineID: nat, period: string, e: Entry): Sample {
    Sample(machineID, period, EntryTime(utc, e), BytesToMB(e.tx), BytesToMB(e.rx), BytesToMB(e.tx + e.rx))
  }

  /** Raising a byte counter never turns an over-threshold decision off, for any metric and any rule. */
  lemma {:induction false} CountersOnlyTrip(utc: CivilTime -> int, machineID: nat, period: string, e: Entry, f: Entry,
                                            metric: string, rule: Option<Rule>)
    requires e.tx <= f.tx && e.rx <= f.rx
    ensures Exceeds(rule, Actual(SampleFromEntry(utc, machineID, period, e), metric)) ==>
              Exceeds(rule, Actual(SampleFromEntry(utc, machineID, period, f), metric))
  {
    BytesToMBClose(e.tx, f.tx);
    BytesToMBClose(e.rx, f.rx);
    BytesToMBClose(e.tx + e.rx, f.tx + f.rx);
  }

  /** The first of the newest entries. */
  ghost predicate IsLatest(utc: CivilTime -> int, entries: seq<Entry>, k: int) {
    && 0 <= k < |entries|
    && (forall i :: 0 <= i < k ==> EntryTime(utc, entries[i]) < EntryTime(utc, entries[k]))
    && (forall i :: k < i < |entries| ==> EntryTime(utc, entries[i]) <= EntryTime(utc, entries[k]))
  }

  lemma {:induction false} LatestUnique(utc: CivilTime -> int, entries: seq<Entry>, j: int, k: int)
    requires IsLatest(utc, entries, j) && IsLatest(utc, entries, k)
    ensures j == k
  {
    assert EntryTime(utc, entries[j]) <= EntryTime(utc, entries[k]);
    assert EntryTime(utc, entries[k]) <= EntryTime(utc, entries[j]);
  }

  method LatestVNStatEntry(utc: CivilTime -> int, entries: seq<Entry>) returns (found: bool, latest: Entry, ghost k: int)
    ensures found <==> entries != []
    ensures found ==> IsLatest(utc, entries, k) && latest == entries[k]
  {
    if entries == [] {
      return false, Entry(0, CivilTime(0, 0, 0, 0, 0), 0.0, 0.0), -1;
    }
    found, latest, k := true, entries[0], 0;
    var latestTime := EntryTime(utc, latest);
    for i := 1 to |entries|
      invariant 0 <= k < i && latest == entries[k] && latestTime == EntryTime(utc, latest)
      invariant forall j :: 0 <= j < k ==> EntryTime(utc, entries[j]) < latestTime
      invariant forall j :: k < j < i ==> EntryTime(utc, entries[j]) <= latestTime
    {
      var entryTime := EntryTime(utc, entries[i]);
      if entryTime > latestTime {
        latest, latestTime, k := entries[i], entryTime, i;
      }
    }
  }

  // ----- A decoded response -----

  datatype Interface = Interface(name: string, hours: seq<Entry>, hour: seq<Entry>, days: seq<Entry>, day: seq<Entry>)

  datatype VNStatError = ParseFailed | InterfaceMissing

  /** The first interface of that name; failing that, the only one. */
  ghost predicate IsTarget(interfaces: seq<Interface>, name: string, k: int) {
    && 0 <= k < |interfaces|
    && if interfaces[k].name == name
       then forall i :: 0 <= i < k ==> interfaces[i].name != name
       else |interfaces| == 1
  }

  method FindVNStatInterface(interfaces: seq<Interface>, name: string) returns (found: Option<Interface>, ghost k: int)
    ensures found.Some? ==> IsTarget(interfaces, name, k) && found.value == interfaces[k]
    ensures found.None? ==> forall i :: !IsTarget(interfaces, name, i)
  {
    for i := 0 to |interfaces|
      invariant forall j :: 0 <= j < i ==> interfaces[j].name != name
    {
      if interfaces[i].name == name {
        return Some(interfaces[i]), i;
      }
    }
    if |interfaces| == 1 {
      return Some(interfaces[0]), 0;
    }
    found, k := None, -1;
  }

  function Hourly(x: Interface): seq<Entry> {
    if x.hours == [] then x.hour else x.hours
  }

  function Daily(x: Interface): seq<Entry> {
    if x.days == [] then x.day else x.days
  }

  /** The sample of the newest entry, if there is one. */
  ghost predicate IsNewest(utc: CivilTime -> int, machineID: nat, period: string, entries: seq<Entry>, samples: seq<Sample>) {
    if entries == [] then samples == []
    else exists k :: IsLatest(utc, entries, k) && samples == [SampleFromEntry(utc, machineID, period, entries[k])]
  }

  /** The sample is determined by the entries. */
  lemma {:induction false} NewestUnique(utc: CivilTime -> int, machineID: nat, period: string, entries: seq<Entry>, a: seq<Sample>, b: seq<Sample>)
    requires IsNewest(utc, machineID, period, entries, a) && IsNewest(utc, machineID, period, entries, b)
    ensures a == b
  {
    if entries != [] {
      var j :| IsLatest(utc, entries, j) && a == [SampleFromEntry(utc, machineID, period, entries[j])];
      var k :| IsLatest(utc, entries, k) && b == [SampleFromEntry(utc, machineID, period, entries[k])];
      LatestUnique(utc, entries, j, k);
    }
  }

  method NewestSample(utc: CivilTime -> int, machineID: nat, period: string, entries: seq<Entry>) returns (samples: seq<Sample>)
    ensures IsNewest(utc, machineID, period, entries, samples)
  {
    ghost var k;
    var found, latest;
    found, latest, k := LatestVNStatEntry(utc, entries);
    samples := if found then [SampleFromEntry(utc, machineID, period, latest)] else [];
  }

  /** parseVNStatSamples after decoding: at most one hourly and one daily sample, of the newest entries of
      the target interface; it fails if there is no such interface or no entry at all. */
  method ParseVNStatSamples(utc: CivilTime -> int, machineID: nat, name: string, interfaces: seq<Interface>)
    returns (r: Result<seq<Sample>, VNStatError>, ghost k: int, ghost hourly: seq<Sample>, ghost daily: seq<Sample>)
    ensures r == Err(InterfaceMissing) <==> forall i :: !IsTarget(interfaces, name, i)
    ensures r != Err(InterfaceMissing) ==>
              && IsTarget(interfaces, name, k)
              && IsNewest(utc, machineID, "hourly", Hourly(interfaces[k]), hourly)
              && IsNewest(utc, machineID, "daily", Daily(interfaces[k]), daily)
              && r == if hourly + daily == [] then Err(ParseFailed) else Ok(hourly + daily)
  {
    var target;
    target, k := FindVNStatInterface(interfaces, name);
    hourly, daily := [], [];
    if target.None? {
      return Err(InterfaceMissing), k, hourly, daily;
    }
    var hours := target.value.hours;
    if |hours| == 0 {
      hours := target.value.hour;
    }
    var samples := NewestSample(utc, machineID, "hourly", hours);
    hourly := samples;
    var days := target.value.days;
    if |days| == 0 {
      days := target.value.day;
    }
    var more := NewestSample(utc, machineID, "daily", days);
    daily := more;
    samples := samples + more;
    r := if |samples| == 0 then Err(ParseFailed) else Ok(samples);
  }
}

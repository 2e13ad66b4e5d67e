/** Threshold alerts: the text key that identifies one, when a period may be judged, and which alerts a
    batch of samples raises. */
module Alerts {
  import opened Wrappers
  import opened Text
  import opened BackupModel
  import opened Thresholds

  // ----- The alert key -----

  function AlertKey(machineID: nat, period: string, metric: string, bucket: int): string {
    Decimal(machineID) + ":" + period + ":" + metric + ":" + SignedDecimal(bucket)
  }

  /** Equal keys mean the same machine, period, metric and second, whatever the period text is. */
  lemma {:induction false} AlertKeyInjective(m: nat, p: string, x: string, b: int, n: nat, q: string, y: string, c: int)
    requires ColonFree(x) && ColonFree(y)
    requires AlertKey(m, p, x, b) == AlertKey(n, q, y, c)
    ensures m == n && p == q && x == y && b == c
  {
    var mt, nt := Decimal(m), Decimal(n);
    var bt, ct := SignedDecimal(b), SignedDecimal(c);
    DecimalColonFree(m);
    DecimalColonFree(n);
    DecimalColonFree(b);
    DecimalColonFree(c);
    SplitLastColon(mt + ":" + p + ":" + x, bt, nt + ":" + q + ":" + y, ct);
    SplitLastColon(mt + ":" + p, x, nt + ":" + q, y);
    SplitFirstColon(mt, p, nt, q);
    DecimalReadsBack(m);
    DecimalReadsBack(n);
    SignedDecimalInjective(b, c);
  }

  // ----- Completed periods -----

  const HOUR := 3600
  const DAY := 86400

  /** Times are seconds since the Unix epoch; hours and days are those of UTC. */
  function IsCompleted(period: string, bucket: int, now: int): bool {
    if period == "hourly" then bucket < now - now % HOUR
    else if period == "daily" then bucket < now - now % DAY
    else true
  }

  function PeriodSeconds(period: string): int {
    if period == "hourly" then HOUR else DAY
  }

  /** A bucket is judged exactly when the whole hour or day that contains it has passed. */
  lemma {:induction false} CompletedMeansPassed(period: string, bucket: int, now: int)
    requires period == "hourly" || period == "daily"
    ensures IsCompleted(period, bucket, now)
       <==> (bucket / PeriodSeconds(period) + 1) * PeriodSeconds(period) <= now
  {
    var n := PeriodSeconds(period);
    var b, t := bucket / n, now / n;
    assert bucket == b * n + bucket % n && now == t * n + now % n;
    if b < t {
      assert (b + 1) * n <= t * n;
    } else {
      assert t * n <= b * n;
      assert (b + 1) * n == b * n + n;
    }
  }

  // ----- Which alerts a sample raises -----

  datatype Sample = Sample(
    machineID: nat, period: string, bucket: int, uploadMB: real, downloadMB: real, totalMB: real)

  datatype Alert = Alert(
    machineID: nat, period: string, metric: string, bucket: int, thresholdMB: real, actualMB: real,
    key: string, status: string)

  function Actual(s: Sample, metric: string): real {
    if metric == "upload" then s.uploadMB else if metric == "download" then s.downloadMB else s.totalMB
  }

  predicate Exceeds(rule: Option<Rule>, actualMB: real) {
    rule.Some? && rule.value.enabled && actualMB > rule.value.thresholdMB
  }

  function NewAlert(s: Sample, metric: string, thresholdMB: real): Alert {
    Alert(s.machineID, s.period, metric, s.bucket, thresholdMB, Actual(s, metric),
          AlertKey(s.machineID, s.period, metric, s.bucket), "pending")
  }

  function MetricAlerts(globals: map<Dimension, Rule>, own: map<Dimension, Rule>, s: Sample, metric: string): seq<Alert> {
    var rule := Effective(globals, own, Dimension(s.period, metric));
    if Exceeds(rule, Actual(s, metric)) then [NewAlert(s, metric, rule.value.thresholdMB)] else []
  }

  function SampleAlerts(globals: map<Dimension, Rule>, own: map<Dimension, Rule>, s: Sample): seq<Alert> {
    MetricAlerts(globals, own, s, "upload") + MetricAlerts(globals, own, s, "download")
    + MetricAlerts(globals, own, s, "total")
  }

  function Judged(globals: map<Dimension, Rule>, own: map<Dimension, Rule>, s: Sample, now: int): seq<Alert> {
    if IsCompleted(s.period, s.bucket, now) then SampleAlerts(globals, own, s) else []
  }

  /** The alerts the samples call for, in sample and metric order. */
  function Wanted(globals: map<Dimension, Rule>, own: map<Dimension, Rule>, samples: seq<Sample>, now: int): seq<Alert> {
    if samples == [] then []
    else
      var n := |samples| - 1;
      Wanted(globals, own, samples[..n], now) + Judged(globals, own, samples[n], now)
  }

  /** The value the alert reports is the sample's value of its metric. */
  ghost predicate Measures(a: Alert, s: Sample) {
    || (a.metric == "upload" && a.actualMB == s.uploadMB)
    || (a.metric == "download" && a.actualMB == s.downloadMB)
    || (a.metric == "total" && a.actualMB == s.totalMB)
  }

  /** The simple rule: the period is over, and the effective rule (the machine's own, else the global one)
      of the alert's metric is enabled and strictly exceeded; the alert says so, and is new. */
  ghost predicate Calls(globals: map<Dimension, Rule>, own: map<Dimension, Rule>, s: Sample, now: int, a: Alert) {
    && IsCompleted(s.period, s.bucket, now)
    && Measures(a, s)
    && Effective(globals, own, Dimension(s.period, a.metric)) == Some(Rule(a.thresholdMB, true))
    && a.actualMB > a.thresholdMB
    && a.machineID == s.machineID && a.period == s.period && a.bucket == s.bucket
    && a.key == AlertKey(a.machineID, a.period, a.metric, a.bucket) && a.status == "pending"
  }

  lemma {:induction false} MetricAlertsHold(globals: map<Dimension, Rule>, own: map<Dimension, Rule>, s: Sample, now: int, metric: string, a: Alert)
    requires IsCompleted(s.period, s.bucket, now) && metric in {"upload", "download", "total"}
    ensures a in MetricAlerts(globals, own, s, metric) <==> a.metric == metric && Calls(globals, own, s, now, a)
  {
  }

  lemma {:induction false} JudgedHolds(globals: map<Dimension, Rule>, own: map<Dimension, Rule>, s: Sample, now: int, a: Alert)
    ensures a in Judged(globals, own, s, now) <==> Calls(globals, own, s, now, a)
  {
    if IsCompleted(s.period, s.bucket, now) {
      MetricAlertsHold(globals, own, s, now, "upload", a);
      MetricAlertsHold(globals, own, s, now, "download", a);
      MetricAlertsHold(globals, own, s, now, "total", a);
    }
  }

  ghost predicate SomeCalls(globals: map<Dimension, Rule>, own: map<Dimension, Rule>, samples: seq<Sample>, now: int, a: Alert) {
    exists i :: 0 <= i < |samples| && Calls(globals, own, samples[i], now, a)
  }

  lemma {:induction false} SomeCallsLast(globals: map<Dimension, Rule>, own: map<Dimension, Rule>, samples: seq<Sample>, now: int, a: Alert)
    requires samples != []
    ensures var n := |samples| - 1;
            SomeCalls(globals, own, samples, now, a)
            <==> (SomeCalls(globals, own, samples[..n], now, a) || Calls(globals, own, samples[n], now, a))
  {
    var n := |samples| - 1;
    assert samples == samples[..n] + [samples[n]];
    if SomeCalls(globals, own, samples[..n], now, a) {
      var i :| 0 <= i < n && Calls(globals, own, samples[..n][i], now, a);
      assert samples[i] == samples[..n][i];
    }
  }

  /** An alert is raised for a sample and a metric if and only if the simple rule calls for it. */
  lemma {:induction false} WantedExactly(globals: map<Dimension, Rule>, own: map<Dimension, Rule>, samples: seq<Sample>, now: int, a: Alert)
    ensures a in Wanted(globals, own, samples, now) <==> SomeCalls(globals, own, samples, now, a)
    decreases |samples|
  {
    if samples != [] {
      var n := |samples| - 1;
      WantedExactly(globals, own, samples[..n], now, a);
      JudgedHolds(globals, own, samples[n], now, a);
      SomeCallsLast(globals, own, samples, now, a);
    }
  }

  // ----- Creating them -----

  ghost predicate HasKey(alerts: seq<Alert>, key: string) {
    exists i :: 0 <= i < |alerts| && alerts[i].key == key
  }

  /** The unique index on alert keys. */
  ghost predicate DistinctKeys(alerts: seq<Alert>) {
    forall i, j :: 0 <= i < j < |alerts| ==> alerts[i].key != alerts[j].key
  }

  /** Insert-if-absent, one alert after the other. */
  ghost function Created(alerts: seq<Alert>, wanted: seq<Alert>): (r: seq<Alert>)
    ensures |r| >= |alerts|
    decreases |wanted|
  {
    if wanted == [] then alerts
    else
      var n := |wanted| - 1;
      var before := Created(alerts, wanted[..n]);
      if HasKey(before, wanted[n].key) then before else before + [wanted[n]]
  }

  lemma {:induction false} CreatedExtends(alerts: seq<Alert>, wanted: seq<Alert>)
    ensures alerts <= Created(alerts, wanted)
    decreases |wanted|
  {
    if wanted != [] {
      CreatedExtends(alerts, wanted[..|wanted| - 1]);
    }
  }

  /** Creation keeps keys unique, adds only wanted alerts, and leaves no wanted key without an alert. */
  lemma {:induction false} CreatedExactly(alerts: seq<Alert>, wanted: seq<Alert>)
    requires DistinctKeys(alerts)
    ensures var r := Created(alerts, wanted);
            && DistinctKeys(r)
            && (forall i :: |alerts| <= i < |r| ==> r[i] in wanted)
            && (forall i :: 0 <= i < |wanted| ==> HasKey(r, wanted[i].key))
    decreases |wanted|
  {
    if wanted != [] {
      var n := |wanted| - 1;
      CreatedExactly(alerts, wanted[..n]);
      var before := Created(alerts, wanted[..n]);
      var r := Created(alerts, wanted);
      forall i | 0 <= i < |wanted|
        ensures HasKey(r, wanted[i].key)
      {
        if i < n {
          assert HasKey(before, wanted[..n][i].key);
          var j :| 0 <= j < |before| && before[j].key == wanted[i].key;
          assert r[j].key == wanted[i].key;
        } else if !HasKey(before, wanted[n].key) {
          assert r[|before|].key == wanted[n].key;
        }
      }
    }
  }
}

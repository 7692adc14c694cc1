/** Cumulative scan metrics kept across sessions, with a scan history bounded to the last 100
    scans. The metrics file and the clock are parameters. */
module MetricsTracker {
  import opened Wrappers
  import opened PySlice

  /** How many scans the history keeps. */
  const HistoryLimit: nat := 100

  /** The default `limit` of `get_recent_scans`. */
  const DefaultRecentScans: int := 10

  /** One element of `scan_history`. */
  datatype ScanEntry = ScanEntry(timestamp: string, suppliers: int, critical: int, avgRisk: real)

  /** The `metrics` dictionary. */
  datatype Metrics = Metrics(
    totalScans: int,
    totalCriticalAlerts: int,
    totalRiskScores: seq<real>,
    lastScanTimestamp: Option<string>,
    scanHistory: seq<ScanEntry>)

  /** The metrics file: absent, unreadable, or a stored metrics dictionary. */
  datatype MetricsFile = Missing | Unparsable | Stored(metrics: Metrics)

  /** `_default_metrics` */
  function DefaultMetrics(): (m: Metrics)
    ensures m.totalScans == 0 && m.totalCriticalAlerts == 0
    ensures m.totalRiskScores == [] && m.lastScanTimestamp == None && m.scanHistory == []
  {
    Metrics(0, 0, [], None, [])
  }

  /** `_load_metrics`: a missing or unreadable file gives the default metrics. */
  function LoadMetrics(f: MetricsFile): (m: Metrics)
    ensures f.Stored? ==> m == f.metrics
    ensures !f.Stored? ==>
      (m.totalScans == 0 && m.totalCriticalAlerts == 0
       && m.totalRiskScores == [] && m.lastScanTimestamp == None && m.scanHistory == [])
  {
    if f.Stored? then f.metrics else DefaultMetrics()
  }

  function Sum(xs: seq<real>): real {
    if xs == [] then 0.0 else Sum(xs[..|xs| - 1]) + xs[|xs| - 1]
  }

  /** `sum(risk_scores) / len(risk_scores) if risk_scores else 0`, in exact arithmetic. */
  function Mean(xs: seq<real>): (r: real)
    ensures xs == [] ==> r == 0.0
  {
    if xs == [] then 0.0 else Sum(xs) / (|xs| as real)
  }

  /** `MetricsTracker`: the metrics dictionary and the file it is saved to. */
  class Tracker {
    var metrics: Metrics
    var metricsFile: MetricsFile

    constructor (file: MetricsFile)
      ensures metrics == LoadMetrics(file) && metricsFile == file
    {
      metrics := LoadMetrics(file);
      metricsFile := file;
    }

    /** `record_scan` at the time `now`: the totals grow by the scan's counts, its scores are
        appended, and its entry goes at the end of a history that keeps the last 100. */
    method RecordScan(suppliersCount: int, criticalCount: int, riskScores: seq<real>, now: string)
      modifies this
      ensures GetTotalScans() == old(GetTotalScans()) + suppliersCount
      ensures GetTotalCriticalAlerts() == old(GetTotalCriticalAlerts()) + criticalCount
      ensures metrics.totalRiskScores == old(metrics.totalRiskScores) + riskScores
      ensures GetLastScanTimestamp() == Some(now)
      ensures var entry := ScanEntry(now, suppliersCount, criticalCount, Mean(riskScores));
        && metrics.scanHistory == LastN(old(metrics.scanHistory) + [entry], HistoryLimit)
        && (|old(metrics.scanHistory)| < HistoryLimit ==> metrics.scanHistory == old(metrics.scanHistory) + [entry])
        && (|old(metrics.scanHistory)| == HistoryLimit ==> metrics.scanHistory == old(metrics.scanHistory)[1..] + [entry])
        && |metrics.scanHistory| <= HistoryLimit
        && metrics.scanHistory[|metrics.scanHistory| - 1] == entry
      ensures riskScores == [] ==> metrics.scanHistory[|metrics.scanHistory| - 1].avgRisk == 0.0
      ensures metricsFile == Stored(metrics)
    {
      var entry := ScanEntry(now, suppliersCount, criticalCount, Mean(riskScores));
      var history := metrics.scanHistory + [entry];
      LastNAfterAppend(metrics.scanHistory, entry, HistoryLimit);
      LastNIsSuffix(history, HistoryLimit);
      if |history| > HistoryLimit {
        history := Tail(history, HistoryLimit);
      }
      metrics := metrics.(
        totalScans := metrics.totalScans + suppliersCount,
        totalCriticalAlerts := metrics.totalCriticalAlerts + criticalCount,
        totalRiskScores := metrics.totalRiskScores + riskScores,
        lastScanTimestamp := Some(now),
        scanHistory := history);
      metricsFile := Stored(metrics);
    }

    function GetTotalScans(): int
      reads this
    {
      metrics.totalScans
    }

    function GetTotalCriticalAlerts(): int
      reads this
    {
      metrics.totalCriticalAlerts
    }

    function GetLastScanTimestamp(): Option<string>
      reads this
    {
      metrics.lastScanTimestamp
    }

    /** `get_recent_scans(limit)`: `scan_history[-limit:]`, read only. */
    function GetRecentScans(limit: int := DefaultRecentScans): (r: seq<ScanEntry>)
      reads this
      ensures limit >= 1 ==> |r| == Min(limit, |metrics.scanHistory|)
      ensures limit >= 1 ==> r == metrics.scanHistory[|metrics.scanHistory| - |r|..]
      ensures limit == 0 ==> r == metrics.scanHistory
      ensures limit < 0 ==> r == metrics.scanHistory[Min(-limit, |metrics.scanHistory|)..]
    {
      Tail(metrics.scanHistory, limit)
    }

    /** `reset_metrics`: back to the default metrics, which are saved. */
    method ResetMetrics()
      modifies this
      ensures metrics == DefaultMetrics()
      ensures GetTotalScans() == 0 && GetTotalCriticalAlerts() == 0 && GetLastScanTimestamp() == None
      ensures metrics.totalRiskScores == [] && metrics.scanHistory == []
      ensures metricsFile == Stored(DefaultMetrics())
    {
      metrics := DefaultMetrics();
      metricsFile := Stored(metrics);
    }
  }
}

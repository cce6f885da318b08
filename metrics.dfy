/** Gauge emission to Cloud Monitoring (metrics.py, src/metrics.py) and the
    record the local-mode logging client writes for every series. */
module Metrics {
  import opened Wrappers
  import opened Json

  /** Metric labels as the handlers build them: the values are whatever the
      handler put in its `labels` dict. */
  type Labels = map<string, Value>

  datatype Point = Point(doubleValue: real, endTime: int)

  datatype TimeSeries = TimeSeries(
    metricType: string,
    metricLabels: Labels,
    resourceType: string,
    resourceLabels: map<string, string>,
    points: seq<Point>)

  /** One `create_time_series(name=…, time_series=…)` request. */
  datatype SinkCall = SinkCall(name: string, timeSeries: seq<TimeSeries>)

  const MetricTypePrefix := "custom.googleapis.com/"
  const ProjectPrefix := "projects/"

  /** A series' metric labels are a string-to-string map: `labels.update`
      raises TypeError on a value that is not a string. */
  predicate StrLabels(labels: Labels)
  {
    forall k :: k in labels ==> labels[k].Str?
  }

  /** A single label fits exactly when its value is a string. */
  lemma StrLabelsSingle(key: string, v: Value)
    ensures StrLabels(map[key := v]) <==> v.Str?
  {
    assert map[key := v][key] == v;
  }

  /** A request whose every series could be built. */
  predicate Buildable(c: SinkCall)
  {
    forall i :: 0 <= i < |c.timeSeries| ==> StrLabels(c.timeSeries[i].metricLabels)
  }

  predicate AllBuildable(calls: seq<SinkCall>)
  {
    forall i :: 0 <= i < |calls| ==> Buildable(calls[i])
  }

  lemma AllBuildableConcat(xs: seq<SinkCall>, ys: seq<SinkCall>)
    ensures AllBuildable(xs + ys) <==> AllBuildable(xs) && AllBuildable(ys)
  {
    var zs := xs + ys;
    assert forall i :: 0 <= i < |xs| ==> zs[i] == xs[i];
    assert forall i :: 0 <= i < |ys| ==> zs[|xs| + i] == ys[i];
  }

  /** The request `emit_gauge_metric` sends for one gauge value. */
  function Gauge(projectId: string, name: string, value: real, labels: Labels, timestamp: int): (c: SinkCall)
    ensures Buildable(c) <==> StrLabels(labels)
  {
    var series := TimeSeries(MetricTypePrefix + name, labels, "global", map["project_id" := projectId],
                             [Point(value, timestamp)]);
    assert [series][0] == series;
    SinkCall(ProjectPrefix + projectId, [series])
  }

  /** The Cloud Monitoring client; `calls` is every request it has received,
      in order. */
  class MonitoringClient {
    var calls: seq<SinkCall>

    constructor ()
      ensures calls == []
    {
      calls := [];
    }

    method CreateTimeSeries(name: string, timeSeries: seq<TimeSeries>)
      modifies this
      ensures calls == old(calls) + [SinkCall(name, timeSeries)]
    {
      calls := calls + [SinkCall(name, timeSeries)];
    }
  }

  /** Builds one series with one point and sends it in a single request;
      a label value that is not a string raises before anything is sent. */
  method EmitGaugeMetric(client: MonitoringClient, projectId: string, name: string, value: real,
                         labels: Labels, timestamp: int) returns (outcome: Py<()>)
    modifies client
    ensures StrLabels(labels) ==>
              outcome == Ret(()) && client.calls == old(client.calls) + [Gauge(projectId, name, value, labels, timestamp)]
    ensures !StrLabels(labels) ==> outcome == Raise(Internal) && client.calls == old(client.calls)
  {
    var metricType := MetricTypePrefix + name;
    var projectName := ProjectPrefix + projectId;
    var series := TimeSeries("", map[], "", map[], []);
    series := series.(metricType := metricType);
    if !StrLabels(labels) {
      return Raise(Internal);
    }
    series := series.(metricLabels := series.metricLabels + labels);
    series := series.(resourceType := "global");
    series := series.(resourceLabels := series.resourceLabels["project_id" := projectId]);
    var point := Point(0.0, 0);
    point := point.(doubleValue := value);
    point := point.(endTime := timestamp);
    series := series.(points := [point]);
    assert series.metricLabels == labels;
    assert series.resourceLabels == map["project_id" := projectId];
    client.CreateTimeSeries(projectName, [series]);
    return Ret(());
  }

  /** The metric type of a request's first series. */
  function MetricOf(c: SinkCall): string
  {
    if |c.timeSeries| > 0 then c.timeSeries[0].metricType else ""
  }

  /** The value of a request's first point. */
  function ValueOf(c: SinkCall): real
  {
    if |c.timeSeries| > 0 && |c.timeSeries[0].points| > 0 then c.timeSeries[0].points[0].doubleValue else 0.0
  }

  /** The labels of a request's first series. */
  function LabelsOf(c: SinkCall): Labels
  {
    if |c.timeSeries| > 0 then c.timeSeries[0].metricLabels else map[]
  }

  /** The end time of a request's first point. */
  function EndTimeOf(c: SinkCall): int
  {
    if |c.timeSeries| > 0 && |c.timeSeries[0].points| > 0 then c.timeSeries[0].points[0].endTime else 0
  }

  /** A request determines every argument of the emission that produced it. */
  lemma GaugeDeterminesArguments(p1: string, n1: string, v1: real, l1: Labels, t1: int,
                                 p2: string, n2: string, v2: real, l2: Labels, t2: int)
    requires Gauge(p1, n1, v1, l1, t1) == Gauge(p2, n2, v2, l2, t2)
    ensures p1 == p2 && n1 == n2 && v1 == v2 && l1 == l2 && t1 == t2
  {
    var s1, s2 := Gauge(p1, n1, v1, l1, t1).timeSeries[0], Gauge(p2, n2, v2, l2, t2).timeSeries[0];
    assert s1.resourceLabels["project_id"] == p1;
    assert n1 == s1.metricType[|MetricTypePrefix|..];
    assert n2 == s2.metricType[|MetricTypePrefix|..];
  }

  /** Python's `s.replace(pat, "")`: every occurrence, scanned left to right
      without overlap, is removed. */
  function RemoveAll(s: string, pat: string): string
    requires pat != ""
    decreases |s|
  {
    if s == [] then []
    else if StartsWith(s, pat) then RemoveAll(s[|pat|..], pat)
    else [s[0]] + RemoveAll(s[1..], pat)
  }

  /** What the logging client writes for one series. */
  datatype MetricRecord = MetricRecord(
    metricType: string,
    projectId: string,
    name: string,
    value: real,
    labels: Labels,
    timestamp: Option<int>)

  function RecordOf(name: string, ts: TimeSeries): MetricRecord
  {
    MetricRecord(
      "gauge",
      RemoveAll(name, ProjectPrefix),
      RemoveAll(ts.metricType, MetricTypePrefix),
      if |ts.points| > 0 then ts.points[0].doubleValue else 0.0,
      ts.metricLabels,
      if |ts.points| > 0 then Some(ts.points[0].endTime) else None)
  }

  /** The local-mode replacement of `create_time_series`: one record per
      series, in order, and no request. */
  method LoggedCreateTimeSeries(name: string, timeSeries: seq<TimeSeries>) returns (records: seq<MetricRecord>)
    ensures |records| == |timeSeries|
    ensures forall i :: 0 <= i < |timeSeries| ==> records[i] == RecordOf(name, timeSeries[i])
  {
    records := [];
    for i := 0 to |timeSeries|
      invariant |records| == i
      invariant forall k :: 0 <= k < i ==> records[k] == RecordOf(name, timeSeries[k])
    {
      var ts := timeSeries[i];
      var timestamp: Option<int> := None;
      if |ts.points| > 0 {
        timestamp := Some(ts.points[0].endTime);
      }
      var value := if |ts.points| > 0 then ts.points[0].doubleValue else 0.0;
      var record := MetricRecord("gauge", RemoveAll(name, ProjectPrefix),
                                 RemoveAll(ts.metricType, MetricTypePrefix), value, ts.metricLabels, timestamp);
      records := records + [record];
    }
  }

  lemma {:induction false} RemoveAllFree(s: string, pat: string)
    requires pat != "" && !Occurs(pat, s)
    ensures RemoveAll(s, pat) == s
    decreases |s|
  {
    if s != [] {
      RemoveAllFree(s[1..], pat);
    }
  }

  /** Removing every occurrence of `pat` from `pat + s` gives back `s` when
      `s` itself does not contain `pat`. */
  lemma RemovePrefix(pat: string, s: string)
    requires pat != "" && !Occurs(pat, s)
    ensures RemoveAll(pat + s, pat) == s
  {
    assert StartsWith(pat + s, pat);
    assert (pat + s)[|pat|..] == s;
    RemoveAllFree(s, pat);
  }

  /** The logged record of an emitted gauge recovers the project, the metric
      name, the value, the labels and the timestamp, provided neither the
      project id nor the name contains the prefix that the logger strips. */
  lemma LoggedGaugeRoundTrip(projectId: string, name: string, value: real, labels: Labels, timestamp: int)
    requires !Occurs(ProjectPrefix, projectId) && !Occurs(MetricTypePrefix, name)
    ensures var c := Gauge(projectId, name, value, labels, timestamp);
            |c.timeSeries| == 1 &&
            RecordOf(c.name, c.timeSeries[0]) == MetricRecord("gauge", projectId, name, value, labels, Some(timestamp))
  {
    RemovePrefix(ProjectPrefix, projectId);
    RemovePrefix(MetricTypePrefix, name);
  }

  /** Without that proviso the logged project id differs from the real one:
      the logger removes an inner "projects/" too. */
  lemma LoggedProjectIdDropsInnerPrefix()
    ensures RecordOf(Gauge("a/projects/b", "m", 1.0, map[], 0).name,
                     Gauge("a/projects/b", "m", 1.0, map[], 0).timeSeries[0]).projectId == "a/b"
  {
    var g := Gauge("a/projects/b", "m", 1.0, map[], 0);
    assert RecordOf(g.name, g.timeSeries[0]).projectId == RemoveAll(g.name, ProjectPrefix);
    var s1, s2, s3, s4 := "a/projects/b", "/projects/b", "projects/b", "b";
    assert g.name == ProjectPrefix + s1;
    assert StartsWith(g.name, ProjectPrefix) && g.name[9..] == s1;
    assert !StartsWith(s1, ProjectPrefix) by { assert s1[..9][0] != ProjectPrefix[0]; }
    assert s1[1..] == s2;
    assert !StartsWith(s2, ProjectPrefix) by { assert s2[..9][0] != ProjectPrefix[0]; }
    assert s2[1..] == s3;
    assert StartsWith(s3, ProjectPrefix) && s3[9..] == s4;
    assert !StartsWith(s4, ProjectPrefix);
    assert s4[1..] == [];
    assert RemoveAll(s4, ProjectPrefix) == s4;
    assert RemoveAll(s2, ProjectPrefix) == "/" + s4;
    assert RemoveAll(g.name, ProjectPrefix) == "a" + ("/" + s4);
  }
}

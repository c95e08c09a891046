/** The per-operation sample buffer of backend/app/core/monitoring.py:
    `record` appends and drops the oldest sample past 1000, `get_stats`
    summarises one operation, `reset` empties one or all. */
module Monitoring {
  import opened Wrappers
  import opened PyJson

  /** `_max_samples`. */
  const MaxSamples: nat := 1000

  /** `PerformanceMetrics` without its timestamp. */
  datatype Metric = Metric(operation: string, duration: real, metadata: Json)

  /** The count, minimum and maximum of `get_stats`. */
  datatype Stats = Stats(operation: string, count: nat, min: real, max: real)

  /** `metadata or {}`. */
  function MetadataOrEmpty(metadata: Option<Json>): (j: Json)
    ensures metadata.Some? && Truthy(metadata.value) ==> j == metadata.value
    ensures !(metadata.Some? && Truthy(metadata.value)) ==> j == Obj([])
  {
    if metadata.Some? && Truthy(metadata.value) then metadata.value else Obj([])
  }

  /** The list after `append` and, when it grew past the cap, `pop(0)`. */
  function Appended(samples: seq<Metric>, m: Metric): seq<Metric>
  {
    if |samples + [m]| > MaxSamples then (samples + [m])[1..] else samples + [m]
  }

  /** The new sample is last, what remains is the newest part of the old list
      followed by it, and a list within the cap stays within it. */
  lemma AppendedSpec(samples: seq<Metric>, m: Metric)
    ensures var r := Appended(samples, m);
      r != [] && r[|r| - 1] == m &&
      r[..|r| - 1] == samples[|samples| - (|r| - 1)..] &&
      (|samples| <= MaxSamples ==> |r| <= MaxSamples) &&
      (|samples| < MaxSamples ==> r == samples + [m]) &&
      (|samples| == MaxSamples ==> r == samples[1..] + [m])
  {
    var r := Appended(samples, m);
    if |samples + [m]| > MaxSamples {
      assert r[..|r| - 1] == samples[1..];
      assert samples[|samples| - (|r| - 1)..] == samples[1..];
    } else {
      assert r[..|r| - 1] == samples;
    }
  }

  function DurationsOf(samples: seq<Metric>): (ds: seq<real>)
    ensures |ds| == |samples| && forall i :: 0 <= i < |samples| ==> ds[i] == samples[i].duration
  {
    seq(|samples|, i requires 0 <= i < |samples| => samples[i].duration)
  }

  /** `min(durations)`. */
  function MinOf(ds: seq<real>): (m: real)
    requires ds != []
    ensures m in ds && forall i :: 0 <= i < |ds| ==> m <= ds[i]
  {
    if |ds| == 1 then ds[0]
    else
      var rest := MinOf(ds[1..]);
      assert forall i :: 1 <= i < |ds| ==> ds[i] == ds[1..][i - 1];
      if ds[0] <= rest then ds[0] else rest
  }

  /** `max(durations)`. */
  function MaxOf(ds: seq<real>): (m: real)
    requires ds != []
    ensures m in ds && forall i :: 0 <= i < |ds| ==> ds[i] <= m
  {
    if |ds| == 1 then ds[0]
    else
      var rest := MaxOf(ds[1..]);
      assert forall i :: 1 <= i < |ds| ==> ds[i] == ds[1..][i - 1];
      if ds[0] >= rest then ds[0] else rest
  }

  /** The statistics of a non-empty sample list. */
  function StatsOf(operation: string, samples: seq<Metric>): (s: Stats)
    requires samples != []
    ensures s.operation == operation && s.count == |samples| && s.min <= s.max
    ensures forall i :: 0 <= i < |samples| ==> s.min <= samples[i].duration <= s.max
    ensures (exists i :: 0 <= i < |samples| && samples[i].duration == s.min) &&
            (exists i :: 0 <= i < |samples| && samples[i].duration == s.max)
  {
    var ds := DurationsOf(samples);
    Stats(operation, |samples|, MinOf(ds), MaxOf(ds))
  }

  /** `PerformanceMonitor`: the `defaultdict` of sample lists. */
  class PerformanceMonitor {
    var metrics: map<string, seq<Metric>>

    /** No list is longer than the cap. */
    predicate Valid()
      reads this
    {
      forall op :: op in metrics ==> |metrics[op]| <= MaxSamples
    }

    constructor ()
      ensures metrics == map[] && Valid()
    {
      metrics := map[];
    }

    /** `self.metrics[operation]`, empty for an operation never recorded. */
    function Samples(operation: string): seq<Metric>
      reads this
    {
      if operation in metrics then metrics[operation] else []
    }

    /** `record(operation, duration, metadata)`; the slow-operation warning
        only logs. */
    method Record(operation: string, duration: real, metadata: Option<Json>)
      requires Valid()
      modifies this
      ensures Valid()
      ensures metrics == old(metrics)[operation := Appended(old(Samples(operation)),
                                                            Metric(operation, duration, MetadataOrEmpty(metadata)))]
    {
      var metric := Metric(operation, duration, MetadataOrEmpty(metadata));
      var samples := Samples(operation) + [metric];
      if |samples| > MaxSamples {
        samples := samples[1..];
      }
      metrics := metrics[operation := samples];
    }

    /** `get_stats(operation)`: nothing for an unknown or empty operation. */
    function GetStats(operation: string): (r: Option<Stats>)
      reads this
      ensures r.None? <==> Samples(operation) == []
      ensures r.Some? ==> r.value == StatsOf(operation, Samples(operation))
    {
      if operation !in metrics || metrics[operation] == [] then None
      else Some(StatsOf(operation, metrics[operation]))
    }

    /** `get_all_stats()`: the statistics of every operation with samples. */
    function GetAllStats(): (r: map<string, Stats>)
      reads this
      ensures forall op :: op in r <==> op in metrics && metrics[op] != []
      ensures forall op :: op in r ==> Some(r[op]) == GetStats(op)
    {
      map op | op in metrics && metrics[op] != [] :: StatsOf(op, metrics[op])
    }

    /** `reset(operation)`: a truthy operation is emptied, otherwise (no
        operation, or the empty string) everything is cleared. */
    method Reset(operation: Option<string>)
      requires Valid()
      modifies this
      ensures Valid()
      ensures operation.Some? && operation.value != "" ==> metrics == old(metrics)[operation.value := []]
      ensures !(operation.Some? && operation.value != "") ==> metrics == map[]
    {
      if operation.Some? && operation.value != "" {
        metrics := metrics[operation.value := []];
      } else {
        metrics := map[];
      }
    }
  }

  /** Recording touches only its own operation, and the monitor then reports
      one more sample for it, up to the cap. */
  lemma RecordEffect(before: map<string, seq<Metric>>, operation: string, m: Metric, other: string)
    requires forall op :: op in before ==> |before[op]| <= MaxSamples
    requires other != operation
    ensures var old_ := if operation in before then before[operation] else [];
      var after := before[operation := Appended(old_, m)];
      (other in after <==> other in before) && (other in before ==> after[other] == before[other]) &&
      |after[operation]| == (if |old_| < MaxSamples then |old_| + 1 else MaxSamples)
  {
    var old_ := if operation in before then before[operation] else [];
    AppendedSpec(old_, m);
  }
}

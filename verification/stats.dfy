/** The per-department statistics collector of the simulation (`Results` in network.py):
    two append-only series of paired samples, one for queue-size changes and one for
    the running count of processed clients. */
module Stats {
  import opened Common

  datatype Results = Results(
    queueSize: seq<int>,
    queueChangeTime: seq<real>,
    processedClients: seq<int>,
    processedClientsTime: seq<real>)

  /** Each series is a list of values with a parallel list of timestamps. */
  predicate Paired(r: Results)
  {
    && |r.queueSize| == |r.queueChangeTime|
    && |r.processedClients| == |r.processedClientsTime|
  }

  /** A freshly created collector: every series holds the single sample 0. */
  function NewResults(): (r: Results)
    ensures Paired(r)
    ensures r.queueSize == [0] && r.queueChangeTime == [0.0]
    ensures r.processedClients == [0] && r.processedClientsTime == [0.0]
  {
    Results([0], [0.0], [0], [0.0])
  }

  /** `_register_queue_change`: one (size, time) sample is appended and nothing else moves. */
  function RegisterQueueChange(r: Results, size: int, now: real): (r': Results)
    ensures Paired(r) ==> Paired(r')
    ensures |r'.queueSize| == |r.queueSize| + 1 && |r'.queueChangeTime| == |r.queueChangeTime| + 1
    ensures r'.queueSize[..|r.queueSize|] == r.queueSize && Last(r'.queueSize) == size
    ensures r'.queueChangeTime[..|r.queueChangeTime|] == r.queueChangeTime && Last(r'.queueChangeTime) == now
    ensures r'.processedClients == r.processedClients && r'.processedClientsTime == r.processedClientsTime
  {
    r.(queueSize := r.queueSize + [size], queueChangeTime := r.queueChangeTime + [now])
  }

  /** `_register_processed_clients`: the value appended is the series' length plus one
      (so the count reads 0, 2, 3, ... rather than 0, 1, 2, ...). */
  function RegisterProcessed(r: Results, now: real): (r': Results)
    ensures Paired(r) ==> Paired(r')
    ensures |r'.processedClients| == |r.processedClients| + 1
    ensures r'.processedClients[..|r.processedClients|] == r.processedClients
    ensures Last(r'.processedClients) == |r.processedClients| + 1
    ensures |r'.processedClientsTime| == |r.processedClientsTime| + 1
    ensures r'.processedClientsTime[..|r.processedClientsTime|] == r.processedClientsTime
    ensures Last(r'.processedClientsTime) == now
    ensures r'.queueSize == r.queueSize && r'.queueChangeTime == r.queueChangeTime
  {
    r.(processedClients := r.processedClients + [|r.processedClients| + 1],
       processedClientsTime := r.processedClientsTime + [now])
  }

  /** Registering one processed client at each of the given times, in order. */
  function RegisterProcessedAt(r: Results, times: seq<real>): Results
  {
    if |times| == 0 then r else RegisterProcessed(RegisterProcessedAt(r, times[..|times| - 1]), Last(times))
  }

  /** The processed-clients series after n registrations on a fresh collector:
      [0, 2, 3, ..., n + 1]. */
  ghost predicate CountsFromTwo(s: seq<int>, n: nat)
  {
    && |s| == n + 1
    && s[0] == 0
    && forall i :: 1 <= i <= n ==> s[i] == i + 1
  }

  lemma {:induction false} ProcessedSeriesAfter(times: seq<real>)
    ensures CountsFromTwo(RegisterProcessedAt(NewResults(), times).processedClients, |times|)
    ensures RegisterProcessedAt(NewResults(), times).processedClientsTime == [0.0] + times
    ensures Paired(RegisterProcessedAt(NewResults(), times))
  {
    if |times| > 0 {
      var front := times[..|times| - 1];
      ProcessedSeriesAfter(front);
      assert front + [Last(times)] == times;
    }
  }
}

/**
 * The byte-accumulating transfer loop with throttled progress callbacks.
 * The byte stream is an input; each callback is recorded as the byte count it
 * reports (`completedUnitCount`), in the order the callbacks are scheduled.
 */
module Download {
  import opened FileItems

  /** The throttle test: report when the bytes since the last report exceed the granularity, or at the expected length. */
  predicate ShouldCallback(count: int, preProgress: int, length: int, granularity: int)
  {
    count - preProgress > granularity || count == length
  }

  /** The last reported count, or the initial `preProgress` of 0 before any report. */
  function LastOrZero(reports: seq<nat>): nat
  {
    if reports == [] then 0 else reports[|reports| - 1]
  }

  /** The counts reported while the first `n` bytes arrive one at a time. */
  function Reports(n: nat, length: int, granularity: nat): seq<nat>
  {
    if n == 0 then []
    else
      var earlier := Reports(n - 1, length, granularity);
      if ShouldCallback(n, LastOrZero(earlier), length, granularity) then earlier + [n] else earlier
  }

  /**
   * `URLSession.fetchDataInProgress(url:progress:)`: append every byte, and when a handler is present
   * report the running count whenever the throttle allows it.
   */
  method SessionFetchDataInProgress(stream: seq<Byte>, length: int, granularity: nat, hasHandler: bool)
    returns (data: seq<Byte>, reports: seq<nat>)
    ensures data == stream
    ensures reports == if hasHandler then Reports(|stream|, length, granularity) else []
  {
    data := [];
    reports := [];
    var preProgress: nat := 0;
    var i := 0;
    while i < |stream|
      invariant 0 <= i <= |stream|
      invariant data == stream[..i]
      invariant reports == if hasHandler then Reports(i, length, granularity) else []
      invariant preProgress == LastOrZero(reports)
    {
      data := data + [stream[i]];
      if hasHandler {
        var diff := |data| - preProgress;
        if diff > granularity || |data| == length {
          preProgress := |data|;
          reports := reports + [|data|];
        }
      }
      i := i + 1;
    }
  }

  /** Every report lies in 1..n and the reports strictly increase. */
  lemma {:induction false} ReportsIncrease(n: nat, length: int, granularity: nat)
    ensures forall k :: 0 <= k < |Reports(n, length, granularity)| ==> 1 <= Reports(n, length, granularity)[k] <= n
    ensures forall j, k :: 0 <= j < k < |Reports(n, length, granularity)| ==>
              Reports(n, length, granularity)[j] < Reports(n, length, granularity)[k]
  {
    if n > 0 {
      ReportsIncrease(n - 1, length, granularity);
    }
  }

  /** The count reported before the `k`-th report: the previous report, or 0 for the first. */
  function PreviousReport(r: seq<nat>, k: nat): nat
    requires k < |r|
  {
    if k == 0 then 0 else r[k - 1]
  }

  /** Every report passed the throttle against the report before it. */
  predicate Throttled(r: seq<nat>, length: int, granularity: nat)
  {
    forall k :: 0 <= k < |r| ==> ShouldCallback(r[k], PreviousReport(r, k), length, granularity)
  }

  /** Each callback that fires passed the throttle test when it fired. */
  lemma {:induction false} ReportsPassThrottle(n: nat, length: int, granularity: nat)
    ensures Throttled(Reports(n, length, granularity), length, granularity)
  {
    if n > 0 {
      var earlier := Reports(n - 1, length, granularity);
      ReportsPassThrottle(n - 1, length, granularity);
      if ShouldCallback(n, LastOrZero(earlier), length, granularity) {
        var r := earlier + [n];
        forall k | 0 <= k < |r|
          ensures ShouldCallback(r[k], PreviousReport(r, k), length, granularity)
        {
          if k < |earlier| {
            assert r[k] == earlier[k];
            assert PreviousReport(r, k) == PreviousReport(earlier, k);
            assert ShouldCallback(earlier[k], PreviousReport(earlier, k), length, granularity);
          } else {
            assert PreviousReport(r, k) == LastOrZero(earlier);
          }
        }
      }
    }
  }

  /** The bytes not yet reported never exceed the granularity. */
  lemma {:induction false} UnreportedTail(n: nat, length: int, granularity: nat)
    ensures LastOrZero(Reports(n, length, granularity)) <= n
    ensures n - LastOrZero(Reports(n, length, granularity)) <= granularity
  {
    if n > 0 {
      UnreportedTail(n - 1, length, granularity);
    }
  }

  /** When exactly the expected number of bytes arrives, the last report is that length. */
  lemma FinalReportIsLength(length: nat, granularity: nat)
    requires length > 0
    ensures |Reports(length, length, granularity)| > 0
    ensures LastOrZero(Reports(length, length, granularity)) == length
  {
  }

  /** With granularity 0 every byte is reported: the reports are 1, 2, …, n. */
  lemma {:induction false} EveryByteReported(n: nat, length: int)
    ensures |Reports(n, length, 0)| == n
    ensures forall k :: 0 <= k < n ==> Reports(n, length, 0)[k] == k + 1
  {
    if n > 0 {
      EveryByteReported(n - 1, length);
    }
  }

  /** A transfer request for one URL; `taskStarted` stands for the stored `task`. */
  class DownloadRequest {
    const url: string
    var taskStarted: bool

    constructor (url: string)
      ensures this.url == url && !taskStarted
    {
      this.url := url;
      taskStarted := false;
    }

    /** `DownloadRequest.fetchDataInProgress`: records the task, then runs the same loop. */
    method FetchDataInProgress(stream: seq<Byte>, length: int, granularity: nat, hasHandler: bool)
      returns (data: seq<Byte>, reports: seq<nat>)
      modifies this`taskStarted
      ensures taskStarted
      ensures data == stream
      ensures reports == if hasHandler then Reports(|stream|, length, granularity) else []
    {
      taskStarted := true;
      data, reports := SessionFetchDataInProgress(stream, length, granularity, hasHandler);
    }
  }
}

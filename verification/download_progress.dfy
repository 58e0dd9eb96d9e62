/**
 * The thread that watches a download: it queries the platform download manager for the
 * download's row every 300 ms and reports progress or failure to the dialog until the download
 * ends, the row disappears, the query throws, or the download is cancelled.
 *
 * Its only state is `downloading` and `lastProgress`. The rows the manager returns are an input
 * sequence; each pass also records the `downloadId` the loop head read, because a cancel on the
 * main thread resets it to -1 while the loop runs.
 */
module DownloadProgress {
  import opened Optional
  import opened JvmInt

  /** The `DownloadManager.STATUS_*` codes. */
  const STATUS_PENDING: int32 := 1
  const STATUS_RUNNING: int32 := 2
  const STATUS_PAUSED: int32 := 4
  const STATUS_SUCCESSFUL: int32 := 8
  const STATUS_FAILED: int32 := 16

  /** The columns read from the cursor; `None` where `getColumnIndex` gave a negative index. */
  datatype Row = Row(status: Option<int32>, bytesSoFar: Option<int64>, totalBytes: Option<int64>, reason: Option<int32>)

  /** One query: no row (null cursor or empty), an exception, or the download's row. */
  datatype QueryResult = NoRow | Threw(message: string) | Found(row: Row)

  /** One turn of the loop: the `downloadId` its condition read, and what the query returned. */
  datatype Round = Round(downloadId: int64, query: QueryResult)

  /** What is posted to the main thread: `onProgress(percent)` or `onError` for a failed download or an exception. */
  datatype Event = Progress(percent: int32) | DownloadFailed(reason: int32) | MonitorError(message: string)

  datatype PollState = PollState(downloading: bool, lastProgress: int32)

  const INITIAL: PollState := PollState(true, -1)

  /**
   * `((bytesDownloaded * 100) / bytesTotal).toInt()`, with `Long` overflow and truncation written
   * out. Without overflow and with no more bytes than the total, the value reported is the
   * completed share in whole percent, rounded down, and so lies between 0 and 100.
   */
  function Percent(bytesSoFar: int64, totalBytes: int64): (p: int32)
    requires totalBytes > 0
    ensures 0 <= bytesSoFar <= totalBytes && IsLong(bytesSoFar * 100) ==>
      0 <= p <= 100 && p * totalBytes <= bytesSoFar * 100 < (p + 1) * totalBytes
  {
    var q := TruncDiv(ToLong(bytesSoFar * 100), totalBytes);
    PercentShare(bytesSoFar, totalBytes, q);
    ToInt(q)
  }

  lemma PercentShare(bytesSoFar: int64, totalBytes: int64, q: int)
    requires totalBytes > 0 && q == TruncDiv(ToLong(bytesSoFar * 100), totalBytes)
    ensures 0 <= bytesSoFar <= totalBytes && IsLong(bytesSoFar * 100) ==>
      0 <= q <= 100 && q * totalBytes <= bytesSoFar * 100 < (q + 1) * totalBytes
  {
    if 0 <= bytesSoFar <= totalBytes && IsLong(bytesSoFar * 100) {
      assert ToLong(bytesSoFar * 100) == bytesSoFar * 100;
      ShareBounds(bytesSoFar * 100, totalBytes, q);
    }
  }

  /** A quotient whose remainder lies in `0 .. t - 1`, of a share of at most `100 * t`, is a whole percentage. */
  lemma ShareBounds(n: int, t: int, q: int)
    requires t > 0 && 0 <= n <= 100 * t
    requires 0 <= n - q * t < t
    ensures 0 <= q <= 100
    ensures q * t <= n < (q + 1) * t
  {
  }

  /** The query results that end the loop. */
  predicate Stops(q: QueryResult) {
    match q
    case NoRow => true
    case Threw(_) => true
    case Found(row) => row.status == Some(STATUS_SUCCESSFUL) || row.status == Some(STATUS_FAILED)
  }

  datatype StepResult = StepResult(state: PollState, event: Option<Event>)

  /** The body of the loop for one query result: at most one event, and the new state. */
  function Step(s: PollState, q: QueryResult): (r: StepResult)
    ensures r.state.downloading <==> s.downloading && !Stops(q)
    ensures r.event.Some? && !r.event.value.Progress? ==> !r.state.downloading
    ensures r.state.lastProgress != s.lastProgress ==> r.event == Some(Progress(r.state.lastProgress))
  {
    match q
    case NoRow => StepResult(s.(downloading := false), None)
    case Threw(message) => StepResult(s.(downloading := false), Some(MonitorError(message)))
    case Found(row) =>
      if row.status.None? then StepResult(s, None)
      else
        var status := row.status.value;
        var bytes := row.bytesSoFar.GetOr(0);
        var total := row.totalBytes.GetOr(0);
        if status == STATUS_PENDING then StepResult(s, Some(Progress(0)))
        else if status == STATUS_RUNNING then
          if total > 0 then
            var p := Percent(bytes, total);
            if p != s.lastProgress then StepResult(s.(lastProgress := p), Some(Progress(p)))
            else StepResult(s, None)
          else StepResult(s, None)
        else if status == STATUS_SUCCESSFUL then StepResult(s.(downloading := false), Some(Progress(100)))
        else if status == STATUS_FAILED then
          StepResult(s.(downloading := false), Some(DownloadFailed(row.reason.GetOr(-1))))
        else StepResult(s, None)
  }

  /** The reaction to each status, as the `when` in the source lays it out. */
  lemma StatusTable(s: PollState, row: Row)
    requires row.status.Some?
    ensures var r := Step(s, Found(row));
      && (row.status.value == STATUS_SUCCESSFUL ==> !r.state.downloading && r.event == Some(Progress(100)))
      && (row.status.value == STATUS_FAILED ==>
            !r.state.downloading && r.event == Some(DownloadFailed(row.reason.GetOr(-1))))
      && (row.status.value == STATUS_PENDING ==> r.state == s && r.event == Some(Progress(0)))
      && (row.status.value == STATUS_PAUSED ==> r.state == s && r.event == None)
  {
  }

  /**
   * A running download reports its percentage only when it differs from the last one reported;
   * the first running report always goes through, since `lastProgress` starts at -1.
   */
  lemma RunningReportedOnChange(s: PollState, row: Row)
    requires row.status == Some(STATUS_RUNNING)
    requires row.totalBytes.Some? && row.totalBytes.value > 0
    ensures var p := Percent(row.bytesSoFar.GetOr(0), row.totalBytes.value);
      var r := Step(s, Found(row));
      && r.state == s.(lastProgress := p)
      && (r.event.Some? <==> p != s.lastProgress)
      && (r.event.Some? ==> r.event.value == Progress(p))
  {
  }

  lemma FirstRunningReportGoesThrough(row: Row)
    requires row.status == Some(STATUS_RUNNING)
    requires row.totalBytes.Some? && row.totalBytes.value > 0
    requires var b := row.bytesSoFar.GetOr(0); 0 <= b <= row.totalBytes.value && IsLong(b * 100)
    ensures Step(INITIAL, Found(row)).event.Some?
  {
  }

  /** Where the loop ends up after a sequence of rounds: its state, what it posted, how many bodies ran. */
  datatype Outcome = Outcome(state: PollState, events: seq<Event>, passes: nat)

  function EventList(e: Option<Event>): seq<Event> {
    if e.Some? then [e.value] else []
  }

  /** The `while (downloading && downloadId != -1L)` loop, folded over the rounds it is given. */
  function Run(s: PollState, rounds: seq<Round>): (o: Outcome)
    ensures |o.events| <= o.passes <= |rounds|
    ensures o.passes < |rounds| ==> !o.state.downloading || rounds[o.passes].downloadId == -1
    decreases |rounds|
  {
    if !s.downloading || rounds == [] || rounds[0].downloadId == -1 then Outcome(s, [], 0)
    else
      var step := Step(s, rounds[0].query);
      var rest := Run(step.state, rounds[1..]);
      Outcome(rest.state, EventList(step.event) + rest.events, rest.passes + 1)
  }

  /** A row whose byte counts are what the download manager promises: never negative, never past the total, no overflow. */
  predicate Consistent(q: QueryResult) {
    q.Found? && q.row.totalBytes.GetOr(0) > 0 ==>
      var b := q.row.bytesSoFar.GetOr(0);
      0 <= b <= q.row.totalBytes.GetOr(0) && IsLong(b * 100)
  }

  /** With consistent rows, every percentage posted lies between 0 and 100. */
  lemma {:induction false} ProgressStaysInRange(s: PollState, rounds: seq<Round>)
    requires forall i :: 0 <= i < |rounds| ==> Consistent(rounds[i].query)
    ensures forall e :: e in Run(s, rounds).events && e.Progress? ==> 0 <= e.percent <= 100
    decreases |rounds|
  {
    if s.downloading && rounds != [] && rounds[0].downloadId != -1 {
      var q := rounds[0].query;
      ProgressStaysInRange(Step(s, q).state, rounds[1..]);
    }
  }

  /** A failure report is always the last thing posted: everything before it is progress. */
  predicate ProgressUntilLast(events: seq<Event>) {
    forall k :: 0 <= k < |events| - 1 ==> events[k].Progress?
  }

  lemma {:induction false} FailureIsLastEvent(s: PollState, rounds: seq<Round>)
    ensures ProgressUntilLast(Run(s, rounds).events)
    decreases |rounds|
  {
    if s.downloading && rounds != [] && rounds[0].downloadId != -1 {
      var step := Step(s, rounds[0].query);
      FailureIsLastEvent(step.state, rounds[1..]);
      var rest := Run(step.state, rounds[1..]).events;
      var ev := Run(s, rounds).events;
      assert ev == EventList(step.event) + rest;
      if step.event.Some? {
        if !step.event.value.Progress? {
          assert rest == [];
        }
        forall k | 0 <= k < |ev| - 1 ensures ev[k].Progress? {
          if k > 0 { assert ev[k] == rest[k - 1]; }
        }
      }
    }
  }

  /** What the pass that ends the loop posts. */
  function FinalReport(q: QueryResult): seq<Event>
    requires Stops(q)
  {
    match q
    case NoRow => []
    case Threw(message) => [MonitorError(message)]
    case Found(row) =>
      if row.status == Some(STATUS_SUCCESSFUL) then [Progress(100)] else [DownloadFailed(row.reason.GetOr(-1))]
  }

  /** `events` ends with `tail`. */
  predicate EndsWith(events: seq<Event>, tail: seq<Event>) {
    |tail| <= |events| && events[|events| - |tail|..] == tail
  }

  /**
   * The loop ends with the first round whose query stops it: that round is the last body run,
   * and what it posts (100 for success, the reason code or -1 for failure, the exception
   * message, or nothing for a missing row) is the last event.
   */
  lemma {:induction false} EndsAtFirstStop(s: PollState, rounds: seq<Round>, k: nat)
    requires s.downloading && k < |rounds|
    requires forall i :: 0 <= i <= k ==> rounds[i].downloadId != -1
    requires forall i :: 0 <= i < k ==> !Stops(rounds[i].query)
    requires Stops(rounds[k].query)
    decreases k
    ensures var o := Run(s, rounds);
      o.passes == k + 1 && !o.state.downloading && EndsWith(o.events, FinalReport(rounds[k].query))
  {
    if k == 0 {
      RunStops(s, rounds);
    } else {
      var step := Step(s, rounds[0].query);
      var rest := rounds[1..];
      RunUnfolds(s, rounds);
      forall i | 0 <= i <= k - 1 ensures rest[i].downloadId != -1 && (i < k - 1 ==> !Stops(rest[i].query)) {
        assert rest[i] == rounds[i + 1];
      }
      assert rest[k - 1] == rounds[k];
      EndsAtFirstStop(step.state, rest, k - 1);
      EndsWithAppend(EventList(step.event), Run(step.state, rest).events, FinalReport(rounds[k].query));
    }
  }

  /** One unfolding of `Run` when the loop head lets the body run. */
  lemma RunUnfolds(s: PollState, rounds: seq<Round>)
    requires s.downloading && rounds != [] && rounds[0].downloadId != -1
    ensures var step := Step(s, rounds[0].query);
      var rest := Run(step.state, rounds[1..]);
      Run(s, rounds) == Outcome(rest.state, EventList(step.event) + rest.events, rest.passes + 1)
  {
  }

  /** A round whose query stops the loop is the last one run, and it posts its final report. */
  lemma RunStops(s: PollState, rounds: seq<Round>)
    requires s.downloading && rounds != [] && rounds[0].downloadId != -1 && Stops(rounds[0].query)
    ensures Run(s, rounds) == Outcome(Step(s, rounds[0].query).state, FinalReport(rounds[0].query), 1)
    ensures !Run(s, rounds).state.downloading && EndsWith(Run(s, rounds).events, FinalReport(rounds[0].query))
  {
    var step := Step(s, rounds[0].query);
    StopStep(s, rounds[0].query);
    assert Run(step.state, rounds[1..]) == Outcome(step.state, [], 0);
    assert EventList(step.event) + [] == EventList(step.event);
    assert FinalReport(rounds[0].query)[0..] == FinalReport(rounds[0].query);
  }

  lemma StopStep(s: PollState, q: QueryResult)
    requires Stops(q)
    ensures !Step(s, q).state.downloading && EventList(Step(s, q).event) == FinalReport(q)
  {
  }

  lemma EndsWithAppend(x: seq<Event>, y: seq<Event>, tail: seq<Event>)
    requires EndsWith(y, tail)
    ensures EndsWith(x + y, tail)
  {
    assert (x + y)[|x + y| - |tail|..] == y[|y| - |tail|..];
  }

  /** When the loop head reads a `downloadId` of -1 (the download was cancelled), the loop ends without another query. */
  lemma {:induction false} EndsOnCancel(s: PollState, rounds: seq<Round>, k: nat)
    requires s.downloading && k < |rounds|
    requires forall i :: 0 <= i < k ==> rounds[i].downloadId != -1 && !Stops(rounds[i].query)
    requires rounds[k].downloadId == -1
    ensures Run(s, rounds).passes == k && Run(s, rounds).state.downloading
    decreases k
  {
    if k > 0 {
      EndsOnCancel(Step(s, rounds[0].query).state, rounds[1..], k - 1);
    }
  }

  /**
   * The polling thread's loop: the same decisions made step by step on the two local variables,
   * returning what it posted and how many times the body ran.
   */
  method MonitorProgress(rounds: seq<Round>) returns (events: seq<Event>, passes: nat)
    ensures events == Run(INITIAL, rounds).events
    ensures passes == Run(INITIAL, rounds).passes
  {
    var downloading := true;
    var lastProgress: int32 := -1;
    events, passes := [], 0;
    while passes < |rounds| && downloading && rounds[passes].downloadId != -1
      invariant passes <= |rounds|
      invariant Resumes(rounds, PollState(downloading, lastProgress), events, passes)
      decreases |rounds| - passes
    {
      var event;
      ghost var s := PollState(downloading, lastProgress);
      downloading, lastProgress, event := PollOnce(downloading, lastProgress, rounds[passes].query);
      PassAdvances(rounds, s, events, passes, PollState(downloading, lastProgress), event);
      events := events + EventList(event);
      passes := passes + 1;
    }
  }

  /**
   * The loop invariant: after `passes` bodies that posted `events`, running the rest of the
   * rounds from the loop's current state gives the outcome of the whole run.
   */
  predicate Resumes(rounds: seq<Round>, s: PollState, events: seq<Event>, passes: nat)
    requires passes <= |rounds|
  {
    var o := Run(s, rounds[passes..]);
    Run(INITIAL, rounds) == Outcome(o.state, events + o.events, passes + o.passes)
  }

  /** One more body run keeps the loop invariant. */
  lemma PassAdvances(rounds: seq<Round>, s: PollState, events: seq<Event>, passes: nat, s': PollState, event: Option<Event>)
    requires passes < |rounds| && s.downloading && rounds[passes].downloadId != -1
    requires Resumes(rounds, s, events, passes)
    requires StepResult(s', event) == Step(s, rounds[passes].query)
    ensures Resumes(rounds, s', events + EventList(event), passes + 1)
  {
    RunUnfolds(s, rounds[passes..]);
    assert rounds[passes..][0] == rounds[passes];
    assert rounds[passes..][1..] == rounds[passes + 1..];
    var o := Run(s', rounds[passes + 1..]);
    assert events + (EventList(event) + o.events) == events + EventList(event) + o.events;
  }

  /**
   * The loop body that `Step` specifies, as the source writes it: the `when` over the row's
   * status, updating the two loop variables in place.
   */
  method PollOnce(downloading: bool, lastProgress: int32, query: QueryResult)
    returns (downloading': bool, lastProgress': int32, event: Option<Event>)
    ensures StepResult(PollState(downloading', lastProgress'), event) == Step(PollState(downloading, lastProgress), query)
  {
    downloading', lastProgress', event := downloading, lastProgress, None;
    match query {
      case NoRow =>
        downloading' := false;
      case Threw(message) =>
        downloading' := false;
        event := Some(MonitorError(message));
      case Found(row) =>
        if row.status.Some? {
          var status := row.status.value;
          var bytesDownloaded := row.bytesSoFar.GetOr(0);
          var bytesTotal := row.totalBytes.GetOr(0);
          if status == STATUS_PENDING {
            event := Some(Progress(0));
          } else if status == STATUS_RUNNING {
            if bytesTotal > 0 {
              var progress := Percent(bytesDownloaded, bytesTotal);
              if progress != lastProgress {
                lastProgress' := progress;
                event := Some(Progress(progress));
              }
            }
          } else if status == STATUS_SUCCESSFUL {
            downloading' := false;
            event := Some(Progress(100));
          } else if status == STATUS_FAILED {
            downloading' := false;
            event := Some(DownloadFailed(row.reason.GetOr(-1)));
          }
        }
    }
  }
}

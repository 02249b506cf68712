/**
  `PDFIngestViewModel`: the upload-then-poll job machine. Uploads, poll replies and
  cancellations are events applied to the view model; the polling tasks it has
  started are kept as records (which document each polls, whether it was cancelled,
  whether its loop is still running), and `pollingTask` refers to the latest one.
 */
module PdfIngest {
  import opened Wrappers
  import opened ApiError
  import opened Upload

  datatype IngestState =
    | Idle
    | Uploading
    | Processing(documentId: string)
    | Completed(documentId: string)
    | Failed(message: string)

  /** What one `getDocument` call in the loop produced: the document's status, or a
      thrown error (silently retried). */
  datatype Poll = Status(status: string) | FetchError(error: Failure)

  /** A polling task: the document it polls, whether `cancel()` was called on it,
      whether its loop has not exited yet, and whether it is past its loop-head check
      (asleep or fetching) rather than waiting to make that check. */
  datatype PollTask = PollTask(documentId: string, cancelled: bool, running: bool, pastHead: bool)

  /** What can happen to one polling task: `cancel()` is called on it; its loop head
      finds it not cancelled, so it sleeps and fetches; its loop head finds it
      cancelled, so the loop exits; or its fetch returns. A fetch that returns without
      a terminal status to a task that was not cancelled meanwhile passes the next loop
      head in the same main-actor job, so the task stays past its head. */
  datatype TaskEvent = CancelRequested | HeadPassed | HeadCancelled | FetchReturned(p: Poll)

  const ProcessingFailedText: string := "PDF processing failed"

  /** A status that ends the loop. */
  predicate Terminal(p: Poll) {
    p.Status? && (p.status == "ready" || p.status == "failed")
  }

  /** One loop iteration's effect after its fetch: the new state, and whether the loop
      returns. */
  function Step(state: IngestState, documentId: string, p: Poll): (IngestState, bool)
  {
    if p == Status("ready") then (Completed(documentId), true)
    else if p == Status("failed") then (Failed(ProcessingFailedText), true)
    else (state, false)
  }

  /** Whether event `e` can happen to task `t` next. Cancelling is always possible (it
      is a no-op on a finished task); only a task past its loop head fetches, and only
      one still before it checks the head. */
  predicate Enabled(t: PollTask, e: TaskEvent) {
    match e
    case CancelRequested => true
    case HeadPassed => t.running && !t.pastHead && !t.cancelled
    case HeadCancelled => t.running && !t.pastHead && t.cancelled
    case FetchReturned(_) => t.running && t.pastHead
  }

  /** The task after event `e`. */
  function Advanced(t: PollTask, e: TaskEvent): PollTask {
    match e
    case CancelRequested => t.(cancelled := true)
    case HeadPassed => t.(pastHead := true)
    case HeadCancelled => t.(running := false)
    case FetchReturned(p) => t.(running := !Terminal(p) && !t.cancelled)
  }

  /** The view model's state after task `t` undergoes `e`: only a returned fetch moves it. */
  function StateAfter(state: IngestState, t: PollTask, e: TaskEvent): IngestState {
    if e.FetchReturned? then Step(state, t.documentId, e.p).0 else state
  }

  /** Each event of `es` is enabled in turn, starting from task `t`. */
  predicate Replays(t: PollTask, es: seq<TaskEvent>)
    decreases |es|
  {
    es == [] || (Enabled(t, es[0]) && Replays(Advanced(t, es[0]), es[1..]))
  }

  /** The state and the task after all of `es`. */
  function AfterAll(state: IngestState, t: PollTask, es: seq<TaskEvent>): (IngestState, PollTask)
    decreases |es|
  {
    if es == [] then (state, t) else AfterAll(StateAfter(state, t, es[0]), Advanced(t, es[0]), es[1..])
  }

  /** How many fetches return in `es`. */
  function Fetches(es: seq<TaskEvent>): nat
    decreases |es|
  {
    if es == [] then 0 else (if es[0].FetchReturned? then 1 else 0) + Fetches(es[1..])
  }

  /** The loop run over the fetch results `polls` until one is terminal: the state it
      leaves and how many fetches it made. */
  function Polled(state: IngestState, documentId: string, polls: seq<Poll>): (IngestState, nat)
  {
    if polls == [] then (state, 0)
    else
      var (next, ends) := Step(state, documentId, polls[0]);
      if ends then (next, 1)
      else
        var (last, n) := Polled(next, documentId, polls[1..]);
        (last, n + 1)
  }

  /** The task list after `pollingTask?.cancel()`. */
  function CancelledAt(tasks: seq<PollTask>, ref: Option<nat>): (r: seq<PollTask>)
    ensures |r| == |tasks|
    ensures forall j :: 0 <= j < |tasks| ==>
      r[j] == if ref == Some(j) then Advanced(tasks[j], CancelRequested) else tasks[j]
  {
    if ref.Some? && ref.value < |tasks| then tasks[ref.value := tasks[ref.value].(cancelled := true)] else tasks
  }

  class PdfIngestViewModel {
    var state: IngestState
    var tasks: seq<PollTask>
    var pollingTask: Option<nat>

    /** `pollingTask` refers to a started task, and it is the only one that is running
        without having been cancelled. */
    ghost predicate Valid()
      reads this
    {
      && (pollingTask.Some? ==> pollingTask.value < |tasks|)
      && forall j :: 0 <= j < |tasks| && tasks[j].running && !tasks[j].cancelled ==> pollingTask == Some(j)
    }

    /** Whether a polling loop is live and will go on polling. */
    function PollingActive(): bool
      reads this
      requires Valid()
    {
      pollingTask.Some? && tasks[pollingTask.value].running && !tasks[pollingTask.value].cancelled
    }

    constructor ()
      ensures Valid() && state == Idle && tasks == [] && pollingTask == None
    {
      state := Idle;
      tasks := [];
      pollingTask := None;
    }

    /** `uploadPDF(fileURL:)` on entry: the state becomes uploading; a running poll is
        not cancelled. */
    method UploadPdf()
      requires Valid()
      modifies this
      ensures Valid()
      ensures state == Uploading && tasks == old(tasks) && pollingTask == old(pollingTask)
    {
      state := Uploading;
    }

    /** `startPolling(_:)`: cancels the referenced task, then starts and refers to a new one. */
    method StartPolling(documentId: string)
      requires Valid()
      modifies this
      ensures Valid() && PollingActive()
      ensures tasks == CancelledAt(old(tasks), old(pollingTask)) + [PollTask(documentId, false, true, false)]
      ensures pollingTask == Some(|old(tasks)|)
      ensures state == old(state)
    {
      tasks := CancelledAt(tasks, pollingTask);
      tasks := tasks + [PollTask(documentId, false, true, false)];
      pollingTask := Some(|tasks| - 1);
    }

    /** The upload task's completion: processing and polling of the new document, or
        the failure's description. */
    method UploadFinished(result: Result<PdfIngestResponse, Failure>)
      requires Valid()
      modifies this
      ensures Valid()
      ensures result.Ok? ==> state == Processing(result.value.data.documentId) && PollingActive()
      ensures result.Ok? ==>
        tasks == CancelledAt(old(tasks), old(pollingTask)) + [PollTask(result.value.data.documentId, false, true, false)]
      ensures result.Ok? ==> pollingTask == Some(|old(tasks)|)
      ensures result.Err? ==> state == Failed(LocalizedDescription(result.error))
      ensures result.Err? ==> tasks == old(tasks) && pollingTask == old(pollingTask)
    {
      match result
      case Ok(response) =>
        var documentId := response.data.documentId;
        state := Processing(documentId);
        StartPolling(documentId);
      case Err(f) =>
        state := Failed(LocalizedDescription(f));
    }

    /** `cancelPolling()`: marks the referenced task cancelled; its loop notices at its
        next loop head. */
    method CancelPolling()
      requires Valid()
      modifies this
      ensures Valid() && !PollingActive()
      ensures tasks == CancelledAt(old(tasks), pollingTask)
      ensures state == old(state) && pollingTask == old(pollingTask)
    {
      tasks := CancelledAt(tasks, pollingTask);
    }

    /** Task `i`, not cancelled, passes its loop head: it goes on to sleep and fetch. */
    method LoopEntered(i: nat)
      requires Valid() && i < |tasks| && Enabled(tasks[i], HeadPassed)
      modifies this
      ensures Valid()
      ensures tasks == old(tasks)[i := Advanced(old(tasks)[i], HeadPassed)]
      ensures state == old(state) && pollingTask == old(pollingTask)
    {
      tasks := tasks[i := tasks[i].(pastHead := true)];
    }

    /** Task `i` reaches its loop head and finds itself cancelled: the loop exits
        without fetching. */
    method LoopHeadCancelled(i: nat)
      requires Valid() && i < |tasks| && Enabled(tasks[i], HeadCancelled)
      modifies this
      ensures Valid()
      ensures tasks == old(tasks)[i := Advanced(old(tasks)[i], HeadCancelled)]
      ensures state == old(state) && pollingTask == old(pollingTask)
    {
      tasks := tasks[i := tasks[i].(running := false)];
    }

    /** A fetch of task `i`, which passed its loop head, returned (the task may have
        been cancelled while it slept: the sleep's cancellation is discarded and the
        fetch still runs). The state follows `Step`; the loop exits on a terminal
        status, or at the next loop head when the task was cancelled. */
    method PollReturned(i: nat, p: Poll)
      requires Valid() && i < |tasks| && Enabled(tasks[i], FetchReturned(p))
      modifies this
      ensures Valid()
      ensures state == Step(old(state), old(tasks)[i].documentId, p).0
      ensures tasks == old(tasks)[i := Advanced(old(tasks)[i], FetchReturned(p))]
      ensures pollingTask == old(pollingTask)
    {
      var task := tasks[i];
      var (next, ends) := Step(state, task.documentId, p);
      state := next;
      if ends || task.cancelled {
        tasks := tasks[i := task.(running := false)];
      }
    }

    /** The loop of task `i`, freshly started, run to its end through the events above:
        it passes its first head, and its fetches return the statuses scripted by
        `polls` in order. `heads` scripts `cancelPolling()`: it lands before the head
        check numbered `heads` (head 0 is the first, before any fetch; head `k` follows
        fetch `k - 1`), which then finds the task cancelled. The loop stops at the first
        terminal status, at that head, or when the script runs out; `events` is the
        run as seen by the task. */
    method RunPolling(i: nat, polls: seq<Poll>, heads: nat) returns (fetches: nat, ghost events: seq<TaskEvent>)
      requires Valid() && i < |tasks| && tasks[i].running && !tasks[i].cancelled && !tasks[i].pastHead
      modifies this
      ensures Valid()
      ensures fetches <= heads && fetches <= |polls|
      ensures forall j :: 0 <= j < fetches - 1 ==> !Terminal(polls[j])
      ensures fetches == heads || fetches == |polls| || (fetches > 0 && Terminal(polls[fetches - 1]))
      ensures (state, fetches) == Polled(old(state), old(tasks)[i].documentId, polls[..fetches])
      ensures |tasks| == |old(tasks)| && pollingTask == old(pollingTask)
      ensures forall j :: 0 <= j < |tasks| && j != i ==> tasks[j] == old(tasks)[j]
      ensures tasks[i].documentId == old(tasks)[i].documentId
      ensures tasks[i].cancelled <==> heads <= fetches
      ensures !tasks[i].running <==> fetches == heads || (fetches > 0 && Terminal(polls[fetches - 1]))
      ensures PollingActive() <==> tasks[i].running
      ensures Replays(old(tasks)[i], events) && AfterAll(old(state), old(tasks)[i], events) == (state, tasks[i])
      ensures Fetches(events) == fetches
    {
      ghost var t0, s0 := tasks[i], state;
      if heads == 0 {
        CancelPolling();
        LoopHeadCancelled(i);
        events := [CancelRequested, HeadCancelled];
        assert events[1..] == [HeadCancelled];
        return 0, events;
      }
      LoopEntered(i);
      events := [HeadPassed];
      assert AfterAll(s0, t0, events) == (state, tasks[i]) && Replays(t0, events) && Fetches(events) == 0;
      var k := 0;
      while k < |polls| && tasks[i].running
        invariant Valid() && i < |tasks| && |tasks| == |old(tasks)| && pollingTask == old(pollingTask)
        invariant forall j :: 0 <= j < |tasks| && j != i ==> tasks[j] == old(tasks)[j]
        invariant tasks[i].documentId == t0.documentId && tasks[i].pastHead
        invariant k <= |polls| && k <= heads
        invariant tasks[i].cancelled <==> heads <= k
        invariant tasks[i].running <==> k == 0 || (k < heads && !Terminal(polls[k - 1]))
        invariant forall j :: 0 <= j < k - 1 ==> !Terminal(polls[j])
        invariant state == if k > 0 && Terminal(polls[k - 1]) then Step(s0, t0.documentId, polls[k - 1]).0 else s0
        invariant Replays(t0, events) && AfterAll(s0, t0, events) == (state, tasks[i]) && Fetches(events) == k
      {
        if k == heads - 1 {
          ReplaysSnoc(s0, t0, events, CancelRequested);
          CancelPolling();
          events := events + [CancelRequested];
        }
        ReplaysSnoc(s0, t0, events, FetchReturned(polls[k]));
        PollReturned(i, polls[k]);
        events := events + [FetchReturned(polls[k])];
        k := k + 1;
      }
      if k > 0 && Terminal(polls[k - 1]) {
        PolledUntilTerminal(s0, t0.documentId, polls[..k], k - 1);
      } else {
        PolledWithoutTerminal(s0, t0.documentId, polls[..k]);
      }
      return k, events;
    }
  }

  /** Extending a run by one enabled event extends its trace: the state and the task
      move by that event, and a returned fetch is counted. */
  lemma {:induction false} ReplaysSnoc(state: IngestState, t: PollTask, es: seq<TaskEvent>, e: TaskEvent)
    requires Replays(t, es) && Enabled(AfterAll(state, t, es).1, e)
    ensures Replays(t, es + [e])
    ensures var (s, u) := AfterAll(state, t, es);
      AfterAll(state, t, es + [e]) == (StateAfter(s, u, e), Advanced(u, e))
    ensures Fetches(es + [e]) == Fetches(es) + (if e.FetchReturned? then 1 else 0)
    decreases |es|
  {
    if es == [] {
      assert [e][1..] == [];
    } else {
      assert (es + [e])[1..] == es[1..] + [e];
      ReplaysSnoc(StateAfter(state, t, es[0]), Advanced(t, es[0]), es[1..], e);
    }
  }

  /** Statuses other than "ready" and "failed", and fetch errors, leave the state as it
      was and the loop goes on, without any cap on the number of retries. */
  lemma {:induction false} PolledWithoutTerminal(state: IngestState, documentId: string, polls: seq<Poll>)
    requires forall j :: 0 <= j < |polls| ==> !Terminal(polls[j])
    ensures Polled(state, documentId, polls) == (state, |polls|)
  {
    if polls != [] {
      PolledWithoutTerminal(state, documentId, polls[1..]);
    }
  }

  /** The first terminal status decides: "ready" completes the document, "failed"
      fails it; nothing before it changed the state and nothing after it is fetched. */
  lemma {:induction false} PolledUntilTerminal(state: IngestState, documentId: string, polls: seq<Poll>, k: nat)
    requires k < |polls| && Terminal(polls[k])
    requires forall j :: 0 <= j < k ==> !Terminal(polls[j])
    ensures Polled(state, documentId, polls).1 == k + 1
    ensures polls[k] == Status("ready") ==> Polled(state, documentId, polls).0 == Completed(documentId)
    ensures polls[k] == Status("failed") ==> Polled(state, documentId, polls).0 == Failed(ProcessingFailedText)
  {
    if k > 0 {
      PolledUntilTerminal(state, documentId, polls[1..], k - 1);
    }
  }

  /** Three "processing" replies and then "ready" complete the document after four
      fetches, and a reply scripted after it is never fetched. */
  lemma ProcessingThenReady(documentId: string)
    ensures var polls := [Status("processing"), Status("processing"), Status("processing"), Status("ready"), Status("failed")];
      Polled(Processing(documentId), documentId, polls) == (Completed(documentId), 4)
  {
    var polls := [Status("processing"), Status("processing"), Status("processing"), Status("ready"), Status("failed")];
    PolledUntilTerminal(Processing(documentId), documentId, polls, 3);
  }

  /** Fetch errors are retried silently: two failed fetches and then "ready" complete
      the document. */
  lemma ErrorsThenReady(documentId: string, e1: Failure, e2: Failure)
    ensures Polled(Processing(documentId), documentId, [FetchError(e1), FetchError(e2), Status("ready")])
      == (Completed(documentId), 3)
  {
    PolledUntilTerminal(Processing(documentId), documentId, [FetchError(e1), FetchError(e2), Status("ready")], 2);
  }

  /** Nothing ties polling to the state: after the state is reset to idle, a later
      "ready" still moves it to completed. */
  lemma PollIgnoresCurrentState(documentId: string)
    ensures Polled(Idle, documentId, [Status("ready")]) == (Completed(documentId), 1)
  {
    PolledUntilTerminal(Idle, documentId, [Status("ready")], 0);
  }

  /** A finished task can only be cancelled again: it never fetches and never moves
      the state. */
  lemma {:induction false} FinishedIsInert(state: IngestState, t: PollTask, es: seq<TaskEvent>)
    requires !t.running && Replays(t, es)
    ensures AfterAll(state, t, es).0 == state && Fetches(es) == 0
    decreases |es|
  {
    if es != [] {
      FinishedIsInert(state, Advanced(t, es[0]), es[1..]);
    }
  }

  /** A task cancelled before its loop head checks (for instance right after
      `startPolling` and `cancelPolling`) exits at that head: whatever happens to it
      afterwards, it never fetches and never changes the state. */
  lemma {:induction false} CancelledBeforeHeadIsInert(state: IngestState, t: PollTask, es: seq<TaskEvent>)
    requires t.cancelled && !t.pastHead && Replays(t, es)
    ensures AfterAll(state, t, es).0 == state && Fetches(es) == 0
    decreases |es|
  {
    if es != [] {
      CancelledBeforeHeadIsInert(state, Advanced(t, es[0]), es[1..]);
    }
  }

  /** A task cancelled while it sleeps or fetches is finished after its next fetch
      returns, so it fetches at most once more. That fetch may still overwrite the state
      (even a newer document's) when its reply is a terminal status; a fetch that itself
      fails on the cancellation changes nothing. */
  lemma {:induction false} CancelledInSleepFetchesOnce(state: IngestState, t: PollTask, es: seq<TaskEvent>)
    requires t.cancelled && t.pastHead && Replays(t, es)
    ensures Fetches(es) <= 1
    ensures t.running ==> Replays(t, [FetchReturned(Status("ready"))])
    ensures AfterAll(state, t, [FetchReturned(Status("ready"))]) == (Completed(t.documentId), t.(running := false))
    decreases |es|
  {
    if es != [] {
      if es[0].FetchReturned? {
        FinishedIsInert(StateAfter(state, t, es[0]), Advanced(t, es[0]), es[1..]);
      } else {
        CancelledInSleepFetchesOnce(state, Advanced(t, es[0]), es[1..]);
      }
    }
  }
}

/** The upload queue: per-recording status entries that move through fixed
    states while a recording is zipped, uploaded and graded, the pollers
    that follow a submission, the delayed removal of finished entries, and
    the "any upload active" flag.  Timers become explicit steps: a poll tick
    and a removal firing are methods the environment calls. */
module UploadManager {
  import opened Wrappers

  datatype UploadStatus = Queued | Uploading | Processing | Completed | Failed

  /** One entry of the queue store; absent fields are JavaScript `undefined`. */
  datatype UploadEntry = UploadEntry(
    status: UploadStatus,
    progress: Option<int>,
    error: Option<string>,
    submissionId: Option<string>,
    name: Option<string>)

  /** A write the store's subscribers see. */
  datatype QueueUpdate = Put(recordingId: string, entry: UploadEntry) | Delete(recordingId: string)

  /** A thrown value: an `Error` with its message, or anything else. */
  datatype Thrown = ErrorInstance(message: string) | OtherValue

  /** What uploading the zip reports: the submission id, or a throw. */
  datatype UploadReply = Uploaded(submissionId: string) | UploadThrew(thrown: Thrown)

  /** What one poll of a submission's status reports. */
  datatype PollReply = StatusReport(status: string, error: Option<string>) | PollThrew(thrown: Thrown)

  /** The poller of a recording's submission; `running` until it is cleared. */
  datatype Interval = Interval(submissionId: string, running: bool)

  /** `error instanceof Error ? error.message : fallback`. */
  function MessageOf(t: Thrown, fallback: string): string {
    match t
    case ErrorInstance(m) => m
    case OtherValue => fallback
  }

  /** `s || fallback` for an optional string. */
  function OrDefault(s: Option<string>, fallback: string): (r: string)
    ensures (s.Some? && s.value != "") ==> r == s.value
    ensures !(s.Some? && s.value != "") ==> r == fallback
  {
    if s.Some? && s.value != "" then s.value else fallback
  }

  predicate Active(s: UploadStatus) {
    s == Queued || s == Uploading || s == Processing
  }

  /** `hasActiveUploads`: some entry is queued, uploading or processing. */
  predicate HasActiveUploads(queue: map<string, UploadEntry>) {
    exists rid :: rid in queue && Active(queue[rid].status)
  }

  /** Entries as the queue ever holds them: a queued entry has no progress;
      an uploading one is at 0, 30 or 60; a processing one at 50 or 80; a
      completed one at 100; a failed one carries an error. */
  predicate EntryValid(e: UploadEntry) {
    match e.status
    case Queued => e.progress.None?
    case Uploading => e.progress == Some(0) || e.progress == Some(30) || e.progress == Some(60)
    case Processing => e.progress == Some(50) || e.progress == Some(80)
    case Completed => e.progress == Some(100)
    case Failed => e.error.Some?
  }

  const NoWalletMessage: string := "Please connect your wallet first"
  const UploadFailedMessage: string := "Failed to upload recording"
  const GradingFailedMessage: string := "Upload failed"
  const PollFailedMessage: string := "Failed to check status"

  function QueuedEntry(name: string): UploadEntry {
    UploadEntry(Queued, None, None, None, Some(name))
  }

  function UploadingEntry(name: string, progress: int): UploadEntry {
    UploadEntry(Uploading, Some(progress), None, None, Some(name))
  }

  function FailedEntry(message: string): UploadEntry {
    UploadEntry(Failed, None, Some(message), None, None)
  }

  /** The writes an upload with a wallet makes to its entry, in order: queued,
      uploading at 0, then (unless zipping throws) uploading at 30 and 60, then
      (unless the upload throws) processing at 80 with the submission id.  A
      throw ends the writes with a failed entry. */
  function UploadSteps(rid: string, name: string, zipThrew: Option<Thrown>, reply: UploadReply): (r: seq<QueueUpdate>)
    ensures |r| >= 3 && r[0] == Put(rid, QueuedEntry(name)) && r[1] == Put(rid, UploadingEntry(name, 0))
    ensures forall i :: 0 <= i < |r| ==> r[i].Put? && r[i].recordingId == rid && EntryValid(r[i].entry)
    ensures r[|r| - 1].entry.status == Processing <==> zipThrew.None? && reply.Uploaded?
    ensures r[|r| - 1].entry.status != Processing ==> r[|r| - 1].entry.status == Failed
    ensures zipThrew.Some? ==>
      |r| == 3 && r[2] == Put(rid, FailedEntry(MessageOf(zipThrew.value, UploadFailedMessage)))
    ensures zipThrew.None? ==>
      |r| == 5 && r[2] == Put(rid, UploadingEntry(name, 30)) && r[3] == Put(rid, UploadingEntry(name, 60))
    ensures zipThrew.None? && reply.UploadThrew? ==>
      r[4] == Put(rid, FailedEntry(MessageOf(reply.thrown, UploadFailedMessage)))
    ensures zipThrew.None? && reply.Uploaded? ==>
      r[4] == Put(rid, UploadEntry(Processing, Some(80), None, Some(reply.submissionId), Some(name)))
  {
    var start := [Put(rid, QueuedEntry(name)), Put(rid, UploadingEntry(name, 0))];
    match zipThrew
    case Some(t) => start + [Put(rid, FailedEntry(MessageOf(t, UploadFailedMessage)))]
    case None =>
      var zipped := start + [Put(rid, UploadingEntry(name, 30)), Put(rid, UploadingEntry(name, 60))];
      match reply
      case UploadThrew(t) => zipped + [Put(rid, FailedEntry(MessageOf(t, UploadFailedMessage)))]
      case Uploaded(sid) => zipped + [Put(rid, UploadEntry(Processing, Some(80), None, Some(sid), Some(name)))]
  }

  /** `{...queue[recordingId]}`: the old entry's fields, or none of them. */
  function Spread(base: Option<UploadEntry>): UploadEntry {
    if base.Some? then base.value else UploadEntry(Queued, None, None, None, None)
  }

  /** The entry a poll tick writes over `base` (the old entry, or nothing),
      or `None` when the report leaves the entry alone. */
  function PolledEntry(base: Option<UploadEntry>, reply: PollReply): (r: Option<UploadEntry>)
    ensures r.None? <==> reply.StatusReport? && reply.status != "completed" && reply.status != "failed"
                         && reply.status != "processing"
    ensures r.Some? ==> EntryValid(r.value)
    ensures r.Some? && base.Some? ==>
      r.value.submissionId == base.value.submissionId && r.value.name == base.value.name
    ensures r.Some? && base.None? ==> r.value.submissionId.None? && r.value.name.None?
    ensures reply.StatusReport? && reply.status == "completed" ==>
      r.Some? && r.value.status == Completed && r.value.progress == Some(100) && r.value.error == Spread(base).error
    ensures reply.StatusReport? && reply.status == "failed" ==>
      r.Some? && r.value.status == Failed && r.value.error == Some(OrDefault(reply.error, GradingFailedMessage))
      && r.value.progress == Spread(base).progress
    ensures reply.StatusReport? && reply.status == "processing" ==>
      r.Some? && r.value.status == Processing && r.value.progress == Some(50) && r.value.error == Spread(base).error
    ensures reply.PollThrew? ==>
      r.Some? && r.value.status == Failed && r.value.error == Some(MessageOf(reply.thrown, PollFailedMessage))
      && r.value.progress == Spread(base).progress
  {
    var b := Spread(base);
    match reply
    case StatusReport(status, error) =>
      if status == "completed" then Some(b.(status := Completed, progress := Some(100)))
      else if status == "failed" then Some(b.(status := Failed, error := Some(OrDefault(error, GradingFailedMessage))))
      else if status == "processing" then Some(b.(status := Processing, progress := Some(50)))
      else None
    case PollThrew(t) => Some(b.(status := Failed, error := Some(MessageOf(t, PollFailedMessage))))
  }

  /** A report ends the poller when it is final: completed, failed, or a throw. */
  predicate EndsPolling(reply: PollReply) {
    reply.PollThrew? || reply.status == "completed" || reply.status == "failed"
  }

  class UploadManager {
    var queue: map<string, UploadEntry>
    var intervals: map<string, Interval>
    var removals: multiset<string>
    var updates: seq<QueueUpdate>
    // the recordings whose poller fired and whose status query has not answered yet
    var inFlight: multiset<string>

    /** Every entry of the queue is one the queue can hold. */
    ghost predicate Valid()
      reads this
    {
      forall rid :: rid in queue ==> EntryValid(queue[rid])
    }

    constructor ()
      ensures Valid()
      ensures queue == map[] && intervals == map[] && removals == multiset{} && updates == [] && inFlight == multiset{}
    {
      queue := map[];
      intervals := map[];
      removals := multiset{};
      updates := [];
      inFlight := multiset{};
    }

    /** Writes one entry, as `uploadQueue.update` does. */
    method Put(rid: string, e: UploadEntry)
      modifies this
      ensures queue == old(queue)[rid := e] && updates == old(updates) + [QueueUpdate.Put(rid, e)]
      ensures intervals == old(intervals) && removals == old(removals) && inFlight == old(inFlight)
      ensures old(Valid()) && EntryValid(e) ==> Valid()
    {
      queue := queue[rid := e];
      updates := updates + [QueueUpdate.Put(rid, e)];
    }

    /** Deletes one entry, as the removing `update` calls do. */
    method Delete(rid: string)
      modifies this
      ensures queue == old(queue) - {rid} && updates == old(updates) + [QueueUpdate.Delete(rid)]
      ensures intervals == old(intervals) && removals == old(removals) && inFlight == old(inFlight)
    {
      queue := queue - {rid};
      updates := updates + [QueueUpdate.Delete(rid)];
    }

    /** Starts polling a submission, replacing any poller of the recording. */
    method PollSubmissionStatus(rid: string, sid: string)
      modifies this
      ensures intervals == old(intervals)[rid := Interval(sid, true)]
      ensures queue == old(queue) && removals == old(removals) && updates == old(updates) && inFlight == old(inFlight)
    {
      intervals := intervals[rid := Interval(sid, true)];
    }

    /** Uploads a recording.  Without a wallet the entry just fails; otherwise
        it moves through the upload steps and, once the upload returns a
        submission id, a poller follows that submission.  No other entry is
        touched. */
    method HandleUpload(rid: string, name: string, wallet: string, zipThrew: Option<Thrown>, reply: UploadReply)
      requires Valid()
      modifies this
      ensures Valid()
      ensures wallet == "" ==>
        && queue == old(queue)[rid := FailedEntry(NoWalletMessage)]
        && updates == old(updates) + [QueueUpdate.Put(rid, FailedEntry(NoWalletMessage))]
        && intervals == old(intervals)
      ensures wallet != "" ==>
        var steps := UploadSteps(rid, name, zipThrew, reply);
        && updates == old(updates) + steps
        && queue == old(queue)[rid := steps[|steps| - 1].entry]
        && intervals == if zipThrew.None? && reply.Uploaded? then old(intervals)[rid := Interval(reply.submissionId, true)]
                        else old(intervals)
      ensures removals == old(removals) && inFlight == old(inFlight)
    {
      if wallet == "" {
        Put(rid, FailedEntry(NoWalletMessage));
        return;
      }
      Upload(rid, name, zipThrew, reply);
    }

    /** The part of an upload after the wallet check: queued, uploading at
        0, then the zip; a throw while zipping ends with a failed entry. */
    method Upload(rid: string, name: string, zipThrew: Option<Thrown>, reply: UploadReply)
      requires Valid()
      modifies this
      ensures Valid()
      ensures var steps := UploadSteps(rid, name, zipThrew, reply);
        && updates == old(updates) + steps
        && queue == old(queue)[rid := steps[|steps| - 1].entry]
        && intervals == if zipThrew.None? && reply.Uploaded? then old(intervals)[rid := Interval(reply.submissionId, true)]
                        else old(intervals)
      ensures removals == old(removals) && inFlight == old(inFlight)
    {
      ghost var steps := UploadSteps(rid, name, zipThrew, reply);
      Begin(rid, name);
      if zipThrew.Some? {
        var failed := FailedEntry(MessageOf(zipThrew.value, UploadFailedMessage));
        Put(rid, failed);
        assert steps == steps[..2] + [QueueUpdate.Put(rid, failed)];
        assert queue == old(queue)[rid := failed];
        return;
      }
      assert steps == steps[..2] + steps[2..];
      Send(rid, name, reply);
    }

    /** The first two writes of an upload: queued, then uploading at 0. */
    method Begin(rid: string, name: string)
      requires Valid()
      modifies this
      ensures Valid()
      ensures updates == old(updates) + [QueueUpdate.Put(rid, QueuedEntry(name)), QueueUpdate.Put(rid, UploadingEntry(name, 0))]
      ensures queue == old(queue)[rid := UploadingEntry(name, 0)]
      ensures intervals == old(intervals) && removals == old(removals) && inFlight == old(inFlight)
    {
      Put(rid, QueuedEntry(name));
      Put(rid, UploadingEntry(name, 0));
      assert queue == old(queue)[rid := UploadingEntry(name, 0)];
    }

    /** The part of an upload after the zip was made: uploading at 30 and
        60, then the upload itself, which either throws (a failed entry) or
        yields a submission id (processing at 80, and a poller). */
    method Send(rid: string, name: string, reply: UploadReply)
      requires Valid()
      modifies this
      ensures Valid()
      ensures var steps := UploadSteps(rid, name, None, reply)[2..];
        && updates == old(updates) + steps
        && queue == old(queue)[rid := steps[|steps| - 1].entry]
        && intervals == if reply.Uploaded? then old(intervals)[rid := Interval(reply.submissionId, true)]
                        else old(intervals)
      ensures removals == old(removals) && inFlight == old(inFlight)
    {
      var zipped := [QueueUpdate.Put(rid, UploadingEntry(name, 30)), QueueUpdate.Put(rid, UploadingEntry(name, 60))];
      ghost var steps := UploadSteps(rid, name, None, reply)[2..];
      Put(rid, UploadingEntry(name, 30));
      Put(rid, UploadingEntry(name, 60));
      assert updates == old(updates) + zipped;
      assert queue == old(queue)[rid := UploadingEntry(name, 60)];
      match reply {
        case UploadThrew(t) =>
          var failed := FailedEntry(MessageOf(t, UploadFailedMessage));
          Put(rid, failed);
          assert steps == zipped + [QueueUpdate.Put(rid, failed)];
          assert queue == old(queue)[rid := failed];
        case Uploaded(sid) =>
          var processing := UploadEntry(Processing, Some(80), None, Some(sid), Some(name));
          Put(rid, processing);
          assert steps == zipped + [QueueUpdate.Put(rid, processing)];
          assert queue == old(queue)[rid := processing];
          PollSubmissionStatus(rid, sid);
      }
    }

    /** A recording's poller fires: when it is running, its status query
        is sent and awaits its reply.  Nothing else changes. */
    method PollFire(rid: string)
      modifies this
      ensures inFlight == old(inFlight) + (if rid in old(intervals) && old(intervals)[rid].running then multiset{rid} else multiset{})
      ensures queue == old(queue) && intervals == old(intervals) && removals == old(removals) && updates == old(updates)
    {
      if rid in intervals && intervals[rid].running {
        inFlight := inFlight + multiset{rid};
      }
    }

    /** The reply to a status query of the recording arrives.  It is acted
        on whatever happened meanwhile: a report that changes the entry
        rewrites whatever entry is there now (re-creating a removed one), a
        final report drops whatever poller the recording has now, and a
        completed one schedules the entry's removal.  No other entry is
        touched.  Without a query in flight nothing happens. */
    method PollAnswer(rid: string, reply: PollReply)
      requires Valid()
      modifies this
      ensures Valid()
      ensures rid !in old(inFlight) ==>
        queue == old(queue) && intervals == old(intervals) && removals == old(removals) && updates == old(updates)
        && inFlight == old(inFlight)
      ensures rid in old(inFlight) ==>
        var e := PolledEntry(if rid in old(queue) then Some(old(queue)[rid]) else None, reply);
        && queue == (if e.Some? then old(queue)[rid := e.value] else old(queue))
        && updates == old(updates) + (if e.Some? then [QueueUpdate.Put(rid, e.value)] else [])
        && intervals == (if EndsPolling(reply) then old(intervals) - {rid} else old(intervals))
        && removals == old(removals) + (if reply.StatusReport? && reply.status == "completed" then multiset{rid} else multiset{})
        && inFlight == old(inFlight) - multiset{rid}
    {
      if rid !in inFlight {
        return;
      }
      inFlight := inFlight - multiset{rid};
      var b := Spread(if rid in queue then Some(queue[rid]) else None);
      match reply {
        case StatusReport(status, error) =>
          if status == "completed" {
            Put(rid, b.(status := Completed, progress := Some(100)));
            intervals := intervals - {rid};
            removals := removals + multiset{rid};
          } else if status == "failed" {
            Put(rid, b.(status := Failed, error := Some(OrDefault(error, GradingFailedMessage))));
            intervals := intervals - {rid};
          } else if status == "processing" {
            Put(rid, b.(status := Processing, progress := Some(50)));
          }
        case PollThrew(t) =>
          Put(rid, b.(status := Failed, error := Some(MessageOf(t, PollFailedMessage))));
          intervals := intervals - {rid};
      }
    }

    /** One tick of a recording's poller whose reply arrives before anything
        else happens.  Nothing happens unless the recording has a running
        poller.  A report that changes the entry rewrites it over the old
        one; a final report stops the poller, and a completed one schedules
        the entry's removal.  No other entry is touched. */
    method PollTick(rid: string, reply: PollReply)
      requires Valid()
      modifies this
      ensures Valid()
      ensures inFlight == old(inFlight)
      ensures !(rid in old(intervals) && old(intervals)[rid].running) ==>
        queue == old(queue) && intervals == old(intervals) && removals == old(removals) && updates == old(updates)
      ensures rid in old(intervals) && old(intervals)[rid].running ==>
        var e := PolledEntry(if rid in old(queue) then Some(old(queue)[rid]) else None, reply);
        && queue == (if e.Some? then old(queue)[rid := e.value] else old(queue))
        && updates == old(updates) + (if e.Some? then [QueueUpdate.Put(rid, e.value)] else [])
        && intervals == (if EndsPolling(reply) then old(intervals) - {rid} else old(intervals))
        && removals == old(removals) + (if reply.StatusReport? && reply.status == "completed" then multiset{rid} else multiset{})
    {
      if !(rid in intervals && intervals[rid].running) {
        return;
      }
      PollFire(rid);
      PollAnswer(rid, reply);
    }

    /** A scheduled removal fires: the entry goes, whatever it holds now. */
    method FireRemoval(rid: string)
      requires Valid()
      modifies this
      ensures Valid()
      ensures rid in old(removals) ==>
        && queue == old(queue) - {rid} && removals == old(removals) - multiset{rid}
        && updates == old(updates) + [QueueUpdate.Delete(rid)]
      ensures rid !in old(removals) ==> queue == old(queue) && removals == old(removals) && updates == old(updates)
      ensures intervals == old(intervals) && inFlight == old(inFlight)
    {
      if rid in removals {
        removals := removals - multiset{rid};
        Delete(rid);
      }
    }

    /** Removes a recording's entry and its poller; other entries and
        pollers stay as they are. */
    method RemoveFromQueue(rid: string)
      requires Valid()
      modifies this
      ensures Valid()
      ensures queue == old(queue) - {rid} && updates == old(updates) + [QueueUpdate.Delete(rid)]
      ensures intervals == old(intervals) - {rid} && removals == old(removals) && inFlight == old(inFlight)
    {
      Delete(rid);
      if rid in intervals {
        intervals := intervals - {rid};
      }
    }

    /** Stops every poller; their handles stay in the table. */
    method CleanupIntervals()
      modifies this
      ensures intervals.Keys == old(intervals).Keys
      ensures forall rid :: rid in intervals ==> intervals[rid] == old(intervals)[rid].(running := false)
      ensures queue == old(queue) && removals == old(removals) && updates == old(updates) && inFlight == old(inFlight)
    {
      intervals := map rid | rid in intervals :: intervals[rid].(running := false);
    }
  }

  /** An upload leaves its entry active exactly when the upload returned a
      submission id; a failed upload is never counted as active. */
  lemma UploadEndsActiveIffSubmitted(rid: string, name: string, zipThrew: Option<Thrown>, reply: UploadReply)
    ensures var steps := UploadSteps(rid, name, zipThrew, reply);
      Active(steps[|steps| - 1].entry.status) <==> zipThrew.None? && reply.Uploaded?
  {
  }

  /** Writing an active entry makes uploads active; writing a settled entry
      into a queue with nothing active leaves nothing active. */
  lemma {:induction false} ActiveAfterPut(queue: map<string, UploadEntry>, rid: string, e: UploadEntry)
    ensures Active(e.status) ==> HasActiveUploads(queue[rid := e])
    ensures !Active(e.status) && !HasActiveUploads(queue) ==> !HasActiveUploads(queue[rid := e])
  {
    if Active(e.status) {
      assert rid in queue[rid := e] && Active(queue[rid := e][rid].status);
    }
  }

  /** Removing an entry can only end activity when that entry was the
      active one. */
  lemma {:induction false} ActiveAfterDelete(queue: map<string, UploadEntry>, rid: string)
    ensures HasActiveUploads(queue - {rid}) ==> HasActiveUploads(queue)
    ensures HasActiveUploads(queue) && !HasActiveUploads(queue - {rid}) ==> rid in queue && Active(queue[rid].status)
  {
    if HasActiveUploads(queue - {rid}) {
      var k :| k in queue - {rid} && Active((queue - {rid})[k].status);
      assert k in queue && Active(queue[k].status);
    }
    if HasActiveUploads(queue) && !(rid in queue && Active(queue[rid].status)) {
      var k :| k in queue && Active(queue[k].status);
      assert k in queue - {rid};
    }
  }

  /** A successful upload followed by a completed grade: the entry is
      completed at 100, the poller is gone and the removal is due; when the
      removal fires the entry is gone. */
  method UploadAndComplete(m: UploadManager, rid: string, name: string, wallet: string, sid: string)
    requires m.Valid() && wallet != "" && rid !in m.removals
    modifies m
    ensures rid !in m.queue && rid !in m.intervals && m.removals == old(m.removals)
    ensures forall k :: k != rid && k in old(m.queue) ==> k in m.queue && m.queue[k] == old(m.queue)[k]
  {
    m.HandleUpload(rid, name, wallet, None, Uploaded(sid));
    assert m.queue[rid] == UploadEntry(Processing, Some(80), None, Some(sid), Some(name));
    m.PollTick(rid, StatusReport("completed", None));
    assert m.queue[rid] == UploadEntry(Completed, Some(100), None, Some(sid), Some(name));
    assert rid in m.removals;
    m.FireRemoval(rid);
  }

  /** A status query answered after its recording was removed from the
      queue: a "processing" report re-creates an entry without a name, and
      with no poller left to end it the uploads stay active. */
  method ReplyAfterRemoval(m: UploadManager, rid: string)
    requires m.Valid() && rid in m.intervals && m.intervals[rid].running
    modifies m
    ensures rid in m.queue && m.queue[rid].status == Processing && m.queue[rid].name.None?
    ensures rid !in m.intervals && HasActiveUploads(m.queue)
  {
    m.PollFire(rid);
    m.RemoveFromQueue(rid);
    m.PollAnswer(rid, StatusReport("processing", None));
    ActiveAfterPut(old(m.queue) - {rid}, rid, m.queue[rid]);
  }

  /** A final report to a query of a replaced poller stops the poller that
      replaced it: the recording is left without one. */
  method ReplyAfterReplacement(m: UploadManager, rid: string, sid: string)
    requires m.Valid() && rid in m.intervals && m.intervals[rid].running
    modifies m
    ensures rid !in m.intervals && rid in m.removals
  {
    m.PollFire(rid);
    m.PollSubmissionStatus(rid, sid);
    m.PollAnswer(rid, StatusReport("completed", None));
  }
}
